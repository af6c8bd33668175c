/** Counter-mode encryption of byte strings (section 6.5 of NIST SP 800-38A) written out in
    hexadecimal (section 8 of RFC 4648). The block cipher under the fixed key is an arbitrary
    function, so nothing here depends on AES. Text is its UTF-8 bytes. */
module Encrypter {
  import opened Common

  type Bytes = seq<bv8>
  type Block = b: Bytes | |b| == 16 witness seq(16, _ => 0)

  const COUNTERS: nat := 0x1_0000_0000_0000_0000_0000_0000_0000_0000

  /** The forward cipher under one key, as a function of the counter block, and the first counter. */
  datatype Key = Key(cipher: nat -> Block, iv: nat)

  function KeyBlock(k: Key, j: nat): Block {
    (k.cipher)((k.iv + j) % COUNTERS)
  }

  function KeyByte(k: Key, i: nat): bv8 {
    KeyBlock(k, i / 16)[i % 16]
  }

  /** The keystream as the standard gives it: each block is the cipher of the next counter, and counters
      are numbers of 128 bits. */
  function StreamByte(k: Key, i: nat): bv8 {
    (k.cipher)((k.iv + i / 16) % 340282366920938463463374607431768211456)[i % 16]
  }

  lemma KeyByteIsStreamByte(k: Key, i: nat)
    ensures KeyByte(k, i) == StreamByte(k, i)
  {
  }

  /** Byte `u` of block `j` is byte 16 j + u of the keystream. */
  lemma KeyByteInBlock(k: Key, j: nat, u: nat)
    requires u < 16
    ensures KeyByte(k, 16 * j + u) == KeyBlock(k, j)[u]
  {
    assert (16 * j + u) / 16 == j && (16 * j + u) % 16 == u;
  }

  /** The bytes `data`, standing at position `at` of the stream, combined with the keystream. */
  function Ctr(k: Key, at: nat, data: Bytes): (r: Bytes)
    ensures |r| == |data|
  {
    seq(|data|, i requires 0 <= i < |data| => data[i] ^ KeyByte(k, at + i))
  }

  /** A cipher object: it hands out the keystream block by block across calls of Update. */
  class CounterCipher {
    const key: Key
    var next: nat        // the number of the block to generate next
    var block: Block     // the block in use
    var used: nat        // how many of its bytes have been used

    ghost predicate Valid()
      reads this
    {
      used <= 16 && (used < 16 ==> next > 0 && block == KeyBlock(key, next - 1))
    }

    /** How many bytes have gone through. */
    ghost function Position(): nat
      reads this
      requires Valid()
    {
      if used == 16 then 16 * next else 16 * (next - 1) + used
    }

    constructor (key: Key)
      ensures Valid() && Position() == 0 && this.key == key
    {
      this.key := key;
      next, used, block := 0, 16, seq(16, _ => 0);
    }

    method Update(data: Bytes) returns (out: Bytes)
      requires Valid()
      modifies this
      ensures Valid() && Position() == old(Position()) + |data|
      ensures out == Ctr(key, old(Position()), data)
      ensures forall j :: 0 <= j < |data| ==> out[j] == data[j] ^ StreamByte(key, old(Position()) + j)
    {
      hide StreamByte, KeyByte;
      out := [];
      var i := 0;
      while i < |data|
        invariant 0 <= i <= |data| && |out| == i
        invariant Valid() && Position() == old(Position()) + i
        invariant forall j :: 0 <= j < i ==> out[j] == data[j] ^ KeyByte(key, old(Position()) + j)
      {
        if used == 16 {
          block := KeyBlock(key, next);
          next, used := next + 1, 0;
        }
        KeyByteInBlock(key, next - 1, used);
        out := out + [data[i] ^ block[used]];
        used := used + 1;
        i := i + 1;
      }
      forall j | 0 <= j < |data| ensures out[j] == data[j] ^ StreamByte(key, old(Position()) + j) {
        KeyByteIsStreamByte(key, old(Position()) + j);
      }
    }

    method Final() returns (out: Bytes)
      ensures out == []
    {
      out := [];
    }
  }

  // ---- Counter mode is its own inverse ------------------------------------------------

  lemma CtrTwice(k: Key, at: nat, data: Bytes)
    ensures Ctr(k, at, Ctr(k, at, data)) == data
  {
    forall i | 0 <= i < |data| ensures Ctr(k, at, Ctr(k, at, data))[i] == data[i] {
      XorTwice(data[i], KeyByte(k, at + i));
    }
  }

  lemma XorTwice(a: bv8, b: bv8)
    ensures (a ^ b) ^ b == a
  {
  }

  /** Encrypting in pieces gives what encrypting at once gives. */
  lemma CtrPieces(k: Key, at: nat, a: Bytes, b: Bytes)
    ensures Ctr(k, at, a + b) == Ctr(k, at, a) + Ctr(k, at + |a|, b)
  {
    forall i | 0 <= i < |a| + |b|
      ensures Ctr(k, at, a + b)[i] == (Ctr(k, at, a) + Ctr(k, at + |a|, b))[i]
    {
      if i >= |a| { assert at + i == at + |a| + (i - |a|); }
    }
  }

  lemma KeyByteFresh(k: Key, j: nat, i: nat)
    ensures KeyByte(Key(k.cipher, k.iv + j), i) == KeyByte(k, 16 * j + i)
  {
    assert (16 * j + i) / 16 == j + i / 16 && (16 * j + i) % 16 == i % 16;
  }

  /** What follows whole blocks is encrypted as from a fresh start under a later first counter. */
  lemma CtrFresh(k: Key, j: nat, a: Bytes, b: Bytes)
    requires |a| == 16 * j
    ensures Ctr(k, 0, a + b) == Ctr(k, 0, a) + Ctr(Key(k.cipher, k.iv + j), 0, b)
  {
    CtrPieces(k, 0, a, b);
    hide KeyByte;
    var later := Key(k.cipher, k.iv + j);
    forall i | 0 <= i < |b| ensures Ctr(k, |a|, b)[i] == Ctr(later, 0, b)[i] {
      KeyByteFresh(k, j, i);
    }
  }

  // ---- Hexadecimal --------------------------------------------------------------------

  function HexDigit(n: bv8): char
    requires n < 16
  {
    if n == 0 then '0' else if n == 1 then '1' else if n == 2 then '2' else if n == 3 then '3'
    else if n == 4 then '4' else if n == 5 then '5' else if n == 6 then '6' else if n == 7 then '7'
    else if n == 8 then '8' else if n == 9 then '9' else if n == 10 then 'a' else if n == 11 then 'b'
    else if n == 12 then 'c' else if n == 13 then 'd' else if n == 14 then 'e' else 'f'
  }

  function HexValue(c: char): (r: Option<bv8>)
    ensures r.Some? ==> r.value < 16
  {
    if c == '0' then Some(0) else if c == '1' then Some(1) else if c == '2' then Some(2)
    else if c == '3' then Some(3) else if c == '4' then Some(4) else if c == '5' then Some(5)
    else if c == '6' then Some(6) else if c == '7' then Some(7) else if c == '8' then Some(8)
    else if c == '9' then Some(9)
    else if c == 'a' || c == 'A' then Some(10) else if c == 'b' || c == 'B' then Some(11)
    else if c == 'c' || c == 'C' then Some(12) else if c == 'd' || c == 'D' then Some(13)
    else if c == 'e' || c == 'E' then Some(14) else if c == 'f' || c == 'F' then Some(15)
    else None
  }

  const LOWER := "0123456789abcdef"
  const UPPER := "0123456789ABCDEF"

  /** The digits are those of section 8 of RFC 4648, in either case when decoding. */
  lemma HexTables(n: nat, c: char)
    requires n < 16
    ensures HexDigit(n as bv8) == LOWER[n]
    ensures HexValue(c) == Some(n as bv8) <==> c == LOWER[n] || c == UPPER[n]
  {
  }

  function High(b: bv8): bv8 { b >> 4 }
  function Low(b: bv8): bv8 { b & 15 }
  function Join(high: bv8, low: bv8): bv8 { (high << 4) | low }

  lemma Nibbles(b: bv8)
    ensures High(b) < 16 && Low(b) < 16 && Join(High(b), Low(b)) == b
  {
  }

  lemma Joined(high: bv8, low: bv8)
    requires high < 16 && low < 16
    ensures High(Join(high, low)) == high && Low(Join(high, low)) == low
  {
  }

  function ToHex(bytes: Bytes): string {
    if bytes == [] then ""
    else
      Nibbles(bytes[0]);
      [HexDigit(High(bytes[0])), HexDigit(Low(bytes[0]))] + ToHex(bytes[1..])
  }

  /** Decoding stops at the first pair that is not two hexadecimal digits, and drops a last
      unpaired digit. */
  function FromHex(s: string): Bytes {
    if |s| < 2 || HexValue(s[0]).None? || HexValue(s[1]).None? then []
    else [Join(HexValue(s[0]).value, HexValue(s[1]).value)] + FromHex(s[2..])
  }

  predicate IsHex(s: string) {
    |s| % 2 == 0 && forall i :: 0 <= i < |s| ==> HexValue(s[i]).Some?
  }

  function LowerDigit(c: char): char {
    if HexValue(c).Some? then HexDigit(HexValue(c).value) else c
  }

  lemma DigitValue(n: bv8)
    requires n < 16
    ensures HexValue(HexDigit(n)) == Some(n)
  {
  }

  /** One encoded byte decodes to itself, whatever follows. */
  lemma FromHexPair(b: bv8, rest: string)
    ensures High(b) < 16 && Low(b) < 16
    ensures FromHex([HexDigit(High(b)), HexDigit(Low(b))] + rest) == [b] + FromHex(rest)
  {
    Nibbles(b);
    DigitValue(High(b));
    DigitValue(Low(b));
    var s := [HexDigit(High(b)), HexDigit(Low(b))] + rest;
    assert s[2..] == rest;
  }

  lemma {:induction false} FromToHex(bytes: Bytes)
    ensures FromHex(ToHex(bytes)) == bytes
  {
    if bytes != [] {
      Nibbles(bytes[0]);
      FromToHex(bytes[1..]);
      FromHexPair(bytes[0], ToHex(bytes[1..]));
      assert bytes == [bytes[0]] + bytes[1..];
    }
  }

  lemma NibbleValues(b: bv8)
    ensures High(b) < 16 && Low(b) < 16
    ensures High(b) as int == b as int / 16 && Low(b) as int == b as int % 16
  {
  }

  /** Each byte becomes two digits, the sixteens first. */
  lemma {:induction false} ToHexDigits(bytes: Bytes, i: nat)
    requires i < |bytes|
    ensures |ToHex(bytes)| == 2 * |bytes|
    ensures ToHex(bytes)[2 * i] == LOWER[bytes[i] as int / 16]
    ensures ToHex(bytes)[2 * i + 1] == LOWER[bytes[i] as int % 16]
    decreases |bytes|
  {
    hide High, Low, HexDigit;
    NibbleValues(bytes[0]);
    HexTables(bytes[0] as int / 16, '0');
    HexTables(bytes[0] as int % 16, '0');
    if i > 0 {
      ToHexDigits(bytes[1..], i - 1);
    } else if |bytes| > 1 {
      ToHexDigits(bytes[1..], 0);
    }
  }

  lemma {:induction false} ToHexConcat(a: Bytes, b: Bytes)
    ensures ToHex(a + b) == ToHex(a) + ToHex(b)
  {
    hide High, Low, HexDigit;
    if a == [] {
      assert a + b == b;
    } else {
      ToHexConcat(a[1..], b);
      assert (a + b)[1..] == a[1..] + b;
    }
  }

  /** Decoding stops at the first pair that is not two digits; a last unpaired digit is dropped. */
  lemma {:induction false} FromHexStops(good: string, rest: string)
    requires IsHex(good) && (|rest| < 2 || HexValue(rest[0]).None? || HexValue(rest[1]).None?)
    ensures FromHex(good + rest) == FromHex(good) && |FromHex(good)| == |good| / 2
  {
    hide HexValue;
    if good == "" {
      assert good + rest == rest;
    } else {
      assert (good + rest)[2..] == good[2..] + rest;
      assert forall i :: 0 <= i < |good[2..]| ==> good[2..][i] == good[i + 2];
      FromHexStops(good[2..], rest);
    }
  }

  /** On well-formed input the other composition only changes letters to lower case. */
  lemma {:induction false} ToFromHex(s: string)
    requires IsHex(s)
    ensures |ToHex(FromHex(s))| == |s|
    ensures forall i :: 0 <= i < |s| ==> ToHex(FromHex(s))[i] == LowerDigit(s[i])
  {
    if |s| >= 2 {
      assert forall i :: 0 <= i < |s[2..]| ==> s[2..][i] == s[i + 2];
      ToFromHex(s[2..]);
      var high, low := HexValue(s[0]).value, HexValue(s[1]).value;
      Joined(high, low);
      assert FromHex(s)[1..] == FromHex(s[2..]);
      forall i | 0 <= i < |s| ensures ToHex(FromHex(s))[i] == LowerDigit(s[i]) {
        if i >= 2 { assert s[2..][i - 2] == s[i]; }
      }
    }
  }

  // ---- encrypt / decrypt --------------------------------------------------------------

  function Encrypted(k: Key, text: Bytes): string { ToHex(Ctr(k, 0, text)) }

  function Decrypted(k: Key, hex: string): Bytes { Ctr(k, 0, FromHex(hex)) }

  /** decrypt undoes encrypt, on every byte string and for every keystream. */
  lemma DecryptEncrypt(k: Key, text: Bytes)
    ensures Decrypted(k, Encrypted(k, text)) == text
  {
    FromToHex(Ctr(k, 0, text));
    CtrTwice(k, 0, text);
  }

  /** A ciphertext, byte by byte and digit by digit. */
  lemma EncryptedDigits(k: Key, text: Bytes, i: nat)
    requires i < |text|
    ensures |Encrypted(k, text)| == 2 * |text| && |FromHex(Encrypted(k, text))| == |text|
    ensures var c := text[i] ^ StreamByte(k, i);
            FromHex(Encrypted(k, text))[i] == c &&
            Encrypted(k, text)[2 * i] == LOWER[c as int / 16] && Encrypted(k, text)[2 * i + 1] == LOWER[c as int % 16]
  {
    hide ToHex, FromHex, StreamByte, KeyByte;
    KeyByteIsStreamByte(k, i);
    FromToHex(Ctr(k, 0, text));
    ToHexDigits(Ctr(k, 0, text), i);
  }

  /** After whole blocks the ciphertext goes on as a fresh one under a later first counter. */
  lemma EncryptedFresh(k: Key, j: nat, a: Bytes, b: Bytes)
    requires |a| == 16 * j
    ensures Encrypted(k, a + b) == Encrypted(k, a) + Encrypted(Key(k.cipher, k.iv + j), b)
  {
    CtrFresh(k, j, a, b);
    ToHexConcat(Ctr(k, 0, a), Ctr(Key(k.cipher, k.iv + j), 0, b));
  }

  /** Encryption under one key is injective: equal ciphertexts are ciphertexts of equal texts. */
  lemma EncryptInjective(k: Key, a: Bytes, b: Bytes)
    ensures Encrypted(k, a) == Encrypted(k, b) <==> a == b
  {
    DecryptEncrypt(k, a);
    DecryptEncrypt(k, b);
  }

  /** encrypt undoes decrypt up to the case of letters, on every well-formed ciphertext. */
  lemma EncryptDecrypt(k: Key, hex: string)
    requires IsHex(hex)
    ensures |Encrypted(k, Decrypted(k, hex))| == |hex|
    ensures forall i :: 0 <= i < |hex| ==> Encrypted(k, Decrypted(k, hex))[i] == LowerDigit(hex[i])
  {
    CtrTwice(k, 0, FromHex(hex));
    ToFromHex(hex);
  }

  /** EncrypterHelper: one key for stored secrets, one for payloads. */
  class EncrypterHelper {
    const secret: Key
    const payload: Key

    constructor (secret: Key, payload: Key)
      ensures this.secret == secret && this.payload == payload
    {
      this.secret, this.payload := secret, payload;
    }

    method Encrypt(text: Bytes) returns (hex: string)
      ensures hex == Encrypted(secret, text)
      ensures Decrypted(secret, hex) == text && |FromHex(hex)| == |text|
      ensures forall i :: 0 <= i < |text| ==> FromHex(hex)[i] == text[i] ^ StreamByte(secret, i)
    {
      hex := Seal(secret, text);
      DecryptEncrypt(secret, text);
      FromToHex(Ctr(secret, 0, text));
      forall i | 0 <= i < |text| ensures FromHex(hex)[i] == text[i] ^ StreamByte(secret, i) {
        EncryptedDigits(secret, text, i);
      }
    }

    method Decrypt(hex: string) returns (text: Bytes)
      ensures text == Decrypted(secret, hex)
    {
      text := Open(secret, hex);
    }

    method EncryptPayload(text: Bytes) returns (hex: string)
      ensures hex == Encrypted(payload, text)
      ensures Decrypted(payload, hex) == text && |FromHex(hex)| == |text|
      ensures forall i :: 0 <= i < |text| ==> FromHex(hex)[i] == text[i] ^ StreamByte(payload, i)
    {
      hex := Seal(payload, text);
      DecryptEncrypt(payload, text);
      FromToHex(Ctr(payload, 0, text));
      forall i | 0 <= i < |text| ensures FromHex(hex)[i] == text[i] ^ StreamByte(payload, i) {
        EncryptedDigits(payload, text, i);
      }
    }

    method DecryptPayload(hex: string) returns (text: Bytes)
      ensures text == Decrypted(payload, hex)
    {
      text := Open(payload, hex);
    }

    method Seal(k: Key, text: Bytes) returns (hex: string)
      ensures hex == Encrypted(k, text)
    {
      var cipher := new CounterCipher(k);
      var head := cipher.Update(text);
      var tail := cipher.Final();
      hex := ToHex(head + tail);
      assert head + tail == head;
    }

    method Open(k: Key, hex: string) returns (text: Bytes)
      ensures text == Decrypted(k, hex)
    {
      var decipher := new CounterCipher(k);
      var head := decipher.Update(FromHex(hex));
      var tail := decipher.Final();
      text := head + tail;
    }
  }
}
