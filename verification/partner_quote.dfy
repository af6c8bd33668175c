/** The quote of a partner invoice: sats to dollars, dollars to quetzales, quetzales less the fee,
    each rounded to cents. Decimal arithmetic is exact here; each result is rounded as toFixed(2)
    rounds a Decimal: half away from zero. */
module PartnerQuote {
  import opened Common

  function Cents(n: int): real { n as real * 0.01 }

  function NearestUp(x: real): int { (x * 100.0 + 0.5).Floor }

  /** toFixed(2). */
  function RoundCents(x: real): real {
    if x >= 0.0 then Cents(NearestUp(x)) else Cents(-NearestUp(-x))
  }

  datatype Flow = OsmoUserToWallet | OsmoUserToBank | NoOsmoUserToWallet

  /** A request, with what the handler finds out about it. */
  datatype Request = Request(
    flow: Flow, sats: real,
    userExists: bool, userHasAccount: bool,
    bankGiven: bool, bankExists: bool,
    referenceTaken: bool)

  datatype Config = Config(min: int, max: int, normalFee: real, withdrawFee: real)

  datatype Error =
    | UserExists | BankNotAllowed | BankMissing | ReferenceTaken | NoConfig
    | OutOfRange | NoAccount | BankNotFound

  datatype Result = Accepted(gtq: real, target: real, fee: real) | Rejected(error: Error)

  function Dollars(price: real, sats: real): real { price * sats * 0.00000001 }

  function AtRate(usd: real, rate: real): real { usd * rate }

  /** Dollars rounded to cents, then exchanged, then rounded again. */
  function Exchanged(dollars: real, rate: real): real { RoundCents(AtRate(RoundCents(dollars), rate)) }

  function Gtq(price: real, sats: real, rate: real): real { Exchanged(Dollars(price, sats), rate) }

  function Net(gtq: real, fee: real): real { gtq - gtq * fee }

  function Target(gtq: real, fee: real): real { RoundCents(Net(gtq, fee)) }

  /** generateInvoice up to the creation of the lightning invoice. */
  function GenerateInvoice(r: Request, price: real, rate: real, config: Option<Config>): Result {
    if r.userExists && r.flow.NoOsmoUserToWallet? then Rejected(UserExists)
    else if r.bankGiven && !r.flow.OsmoUserToBank? then Rejected(BankNotAllowed)
    else if !r.bankGiven && r.flow.OsmoUserToBank? then Rejected(BankMissing)
    else if r.referenceTaken then Rejected(ReferenceTaken)
    else if config.None? then Rejected(NoConfig)
    else
      var gtq := Gtq(price, r.sats, rate);
      var fee := if r.bankGiven then config.value.withdrawFee else config.value.normalFee;
      if gtq < config.value.min as real || gtq > config.value.max as real then Rejected(OutOfRange)
      else if r.userExists && !r.userHasAccount then Rejected(NoAccount)
      else if r.bankGiven && !r.bankExists then Rejected(BankNotFound)
      else Accepted(gtq, Target(gtq, fee), fee)
  }

  // ---- Rounding -----------------------------------------------------------------------

  /** `r` is the whole number of cents nearest to `x`, the one farther from zero on a tie. */
  ghost predicate Nearest(x: real, r: real) {
    (exists n: int :: r == Cents(n)) &&
    -0.005 <= x - r <= 0.005 &&
    (x >= 0.0 ==> x - r < 0.005) && (x < 0.0 ==> x - r > -0.005)
  }

  lemma NearestUpBounds(x: real)
    ensures Cents(NearestUp(x)) - 0.005 <= x < Cents(NearestUp(x)) + 0.005
  {
  }

  /** Rounding yields the nearest cent, and nothing else does. */
  lemma RoundCentsIff(x: real, r: real)
    ensures Nearest(x, r) <==> r == RoundCents(x)
  {
    NearestUpBounds(x);
    NearestUpBounds(-x);
    if Nearest(x, r) {
      var n: int :| r == Cents(n);
      if x >= 0.0 { assert n == NearestUp(x); } else { assert n == -NearestUp(-x); }
    }
    assert exists n: int :: RoundCents(x) == Cents(n) by {
      assert RoundCents(x) == Cents(if x >= 0.0 then NearestUp(x) else -NearestUp(-x));
    }
  }

  lemma RoundError(x: real)
    ensures -0.005 <= RoundCents(x) - x <= 0.005
  {
    NearestUpBounds(x);
    NearestUpBounds(-x);
  }

  lemma RoundMonotone(x: real, y: real)
    requires x <= y
    ensures RoundCents(x) <= RoundCents(y)
  {
    NearestUpBounds(x);
    NearestUpBounds(-x);
    NearestUpBounds(y);
    NearestUpBounds(-y);
    if x < 0.0 <= y {
      assert NearestUp(-x) >= 0 && NearestUp(y) >= 0;
    } else if x >= 0.0 {
      FloorMonotone(x * 100.0 + 0.5, y * 100.0 + 0.5);
    } else {
      FloorMonotone(-y * 100.0 + 0.5, -x * 100.0 + 0.5);
    }
  }

  lemma FloorMonotone(x: real, y: real)
    requires x <= y
    ensures x.Floor <= y.Floor
  {
  }

  lemma RoundExact(n: int)
    ensures RoundCents(Cents(n)) == Cents(n)
  {
    assert Cents(n) - Cents(n) == 0.0;
    RoundCentsIff(Cents(n), Cents(n));
  }

  /** Rounding a rounded amount again changes nothing. */
  lemma RoundTwice(x: real)
    ensures RoundCents(RoundCents(x)) == RoundCents(x)
  {
    RoundExact(if x >= 0.0 then NearestUp(x) else -NearestUp(-x));
  }

  // ---- The quote ----------------------------------------------------------------------

  lemma ProductNotNegative(x: real, y: real)
    requires x >= 0.0 && y >= 0.0
    ensures x * y >= 0.0
  {
  }

  lemma ScaleMonotone(x: real, y: real, k: real)
    requires x <= y && k >= 0.0
    ensures x * k <= y * k
  {
    ProductNotNegative(y - x, k);
    assert (y - x) * k == y * k - x * k;
  }

  /** Rounding before and after an exchange: the first error is scaled by the rate, the second not. */
  lemma ErrorsCompose(dollars: real, usd: real, rate: real, gtq: real)
    requires rate >= 0.0
    requires -0.005 <= usd - dollars <= 0.005 && -0.005 <= gtq - usd * rate <= 0.005
    ensures -(0.005 * rate + 0.005) <= gtq - dollars * rate <= 0.005 * rate + 0.005
  {
    ProductNotNegative(usd - dollars + 0.005, rate);
    ProductNotNegative(dollars - usd + 0.005, rate);
    assert (usd - dollars + 0.005) * rate == usd * rate - dollars * rate + 0.005 * rate;
    assert (dollars - usd + 0.005) * rate == dollars * rate - usd * rate + 0.005 * rate;
  }

  lemma ExchangedError(dollars: real, rate: real)
    requires rate >= 0.0
    ensures -(0.005 * rate + 0.005) <= Exchanged(dollars, rate) - dollars * rate <= 0.005 * rate + 0.005
  {
    hide RoundCents;
    RoundError(dollars);
    RoundError(AtRate(RoundCents(dollars), rate));
    ErrorsCompose(dollars, RoundCents(dollars), rate, Exchanged(dollars, rate));
  }

  /** The quoted quetzales lie within half a cent times the rate, plus half a cent, of the exact amount. */
  lemma GtqError(price: real, sats: real, rate: real)
    requires rate >= 0.0
    ensures var exact := price * sats / 100000000.0 * rate;
            -(0.005 * rate + 0.005) <= Gtq(price, sats, rate) - exact <= 0.005 * rate + 0.005
  {
    hide Exchanged;
    ExchangedError(Dollars(price, sats), rate);
  }

  /** `usd` is the sats' worth of dollars, to the nearest cent, and `gtq` what that comes to in quetzales. */
  ghost predicate QuotedThrough(price: real, sats: real, rate: real, usd: real, gtq: real) {
    Nearest(price * sats / 100000000.0, usd) && Nearest(usd * rate, gtq)
  }

  /** The quote rounds twice, and nothing else comes of that. */
  lemma GtqIff(price: real, sats: real, rate: real, gtq: real)
    ensures gtq == Gtq(price, sats, rate) <==> exists usd :: QuotedThrough(price, sats, rate, usd, gtq)
  {
    hide QuotedThrough;
    QuotedIff(price, sats, rate, RoundCents(Dollars(price, sats)), gtq);
    forall usd ensures QuotedThrough(price, sats, rate, usd, gtq) ==> gtq == Gtq(price, sats, rate) {
      QuotedIff(price, sats, rate, usd, gtq);
    }
  }

  lemma QuotedIff(price: real, sats: real, rate: real, usd: real, gtq: real)
    ensures QuotedThrough(price, sats, rate, usd, gtq) <==>
            usd == RoundCents(Dollars(price, sats)) && gtq == RoundCents(AtRate(usd, rate))
  {
    hide Nearest, RoundCents;
    var dollars, exchanged := price * sats / 100000000.0, usd * rate;
    assert Dollars(price, sats) == dollars && AtRate(usd, rate) == exchanged;
    RoundCentsIff(dollars, usd);
    RoundCentsIff(exchanged, gtq);
  }

  /** `target` is the quoted amount less the fee, to the nearest cent. */
  ghost predicate PaysOut(gtq: real, fee: real, target: real) {
    Nearest(gtq * (1.0 - fee), target)
  }

  lemma TargetIff(gtq: real, fee: real, target: real)
    ensures target == Target(gtq, fee) <==> PaysOut(gtq, fee, target)
  {
    hide Nearest, RoundCents;
    assert gtq - gtq * fee == gtq * (1.0 - fee);
    RoundCentsIff(Net(gtq, fee), target);
  }

  /** At 50000 dollars a bitcoin and 8 quetzales a dollar, 100000 sats are 400 quetzales. */
  lemma FourHundred()
    ensures Gtq(50000.0, 100000.0, 8.0) == 400.0
  {
    hide Nearest;
    assert Cents(5000) == 50.0 && Cents(40000) == 400.0;
    RoundExact(5000);
    RoundExact(40000);
    assert Dollars(50000.0, 100000.0) == 50.0;
  }

  lemma TargetError(gtq: real, fee: real)
    ensures -0.005 <= Target(gtq, fee) - gtq * (1.0 - fee) <= 0.005
  {
    assert gtq - gtq * fee == gtq * (1.0 - fee);
    RoundError(Net(gtq, fee));
  }

  lemma TargetWithin(gtq: real, fee: real)
    requires 0.0 <= fee <= 1.0 && gtq >= 0.0 && RoundCents(gtq) == gtq
    ensures 0.0 <= Target(gtq, fee) <= gtq
  {
    ProductNotNegative(gtq, fee);
    ProductNotNegative(gtq, 1.0 - fee);
    assert gtq * (1.0 - fee) == gtq - gtq * fee;
    var net := Net(gtq, fee);
    assert 0.0 <= net <= gtq;
    RoundMonotone(0.0, net);
    RoundMonotone(net, gtq);
    RoundExact(0);
    assert Cents(0) == 0.0;
  }

  /** With a fee between 0 and 1 the payout is between nothing and the quoted amount exactly when
      the quoted amount is not negative: rounding never pays out more than was quoted. */
  lemma TargetWithinIff(price: real, sats: real, rate: real, fee: real)
    requires 0.0 <= fee <= 1.0
    ensures var gtq := Gtq(price, sats, rate);
            0.0 <= Target(gtq, fee) <= gtq <==> gtq >= 0.0
  {
    GtqInCents(Dollars(price, sats), rate);
    if Gtq(price, sats, rate) >= 0.0 { TargetWithin(Gtq(price, sats, rate), fee); }
  }

  lemma GtqInCents(dollars: real, rate: real)
    ensures RoundCents(Exchanged(dollars, rate)) == Exchanged(dollars, rate)
  {
    RoundTwice(AtRate(RoundCents(dollars), rate));
  }

  lemma DollarsMonotone(price: real, less: real, more: real)
    requires less <= more && price >= 0.0
    ensures Dollars(price, less) <= Dollars(price, more)
  {
    ScaleMonotone(less, more, price);
  }

  lemma ExchangedMonotone(less: real, more: real, rate: real)
    requires less <= more && rate >= 0.0
    ensures Exchanged(less, rate) <= Exchanged(more, rate)
  {
    RoundMonotone(less, more);
    ScaleMonotone(RoundCents(less), RoundCents(more), rate);
    RoundMonotone(AtRate(RoundCents(less), rate), AtRate(RoundCents(more), rate));
  }

  /** More sats never pay out less, through all three roundings. */
  lemma TargetMonotone(price: real, less: real, more: real, rate: real, fee: real)
    requires less <= more && price >= 0.0 && rate >= 0.0 && fee <= 1.0
    ensures Target(Gtq(price, less, rate), fee) <= Target(Gtq(price, more, rate), fee)
  {
    DollarsMonotone(price, less, more);
    ExchangedMonotone(Dollars(price, less), Dollars(price, more), rate);
    TargetIncreasing(Gtq(price, less, rate), Gtq(price, more, rate), fee);
  }

  lemma TargetIncreasing(a: real, b: real, fee: real)
    requires a <= b && fee <= 1.0
    ensures Target(a, fee) <= Target(b, fee)
  {
    ScaleMonotone(a, b, 1.0 - fee);
    assert a - a * fee == a * (1.0 - fee) && b - b * fee == b * (1.0 - fee);
    RoundMonotone(Net(a, fee), Net(b, fee));
  }

  /** Everything an accepted quote guarantees, for fees between 0 and 1. */
  lemma AcceptedQuote(r: Request, price: real, rate: real, config: Config)
    requires rate >= 0.0 && 0.0 <= config.normalFee <= 1.0 && 0.0 <= config.withdrawFee <= 1.0
    requires GenerateInvoice(r, price, rate, Some(config)).Accepted?
    ensures var q := GenerateInvoice(r, price, rate, Some(config));
            var exact := price * r.sats / 100000000.0 * rate;
            config.min as real <= q.gtq <= config.max as real &&
            (q.fee == if r.flow.OsmoUserToBank? then config.withdrawFee else config.normalFee) &&
            -(0.005 * rate + 0.005) <= q.gtq - exact <= 0.005 * rate + 0.005 &&
            -0.005 <= q.target - q.gtq * (1.0 - q.fee) <= 0.005 &&
            (0.0 <= q.target <= q.gtq <==> q.gtq >= 0.0)
  {
    hide RoundCents, Gtq, Target;
    var q := GenerateInvoice(r, price, rate, Some(config));
    GtqError(price, r.sats, rate);
    TargetError(q.gtq, q.fee);
    TargetWithinIff(price, r.sats, rate, q.fee);
  }

  /** The first of the handler's checks that fails, in its order. */
  lemma RejectedIff(r: Request, price: real, rate: real, config: Option<Config>)
    ensures var q := GenerateInvoice(r, price, rate, config);
            var gtq := Gtq(price, r.sats, rate);
            var strange := r.userExists && r.flow == NoOsmoUserToWallet;
            var bank := r.flow == OsmoUserToBank;
            (q == Rejected(UserExists) <==> strange) &&
            (q == Rejected(BankNotAllowed) <==> !strange && r.bankGiven && !bank) &&
            (q == Rejected(BankMissing) <==> !strange && !r.bankGiven && bank) &&
            var fits := !strange && r.bankGiven == bank;
            (q == Rejected(ReferenceTaken) <==> fits && r.referenceTaken) &&
            (q == Rejected(NoConfig) <==> fits && !r.referenceTaken && config == None) &&
            (config.Some? ==>
               var inRange := config.value.min as real <= gtq <= config.value.max as real;
               var quoted := fits && !r.referenceTaken && inRange;
               (q == Rejected(OutOfRange) <==> fits && !r.referenceTaken && !inRange) &&
               (q == Rejected(NoAccount) <==> quoted && r.userExists && !r.userHasAccount) &&
               (q == Rejected(BankNotFound) <==>
                  quoted && (r.userExists ==> r.userHasAccount) && r.bankGiven && !r.bankExists))
  {
    hide Gtq, Target;
  }

  /** A quote is given if and only if all the checks succeed. */
  lemma AcceptedIff(r: Request, price: real, rate: real, config: Config)
    ensures GenerateInvoice(r, price, rate, Some(config)).Accepted? <==>
            !(r.userExists && r.flow == NoOsmoUserToWallet) && (r.bankGiven <==> r.flow == OsmoUserToBank) &&
            !r.referenceTaken && config.min as real <= Gtq(price, r.sats, rate) <= config.max as real &&
            (r.userExists ==> r.userHasAccount) && (r.bankGiven ==> r.bankExists)
    ensures var q := GenerateInvoice(r, price, rate, Some(config));
            q.Accepted? ==> q.gtq == Gtq(price, r.sats, rate) && PaysOut(q.gtq, q.fee, q.target)
  {
    hide Gtq, Target, PaysOut;
    var q := GenerateInvoice(r, price, rate, Some(config));
    if q.Accepted? { TargetIff(q.gtq, q.fee, q.target); }
  }

  /** Which requests are refused for being out of range, by the exact amount: one farther than the
      rounding error inside the limits is never refused for that, one farther outside always is. */
  lemma RangeByExactAmount(price: real, sats: real, rate: real, limit: int)
    requires rate >= 0.0
    ensures var exact := price * sats / 100000000.0 * rate;
            (exact > limit as real + 0.005 * rate + 0.005 ==> Gtq(price, sats, rate) > limit as real) &&
            (exact < limit as real - 0.005 * rate - 0.005 ==> Gtq(price, sats, rate) < limit as real)
  {
    GtqError(price, sats, rate);
  }
}
