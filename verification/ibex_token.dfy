/** The Ibex access token: an encrypted row in the database and a cached copy, which may be evicted
    at any time. An empty string in the cache counts as missing. */
module IbexToken {
  import opened Common
  import opened Encrypter

  datatype State = State(rows: seq<string>, cache: Option<Bytes>)

  datatype Answer = Token(token: Bytes) | NotFound

  function Empty(): State { State([], None) }

  predicate Cached(s: State) {
    s.cache.Some? && s.cache.value != []
  }

  /** login: the first row, or a new one, takes the ciphertext; then the cache takes the token. */
  function Login(k: Key, s: State, token: Bytes): State {
    State(if s.rows == [] then [Encrypted(k, token)] else s.rows[0 := Encrypted(k, token)], Some(token))
  }

  /** What the cache holds after getToken has read the row. */
  function Reload(k: Key, s: State): State
    requires s.rows != []
  {
    s.(cache := Some(Decrypted(k, s.rows[0])))
  }

  /** What getToken answers when it may be entered at most `entries` times, if that is enough. */
  function GetTokenWithin(k: Key, s: State, entries: nat): Option<(Answer, State)>
    decreases entries
  {
    if entries == 0 then None
    else if Cached(s) then Some((Token(s.cache.value), s))
    else if s.rows == [] then Some((NotFound, s))
    else GetTokenWithin(k, Reload(k, s), entries - 1)
  }

  datatype Event = LoggedIn(token: Bytes) | Asked | Evicted

  function After(k: Key, s: State, e: Event): State {
    match e
    case LoggedIn(token) => Login(k, s, token)
    case Asked => if Cached(s) || s.rows == [] then s else Reload(k, s)
    case Evicted => s.(cache := None)
  }

  function Run(k: Key, es: seq<Event>): State {
    if es == [] then Empty() else After(k, Run(k, es[..|es| - 1]), es[|es| - 1])
  }

  /** The token of the most recent login. */
  function LastLogin(es: seq<Event>): Option<Bytes> {
    if es == [] then None
    else match es[|es| - 1]
         case LoggedIn(token) => Some(token)
         case _ => LastLogin(es[..|es| - 1])
  }

  /** The row holds the most recent login's token, and so does the cache unless it was evicted. */
  predicate Agrees(k: Key, s: State, last: Option<Bytes>) {
    match last
    case None => s.rows == [] && s.cache.None?
    case Some(t) => s.rows == [Encrypted(k, t)] && (s.cache == None || s.cache == Some(t))
  }

  lemma {:induction false} RunAgrees(k: Key, es: seq<Event>)
    ensures Agrees(k, Run(k, es), LastLogin(es))
  {
    if es != [] {
      RunAgrees(k, es[..|es| - 1]);
      if LastLogin(es).Some? { DecryptEncrypt(k, LastLogin(es).value); }
    }
  }

  /** In every run: getToken, entered twice at most, answers with the most recent login's token
      whether or not that was cached, and leaves it cached; before any login it reports an error. */
  lemma GetTokenAnswers(k: Key, es: seq<Event>, entries: nat)
    requires entries >= 2 && LastLogin(es) != Some([])
    ensures var r := GetTokenWithin(k, Run(k, es), entries);
            match LastLogin(es)
            case None => r == Some((NotFound, Run(k, es)))
            case Some(t) => r == Some((Token(t), Run(k, es).(cache := Some(t))))
  {
    RunAgrees(k, es);
    if LastLogin(es).Some? {
      DecryptEncrypt(k, LastLogin(es).value);
      assert GetTokenWithin(k, Reload(k, Run(k, es)), entries - 1).Some?;
    }
  }

  lemma {:induction false} EmptyTokenLoops(k: Key, s: State, entries: nat)
    requires s.rows == [Encrypted(k, [])] && (s.cache == None || s.cache == Some([]))
    ensures GetTokenWithin(k, s, entries).None?
    decreases entries
  {
    if entries > 0 {
      DecryptEncrypt(k, []);
      EmptyTokenLoops(k, Reload(k, s), entries - 1);
    }
  }

  /** getToken returns if and only if the most recent login's token is not the empty string. */
  lemma GetTokenReturnsIff(k: Key, es: seq<Event>)
    ensures (exists entries :: GetTokenWithin(k, Run(k, es), entries).Some?) <==> LastLogin(es) != Some([])
  {
    RunAgrees(k, es);
    if LastLogin(es) == Some([]) {
      forall entries ensures GetTokenWithin(k, Run(k, es), entries).None? {
        EmptyTokenLoops(k, Run(k, es), entries);
      }
    } else {
      GetTokenAnswers(k, es, 2);
    }
  }

  /** After a login that returned an empty token, getToken does not return. */
  lemma EmptyLogin(k: Key, entries: nat)
    ensures GetTokenWithin(k, Run(k, [LoggedIn([])]), entries).None?
  {
    RunAgrees(k, [LoggedIn([])]);
    EmptyTokenLoops(k, Run(k, [LoggedIn([])]), entries);
  }

  class IbexService {
    const key: Key
    var rows: seq<string>
    var cache: Option<Bytes>
    ghost var events: seq<Event>

    ghost function Contents(): State
      reads this
    {
      State(rows, cache)
    }

    ghost predicate Valid()
      reads this
    {
      Contents() == Run(key, events)
    }

    constructor (key: Key)
      ensures Valid() && events == [] && this.key == key
    {
      this.key := key;
      rows, cache, events := [], None, [];
    }

    ghost method Record(e: Event)
      modifies `events
      ensures events == old(events) + [e]
      ensures Run(key, events) == After(key, Run(key, old(events)), e)
      ensures LastLogin(events) == if e.LoggedIn? then Some(e.token) else LastLogin(old(events))
    {
      events := events + [e];
      assert events[..|events| - 1] == old(events);
    }

    method SetToken(token: Bytes)
      modifies `cache
      ensures cache == Some(token)
    {
      cache := Some(token);
    }

    method Login(token: Bytes)
      requires Valid()
      modifies this
      ensures Valid() && events == old(events) + [LoggedIn(token)]
    {
      Record(LoggedIn(token));
      if rows == [] {
        rows := [Encrypted(key, token)];
      } else {
        rows := rows[0 := Encrypted(key, token)];
      }
      SetToken(token);
    }

    method Evict()
      requires Valid()
      modifies this
      ensures Valid() && events == old(events) + [Evicted]
    {
      Record(Evicted);
      cache := None;
    }

    /** getToken, entered at most `entries` times: None when that was not enough. Two entries are
        enough, and leave the token cached, unless the most recent login's token is empty. */
    method GetToken(entries: nat) returns (r: Option<Answer>)
      requires Valid()
      modifies this
      ensures Valid() && LastLogin(events) == old(LastLogin(events)) && rows == old(rows)
      ensures r.Some? <==> GetTokenWithin(key, old(Contents()), entries).Some?
      ensures r.Some? ==> GetTokenWithin(key, old(Contents()), entries) == Some((r.value, Contents()))
      ensures entries >= 2 && old(LastLogin(events)) != Some([]) ==>
                r == Some(if old(LastLogin(events)).None? then NotFound else Token(old(LastLogin(events)).value))
      decreases entries
    {
      if entries >= 2 && LastLogin(events) != Some([]) { GetTokenAnswers(key, events, entries); }
      if entries == 0 { return None; }
      if cache.Some? && cache.value != [] { return Some(Token(cache.value)); }
      if rows == [] { return Some(NotFound); }
      var decrypted := Decrypted(key, rows[0]);
      Record(Asked);
      SetToken(decrypted);
      r := GetToken(entries - 1);
    }
  }
}
