/** The sliding-window limit on transactions: an attempt passes when at most three were recorded in the
    last five minutes. Its own row is recorded some time after the check. */
module RateLimit {
  import opened Common

  const WINDOW := 300000
  const ALLOWED := 3

  type UserId = nat
  datatype Kind = Send | Swap | Reception | OtherKind(name: string)
  datatype Row = Row(kind: Kind, from: Option<UserId>, to: Option<UserId>, createdAt: int)

  predicate Counts(r: Row, user: UserId, kind: Kind, now: int) {
    r.createdAt > now - WINDOW && r.kind == kind && (r.from == Some(user) || r.to == Some(user))
  }

  /** The query's count: rows of the kind, sent or received by the user, newer than five minutes. */
  function Count(rows: seq<Row>, user: UserId, kind: Kind, now: int): nat {
    if rows == [] then 0
    else Count(rows[..|rows| - 1], user, kind, now) + if Counts(rows[|rows| - 1], user, kind, now) then 1 else 0
  }

  predicate Admits(rows: seq<Row>, user: UserId, kind: Kind, now: int) {
    Count(rows, user, kind, now) <= ALLOWED
  }

  /** An attempt that passed its check and has no row yet. */
  datatype Waiting = Waiting(user: UserId, kind: Kind, to: Option<UserId>, checkedAt: int)

  datatype State = State(rows: seq<Row>, waiting: map<nat, Waiting>)

  /** An attempt is checked at `now`; if it passes, its row is recorded by a later event, which names it
      by its position, or it is dropped because something else failed. Or an unchecked path adds a row. */
  datatype Event =
    | Attempt(user: UserId, kind: Kind, to: Option<UserId>, now: int)
    | Recorded(attempt: nat, at: int)
    | Dropped(attempt: nat)
    | Unchecked(row: Row)

  function After(s: State, e: Event, n: nat): State {
    match e
    case Attempt(user, kind, to, now) =>
      if Admits(s.rows, user, kind, now) then s.(waiting := s.waiting[n := Waiting(user, kind, to, now)]) else s
    case Recorded(i, at) =>
      if i !in s.waiting then s
      else State(s.rows + [Row(s.waiting[i].kind, Some(s.waiting[i].user), s.waiting[i].to, at)], s.waiting - {i})
    case Dropped(i) => s.(waiting := s.waiting - {i})
    case Unchecked(row) => s.(rows := s.rows + [row])
  }

  function Run(es: seq<Event>): State {
    if es == [] then State([], map[]) else After(Run(es[..|es| - 1]), es[|es| - 1], |es| - 1)
  }

  predicate IsSend(r: Row, user: UserId, kind: Kind) {
    r.kind == kind && r.from == Some(user)
  }

  /** How many transactions of the kind the user initiated within (t - WINDOW, t]. */
  function Initiated(rows: seq<Row>, user: UserId, kind: Kind, t: int): nat {
    if rows == [] then 0
    else
      var r := rows[|rows| - 1];
      Initiated(rows[..|rows| - 1], user, kind, t) +
      if IsSend(r, user, kind) && t - WINDOW < r.createdAt <= t then 1 else 0
  }

  /** The user's attempts of the kind that have passed their check and are not recorded. */
  function WaitingOf(s: State, user: UserId, kind: Kind): set<nat> {
    set i | i in s.waiting && s.waiting[i].user == user && s.waiting[i].kind == kind
  }

  /** Those of them that were checked by `t`. */
  function WaitingBy(s: State, user: UserId, kind: Kind, t: int): set<nat> {
    set i | i in s.waiting && s.waiting[i].user == user && s.waiting[i].kind == kind && s.waiting[i].checkedAt <= t
  }

  /** A row is recorded no earlier than its check, and the user's transactions of the kind all go
      through the check. */
  predicate OrderlyStep(s: State, e: Event, user: UserId, kind: Kind) {
    match e
    case Recorded(i, at) => i in WaitingOf(s, user, kind) ==> s.waiting[i].checkedAt <= at
    case Unchecked(row) => !IsSend(row, user, kind)
    case _ => true
  }

  predicate Orderly(es: seq<Event>, user: UserId, kind: Kind) {
    es == [] || (Orderly(es[..|es| - 1], user, kind) && OrderlyStep(Run(es[..|es| - 1]), es[|es| - 1], user, kind))
  }

  /** At no point do more than `d` of the user's attempts of the kind wait to be recorded. */
  predicate AtMostWaiting(es: seq<Event>, user: UserId, kind: Kind, d: nat) {
    |WaitingOf(Run(es), user, kind)| <= d && (es == [] || AtMostWaiting(es[..|es| - 1], user, kind, d))
  }

  /** The rows of the kind that the user sent or received in the last five minutes. */
  ghost function CountedRows(rows: seq<Row>, user: UserId, kind: Kind, now: int): set<int> {
    set i | 0 <= i < |rows| && rows[i].createdAt > now - 300000 && rows[i].kind == kind &&
            (rows[i].from == Some(user) || rows[i].to == Some(user))
  }

  lemma CountedRowsLast(rows: seq<Row>, user: UserId, kind: Kind, now: int)
    requires rows != []
    ensures var last := |rows| - 1;
            var before := CountedRows(rows[..last], user, kind, now);
            last !in before &&
            CountedRows(rows, user, kind, now) == before + if Counts(rows[last], user, kind, now) then {last} else {}
  {
  }

  /** The count is the number of those rows, so an attempt is refused exactly when there are four of
      them, incoming ones included. */
  lemma {:induction false} CountIsNumberOfRows(rows: seq<Row>, user: UserId, kind: Kind, now: int)
    ensures Count(rows, user, kind, now) == |CountedRows(rows, user, kind, now)|
    ensures Admits(rows, user, kind, now) <==> |CountedRows(rows, user, kind, now)| < 4
  {
    if rows != [] {
      hide Counts, CountedRows;
      CountIsNumberOfRows(rows[..|rows| - 1], user, kind, now);
      CountedRowsLast(rows, user, kind, now);
    }
  }

  /** Four times row `r` decides an attempt by its own kind, parties and age. */
  lemma FourRows(r: Row, user: UserId, kind: Kind, now: int)
    ensures Admits([r, r, r, r], user, kind, now) <==>
            r.createdAt <= now - 300000 || r.kind != kind || (r.from != Some(user) && r.to != Some(user))
  {
    hide Counts;
    CountedIffCounts(r, user, kind, now);
    assert [r, r, r, r][..3] == [r, r, r] && [r, r, r][..2] == [r, r] && [r, r][..1] == [r] && [r][..0] == [];
    assert Count([r], user, kind, now) == if Counts(r, user, kind, now) then 1 else 0;
    assert Count([r, r], user, kind, now) == if Counts(r, user, kind, now) then 2 else 0;
    assert Count([r, r, r], user, kind, now) == if Counts(r, user, kind, now) then 3 else 0;
  }

  lemma CountedIffCounts(r: Row, user: UserId, kind: Kind, now: int)
    ensures Counts(r, user, kind, now) <==>
            r.createdAt > now - 300000 && r.kind == kind && (r.from == Some(user) || r.to == Some(user))
  {
  }

  /** Four incoming transactions refuse a send; four of another kind do not, and neither do four that are
      exactly five minutes old. */
  lemma IncomingRefuse()
    ensures var incoming := Row(Send, Some(9), Some(7), 0);
            var swap := Row(Swap, Some(7), None, 0);
            !Admits([incoming, incoming, incoming, incoming], 7, Send, 1) &&
            Admits([swap, swap, swap, swap], 7, Send, 1) &&
            Admits([incoming, incoming, incoming, incoming], 7, Send, 300000)
  {
    hide Admits;
    FourRows(Row(Send, Some(9), Some(7), 0), 7, Send, 1);
    FourRows(Row(Swap, Some(7), None, 0), 7, Send, 1);
    FourRows(Row(Send, Some(9), Some(7), 0), 7, Send, 300000);
  }

  /** What the check counts at `now` covers what any later window holds already. */
  lemma {:induction false} InitiatedCovered(rows: seq<Row>, user: UserId, kind: Kind, now: int, t: int)
    requires now <= t
    ensures Initiated(rows, user, kind, t) <= Count(rows, user, kind, now)
  {
    if rows != [] { InitiatedCovered(rows[..|rows| - 1], user, kind, now, t); }
  }

  lemma InitiatedAppend(rows: seq<Row>, r: Row, user: UserId, kind: Kind, t: int)
    ensures Initiated(rows + [r], user, kind, t)
         == Initiated(rows, user, kind, t) + if IsSend(r, user, kind) && t - WINDOW < r.createdAt <= t then 1 else 0
  {
    assert (rows + [r])[..|rows|] == rows;
  }

  lemma AttemptBound(s: State, e: Event, n: nat, user: UserId, kind: Kind, d: nat, t: int)
    requires e.Attempt? && |WaitingOf(After(s, e, n), user, kind)| <= d
    requires Initiated(s.rows, user, kind, t) + |WaitingBy(s, user, kind, t)| <= ALLOWED + d
    ensures Initiated(After(s, e, n).rows, user, kind, t) + |WaitingBy(After(s, e, n), user, kind, t)| <= ALLOWED + d
  {
    var post := After(s, e, n);
    SubsetSize(WaitingBy(post, user, kind, t), WaitingOf(post, user, kind));
    if e.user == user && e.kind == kind && e.now <= t {
      InitiatedCovered(s.rows, user, kind, e.now, t);
    } else {
      SubsetSize(WaitingBy(post, user, kind, t), WaitingBy(s, user, kind, t));
    }
  }

  lemma RecordedBound(s: State, e: Event, n: nat, user: UserId, kind: Kind, t: int)
    requires e.Recorded? && OrderlyStep(s, e, user, kind)
    ensures Initiated(After(s, e, n).rows, user, kind, t) + |WaitingBy(After(s, e, n), user, kind, t)|
         <= Initiated(s.rows, user, kind, t) + |WaitingBy(s, user, kind, t)|
  {
    hide Initiated;
    var post := After(s, e, n);
    if e.attempt in s.waiting {
      InitiatedAppend(s.rows, post.rows[|s.rows|], user, kind, t);
      assert WaitingBy(post, user, kind, t) == WaitingBy(s, user, kind, t) - {e.attempt};
    }
  }

  /** In every orderly run in which at most `d` of a user's attempts of a kind wait to be recorded at a
      time, no five-minute window holds more than three and `d` transactions of that kind initiated by
      the user, those checked by the end of the window and still waiting included - whatever rows of
      other users, incoming ones included, are counted. */
  lemma {:induction false} AtMostThreeAndWaiting(es: seq<Event>, user: UserId, kind: Kind, d: nat, t: int)
    requires Orderly(es, user, kind) && AtMostWaiting(es, user, kind, d)
    ensures Initiated(Run(es).rows, user, kind, t) + |WaitingBy(Run(es), user, kind, t)| <= 3 + d
  {
    hide Initiated, WaitingBy, WaitingOf, OrderlyStep;
    if es == [] {
      NothingYet(user, kind, t);
    } else {
      var before, e, n := es[..|es| - 1], es[|es| - 1], |es| - 1;
      AtMostThreeAndWaiting(before, user, kind, d, t);
      match e
      case Attempt(_, _, _, _) => AttemptBound(Run(before), e, n, user, kind, d, t);
      case Recorded(_, _) => RecordedBound(Run(before), e, n, user, kind, t);
      case Dropped(_) => DroppedBound(Run(before), e, n, user, kind, t);
      case Unchecked(row) => UncheckedBound(Run(before), e, n, user, kind, t);
    }
  }

  lemma DroppedBound(s: State, e: Event, n: nat, user: UserId, kind: Kind, t: int)
    requires e.Dropped?
    ensures After(s, e, n).rows == s.rows
    ensures |WaitingBy(After(s, e, n), user, kind, t)| <= |WaitingBy(s, user, kind, t)|
  {
    SubsetSize(WaitingBy(After(s, e, n), user, kind, t), WaitingBy(s, user, kind, t));
  }

  lemma NothingYet(user: UserId, kind: Kind, t: int)
    ensures Initiated([], user, kind, t) == 0 && WaitingBy(State([], map[]), user, kind, t) == {}
  {
  }

  lemma UncheckedBound(s: State, e: Event, n: nat, user: UserId, kind: Kind, t: int)
    requires e.Unchecked? && OrderlyStep(s, e, user, kind)
    ensures Initiated(After(s, e, n).rows, user, kind, t) == Initiated(s.rows, user, kind, t)
    ensures WaitingBy(After(s, e, n), user, kind, t) == WaitingBy(s, user, kind, t)
  {
    InitiatedAppend(s.rows, e.row, user, kind, t);
  }

  /** So when a user's attempts of a kind are recorded one by one, no window holds more than four. */
  lemma AtMostFour(es: seq<Event>, user: UserId, kind: Kind, t: int)
    requires Orderly(es, user, kind) && AtMostWaiting(es, user, kind, 1)
    ensures Initiated(Run(es).rows, user, kind, t) <= 4
  {
    AtMostThreeAndWaiting(es, user, kind, 1, t);
  }

  // ---- The bound is reached -----------------------------------------------------------

  lemma RunOne(es: seq<Event>, e: Event, user: UserId, kind: Kind, d: nat)
    ensures Run(es + [e]) == After(Run(es), e, |es|)
    ensures Orderly(es + [e], user, kind) <==> Orderly(es, user, kind) && OrderlyStep(Run(es), e, user, kind)
    ensures AtMostWaiting(es + [e], user, kind, d) <==>
            AtMostWaiting(es, user, kind, d) && |WaitingOf(After(Run(es), e, |es|), user, kind)| <= d
  {
    assert (es + [e])[..|es|] == es;
  }

  lemma {:induction false} CountCopies(r: Row, user: UserId, kind: Kind, now: int, n: nat)
    requires IsSend(r, user, kind) && r.createdAt == now
    ensures Count(seq(n, _ => r), user, kind, now) == n && Initiated(seq(n, _ => r), user, kind, now) == n
  {
    if n > 0 {
      CountCopies(r, user, kind, now, n - 1);
      assert seq(n, _ => r)[..n - 1] == seq(n - 1, _ => r);
    }
  }

  function Interval(a: nat, b: nat): (r: set<nat>)
    ensures forall i: nat :: i in r <==> a <= i < b
    ensures a <= b ==> |r| == b - a
  {
    if a >= b then {} else Interval(a, b - 1) + {b - 1}
  }

  /** The state with `n` rows of one user, kind and moment, and attempts `a` up to `b` waiting. */
  function Copies(user: UserId, kind: Kind, to: Option<UserId>, now: int, n: nat, a: nat, b: nat): State {
    State(seq(n, _ => Row(kind, Some(user), to, now)), map i | i in Interval(a, b) :: Waiting(user, kind, to, now))
  }

  lemma CopiesWaiting(user: UserId, kind: Kind, to: Option<UserId>, now: int, n: nat, a: nat, b: nat)
    requires a <= b
    ensures |WaitingOf(Copies(user, kind, to, now, n, a, b), user, kind)| == b - a
  {
    assert WaitingOf(Copies(user, kind, to, now, n, a, b), user, kind) == Interval(a, b);
  }

  /** The events: three attempts recorded one by one, then `k` attempts, then `j` recordings. */
  function Burst(user: UserId, kind: Kind, to: Option<UserId>, now: int, k: nat, j: nat): seq<Event> {
    if j > 0 then Burst(user, kind, to, now, k, j - 1) + [Recorded(5 + j, now)]
    else if k > 0 then Burst(user, kind, to, now, k - 1, 0) + [Attempt(user, kind, to, now)]
    else OneByOne(user, kind, to, now, ALLOWED)
  }

  function OneByOne(user: UserId, kind: Kind, to: Option<UserId>, now: int, k: nat): seq<Event> {
    if k == 0 then []
    else OneByOne(user, kind, to, now, k - 1) + [Attempt(user, kind, to, now)] + [Recorded(2 * k - 2, now)]
  }

  lemma AttemptCopies(user: UserId, kind: Kind, to: Option<UserId>, now: int, n: nat, a: nat, b: nat)
    requires a <= b
    ensures After(Copies(user, kind, to, now, n, a, b), Attempt(user, kind, to, now), b)
         == Copies(user, kind, to, now, n, a, if n <= ALLOWED then b + 1 else b)
  {
    CountCopies(Row(kind, Some(user), to, now), user, kind, now, n);
  }

  lemma RecordCopies(user: UserId, kind: Kind, to: Option<UserId>, now: int, n: nat, a: nat, b: nat, position: nat)
    requires a < b
    ensures After(Copies(user, kind, to, now, n, a, b), Recorded(a, now), position)
         == Copies(user, kind, to, now, n + 1, a + 1, b)
    ensures OrderlyStep(Copies(user, kind, to, now, n, a, b), Recorded(a, now), user, kind)
  {
    var r := Row(kind, Some(user), to, now);
    assert seq(n + 1, _ => r) == seq(n, _ => r) + [r];
  }

  /** `es` is orderly, keeps to `d` waiting attempts, and leaves `n` rows and attempts `a` up to `b`. */
  predicate Leaves(es: seq<Event>, user: UserId, kind: Kind, to: Option<UserId>, now: int, d: nat,
                   n: nat, a: nat, b: nat) {
    a <= b && Run(es) == Copies(user, kind, to, now, n, a, b) &&
    Orderly(es, user, kind) && AtMostWaiting(es, user, kind, d)
  }

  lemma AttemptMore(es: seq<Event>, user: UserId, kind: Kind, to: Option<UserId>, now: int, d: nat, n: nat, a: nat)
    requires Leaves(es, user, kind, to, now, d, n, a, |es|) && n <= ALLOWED && |es| < a + d
    ensures Leaves(es + [Attempt(user, kind, to, now)], user, kind, to, now, d, n, a, |es| + 1)
  {
    hide After, WaitingOf, Copies, Run, Orderly, AtMostWaiting;
    var e := Attempt(user, kind, to, now);
    RunOne(es, e, user, kind, d);
    AttemptCopies(user, kind, to, now, n, a, |es|);
    CopiesWaiting(user, kind, to, now, n, a, |es| + 1);
  }

  lemma RecordMore(es: seq<Event>, user: UserId, kind: Kind, to: Option<UserId>, now: int, d: nat,
                   n: nat, a: nat, b: nat)
    requires Leaves(es, user, kind, to, now, d, n, a, b) && a < b <= a + d
    ensures Leaves(es + [Recorded(a, now)], user, kind, to, now, d, n + 1, a + 1, b)
  {
    hide After, WaitingOf, Copies, Run, Orderly, AtMostWaiting, OrderlyStep;
    RunOne(es, Recorded(a, now), user, kind, d);
    RecordCopies(user, kind, to, now, n, a, b, |es|);
    CopiesWaiting(user, kind, to, now, n + 1, a + 1, b);
  }

  lemma {:induction false} OneByOneRun(user: UserId, kind: Kind, to: Option<UserId>, now: int, k: nat, d: nat)
    requires k <= ALLOWED + 1 && d >= 1
    ensures |OneByOne(user, kind, to, now, k)| == 2 * k
    ensures Leaves(OneByOne(user, kind, to, now, k), user, kind, to, now, d, k, 2 * k, 2 * k)
  {
    hide Leaves;
    if k == 0 {
      EmptyRun(user, kind, to, now, d);
    } else {
      var before, a := OneByOne(user, kind, to, now, k - 1), 2 * k - 2;
      OneByOneRun(user, kind, to, now, k - 1, d);
      AttemptMore(before, user, kind, to, now, d, k - 1, a);
      RecordMore(before + [Attempt(user, kind, to, now)], user, kind, to, now, d, k - 1, a, a + 1);
      NoneWaiting(OneByOne(user, kind, to, now, k), user, kind, to, now, d, k, a + 1, a + 2);
    }
  }

  lemma EmptyRun(user: UserId, kind: Kind, to: Option<UserId>, now: int, d: nat)
    ensures Leaves([], user, kind, to, now, d, 0, 0, 0)
  {
    assert WaitingOf(Run([]), user, kind) == {};
    assert Interval(0, 0) == {};
  }

  lemma NoneWaiting(es: seq<Event>, user: UserId, kind: Kind, to: Option<UserId>, now: int, d: nat,
                    n: nat, a: nat, b: nat)
    requires Leaves(es, user, kind, to, now, d, n, a, a)
    ensures Leaves(es, user, kind, to, now, d, n, b, b)
  {
    assert Interval(a, a) == Interval(b, b) == {};
  }

  lemma {:induction false} BurstRun(user: UserId, kind: Kind, to: Option<UserId>, now: int, k: nat, j: nat, d: nat)
    requires j <= k <= d && d >= 1
    ensures |Burst(user, kind, to, now, k, j)| == 6 + k + j
    ensures Leaves(Burst(user, kind, to, now, k, j), user, kind, to, now, d, ALLOWED + j, 6 + j, 6 + k)
  {
    hide Leaves;
    if j > 0 {
      BurstRun(user, kind, to, now, k, j - 1, d);
      RecordMore(Burst(user, kind, to, now, k, j - 1), user, kind, to, now, d, ALLOWED + j - 1, 5 + j, 6 + k);
    } else if k > 0 {
      BurstRun(user, kind, to, now, k - 1, 0, d);
      AttemptMore(Burst(user, kind, to, now, k - 1, 0), user, kind, to, now, d, ALLOWED, 6);
    } else {
      OneByOneRun(user, kind, to, now, ALLOWED, d);
    }
  }

  /** The bound is reached for every `d`: a user whose `d` attempts are checked before any of them is
      recorded initiates three and `d` transactions at one moment. */
  lemma BoundReached(user: UserId, kind: Kind, to: Option<UserId>, now: int, d: nat)
    requires d >= 1
    ensures var es := Burst(user, kind, to, now, d, d);
            Orderly(es, user, kind) && AtMostWaiting(es, user, kind, d) &&
            Initiated(Run(es).rows, user, kind, now) == 3 + d
  {
    BurstRun(user, kind, to, now, d, d, d);
    CountCopies(Row(kind, Some(user), to, now), user, kind, now, ALLOWED + d);
  }

  /** One by one, four attempts at one moment by a user with no history pass and a fifth is refused. */
  lemma FourPass(user: UserId, kind: Kind, to: Option<UserId>, now: int)
    ensures var es := OneByOne(user, kind, to, now, 4);
            Initiated(Run(es).rows, user, kind, now) == 4 && Run(es + [Attempt(user, kind, to, now)]) == Run(es)
  {
    OneByOneRun(user, kind, to, now, 4, 1);
    CountCopies(Row(kind, Some(user), to, now), user, kind, now, 4);
    RunOne(OneByOne(user, kind, to, now, 4), Attempt(user, kind, to, now), user, kind, 1);
    AttemptCopies(user, kind, to, now, 4, 8, 8);
  }
}
