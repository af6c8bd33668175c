/** Runs in which invitations are accepted only the way the code accepts them: through `referral`,
    when a user registers. Money sent by SMS is accepted in none of them. */
module LedgerArrivals {
  import opened Common
  import opened LedgerModel
  import opened LedgerTables
  import opened LedgerRouting

  datatype Arrival =
    | Registered(user: UserId, first: Option<Id>, second: Option<Id>, pick: nat, payoutReady: bool)
    | Single(event: Event)

  function Arrive(s: State, a: Arrival): State {
    match a
    case Registered(user, first, second, pick, ready) => Route(s, user, first, second, pick, ready).state
    case Single(e) => Step(s, e)
  }

  /** The lookups' answers are ones the database may give; no acceptance comes by itself. */
  predicate Allowed(s: State, a: Arrival) {
    match a
    case Registered(user, first, second, pick, ready) =>
      user in s.users && s.users[user].Some? ==> Answers(s, user, first, second, pick, ready)
    case Single(e) => !e.AcceptedByUser? && !e.AcceptedByOsmo?
  }

  function RunArrivals(s: State, arrivals: seq<Arrival>): State
    decreases arrivals
  {
    if arrivals == [] then s else RunArrivals(Arrive(s, arrivals[0]), arrivals[1..])
  }

  ghost predicate AllAllowed(s: State, arrivals: seq<Arrival>)
    decreases arrivals
  {
    arrivals == [] || (Allowed(s, arrivals[0]) && AllAllowed(Arrive(s, arrivals[0]), arrivals[1..]))
  }

  function EventsOf(s: State, a: Arrival): seq<Event> {
    match a
    case Registered(user, first, second, pick, ready) => RouteEvents(s, user, first, second, pick, ready)
    case Single(e) => [e]
  }

  function AllEvents(s: State, arrivals: seq<Arrival>): seq<Event>
    decreases arrivals
  {
    if arrivals == [] then [] else EventsOf(s, arrivals[0]) + AllEvents(Arrive(s, arrivals[0]), arrivals[1..])
  }

  lemma ArriveIsRun(s: State, a: Arrival)
    ensures Arrive(s, a) == Run(s, EventsOf(s, a))
  {
    hide Route, RouteEvents;
    match a
    case Registered(user, first, second, pick, ready) => RouteIsRun(s, user, first, second, pick, ready);
    case Single(e) =>
      RunCons(s, e, []);
      assert [e] + [] == [e];
  }

  /** These runs are runs of events, so what holds of every run holds of them. */
  lemma {:induction false} ArrivalsAreRuns(s: State, arrivals: seq<Arrival>)
    ensures RunArrivals(s, arrivals) == Run(s, AllEvents(s, arrivals))
    decreases arrivals
  {
    hide Run, Arrive, EventsOf;
    if arrivals == [] {
      EmptyRun(s);
    } else {
      ArriveIsRun(s, arrivals[0]);
      ArrivalsAreRuns(Arrive(s, arrivals[0]), arrivals[1..]);
      RunConcat(s, EventsOf(s, arrivals[0]), AllEvents(Arrive(s, arrivals[0]), arrivals[1..]));
    }
  }

  lemma EmptyRun(s: State)
    ensures Run(s, []) == s
  {
  }

  /** A refund of row `rid`, or the refund of a send that names group `g`. */
  predicate Refunds(a: Arrival, rid: Id, g: Id) {
    a.Single? &&
    ((a.event.RefundedInvitation? && a.event.rid == rid) ||
     ((a.event.RefundedNative? || a.event.RefundedAutoconvert?) && a.event.group == Some(g)))
  }

  /** Row `rid` and its group are the same in both states. */
  predicate Untouched(s: State, post: State, rid: Id)
    requires rid in s.referrals
  {
    var g := s.referrals[rid].group;
    g in s.groups && rid in post.referrals && post.referrals[rid] == s.referrals[rid] &&
    g in post.groups && post.groups[g] == s.groups[g]
  }

  lemma OthersLeave(s: State, e: Event, rid: Id)
    requires WellFormed(s) && rid in s.referrals && Allowed(s, Single(e))
    requires !Refunds(Single(e), rid, s.referrals[rid].group)
    ensures Untouched(s, Step(s, e), rid)
  {
    hide InGroup, FindTransaction, AddBoth, AddBalance, AddAvailable, GroupHold, SponsoredBy;
    GroupThere(s, rid);
    if e.RefundedInvitation? && e.rid in s.referrals {
      assert s.referrals[e.rid].group != s.referrals[rid].group;
    }
  }

  lemma ArriveLeaves(s: State, a: Arrival, rid: Id)
    requires WellFormed(s) && rid in s.referrals && !s.referrals[rid].sponsored && Allowed(s, a)
    requires !Refunds(a, rid, s.referrals[rid].group)
    ensures WellFormed(Arrive(s, a)) && Untouched(s, Arrive(s, a), rid)
  {
    hide WellFormed, Step, Route;
    ArriveIsRun(s, a);
    RunWellFormed(s, EventsOf(s, a));
    match a
    case Registered(user, first, second, pick, ready) =>
      if user in s.users && s.users[user].Some? {
        RouteSkipsUserMoney(s, user, first, second, pick, ready, rid);
      } else {
        RouteRejects(s, user, first, second, pick, ready);
        GroupThere(s, rid);
      }
    case Single(e) => OthersLeave(s, e, rid);
  }

  lemma RouteRejects(s: State, user: UserId, first: Option<Id>, second: Option<Id>, pick: nat, ready: bool)
    requires user !in s.users || s.users[user].None?
    ensures Route(s, user, first, second, pick, ready).state == s
  {
  }

  /** Whoever registers and whatever else happens, the row of money sent by SMS and its group stay as
      they are until the row is refunded, or a send's refund names its group. */
  lemma {:induction false} UserMoneyStays(s: State, arrivals: seq<Arrival>, rid: Id)
    requires WellFormed(s) && rid in s.referrals && !s.referrals[rid].sponsored && AllAllowed(s, arrivals)
    requires forall i :: 0 <= i < |arrivals| ==> !Refunds(arrivals[i], rid, s.referrals[rid].group)
    ensures Untouched(s, RunArrivals(s, arrivals), rid)
    decreases arrivals
  {
    hide WellFormed, Arrive, Allowed, Refunds;
    if arrivals == [] {
      GroupThere(s, rid);
    } else {
      ArriveLeaves(s, arrivals[0], rid);
      assert forall i :: 0 <= i < |arrivals[1..]| ==> arrivals[1..][i] == arrivals[i + 1];
      UserMoneyStays(Arrive(s, arrivals[0]), arrivals[1..], rid);
    }
  }

  /** So money sent by SMS is never accepted: in every such run its row has no invitee and its group
      is PENDING until it is refunded. */
  lemma UserMoneyNeverAccepted(s: State, user: UserId, coin: Coin, amount: int, phone: string, now: int,
                               arrivals: seq<Arrival>)
    requires WellFormed(s) && SendBySms(s, user, coin, amount, phone, now).ok
    requires AllAllowed(SendBySms(s, user, coin, amount, phone, now).state, arrivals)
    requires forall i :: 0 <= i < |arrivals| ==> !Refunds(arrivals[i], s.nextId + 1, s.nextId)
    ensures var post := RunArrivals(SendBySms(s, user, coin, amount, phone, now).state, arrivals);
            s.nextId + 1 in post.referrals &&
            post.referrals[s.nextId + 1] == Referral(user, None, phone, false, s.nextId, now) &&
            IsPending(post.groups, s.nextId)
  {
    hide WellFormed, RunArrivals, AllAllowed, Refunds;
    SendBySmsWellFormed(s, user, coin, amount, phone, now);
    UserMoneyStays(SendBySms(s, user, coin, amount, phone, now).state, arrivals, s.nextId + 1);
  }
}
