/** The ledger's properties over runs in which invitations are accepted only by registering: for the
    escrow property, the audit property and the totals exactly when they hold, and what the solvency
    of the referral fund asks for. */
module LedgerArrivalRuns {
  import opened Common
  import opened LedgerModel
  import opened LedgerTables
  import opened LedgerEscrow
  import opened LedgerConservation
  import opened LedgerQueue
  import opened LedgerRouting
  import opened LedgerAudit
  import opened LedgerFund
  import opened LedgerArrivals

  /** A registration that gets as far as its lookups. */
  predicate Registers(s: State, a: Arrival) {
    a.Registered? && a.user in s.users && s.users[a.user].Some?
  }

  /** A registration whose first lookup finds a row that moves money. */
  predicate Misroutes(s: State, a: Arrival) {
    Registers(s, a) && Misrouted(s, a.user, a.first, a.pick) != 0
  }

  lemma ArriveWellFormed(s: State, a: Arrival)
    requires WellFormed(s)
    ensures WellFormed(Arrive(s, a)) && Arrive(s, a).wallets.Keys == s.wallets.Keys
  {
    hide WellFormed, Step, Route;
    ArriveIsRun(s, a);
    RunWellFormed(s, EventsOf(s, a));
    match a
    case Registered(user, first, second, pick, ready) => RouteSameWallets(s, user, first, second, pick, ready);
    case Single(e) => SameWallets(s, e);
  }

  lemma NotRegistered(s: State, a: Arrival)
    requires a.Registered? && !Registers(s, a)
    ensures Arrive(s, a) == s
  {
    RouteRejects(s, a.user, a.first, a.second, a.pick, a.payoutReady);
  }

  // ---- The escrow property ------------------------------------------------------------

  predicate ArrivalSound(s: State, a: Arrival) {
    if a.Registered? then !Misroutes(s, a) else Sound(s, a.event)
  }

  ghost predicate AllArrivalsSound(s: State, arrivals: seq<Arrival>)
    decreases arrivals
  {
    arrivals == [] || (ArrivalSound(s, arrivals[0]) && AllArrivalsSound(Arrive(s, arrivals[0]), arrivals[1..]))
  }

  ghost predicate HoldsAfterAll(s: State, arrivals: seq<Arrival>)
    decreases arrivals
  {
    HoldInvariant(s) && (arrivals == [] || HoldsAfterAll(Arrive(s, arrivals[0]), arrivals[1..]))
  }

  lemma ArriveKeepsHoldsIff(s: State, a: Arrival)
    requires WellFormed(s) && HoldInvariant(s) && Allowed(s, a)
    ensures HoldInvariant(Arrive(s, a)) <==> ArrivalSound(s, a)
  {
    hide WellFormed, HoldInvariant, Step, Sound, Route, Answers, Misrouted;
    match a
    case Registered(user, first, second, pick, ready) =>
      if Registers(s, a) {
        RouteKeepsHoldsIff(s, user, first, second, pick, ready);
      } else {
        NotRegistered(s, a);
      }
    case Single(e) => StepKeepsHoldsIff(s, e);
  }

  lemma {:induction false} ArrivalsKeepHoldsFrom(s: State, arrivals: seq<Arrival>)
    requires WellFormed(s) && HoldInvariant(s) && AllAllowed(s, arrivals)
    ensures HoldsAfterAll(s, arrivals) <==> AllArrivalsSound(s, arrivals)
    decreases arrivals
  {
    hide WellFormed, HoldInvariant, Arrive, Allowed, ArrivalSound;
    if arrivals != [] {
      ArriveKeepsHoldsIff(s, arrivals[0]);
      ArriveWellFormed(s, arrivals[0]);
      if HoldInvariant(Arrive(s, arrivals[0])) {
        ArrivalsKeepHoldsFrom(Arrive(s, arrivals[0]), arrivals[1..]);
      }
    }
  }

  /** From an empty ledger, the escrow property holds after every registration and every other event
      if and only if no registration finds a row that moves money and the other events are sound. */
  lemma ArrivalsKeepHoldsIff(s: State, arrivals: seq<Arrival>)
    requires Initial(s) && AllAllowed(s, arrivals)
    ensures HoldsAfterAll(s, arrivals) <==> AllArrivalsSound(s, arrivals)
  {
    InitialHolds(s);
    ArrivalsKeepHoldsFrom(s, arrivals);
  }

  // ---- The audit property -------------------------------------------------------------

  predicate ArrivalAuditSound(s: State, a: Arrival) {
    if a.Registered? then !Misroutes(s, a) else AuditSound(s, a.event)
  }

  ghost predicate AllArrivalsAuditSound(s: State, arrivals: seq<Arrival>)
    decreases arrivals
  {
    arrivals == [] ||
    (ArrivalAuditSound(s, arrivals[0]) && AllArrivalsAuditSound(Arrive(s, arrivals[0]), arrivals[1..]))
  }

  ghost predicate AuditedAfterAll(start: State, s: State, arrivals: seq<Arrival>)
    decreases arrivals
  {
    Audited(start, s) && (arrivals == [] || AuditedAfterAll(start, Arrive(s, arrivals[0]), arrivals[1..]))
  }

  lemma ArriveKeepsAuditIff(start: State, s: State, a: Arrival)
    requires WellFormed(s) && Audited(start, s) && start.wallets.Keys == s.wallets.Keys && Allowed(s, a)
    ensures Audited(start, Arrive(s, a)) <==> ArrivalAuditSound(s, a)
  {
    hide WellFormed, Audited, Step, AuditSound, Route, Answers, Misrouted;
    match a
    case Registered(user, first, second, pick, ready) =>
      if Registers(s, a) {
        RouteKeepsAuditIff(start, s, user, first, second, pick, ready);
      } else {
        NotRegistered(s, a);
      }
    case Single(e) => StepKeepsAuditIff(start, s, e);
  }

  lemma {:induction false} ArrivalsKeepAuditFrom(start: State, s: State, arrivals: seq<Arrival>)
    requires WellFormed(s) && Audited(start, s) && start.wallets.Keys == s.wallets.Keys && AllAllowed(s, arrivals)
    ensures AuditedAfterAll(start, s, arrivals) <==> AllArrivalsAuditSound(s, arrivals)
    decreases arrivals
  {
    hide WellFormed, Audited, Arrive, Allowed, ArrivalAuditSound;
    if arrivals != [] {
      ArriveKeepsAuditIff(start, s, arrivals[0]);
      ArriveWellFormed(s, arrivals[0]);
      if Audited(start, Arrive(s, arrivals[0])) {
        ArrivalsKeepAuditFrom(start, Arrive(s, arrivals[0]), arrivals[1..]);
      }
    }
  }

  /** From an empty ledger, every balance is explained by the COMPLETED groups after every arrival if
      and only if no registration finds a row that moves money and the other events are audit-sound. */
  lemma ArrivalsKeepAuditIff(s: State, arrivals: seq<Arrival>)
    requires Initial(s) && AllAllowed(s, arrivals)
    ensures AuditedAfterAll(s, s, arrivals) <==> AllArrivalsAuditSound(s, arrivals)
  {
    InitialAudited(s);
    ArrivalsKeepAuditFrom(s, s, arrivals);
  }

  // ---- The referral fund --------------------------------------------------------------

  /** A refund comes from the queue, and one for the fund moves nothing or comes while its row is open. */
  predicate Timely(s: State, a: Arrival) {
    a.Single? && a.event.RefundedInvitation? ==>
      RefundTask(a.event.rid, a.event.sponsored) in s.tasks &&
      (a.event.sponsored ==> MovesNothing(s, a.event.rid, true, a.event.pick) || InTime(s, a.event.rid))
  }

  ghost predicate AllTimely(s: State, arrivals: seq<Arrival>)
    decreases arrivals
  {
    arrivals == [] || (Timely(s, arrivals[0]) && AllTimely(Arrive(s, arrivals[0]), arrivals[1..]))
  }

  predicate SettingsInRange(arrivals: seq<Arrival>) {
    forall i :: 0 <= i < |arrivals| && arrivals[i].Single? && arrivals[i].event.RewardSet? ==>
      RewardInRange(arrivals[i].event.reward)
  }

  lemma ArriveSafe(s: State, a: Arrival)
    requires FundSafe(s) && Allowed(s, a) && Timely(s, a)
    requires a.Single? && a.event.RewardSet? ==> RewardInRange(a.event.reward)
    ensures FundSafe(Arrive(s, a))
  {
    FundSafeFacts(s);
    hide FundSafe, WellFormed, Route, Step, Sound, Answers, MovesNothing, InTime;
    match a
    case Registered(user, first, second, pick, ready) =>
      if Registers(s, a) {
        RouteIsFundSound(s, user, first, second, pick, ready);
        RouteIsRun(s, user, first, second, pick, ready);
        RunSafe(s, RouteEvents(s, user, first, second, pick, ready));
      } else {
        NotRegistered(s, a);
      }
    case Single(e) =>
      if e.RefundedInvitation? { DeliverySoundIff(s, e.rid, e.sponsored, e.pick); }
      StepSafe(s, e);
  }

  lemma {:induction false} ArrivalsSafe(s: State, arrivals: seq<Arrival>)
    requires FundSafe(s) && AllAllowed(s, arrivals) && AllTimely(s, arrivals) && SettingsInRange(arrivals)
    ensures FundSafe(RunArrivals(s, arrivals))
    decreases arrivals
  {
    hide FundSafe, Arrive, Allowed, Timely;
    if arrivals != [] {
      ArriveSafe(s, arrivals[0]);
      var rest := arrivals[1..];
      assert forall i :: 0 <= i < |rest| ==> rest[i] == arrivals[i + 1];
      ArrivalsSafe(Arrive(s, arrivals[0]), rest);
    }
  }

  /** With the reward setting between 0 and 250 throughout, the referral fund is solvent after every
      run of registrations and other events whose refunds come from the queue, if those to the fund
      are not late. Registrations may find and move whatever they do. */
  lemma FundSolventUnlessLate(s: State, arrivals: seq<Arrival>)
    requires Initial(s) && Solvent(s) && RewardInRange(s.reward) && SettingsInRange(arrivals)
    requires AllAllowed(s, arrivals) && AllTimely(s, arrivals)
    ensures Solvent(RunArrivals(s, arrivals))
  {
    InitialSafe(s);
    ArrivalsSafe(s, arrivals);
    SafeIsSolvent(RunArrivals(s, arrivals));
  }

  // ---- Totals -------------------------------------------------------------------------

  /** A registration, or another event of the invitation protocol. */
  predicate OfProtocol(a: Arrival) {
    a.Registered? || a.event.Invited? || a.event.SentBySms? || a.event.RefundedInvitation? || a.event.CheckedExpired?
  }

  /** A user registers whose own invitation the first lookup finds, and that moves money. */
  predicate RegistersOwn(s: State, a: Arrival) {
    Misroutes(s, a) && a.first.Some? && a.first.value in s.referrals && s.referrals[a.first.value].inviter == a.user
  }

  lemma FirstIsOpen(s: State, a: Arrival)
    requires WellFormed(s) && Registers(s, a) && Allowed(s, a) && a.first.Some?
    ensures var rid := a.first.value;
            rid in s.referrals && s.referrals[rid].sponsored && IsPending(s.groups, s.referrals[rid].group)
    ensures var t := MovedByUser(s, a.user, a.first.value, a.pick);
            t.Some? ==> t.value.wallet == FUND
  {
    assert a.first.value in Matching(s, s.users[a.user].value);
    assert RowHold(s, a.first.value);
    PendingHold(s, s.referrals[a.first.value].group, a.pick, FUND);
  }

  lemma FirstAcceptsOwn(s: State, a: Arrival, c: Coin)
    requires WellFormed(s) && Registers(s, a) && Allowed(s, a) && a.first.Some?
    ensures AcceptsOwn(s, AcceptedByUser(a.user, a.first.value, a.pick, a.payoutReady), c) <==>
            c == Usd && RegistersOwn(s, a)
  {
    hide WellFormed, Allowed;
    FirstIsOpen(s, a);
  }

  lemma SecondIsProper(s: State, user: UserId, first: Option<Id>, second: Option<Id>, pick: nat, ready: bool)
    requires Answers(s, user, first, second, pick, ready) && second.Some?
    ensures Proper(RouteFirst(s, user, first, pick, ready).state, AcceptedByOsmo(user, second.value, pick))
  {
    hide RouteFirst;
  }

  lemma ArriveConservesIff(s: State, a: Arrival, c: Coin)
    requires WellFormed(s) && HeldAtReward(s) && Allowed(s, a) && OfProtocol(a)
    ensures Total(Arrive(s, a).wallets, c) == Total(s.wallets, c) <==> !(c == Usd && RegistersOwn(s, a))
    ensures HeldAtReward(Arrive(s, a))
  {
    hide WellFormed, HeldAtReward, Minted, Total, AcceptsOwn, Answers, AcceptByUser, AcceptByOsmo;
    match a
    case Registered(user, first, second, pick, ready) =>
      if Registers(s, a) {
        var mid := RouteFirst(s, user, first, pick, ready);
        if first.Some? {
          var e := AcceptedByUser(user, first.value, pick, ready);
          FirstAcceptsOwn(s, a, c);
          StepTotal(s, e, c);
          ProperMintsIff(s, e, c);
          HeldAtRewardKept(s, e);
        }
        RouteWellFormed(s, user, first, pick, ready);
        if mid.ok && second.Some? {
          var e := AcceptedByOsmo(user, second.value, pick);
          SecondIsProper(s, user, first, second, pick, ready);
          StepTotal(mid.state, e, c);
          ProperMintsIff(mid.state, e, c);
          NotByUser(mid.state, e, c);
          HeldAtRewardKept(mid.state, e);
        }
      } else {
        NotRegistered(s, a);
      }
    case Single(e) =>
      StepTotal(s, e, c);
      ProperMintsIff(s, e, c);
      NotByUser(s, e, c);
      HeldAtRewardKept(s, e);
  }

  lemma NotByUser(s: State, e: Event, c: Coin)
    requires !e.AcceptedByUser?
    ensures !AcceptsOwn(s, e, c)
  {
  }

  ghost predicate ConservedAfterAll(total: int, s: State, arrivals: seq<Arrival>, c: Coin)
    decreases arrivals
  {
    Total(s.wallets, c) == total &&
    (arrivals == [] || ConservedAfterAll(total, Arrive(s, arrivals[0]), arrivals[1..], c))
  }

  ghost predicate NoneRegistersOwn(s: State, arrivals: seq<Arrival>)
    decreases arrivals
  {
    arrivals == [] || (!RegistersOwn(s, arrivals[0]) && NoneRegistersOwn(Arrive(s, arrivals[0]), arrivals[1..]))
  }

  lemma {:induction false} ArrivalsConserveFrom(s: State, arrivals: seq<Arrival>, c: Coin)
    requires WellFormed(s) && HeldAtReward(s) && AllAllowed(s, arrivals)
    requires forall i :: 0 <= i < |arrivals| ==> OfProtocol(arrivals[i])
    ensures ConservedAfterAll(Total(s.wallets, c), s, arrivals, c) <==> c != Usd || NoneRegistersOwn(s, arrivals)
    decreases arrivals
  {
    hide WellFormed, HeldAtReward, Arrive, Allowed, OfProtocol, Total, RegistersOwn;
    if arrivals != [] {
      var rest := arrivals[1..];
      assert forall i :: 0 <= i < |rest| ==> rest[i] == arrivals[i + 1];
      ArriveConservesIff(s, arrivals[0], c);
      ArriveWellFormed(s, arrivals[0]);
      ArrivalsConserveFrom(Arrive(s, arrivals[0]), rest, c);
    }
  }

  /** Under one reward setting, invitations, registrations, refunds and rewards conserve the total of
      dollars after every arrival if and only if nobody registers as the invitee of an invitation of
      their own that moves money; the totals of other coins are always conserved. */
  lemma ArrivalsConserveIff(s: State, arrivals: seq<Arrival>, c: Coin)
    requires Initial(s) && AllAllowed(s, arrivals)
    requires forall i :: 0 <= i < |arrivals| ==> OfProtocol(arrivals[i])
    ensures ConservedAfterAll(Total(s.wallets, c), s, arrivals, c) <==> c != Usd || NoneRegistersOwn(s, arrivals)
  {
    InitialWellFormed(s);
    ArrivalsConserveFrom(s, arrivals, c);
  }

  /** User 1 has invited their own number. */
  function SelfInvited(): State { Step(Example(), Invited(1, "+1", true, 0)) }

  lemma SelfInvitedShape()
    ensures SelfInvited() == Example().(
              wallets := Example().wallets[FUND := Wallet(1000 * UNIT, 995 * UNIT)],
              groups := map[0 := Group(Pending, Some(Usd))],
              transactions := [Transaction(FUND, 5 * UNIT, 0, DebitReferralOsmo)],
              referrals := map[1 := Referral(1, None, "+1", true, 0, 0)],
              nextId := 2)
    ensures InGroup(SelfInvited().transactions, 0) == SelfInvited().transactions
  {
    assert SponsoredBy(Example().referrals, 1) == {};
    InGroupAppend([], Transaction(FUND, 5 * UNIT, 0, DebitReferralOsmo), 0);
    assert [] + [Transaction(FUND, 5 * UNIT, 0, DebitReferralOsmo)] == SelfInvited().transactions;
  }

  /** When user 1 then registers, 5 dollars vanish: the debit overwrites the credit. */
  lemma OwnInvitationLoses()
    ensures var a := Registered(1, Some(1), None, 0, true);
            Initial(Example()) && Allowed(SelfInvited(), a) && RegistersOwn(SelfInvited(), a) &&
            Total(Arrive(SelfInvited(), a).wallets, Usd) == Total(SelfInvited().wallets, Usd) - 5 * UNIT
  {
    SelfInvitedShape();
    var s := SelfInvited();
    var t := Transaction(FUND, 5 * UNIT, 0, DebitReferralOsmo);
    assert TransactionOf(s, 0, 0) == Some(t);
    assert MovedByUser(s, 1, 1, 0) == Some(t);
    var settled := SettleByUser(s, 1, 1, t);
    assert InvitedBy(settled.referrals, 1) == {1};
    assert RouteFirst(s, 1, Some(1), 0, true) == Outcome(settled, true);
    assert 1 in Matching(s, "+1");
    assert Matching(settled, "+1") == {};
    TotalAcceptByUser(s, 1, 1, 0, true, Usd);
  }
}
