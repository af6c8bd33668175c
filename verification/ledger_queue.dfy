/** The refund queue: which rows checkExpiredInvitation enqueues, which handler a delivered task is
    routed to, and exactly when a delivery keeps the escrow property. */
module LedgerQueue {
  import opened Common
  import opened LedgerModel
  import opened LedgerTables
  import opened LedgerEscrow
  import opened LedgerHistory
  import opened Calendar

  // ---- What is enqueued ---------------------------------------------------------------

  /** Tasks are made only for rows that nobody had accepted and that were past their cutoff. */
  lemma TasksAreForExpired(s: State, userCutoff: int, osmoCutoff: int, task: RefundTask)
    requires task !in s.tasks
    ensures task in CheckExpired(s, userCutoff, osmoCutoff).state.tasks <==>
            task.invitation in s.referrals &&
            s.referrals[task.invitation].invited.None? && s.referrals[task.invitation].sponsored == task.sponsored &&
            s.referrals[task.invitation].createdAt < (if task.sponsored then osmoCutoff else userCutoff)
  {
  }

  /** The event is an acceptance of row `rid` that commits. */
  predicate Accepts(s: State, e: Event, rid: Id) {
    (e.AcceptedByUser? && e.rid == rid && MovedByUser(s, e.user, rid, e.pick).Some?) ||
    (e.AcceptedByOsmo? && e.rid == rid && MovedByOsmo(s, e.user, rid, e.pick).Some?)
  }

  lemma {:induction false} AcceptedStays(s: State, es: seq<Event>, rid: Id)
    requires WellFormed(s) && rid in s.referrals && s.referrals[rid].invited.Some?
    ensures rid in Run(s, es).referrals ==> Run(s, es).referrals[rid].invited.Some?
    decreases es
  {
    hide Step;
    if es != [] {
      var mid := Step(s, es[0]);
      StepWellFormed(s, es[0]);
      IdsAndWalletsStay(s, es[0]);
      if rid in mid.referrals {
        RowKept(s, es[0], rid);
        AcceptedStays(mid, es[1..], rid);
      } else {
        RowGoneForGood(mid, es[1..], rid);
      }
    }
  }

  lemma AcceptanceRecorded(s: State, e: Event, rid: Id)
    requires WellFormed(s) && Accepts(s, e, rid)
    ensures rid in Step(s, e).referrals && Step(s, e).referrals[rid].invited == Some(e.user)
    ensures s.referrals[rid].group in Step(s, e).groups
    ensures Step(s, e).groups[s.referrals[rid].group].status == Completed
  {
    assert RowHold(s, rid);
  }

  /** Once an invitation is accepted, no later expiry check makes a refund task for it. */
  lemma AcceptedNeverEnqueued(s: State, e: Event, rid: Id, es: seq<Event>, userCutoff: int, osmoCutoff: int, flag: bool)
    requires WellFormed(s) && Accepts(s, e, rid)
    requires RefundTask(rid, flag) !in Run(Step(s, e), es).tasks
    ensures RefundTask(rid, flag) !in CheckExpired(Run(Step(s, e), es), userCutoff, osmoCutoff).state.tasks
  {
    hide Step, Run, WellFormed, Accepts;
    AcceptanceRecorded(s, e, rid);
    StepWellFormed(s, e);
    AcceptedStays(Step(s, e), es, rid);
    TasksAreForExpired(Run(Step(s, e), es), userCutoff, osmoCutoff, RefundTask(rid, flag));
  }

  /** In terms of age at the check: users' money is due after five days, sponsored invitations after
      the number of days the calendar gives. */
  lemma ExpiryByAge(s: State, day: int, ms: int, task: RefundTask)
    requires task !in s.tasks
    ensures var now := day * DAY_MS + ms;
            var days := if task.sponsored then OsmoDays(CivilOf(day)) else 5;
            task in CheckExpired(s, now - 5 * DAY_MS, now - OsmoDays(CivilOf(day)) * DAY_MS).state.tasks <==>
            task.invitation in s.referrals && s.referrals[task.invitation].invited.None? &&
            s.referrals[task.invitation].sponsored == task.sponsored &&
            now - s.referrals[task.invitation].createdAt > days * DAY_MS
  {
    hide CheckExpired, CivilOf, OsmoDays;
    var now := day * DAY_MS + ms;
    TasksAreForExpired(s, now - 5 * DAY_MS, now - OsmoDays(CivilOf(day)) * DAY_MS, task);
  }

  // ---- What is delivered --------------------------------------------------------------

  /** Every refund of the run was enqueued by checkExpiredInvitation before it was delivered. */
  ghost predicate QueueDriven(s: State, es: seq<Event>)
    decreases es
  {
    es == [] ||
    ((es[0].RefundedInvitation? ==> RefundTask(es[0].rid, es[0].sponsored) in s.tasks) &&
     QueueDriven(Step(s, es[0]), es[1..]))
  }

  /** A delivered task carries its row's sponsor flag, so the handler it is routed to is the one
      for the wallet that holds the money. */
  ghost predicate RefundsRouted(s: State, es: seq<Event>)
    decreases es
  {
    es == [] ||
    ((es[0].RefundedInvitation? && es[0].rid in s.referrals && IsPending(s.groups, s.referrals[es[0].rid].group) ==>
       s.referrals[es[0].rid].sponsored == es[0].sponsored &&
       forall t :: t in InGroup(s.transactions, s.referrals[es[0].rid].group) ==>
         RefundTarget(s, es[0].rid, es[0].sponsored) == Some(t.wallet)) &&
     RefundsRouted(Step(s, es[0]), es[1..]))
  }

  lemma {:induction false} QueueRoutesRefunds(s: State, es: seq<Event>)
    requires WellFormed(s) && QueueDriven(s, es)
    ensures RefundsRouted(s, es)
    decreases es
  {
    if es != [] {
      var e := es[0];
      if e.RefundedInvitation? && e.rid in s.referrals && IsPending(s.groups, s.referrals[e.rid].group) {
        assert RowHold(s, e.rid) && GroupHold(s, s.referrals[e.rid].group);
        assert RefundTask(e.rid, e.sponsored) in s.tasks;
      }
      StepWellFormed(s, e);
      QueueRoutesRefunds(Step(s, e), es[1..]);
    }
  }

  /** The delivery moves no money: it is rejected, or the invitation holds nothing. */
  predicate MovesNothing(s: State, rid: Id, sponsored: bool, pick: nat) {
    var t := RefundedBy(s, rid, sponsored, pick);
    t.None? || t.value.amount == 0
  }

  /** The delivery comes while its row, if there still is one, is open. */
  predicate InTime(s: State, rid: Id) {
    rid in s.referrals && IsPending(s.groups, s.referrals[rid].group)
  }

  /** The delivery of an enqueued task keeps the escrow property if and only if it moves nothing or
      its row's group is still PENDING: a task is never routed to the wrong wallet, only late. */
  lemma DeliveryKeepsHoldsIff(s: State, rid: Id, sponsored: bool, pick: nat)
    requires WellFormed(s) && HoldInvariant(s) && RefundTask(rid, sponsored) in s.tasks
    ensures HoldInvariant(RefundInvitation(s, rid, sponsored, pick).state) <==>
            MovesNothing(s, rid, sponsored, pick) || InTime(s, rid)
  {
    hide HoldInvariant;
    StepKeepsHoldsIff(s, RefundedInvitation(rid, sponsored, pick));
    DeliverySoundIff(s, rid, sponsored, pick);
  }

  lemma DeliverySoundIff(s: State, rid: Id, sponsored: bool, pick: nat)
    requires WellFormed(s) && RefundTask(rid, sponsored) in s.tasks
    ensures Sound(s, RefundedInvitation(rid, sponsored, pick)) <==>
            MovesNothing(s, rid, sponsored, pick) || InTime(s, rid)
  {
  }

  /** Every delivery of the run moves nothing or is in time, and every other event is sound. */
  ghost predicate AllInTime(s: State, es: seq<Event>)
    decreases es
  {
    es == [] ||
    (var e := es[0];
     (if e.RefundedInvitation? then MovesNothing(s, e.rid, e.sponsored, e.pick) || InTime(s, e.rid) else Sound(s, e)) &&
     AllInTime(Step(s, e), es[1..]))
  }

  lemma {:induction false} InTimeIsSound(s: State, es: seq<Event>)
    requires WellFormed(s) && QueueDriven(s, es)
    ensures AllInTime(s, es) <==> AllSound(s, es)
    decreases es
  {
    hide Step, Sound, WellFormed, MovesNothing, InTime;
    if es != [] {
      var e := es[0];
      if e.RefundedInvitation? { DeliverySoundIff(s, e.rid, e.sponsored, e.pick); }
      StepWellFormed(s, e);
      InTimeIsSound(Step(s, e), es[1..]);
    }
  }

  /** In a run from an empty ledger whose refunds all come from the queue, the escrow property holds
      throughout if and only if each delivery moves nothing or is in time, and every other event is
      sound. */
  lemma QueueKeepsHoldsIff(s: State, es: seq<Event>)
    requires Initial(s) && QueueDriven(s, es)
    ensures HoldsThroughout(s, es) <==> AllInTime(s, es)
  {
    hide Initial, HoldsThroughout, AllInTime, AllSound, QueueDriven;
    InitialWellFormed(s);
    InTimeIsSound(s, es);
    RunKeepsHoldsIff(s, es);
  }
}
