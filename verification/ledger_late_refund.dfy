/** Refund tasks delivered after their invitation was accepted. The refund handlers read no status. For
    an invitation that referralByUser accepted, the fund only gets back what the inviter paid; for one
    that referralByOsmo accepted, it gets back money it has paid out. */
module LedgerLateRefund {
  import opened Common
  import opened LedgerModel
  import opened LedgerTables
  import opened LedgerEscrow
  import opened LedgerHistory
  import opened LedgerQueue
  import opened LedgerRouting
  import opened LedgerFund
  import opened LedgerArrivals
  import opened LedgerArrivalRuns

  // ---- After referralByUser -----------------------------------------------------------

  /** An acceptance by a user closes the group, which then has the hold and a credit of its amount. */
  lemma AcceptedPair(s: State, u: UserId, rid: Id, pick: nat, ready: bool)
    requires WellFormed(s) && rid in s.referrals && IsPending(s.groups, s.referrals[rid].group)
    requires MovedByUser(s, u, rid, pick).Some?
    ensures var t := MovedByUser(s, u, rid, pick).value;
            var post := AcceptByUser(s, u, rid, pick, ready).state;
            var g := s.referrals[rid].group;
            rid in post.referrals && post.referrals[rid].group == g && !IsPending(post.groups, g) &&
            InGroup(post.transactions, g) ==
              [t, Transaction(WalletKey(Customer(u), t.wallet.coin), t.amount, g, CreditFiatTransfer)]
  {
    hide InGroup, AddBoth, AddBalance, InvitedBy, WellFormed;
    var t := MovedByUser(s, u, rid, pick).value;
    var g := s.referrals[rid].group;
    OpenHoldIsAll(s, rid, pick);
    var settled := SettleByUser(s, u, rid, t);
    InGroupAppend(s.transactions, settled.transactions[|s.transactions|], g);
    if PaysReward(s, u, rid, pick, ready) {
      var paid := PayReward(settled, s.referrals[rid].inviter, t.wallet.coin);
      var a, b := paid.transactions[|settled.transactions|], paid.transactions[|settled.transactions| + 1];
      GroupBelow(s, rid);
      InGroupAppend(settled.transactions, a, g);
      InGroupAppend(settled.transactions + [a], b, g);
      assert paid.transactions == settled.transactions + [a] + [b];
    }
  }

  lemma OpenHoldIsAll(s: State, rid: Id, pick: nat)
    requires WellFormed(s) && rid in s.referrals && IsPending(s.groups, s.referrals[rid].group)
    ensures TransactionOf(s, s.referrals[rid].group, pick).Some?
    ensures InGroup(s.transactions, s.referrals[rid].group) == [TransactionOf(s, s.referrals[rid].group, pick).value]
  {
    PendingHold(s, s.referrals[rid].group, pick, FUND);
  }

  lemma GroupBelow(s: State, rid: Id)
    requires WellFormed(s) && rid in s.referrals
    ensures s.referrals[rid].group < s.nextId
  {
    assert RowHold(s, rid);
  }

  /** A registration hands an open sponsored invitation to referralByUser, and its refund task is
      delivered after that. Whichever transaction the refund's lookup picks, the fund ends with the
      difference between its balances that it had before - what the inviter paid has taken the place of
      the hold - and the inviter's wallet is short of the amount, twice over if the invitee is the same. */
  lemma LateAfterUser(s: State, u: UserId, rid: Id, pick: nat, ready: bool, pick': nat)
    requires WellFormed(s) && rid in s.referrals && s.referrals[rid].sponsored
    requires IsPending(s.groups, s.referrals[rid].group) && MovedByUser(s, u, rid, pick).Some?
    requires FUND in s.wallets
    ensures var t := MovedByUser(s, u, rid, pick).value;
            var from := WalletKey(Customer(s.referrals[rid].inviter), t.wallet.coin);
            var mid := AcceptByUser(s, u, rid, pick, ready).state;
            var r := RefundInvitation(mid, rid, true, pick');
            from in s.wallets && from in r.state.wallets && FUND in r.state.wallets && FUND in mid.wallets &&
            r.ok && Slack(mid, FUND) == Slack(s, FUND) + t.amount &&
            Slack(r.state, FUND) == Slack(s, FUND) &&
            Slack(r.state, from) == Slack(s, from) - if s.referrals[rid].inviter == u then 2 * t.amount else t.amount
  {
    hide InGroup, WellFormed, Slack, AcceptByUser, RewardDue;
    var t := MovedByUser(s, u, rid, pick).value;
    var from := WalletKey(Customer(s.referrals[rid].inviter), t.wallet.coin);
    var mid := AcceptByUser(s, u, rid, pick, ready).state;
    var g := s.referrals[rid].group;
    AcceptedPair(s, u, rid, pick, ready);
    HeldByFund(s, rid, pick);
    var first, late := AcceptedByUser(u, rid, pick, ready), RefundedInvitation(rid, true, pick');
    StepWellFormed(s, first);
    SameWallets(s, first);
    SameWallets(mid, late);
    PendingHold(s, g, pick, FUND);
    PendingHold(s, g, pick, from);
    StepSlack(s, first, FUND);
    StepSlack(s, first, from);
    StepSlack(mid, late, FUND);
    StepSlack(mid, late, from);
    OneOfTwo(mid, g, pick', t);
  }

  lemma HeldByFund(s: State, rid: Id, pick: nat)
    requires WellFormed(s) && rid in s.referrals && s.referrals[rid].sponsored
    requires IsPending(s.groups, s.referrals[rid].group)
    ensures TransactionOf(s, s.referrals[rid].group, pick).Some?
    ensures TransactionOf(s, s.referrals[rid].group, pick).value.wallet == FUND
  {
    assert RowHold(s, rid);
    PendingHold(s, s.referrals[rid].group, pick, FUND);
  }

  lemma OneOfTwo(s: State, g: Id, pick: nat, t: Transaction)
    requires |InGroup(s.transactions, g)| == 2
    requires forall i :: 0 <= i < 2 ==> InGroup(s.transactions, g)[i].amount == t.amount
    ensures TransactionOf(s, g, pick).Some? && TransactionOf(s, g, pick).value.amount == t.amount
  {
  }

  // ---- After referralByOsmo -----------------------------------------------------------

  /** User 1 invites "+2" while the reward is 0, the reward becomes 5 dollars, user 1 invites "+2"
      again, and the expiry check makes tasks for both invitations. */
  function Start(): State { Example().(reward := Some(0)) }

  const INVITED: Arrival := Single(Invited(1, "+2", true, 0))
  const RAISED: Arrival := Single(RewardSet(Some(5 * UNIT)))
  const CHECKED: Arrival := Single(CheckedExpired(1, 1))

  /** User 2 registers: the first lookup finds the invitation that holds nothing, the second the other. */
  const REGISTERED: Arrival := Registered(2, Some(1), Some(3), 0, true)
  const DELIVERED: Arrival := Single(RefundedInvitation(3, true, 0))

  const EMPTY_HOLD: Transaction := Transaction(FUND, 0, 0, DebitReferralOsmo)
  const HOLD: Transaction := Transaction(FUND, 5 * UNIT, 2, DebitReferralOsmo)

  function Once(): State { Arrive(Start(), INVITED) }
  function Raised(): State { Arrive(Once(), RAISED) }
  function Twice(): State { Arrive(Raised(), INVITED) }
  function Due(): State { Arrive(Twice(), CHECKED) }
  function Joined(): State { Arrive(Due(), REGISTERED) }

  lemma OnceShape()
    ensures Once() == Start().(
              wallets := Start().wallets[FUND := Wallet(1000 * UNIT, 1000 * UNIT)],
              groups := map[0 := Group(Pending, Some(Usd))],
              transactions := [EMPTY_HOLD],
              referrals := map[1 := Referral(1, None, "+2", true, 0, 0)],
              nextId := 2)
  {
    assert SponsoredBy(Start().referrals, 1) == {};
  }

  /** What the expiry check leaves, but for the tasks. */
  function Tables(tasks: set<RefundTask>): State {
    State(map[1 := Some("+1"), 2 := Some("+2")],
          map[FUND := Wallet(1000 * UNIT, 995 * UNIT), INVITER := Wallet(0, 0), INVITEE := Wallet(0, 0)],
          map[0 := Group(Pending, Some(Usd)), 2 := Group(Pending, Some(Usd))],
          [EMPTY_HOLD, HOLD],
          map[1 := Referral(1, None, "+2", true, 0, 0), 3 := Referral(1, None, "+2", true, 2, 0)],
          tasks, Some(5 * UNIT), 4)
  }

  lemma TwiceShape()
    ensures Twice() == Tables({})
  {
    OnceShape();
    assert SponsoredBy(Raised().referrals, 1) == {1};
    assert Twice().wallets == Tables({}).wallets;
  }

  lemma DueShape()
    ensures Due() == Tables(Due().tasks) && RefundTask(3, true) in Due().tasks
  {
    TwiceShape();
    hide Twice;
    TasksAreForExpired(Tables({}), 1, 1, RefundTask(3, true));
  }

  lemma DueHolds()
    ensures Initial(Start()) && WellFormed(Due()) && HoldInvariant(Due())
    ensures AllAllowed(Start(), [INVITED, RAISED, INVITED, CHECKED])
    ensures RunArrivals(Start(), [INVITED, RAISED, INVITED, CHECKED]) == Due()
  {
    hide HoldInvariant, WellFormed, Step;
    InitialHolds(Start());
    KeepsBoth(Start(), Invited(1, "+2", true, 0));
    KeepsBoth(Once(), RewardSet(Some(5 * UNIT)));
    KeepsBoth(Raised(), Invited(1, "+2", true, 0));
    KeepsBoth(Twice(), CheckedExpired(1, 1));
    Extend(Start(), [], INVITED);
    Extend(Start(), [INVITED], RAISED);
    Extend(Start(), [INVITED, RAISED], INVITED);
    Extend(Start(), [INVITED, RAISED, INVITED], CHECKED);
    assert [] + [INVITED] == [INVITED] && [INVITED] + [RAISED] == [INVITED, RAISED];
    assert [INVITED, RAISED] + [INVITED] == [INVITED, RAISED, INVITED];
    assert [INVITED, RAISED, INVITED] + [CHECKED] == [INVITED, RAISED, INVITED, CHECKED];
  }

  lemma KeepsBoth(s: State, e: Event)
    requires WellFormed(s) && HoldInvariant(s) && Sound(s, e)
    ensures WellFormed(Step(s, e)) && HoldInvariant(Step(s, e))
  {
    StepWellFormed(s, e);
    StepKeepsHoldsIff(s, e);
  }

  lemma InGroups(u: Transaction, v: Transaction)
    requires u.group == 0 && v.group == 2
    ensures InGroup([EMPTY_HOLD, HOLD], 0) == [EMPTY_HOLD]
    ensures InGroup([EMPTY_HOLD, HOLD, u], 2) == [HOLD]
    ensures InGroup([EMPTY_HOLD, HOLD, u, v], 2) == [HOLD, v]
  {
    assert InGroup([], 0) == [] && InGroup([], 2) == [];
    hide InGroup;
    InGroupAppend([], EMPTY_HOLD, 0);
    InGroupAppend([EMPTY_HOLD], HOLD, 0);
    InGroupAppend([], EMPTY_HOLD, 2);
    InGroupAppend([EMPTY_HOLD], HOLD, 2);
    InGroupAppend([EMPTY_HOLD, HOLD], u, 2);
    InGroupAppend([EMPTY_HOLD, HOLD, u], v, 2);
    assert [] + [EMPTY_HOLD] == [EMPTY_HOLD] && [EMPTY_HOLD] + [HOLD] == [EMPTY_HOLD, HOLD];
    assert [EMPTY_HOLD, HOLD] + [u] == [EMPTY_HOLD, HOLD, u];
    assert [EMPTY_HOLD, HOLD, u] + [v] == [EMPTY_HOLD, HOLD, u, v];
  }

  const NO_CREDIT: Transaction := Transaction(INVITEE, 0, 0, CreditFiatTransfer)
  const CREDIT: Transaction := Transaction(INVITEE, 5 * UNIT, 2, CreditFiatTransfer)

  /** What the registration's first half leaves: it moves nothing. */
  function Halfway(tasks: set<RefundTask>): State {
    Tables(tasks).(groups := map[0 := Group(Completed, Some(Usd)), 2 := Group(Pending, Some(Usd))],
                   transactions := [EMPTY_HOLD, HOLD, NO_CREDIT],
                   referrals := map[1 := Referral(1, Some(2), "+2", true, 0, 0),
                                    3 := Referral(1, None, "+2", true, 2, 0)])
  }

  lemma FirstMoved(tasks: set<RefundTask>)
    ensures MovedByUser(Tables(tasks), 2, 1, 0) == Some(EMPTY_HOLD)
    ensures SettleByUser(Tables(tasks), 2, 1, EMPTY_HOLD) == Halfway(tasks)
  {
    var s := Tables(tasks);
    InGroups(NO_CREDIT, CREDIT);
    assert TransactionOf(s, 0, 0) == Some(EMPTY_HOLD);
    assert s.transactions + [NO_CREDIT] == [EMPTY_HOLD, HOLD, NO_CREDIT];
    assert SettleByUser(s, 2, 1, EMPTY_HOLD).wallets == s.wallets;
  }

  lemma FirstMovesNothing(tasks: set<RefundTask>)
    ensures RouteFirst(Tables(tasks), 2, Some(1), 0, true) == Outcome(Halfway(tasks), true)
  {
    FirstMoved(tasks);
    assert InvitedBy(Halfway(tasks).referrals, 1) == {1, 3};
    hide SettleByUser, MovedByUser;
  }

  lemma BothAnswers(tasks: set<RefundTask>)
    ensures Answers(Tables(tasks), 2, Some(1), Some(3), 0, true)
  {
    FirstMovesNothing(tasks);
    hide RouteFirst;
    assert 1 in Matching(Tables(tasks), "+2");
    assert 3 in Matching(Halfway(tasks), "+2");
  }

  lemma SecondPays(tasks: set<RefundTask>)
    ensures MovedByOsmo(Halfway(tasks), 2, 3, 0) == Some(HOLD)
    ensures var s := AcceptByOsmo(Halfway(tasks), 2, 3, 0).state;
            s.wallets.Keys == Tables(tasks).wallets.Keys && s.wallets[FUND] == Wallet(995 * UNIT, 995 * UNIT) &&
            s.transactions == [EMPTY_HOLD, HOLD, NO_CREDIT, CREDIT] && s.tasks == tasks &&
            3 in s.referrals && s.referrals[3].group == 2 && 2 in s.groups && !IsPending(s.groups, 2)
  {
    InGroups(NO_CREDIT, CREDIT);
    assert TransactionOf(Halfway(tasks), 2, 0) == Some(HOLD);
    assert [EMPTY_HOLD, HOLD, NO_CREDIT] + [CREDIT] == [EMPTY_HOLD, HOLD, NO_CREDIT, CREDIT];
  }

  lemma JoinedShape()
    ensures Allowed(Due(), REGISTERED) && !Misroutes(Due(), REGISTERED)
    ensures var s := Joined();
            FUND in s.wallets && s.wallets[FUND] == Wallet(995 * UNIT, 995 * UNIT) &&
            s.transactions == [EMPTY_HOLD, HOLD, NO_CREDIT, CREDIT] &&
            3 in s.referrals && s.referrals[3].group == 2 && 2 in s.groups && !IsPending(s.groups, 2) &&
            RefundTask(3, true) in s.tasks
  {
    DueShape();
    var tasks := Due().tasks;
    FirstMoved(tasks);
    FirstMovesNothing(tasks);
    BothAnswers(tasks);
    SecondPays(tasks);
    hide Due, RouteFirst, AcceptByOsmo, Answers, MovedByUser, Halfway;
    assert Joined() == AcceptByOsmo(Halfway(tasks), 2, 3, 0).state;
  }

  lemma DeliveredShape()
    ensures var s := Arrive(Joined(), DELIVERED);
            FUND in s.wallets && s.wallets[FUND] == Wallet(995 * UNIT, 1000 * UNIT)
    ensures RefundedBy(Joined(), 3, true, 0) == Some(HOLD)
  {
    JoinedShape();
    InGroups(NO_CREDIT, CREDIT);
    assert TransactionOf(Joined(), 2, 0) == Some(HOLD);
  }

  /** The escrow property holds when user 2 has registered and the fund has paid. The task made before
      that is delivered; the fund gets back the 5 dollars, and has more available than it has. */
  lemma LateRefundBreaksHolds()
    ensures Initial(Start()) && AllAllowed(Start(), [INVITED, RAISED, INVITED, CHECKED, REGISTERED, DELIVERED])
    ensures var before := RunArrivals(Start(), [INVITED, RAISED, INVITED, CHECKED, REGISTERED]);
            var after := RunArrivals(Start(), [INVITED, RAISED, INVITED, CHECKED, REGISTERED, DELIVERED]);
            RefundTask(3, true) in RunArrivals(Start(), [INVITED, RAISED, INVITED, CHECKED]).tasks &&
            HoldInvariant(before) && !HoldInvariant(after) && !Solvent(after) &&
            FUND in after.wallets && after.wallets[FUND] == Wallet(995 * UNIT, 1000 * UNIT)
  {
    DueHolds();
    DueShape();
    JoinedShape();
    DeliveredShape();
    hide HoldInvariant, WellFormed, Arrive, Allowed, Start, InGroup, IsPending;
    var s := [INVITED, RAISED, INVITED, CHECKED];
    ArriveKeepsHoldsIff(Due(), REGISTERED);
    ArriveWellFormed(Due(), REGISTERED);
    DeliveryKeepsHoldsIff(Joined(), 3, true, 0);
    Extend(Start(), s, REGISTERED);
    Extend(Start(), s + [REGISTERED], DELIVERED);
    assert s + [REGISTERED] == [INVITED, RAISED, INVITED, CHECKED, REGISTERED];
    assert s + [REGISTERED] + [DELIVERED] == [INVITED, RAISED, INVITED, CHECKED, REGISTERED, DELIVERED];
    assert Arrive(Joined(), DELIVERED) == RefundInvitation(Joined(), 3, true, 0).state by { ArriveOne(); }
    assert Allowed(Joined(), DELIVERED) by { AllowedOne(); }
  }

  lemma ArriveOne()
    ensures Arrive(Joined(), DELIVERED) == RefundInvitation(Joined(), 3, true, 0).state
  {
    hide RefundInvitation;
  }

  lemma AllowedOne()
    ensures Allowed(Joined(), DELIVERED)
  {
  }

  lemma {:induction false} Extend(s: State, arrivals: seq<Arrival>, a: Arrival)
    ensures RunArrivals(s, arrivals + [a]) == Arrive(RunArrivals(s, arrivals), a)
    ensures AllAllowed(s, arrivals + [a]) <==> AllAllowed(s, arrivals) && Allowed(RunArrivals(s, arrivals), a)
    decreases arrivals
  {
    hide Arrive, Allowed;
    if arrivals == [] {
      assert arrivals + [a] == [a] && [a][1..] == [];
    } else {
      Extend(Arrive(s, arrivals[0]), arrivals[1..], a);
      assert (arrivals + [a])[1..] == arrivals[1..] + [a];
    }
  }
}
