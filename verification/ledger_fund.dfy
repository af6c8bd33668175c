/** Osmo's referral fund stays solvent: 0 <= availableBalance <= balance. Only what draws on the fund
    has to be sound for that; whatever else happens leaves it at least what it holds. */
module LedgerFund {
  import opened Common
  import opened LedgerModel
  import opened LedgerTables
  import opened LedgerEscrow
  import opened LedgerRouting

  predicate RewardInRange(reward: Option<int>) {
    reward.Some? ==> 0 <= reward.value <= MINIMUM_FUND
  }

  /** The reward setting stays between 0 and 250 over the run. */
  predicate RewardsInRange(s: State, es: seq<Event>) {
    RewardInRange(s.reward) && forall i :: 0 <= i < |es| && es[i].RewardSet? ==> RewardInRange(es[i].reward)
  }

  predicate NoNegativeHolds(ts: seq<Transaction>) {
    forall i :: 0 <= i < |ts| && IsDebit(ts[i]) && ts[i].wallet == FUND ==> ts[i].amount >= 0
  }

  ghost predicate FundSafe(s: State) {
    WellFormed(s) && NoNegativeHolds(s.transactions) && RewardInRange(s.reward) &&
    (FUND in s.wallets ==> s.wallets[FUND].available >= 0 && Slack(s, FUND) >= 0)
  }

  predicate Solvent(s: State) {
    FUND in s.wallets ==> 0 <= s.wallets[FUND].available <= s.wallets[FUND].balance
  }

  lemma {:induction false} HeldNonNegative(ts: seq<Transaction>, groups: map<Id, Group>)
    requires NoNegativeHolds(ts)
    ensures Held(ts, groups, FUND) >= 0
  {
    if ts != [] { HeldNonNegative(ts[..|ts| - 1], groups); }
  }

  lemma SafeIsSolvent(s: State)
    requires FundSafe(s)
    ensures Solvent(s)
  {
    HeldNonNegative(s.transactions, s.groups);
  }

  /** What draws on the fund is sound: Osmo's acceptances and the refunds that go to the fund. */
  predicate FundSound(s: State, e: Event) {
    e.AcceptedByOsmo? || (e.RefundedInvitation? && e.sponsored) ==> Sound(s, e)
  }

  ghost predicate AllFundSound(s: State, es: seq<Event>)
    decreases es
  {
    es == [] || (FundSound(s, es[0]) && AllFundSound(Step(s, es[0]), es[1..]))
  }

  lemma {:induction false} DebitSumNonNegative(ts: seq<Transaction>)
    requires NoNegativeHolds(ts)
    ensures DebitSum(ts, FUND) >= 0
  {
    if ts != [] { DebitSumNonNegative(ts[..|ts| - 1]); }
  }

  lemma {:induction false} InGroupNonNegative(ts: seq<Transaction>, g: Id)
    requires NoNegativeHolds(ts)
    ensures NoNegativeHolds(InGroup(ts, g))
  {
    if ts != [] { InGroupNonNegative(ts[..|ts| - 1], g); }
  }

  /** Closing a group never takes anything from the fund's side of the account. */
  lemma ReleasedNonNegative(s: State, g: Id)
    requires NoNegativeHolds(s.transactions)
    ensures Released(s, g, FUND) >= 0
  {
    InGroupNonNegative(s.transactions, g);
    DebitSumNonNegative(InGroup(s.transactions, g));
  }

  /** An event that does not draw on the fund unsoundly leaves the fund no worse off. */
  lemma FundDrift(s: State, e: Event)
    requires FundSafe(s) && FundSound(s, e) && FUND in s.wallets
    ensures Drift(s, e, FUND) >= 0
  {
    hide InGroup, FindTransaction, Released, FundSafe, RewardDue, Sound;
    assert WellFormed(s) && NoNegativeHolds(s.transactions) by { FundSafeFacts(s); }
    forall g ensures Released(s, g, FUND) >= 0 { ReleasedNonNegative(s, g); }
    match e
    case AcceptedByOsmo(_, _, _) => SoundIff(s, e);
    case RefundedInvitation(_, _, _) => if e.sponsored { SoundIff(s, e); }
    case _ =>
  }

  lemma FundSafeFacts(s: State)
    requires FundSafe(s)
    ensures WellFormed(s) && NoNegativeHolds(s.transactions)
  {
  }

  lemma NoNegativeHoldsKept(s: State, e: Event)
    requires WellFormed(s) && NoNegativeHolds(s.transactions) && RewardInRange(s.reward)
    ensures NoNegativeHolds(Step(s, e).transactions)
  {
    hide InGroup, FindTransaction, SetStatus, AddBoth, AddBalance, AddAvailable, GroupHold, RowHold, WellFormed;
  }

  lemma RefundAddsNonNegative(s: State, rid: Id, sponsored: bool, pick: nat)
    requires FundSafe(s) && FundSound(s, RefundedInvitation(rid, sponsored, pick)) && FUND in s.wallets
    ensures FUND in RefundInvitation(s, rid, sponsored, pick).state.wallets
    ensures RefundInvitation(s, rid, sponsored, pick).state.wallets[FUND].available >= 0
  {
    var r := RefundInvitation(s, rid, sponsored, pick);
    if r.ok && sponsored && IsPending(s.groups, s.referrals[rid].group) {
      PendingHold(s, s.referrals[rid].group, pick, FUND);
      assert RowHold(s, rid);
      var ts := InGroup(s.transactions, s.referrals[rid].group);
      assert ts[0] in ts;
      InGroupFrom(s.transactions, s.referrals[rid].group, ts[0]);
    }
  }

  lemma {:induction false} InGroupFrom(ts: seq<Transaction>, g: Id, t: Transaction)
    requires t in InGroup(ts, g)
    ensures t in ts && t.group == g
  {
    if t in InGroup(ts[..|ts| - 1], g) { InGroupFrom(ts[..|ts| - 1], g, t); }
  }

  lemma AvailableKept(s: State, e: Event)
    requires FundSafe(s) && FundSound(s, e) && FUND in s.wallets
    ensures FUND in Step(s, e).wallets && Step(s, e).wallets[FUND].available >= 0
  {
    hide InGroup, FindTransaction, SetStatus, GroupHold, RowHold, Held, WellFormed, Slack;
    match e
    case RefundedInvitation(rid, sponsored, pick) => RefundAddsNonNegative(s, rid, sponsored, pick);
    case _ =>
  }

  lemma StepSafe(s: State, e: Event)
    requires FundSafe(s) && FundSound(s, e) && (e.RewardSet? ==> RewardInRange(e.reward))
    ensures FundSafe(Step(s, e))
  {
    hide Slack, Drift, FundSound, WellFormed;
    StepWellFormed(s, e);
    NoNegativeHoldsKept(s, e);
    SameWallets(s, e);
    if FUND in s.wallets {
      AvailableKept(s, e);
      StepSlack(s, e, FUND);
      FundDrift(s, e);
    }
  }

  lemma {:induction false} RunSafe(s: State, es: seq<Event>)
    requires FundSafe(s) && AllFundSound(s, es) && RewardsInRange(s, es)
    ensures FundSafe(Run(s, es))
    decreases es
  {
    if es != [] {
      assert es[0].RewardSet? ==> RewardInRange(es[0].reward);
      StepSafe(s, es[0]);
      forall i | 0 <= i < |es[1..]| && es[1..][i].RewardSet? ensures RewardInRange(es[1..][i].reward) {
        assert es[1..][i] == es[i + 1];
      }
      RunSafe(Step(s, es[0]), es[1..]);
    }
  }

  lemma InitialSafe(s: State)
    requires Initial(s) && Solvent(s) && RewardInRange(s.reward)
    ensures FundSafe(s)
  {
  }

  /** With the reward setting between 0 and 250 throughout, the referral fund is solvent after every
      run in which Osmo's acceptances and the refunds to the fund are sound - whatever the others do. */
  lemma FundSolvent(s: State, es: seq<Event>)
    requires Initial(s) && Solvent(s) && AllFundSound(s, es) && RewardsInRange(s, es)
    ensures Solvent(Run(s, es))
  {
    InitialSafe(s);
    RunSafe(s, es);
    SafeIsSolvent(Run(s, es));
  }

  /** Outside that range it depends on the fund: a granted invitation leaves it solvent if and only if
      the reward is no more than what it has available and, when negative, no less than what it holds
      back. Available is 250 at least when an invitation is granted, so 250 is the largest reward that is
      always safe. */
  lemma InviteSolventIff(s: State, user: UserId, phone: string, on: bool, now: int)
    requires Solvent(s) && Invite(s, user, phone, on, now).ok
    ensures var fund, reward := s.wallets[FUND], s.reward.value;
            var post := Invite(s, user, phone, on, now).state;
            Solvent(post) <==> fund.available - fund.balance <= reward <= fund.available
    ensures s.wallets[FUND].available >= MINIMUM_FUND
  {
    hide SponsoredBy;
  }

  // ---- Registrations ------------------------------------------------------------------

  lemma ConsFundSound(s: State, e: Event, es: seq<Event>)
    requires FundSound(s, e) && AllFundSound(Step(s, e), es)
    ensures AllFundSound(s, [e] + es)
  {
    hide Step, FundSound;
    assert ([e] + es)[1..] == es;
  }

  /** Whatever a registration finds and moves, it draws on the fund only soundly. */
  lemma RouteIsFundSound(s: State, user: UserId, first: Option<Id>, second: Option<Id>, pick: nat, ready: bool)
    requires WellFormed(s) && Answers(s, user, first, second, pick, ready)
    ensures AllFundSound(s, RouteEvents(s, user, first, second, pick, ready))
  {
    hide Answers, Sound, WellFormed, AcceptByUser, AcceptByOsmo;
    var es := RouteEvents(s, user, first, second, pick, ready);
    if second.Some? { SecondIsSound(s, user, first, second, pick, ready); }
    if |es| == 1 {
      ConsFundSound(s, es[0], []);
      assert es == [es[0]] + [];
    } else if |es| == 2 {
      ConsFundSound(Step(s, es[0]), es[1], []);
      ConsFundSound(s, es[0], [es[1]]);
      assert es == [es[0]] + [es[1]] && [es[1]] == [es[1]] + [];
    }
  }
}
