/** The escrow property: outside MAIN, what a wallet's balance exceeds its available balance by
    is what it holds under PENDING groups. First exactly how far each handler moves a wallet
    away from that, then exactly when a handler, and a whole run, keeps it. */
module LedgerEscrow {
  import opened Common
  import opened LedgerModel
  import opened LedgerTables

  /** Zero when the gap between the two balances is exactly the held amount. */
  function Slack(s: State, w: WalletKey): int
    requires w in s.wallets
  {
    s.wallets[w].balance - s.wallets[w].available - Held(s.transactions, s.groups, w)
  }

  ghost predicate HoldInvariant(s: State) {
    forall w :: w in s.wallets && !w.account.Main? ==> Slack(s, w) == 0
  }

  // ---- The exact accounting of every handler ------------------------------------------

  function At(w: WalletKey, k: WalletKey, amount: int): int {
    if w == k then amount else 0
  }

  /** What closing group `g` takes out of the amount held by `w`. */
  function Released(s: State, g: Id, w: WalletKey): int {
    Share(s.groups, g, DebitSum(InGroup(s.transactions, g), w))
  }

  function ReleasedBySend(s: State, g: Option<Id>, w: WalletKey): int {
    if g.Some? then Released(s, g.value, w) else 0
  }

  /** How far event `e` moves `Slack` of wallet `w`. */
  function Drift(s: State, e: Event, w: WalletKey): int {
    match e
    case AcceptedByUser(u, rid, pick, ready) =>
      (match MovedByUser(s, u, rid, pick)
       case None => 0
       case Some(t) =>
         var from := WalletKey(Customer(s.referrals[rid].inviter), t.wallet.coin);
         var main := WalletKey(Main, t.wallet.coin);
         Released(s, s.referrals[rid].group, w)
         - At(w, from, if s.referrals[rid].inviter == u then 2 * t.amount else t.amount)
         - if PaysReward(s, u, rid, pick, ready) then At(w, main, TENTH_REWARD) else 0)
    case AcceptedByOsmo(u, rid, pick) =>
      (match MovedByOsmo(s, u, rid, pick)
       case None => 0
       case Some(t) => Released(s, s.referrals[rid].group, w) - At(w, FUND, t.amount))
    case RefundedInvitation(rid, sponsored, pick) =>
      (match RefundedBy(s, rid, sponsored, pick)
       case None => 0
       case Some(t) =>
         Released(s, s.referrals[rid].group, w) - At(w, RefundTarget(s, rid, sponsored).value, t.amount))
    case RefundedNative(u, coin, amount, g) =>
      if WalletKey(Customer(u), coin) in s.wallets && amount != 0 then ReleasedBySend(s, g, w) else 0
    case RefundedAutoconvert(u, coin, fee, total, g, ready) =>
      if ready && WalletKey(Fees, coin) in s.wallets && WalletKey(Customer(u), coin) in s.wallets &&
         fee != 0 && total != 0
      then ReleasedBySend(s, g, w) else 0
    case _ => 0
  }

  lemma OpenHoldSlack(s: State, k: WalletKey, amount: int, subtype: Subtype,
                      inviter: UserId, phone: string, sponsored: bool, now: int, w: WalletKey)
    requires WellFormed(s) && k in s.wallets && w in s.wallets
    requires subtype.DebitReferralOsmo? || subtype.DebitFiatTransfer?
    ensures Slack(OpenHold(s, k, amount, subtype, inviter, phone, sponsored, now), w) == Slack(s, w)
  {
    var g := s.nextId;
    var groups := s.groups[g := Group(Pending, Some(k.coin))];
    InGroupFresh(s.transactions, g);
    HeldRegroup(s.transactions, s.groups, g, Group(Pending, Some(k.coin)), w);
    HeldAppend(s.transactions, Transaction(k, amount, g, subtype), groups, w);
  }

  lemma PayRewardSlack(s: State, inviter: UserId, coin: Coin, w: WalletKey)
    requires WellFormed(s) && RewardDue(s, inviter, coin) && w in s.wallets
    ensures Slack(PayReward(s, inviter, coin), w) == Slack(s, w) - At(w, WalletKey(Main, coin), TENTH_REWARD)
  {
    var post := PayReward(s, inviter, coin);
    var g := s.nextId;
    var t := Transaction(WalletKey(Main, coin), TENTH_REWARD, g, DebitReferralOsmo);
    var u := Transaction(WalletKey(Customer(inviter), coin), TENTH_REWARD, g, CreditFiatTransfer);
    InGroupFresh(s.transactions, g);
    HeldRegroup(s.transactions, s.groups, g, Group(Completed, None), w);
    HeldAppend(s.transactions, t, post.groups, w);
    HeldAppend(s.transactions + [t], u, post.groups, w);
    assert post.transactions == s.transactions + [t] + [u];
  }

  lemma SettleByUserSlack(s: State, user: UserId, rid: Id, pick: nat, w: WalletKey)
    requires WellFormed(s) && MovedByUser(s, user, rid, pick).Some? && w in s.wallets
    ensures Slack(SettleByUser(s, user, rid, MovedByUser(s, user, rid, pick).value), w)
         == Slack(s, w) + Drift(s, AcceptedByUser(user, rid, pick, false), w)
  {
    var t := MovedByUser(s, user, rid, pick).value;
    var post := SettleByUser(s, user, rid, t);
    HeldAppend(s.transactions, post.transactions[|s.transactions|], post.groups, w);
    HeldClose(s.transactions, s.groups, s.referrals[rid].group, Completed, w);
  }

  lemma AcceptByUserSlack(s: State, user: UserId, rid: Id, pick: nat, ready: bool, w: WalletKey)
    requires WellFormed(s) && w in s.wallets
    ensures w in AcceptByUser(s, user, rid, pick, ready).state.wallets
    ensures Slack(AcceptByUser(s, user, rid, pick, ready).state, w)
         == Slack(s, w) + Drift(s, AcceptedByUser(user, rid, pick, ready), w)
  {
    hide InGroup, Held, DebitSum, Slack, Released, WellFormed;
    var moved := MovedByUser(s, user, rid, pick);
    if moved.Some? {
      SettleByUserSlack(s, user, rid, pick, w);
      var settled := SettleByUser(s, user, rid, moved.value);
      if PaysReward(s, user, rid, pick, ready) {
        SettleByUserWellFormed(s, user, rid, pick);
        PayRewardSlack(settled, s.referrals[rid].inviter, moved.value.wallet.coin, w);
      }
    }
  }

  lemma AcceptByOsmoSlack(s: State, user: UserId, rid: Id, pick: nat, w: WalletKey)
    requires WellFormed(s) && w in s.wallets
    ensures w in AcceptByOsmo(s, user, rid, pick).state.wallets
    ensures Slack(AcceptByOsmo(s, user, rid, pick).state, w)
         == Slack(s, w) + Drift(s, AcceptedByOsmo(user, rid, pick), w)
  {
    var r := AcceptByOsmo(s, user, rid, pick);
    if r.ok {
      HeldAppend(s.transactions, r.state.transactions[|s.transactions|], r.state.groups, w);
      HeldClose(s.transactions, s.groups, s.referrals[rid].group, Completed, w);
    }
  }

  lemma RefundInvitationSlack(s: State, rid: Id, sponsored: bool, pick: nat, w: WalletKey)
    requires w in s.wallets
    ensures w in RefundInvitation(s, rid, sponsored, pick).state.wallets
    ensures Slack(RefundInvitation(s, rid, sponsored, pick).state, w)
         == Slack(s, w) + Drift(s, RefundedInvitation(rid, sponsored, pick), w)
  {
    if RefundInvitation(s, rid, sponsored, pick).ok {
      HeldClose(s.transactions, s.groups, s.referrals[rid].group, Failed, w);
    }
  }

  lemma ScanSlack(s: State, user: UserId, amount: int, w: WalletKey)
    requires WellFormed(s) && w in s.wallets
    ensures w in ScanToReceive(s, user, amount).state.wallets
    ensures Slack(ScanToReceive(s, user, amount).state, w) == Slack(s, w)
  {
    var r := ScanToReceive(s, user, amount);
    if r.ok {
      InGroupFresh(s.transactions, s.nextId);
      HeldRegroup(s.transactions, s.groups, s.nextId, Group(Completed, Some(Sats)), w);
      HeldAppend(s.transactions, r.state.transactions[|s.transactions|], r.state.groups, w);
    }
  }

  lemma CloseSendHeld(s: State, g: Option<Id>, w: WalletKey)
    ensures Held(s.transactions, CloseSend(s.groups, g), w)
         == Held(s.transactions, s.groups, w) - ReleasedBySend(s, g, w)
  {
    if g.Some? { HeldClose(s.transactions, s.groups, g.value, Failed, w); }
  }

  lemma RefundSendSlack(s: State, e: Event, w: WalletKey)
    requires (e.RefundedNative? || e.RefundedAutoconvert?) && w in s.wallets
    ensures w in Step(s, e).wallets
    ensures Slack(Step(s, e), w) == Slack(s, w) + Drift(s, e, w)
  {
    CloseSendHeld(s, e.group, w);
  }

  lemma OpeningSlack(s: State, e: Event, w: WalletKey)
    requires WellFormed(s) && (e.Invited? || e.SentBySms?) && w in s.wallets
    ensures w in Step(s, e).wallets
    ensures Slack(Step(s, e), w) == Slack(s, w)
  {
    if e.Invited? && Invite(s, e.user, e.phone, e.featureOn, e.now).ok {
      OpenHoldSlack(s, FUND, s.reward.value, DebitReferralOsmo, e.user, e.phone, true, e.now, w);
    } else if e.SentBySms? && SendBySms(s, e.user, e.coin, e.amount, e.phone, e.now).ok {
      var k := WalletKey(Customer(e.user), e.coin);
      OpenHoldSlack(s, k, e.amount, DebitFiatTransfer, e.user, e.phone, false, e.now, w);
    }
  }

  /** Every handler, on every input, moves every wallet's slack by exactly `Drift`. */
  lemma StepSlack(s: State, e: Event, w: WalletKey)
    requires WellFormed(s) && w in s.wallets
    ensures w in Step(s, e).wallets
    ensures Slack(Step(s, e), w) == Slack(s, w) + Drift(s, e, w)
  {
    match e
    case Invited(_, _, _, _) => OpeningSlack(s, e, w);
    case SentBySms(_, _, _, _, _) => OpeningSlack(s, e, w);
    case AcceptedByUser(u, rid, pick, ready) => AcceptByUserSlack(s, u, rid, pick, ready, w);
    case AcceptedByOsmo(u, rid, pick) => AcceptByOsmoSlack(s, u, rid, pick, w);
    case RefundedInvitation(rid, sponsored, pick) => RefundInvitationSlack(s, rid, sponsored, pick, w);
    case CheckedExpired(_, _) =>
    case Scanned(u, amount) => ScanSlack(s, u, amount, w);
    case RefundedNative(_, _, _, _) => RefundSendSlack(s, e, w);
    case RefundedAutoconvert(_, _, _, _, _, _) => RefundSendSlack(s, e, w);
    case RewardSet(_) =>
  }

  function TotalDrift(s: State, es: seq<Event>, w: WalletKey): int
    decreases es
  {
    if es == [] then 0 else Drift(s, es[0], w) + TotalDrift(Step(s, es[0]), es[1..], w)
  }

  /** Over every run, from every well-formed ledger: the slack of a wallet is the sum of drifts. */
  lemma {:induction false} RunSlack(s: State, es: seq<Event>, w: WalletKey)
    requires WellFormed(s) && w in s.wallets
    ensures w in Run(s, es).wallets
    ensures Slack(Run(s, es), w) == Slack(s, w) + TotalDrift(s, es, w)
    decreases es
  {
    if es != [] {
      StepSlack(s, es[0], w);
      StepWellFormed(s, es[0]);
      RunSlack(Step(s, es[0]), es[1..], w);
    }
  }

  // ---- Exactly when a handler keeps the escrow property -------------------------------

  /** A condition a caller can check before the step, on the rows the step is about. */
  predicate Sound(s: State, e: Event) {
    match e
    case AcceptedByUser(u, rid, pick, ready) =>
      var t := MovedByUser(s, u, rid, pick);
      t.None? || t.value.amount == 0 ||
      (IsPending(s.groups, s.referrals[rid].group) && !s.referrals[rid].sponsored && s.referrals[rid].inviter != u)
    case AcceptedByOsmo(u, rid, pick) =>
      var t := MovedByOsmo(s, u, rid, pick);
      t.None? || t.value.amount == 0 ||
      (IsPending(s.groups, s.referrals[rid].group) && s.referrals[rid].sponsored)
    case RefundedInvitation(rid, sponsored, pick) =>
      var t := RefundedBy(s, rid, sponsored, pick);
      t.None? || t.value.amount == 0 ||
      (IsPending(s.groups, s.referrals[rid].group) && s.referrals[rid].sponsored == sponsored)
    case RefundedNative(u, coin, amount, g) =>
      WalletKey(Customer(u), coin) !in s.wallets || amount == 0 || SendGroupFree(s, g)
    case RefundedAutoconvert(u, coin, fee, total, g, ready) =>
      !ready || WalletKey(Fees, coin) !in s.wallets || WalletKey(Customer(u), coin) !in s.wallets ||
      fee == 0 || total == 0 ||
      SendGroupFree(s, g)
    case _ => true
  }

  /** The group named by a send's refund is not an open invitation with money in it. */
  predicate SendGroupFree(s: State, g: Option<Id>) {
    g.None? || !IsPending(s.groups, g.value) ||
    (forall t :: t in InGroup(s.transactions, g.value) ==> t.amount == 0)
  }

  /** While a group is PENDING its only transaction is the hold, whichever the lookup picks. */
  lemma PendingHold(s: State, g: Id, pick: nat, w: WalletKey)
    requires WellFormed(s) && IsPending(s.groups, g)
    ensures |InGroup(s.transactions, g)| == 1
    ensures TransactionOf(s, g, pick) == Some(InGroup(s.transactions, g)[0])
    ensures IsDebit(InGroup(s.transactions, g)[0])
    ensures !InGroup(s.transactions, g)[0].wallet.account.Main? && InGroup(s.transactions, g)[0].wallet in s.wallets
    ensures Released(s, g, w) == At(w, InGroup(s.transactions, g)[0].wallet, InGroup(s.transactions, g)[0].amount)
  {
    assert GroupHold(s, g);
    var ts := InGroup(s.transactions, g);
    assert ts == [ts[0]] && pick % 1 == 0;
    DebitSumAppend([], ts[0], w);
    assert [] + [ts[0]] == ts;
  }

  lemma AcceptByUserSoundIff(s: State, u: UserId, rid: Id, pick: nat, ready: bool)
    requires WellFormed(s)
    ensures var e := AcceptedByUser(u, rid, pick, ready);
            (forall w :: w in s.wallets && !w.account.Main? ==> Drift(s, e, w) == 0) <==> Sound(s, e)
  {
    var e := AcceptedByUser(u, rid, pick, ready);
    var moved := MovedByUser(s, u, rid, pick);
    if moved.Some? {
      var row := s.referrals[rid];
      var from := WalletKey(Customer(row.inviter), moved.value.wallet.coin);
      assert RowHold(s, rid);
      if Sound(s, e) {
        forall w | w in s.wallets && !w.account.Main? ensures Drift(s, e, w) == 0 {
          if IsPending(s.groups, row.group) { PendingHold(s, row.group, pick, w); }
        }
      } else {
        if IsPending(s.groups, row.group) { PendingHold(s, row.group, pick, from); }
        assert Drift(s, e, from) != 0;
      }
    }
  }

  lemma AcceptByOsmoSoundIff(s: State, u: UserId, rid: Id, pick: nat)
    requires WellFormed(s)
    ensures var e := AcceptedByOsmo(u, rid, pick);
            (forall w :: w in s.wallets && !w.account.Main? ==> Drift(s, e, w) == 0) <==> Sound(s, e)
  {
    var e := AcceptedByOsmo(u, rid, pick);
    if MovedByOsmo(s, u, rid, pick).Some? {
      assert RowHold(s, rid);
      var g := s.referrals[rid].group;
      if IsPending(s.groups, g) { forall w { PendingHold(s, g, pick, w); } }
      if !Sound(s, e) { assert Drift(s, e, FUND) != 0; }
    }
  }

  lemma RefundSoundIff(s: State, rid: Id, sponsored: bool, pick: nat)
    requires WellFormed(s)
    ensures var e := RefundedInvitation(rid, sponsored, pick);
            (forall w :: w in s.wallets && !w.account.Main? ==> Drift(s, e, w) == 0) <==> Sound(s, e)
  {
    var e := RefundedInvitation(rid, sponsored, pick);
    if RefundedBy(s, rid, sponsored, pick).Some? {
      assert RowHold(s, rid);
      var g := s.referrals[rid].group;
      if IsPending(s.groups, g) { forall w { PendingHold(s, g, pick, w); } }
      if !Sound(s, e) { assert Drift(s, e, RefundTarget(s, rid, sponsored).value) != 0; }
    }
  }

  lemma RefundSendSoundIff(s: State, e: Event)
    requires WellFormed(s) && (e.RefundedNative? || e.RefundedAutoconvert?)
    ensures (forall w :: w in s.wallets && !w.account.Main? ==> Drift(s, e, w) == 0) <==> Sound(s, e)
  {
    if e.group.Some? && IsPending(s.groups, e.group.value) {
      forall w { PendingHold(s, e.group.value, 0, w); }
      var t := InGroup(s.transactions, e.group.value)[0];
      assert t in InGroup(s.transactions, e.group.value);
      assert !Sound(s, e) ==> Drift(s, e, t.wallet) != 0;
    }
  }

  /** Sound events are those that leave the slack of every wallet but MAIN alone. */
  lemma SoundIff(s: State, e: Event)
    requires WellFormed(s)
    ensures (forall w :: w in s.wallets && !w.account.Main? ==> Drift(s, e, w) == 0) <==> Sound(s, e)
  {
    match e
    case AcceptedByUser(u, rid, pick, ready) => AcceptByUserSoundIff(s, u, rid, pick, ready);
    case AcceptedByOsmo(u, rid, pick) => AcceptByOsmoSoundIff(s, u, rid, pick);
    case RefundedInvitation(rid, sponsored, pick) => RefundSoundIff(s, rid, sponsored, pick);
    case RefundedNative(_, _, _, _) => RefundSendSoundIff(s, e);
    case RefundedAutoconvert(_, _, _, _, _, _) => RefundSendSoundIff(s, e);
    case _ =>
  }

  /** From a state with the escrow property, a handler keeps it if and only if it is sound. */
  lemma StepKeepsHoldsIff(s: State, e: Event)
    requires WellFormed(s) && HoldInvariant(s)
    ensures HoldInvariant(Step(s, e)) <==> Sound(s, e)
  {
    hide Step, Drift, Sound, Slack, WellFormed;
    SameWallets(s, e);
    forall w | w in s.wallets ensures w in Step(s, e).wallets && Slack(Step(s, e), w) == Slack(s, w) + Drift(s, e, w) {
      StepSlack(s, e, w);
    }
    SoundIff(s, e);
  }

  lemma SameWallets(s: State, e: Event)
    ensures Step(s, e).wallets.Keys == s.wallets.Keys
  {
  }

  // ---- Whole runs ---------------------------------------------------------------------

  ghost predicate AllSound(s: State, es: seq<Event>)
    decreases es
  {
    es == [] || (Sound(s, es[0]) && AllSound(Step(s, es[0]), es[1..]))
  }

  /** The escrow property holds at the start and after each event of the run. */
  ghost predicate HoldsThroughout(s: State, es: seq<Event>)
    decreases es
  {
    HoldInvariant(s) && (es == [] || HoldsThroughout(Step(s, es[0]), es[1..]))
  }

  lemma {:induction false} RunKeepsHoldsIffFrom(s: State, es: seq<Event>)
    requires WellFormed(s) && HoldInvariant(s)
    ensures HoldsThroughout(s, es) <==> AllSound(s, es)
    decreases es
  {
    if es != [] {
      StepKeepsHoldsIff(s, es[0]);
      StepWellFormed(s, es[0]);
      if HoldInvariant(Step(s, es[0])) {
        RunKeepsHoldsIffFrom(Step(s, es[0]), es[1..]);
      }
    }
  }

  lemma InitialHolds(s: State)
    requires Initial(s)
    ensures WellFormed(s) && HoldInvariant(s)
  {
  }

  /** In a run that starts with an empty ledger, every wallet except MAIN satisfies
      balance - available == held in every reachable state, if and only if every event is sound. */
  lemma RunKeepsHoldsIff(s: State, es: seq<Event>)
    requires Initial(s)
    ensures HoldsThroughout(s, es) <==> AllSound(s, es)
  {
    InitialHolds(s);
    RunKeepsHoldsIffFrom(s, es);
  }
}
