/** How the hold sums react to appending a transaction or rewriting a group, and the table
    invariants every handler keeps on every input. */
module LedgerTables {
  import opened Common
  import opened LedgerModel

  // ---- Held amounts -------------------------------------------------------------------

  function HoldOn(t: Transaction, w: WalletKey): int {
    if IsDebit(t) && t.wallet == w then t.amount else 0
  }

  /** What wallet `w` has reserved: its debits recorded under PENDING groups. */
  function Held(ts: seq<Transaction>, groups: map<Id, Group>, w: WalletKey): int {
    if ts == [] then 0
    else
      var t := ts[|ts| - 1];
      Held(ts[..|ts| - 1], groups, w) + if IsPending(groups, t.group) then HoldOn(t, w) else 0
  }

  function DebitSum(ts: seq<Transaction>, w: WalletKey): int {
    if ts == [] then 0 else DebitSum(ts[..|ts| - 1], w) + HoldOn(ts[|ts| - 1], w)
  }

  lemma DebitSumAppend(ts: seq<Transaction>, t: Transaction, w: WalletKey)
    ensures DebitSum(ts + [t], w) == DebitSum(ts, w) + HoldOn(t, w)
  {
    assert (ts + [t])[..|ts|] == ts;
  }

  lemma HeldAppend(ts: seq<Transaction>, t: Transaction, groups: map<Id, Group>, w: WalletKey)
    ensures Held(ts + [t], groups, w)
         == Held(ts, groups, w) + if IsPending(groups, t.group) then HoldOn(t, w) else 0
  {
    assert (ts + [t])[..|ts|] == ts;
  }

  lemma InGroupAppend(ts: seq<Transaction>, t: Transaction, g: Id)
    ensures InGroup(ts + [t], g) == InGroup(ts, g) + if t.group == g then [t] else []
  {
    assert (ts + [t])[..|ts|] == ts;
  }

  function Share(groups: map<Id, Group>, g: Id, amount: int): int {
    if IsPending(groups, g) then amount else 0
  }

  /** Rewriting one group moves exactly that group's debits in or out of the held sum. */
  lemma {:induction false} HeldRegroup(ts: seq<Transaction>, groups: map<Id, Group>, g: Id, grp: Group, w: WalletKey)
    ensures Held(ts, groups[g := grp], w)
         == Held(ts, groups, w) - Share(groups, g, DebitSum(InGroup(ts, g), w))
            + Share(groups[g := grp], g, DebitSum(InGroup(ts, g), w))
  {
    if ts != [] {
      var rest, t := ts[..|ts| - 1], ts[|ts| - 1];
      HeldRegroup(rest, groups, g, grp, w);
      if t.group == g {
        DebitSumAppend(InGroup(rest, g), t, w);
      } else {
        assert InGroup(ts, g) == InGroup(rest, g);
      }
    }
  }

  /** Taking group `g` out of PENDING releases its debits; otherwise nothing is released. */
  lemma HeldClose(ts: seq<Transaction>, groups: map<Id, Group>, g: Id, status: Status, w: WalletKey)
    requires !status.Pending?
    ensures Held(ts, SetStatus(groups, g, status), w)
         == Held(ts, groups, w) - Share(groups, g, DebitSum(InGroup(ts, g), w))
  {
    if g in groups {
      HeldRegroup(ts, groups, g, groups[g].(status := status), w);
    }
  }

  lemma {:induction false} InGroupFresh(ts: seq<Transaction>, g: Id)
    requires forall i :: 0 <= i < |ts| ==> ts[i].group < g
    ensures InGroup(ts, g) == []
  {
    if ts != [] { InGroupFresh(ts[..|ts| - 1], g); }
  }

  // ---- Table invariants ---------------------------------------------------------------

  /** The wallet the README says funds an invitation: Osmo's referral fund or the inviter's own. */
  function Holder(row: Referral, coin: Coin): WalletKey {
    if row.sponsored then FUND else WalletKey(Customer(row.inviter), coin)
  }

  predicate RowHold(s: State, rid: Id)
    requires rid in s.referrals
  {
    var row := s.referrals[rid];
    row.group in s.groups && s.groups[row.group].coin.Some? &&
    var coin := s.groups[row.group].coin.value;
    (row.sponsored ==> coin == Usd) &&
    (IsPending(s.groups, row.group) ==>
      forall t :: t in InGroup(s.transactions, row.group) ==> t.wallet == Holder(row, coin))
  }

  predicate GroupHold(s: State, g: Id) {
    IsPending(s.groups, g) ==>
      |InGroup(s.transactions, g)| == 1 &&
      var t := InGroup(s.transactions, g)[0];
      IsDebit(t) && t.group == g && !t.wallet.account.Main? && t.wallet in s.wallets
  }

  predicate TasksMatchRows(s: State) {
    forall task :: task in s.tasks ==>
      task.invitation < s.nextId &&
      (task.invitation in s.referrals ==> task.sponsored == s.referrals[task.invitation].sponsored)
  }

  predicate FreshIds(s: State) {
    (forall g :: g in s.groups ==> g < s.nextId) &&
    (forall r :: r in s.referrals ==> r < s.nextId) &&
    (forall i :: 0 <= i < |s.transactions| ==> s.transactions[i].group < s.nextId)
  }

  predicate OwnGroups(s: State) {
    forall r, q :: r in s.referrals && q in s.referrals && s.referrals[r].group == s.referrals[q].group ==> r == q
  }

  /** What the tables satisfy in every reachable state. */
  ghost predicate WellFormed(s: State) {
    FreshIds(s) && OwnGroups(s) && TasksMatchRows(s) &&
    (forall g :: g in s.groups ==> GroupHold(s, g)) &&
    (forall r :: r in s.referrals ==> RowHold(s, r))
  }

  /** A ledger before any handler has run: wallets with nothing reserved, empty tables. */
  predicate Initial(s: State) {
    s.groups == map[] && s.transactions == [] && s.referrals == map[] && s.tasks == {} &&
    forall w :: w in s.wallets ==> s.wallets[w].balance == s.wallets[w].available
  }

  lemma InitialWellFormed(s: State)
    requires Initial(s)
    ensures WellFormed(s)
  {
  }

  // ---- Preservation -------------------------------------------------------------------

  /** A new transaction in group `g` does not disturb the groups other than `g`. */
  lemma AppendElsewhere(ts: seq<Transaction>, t: Transaction)
    ensures forall g :: g != t.group ==> InGroup(ts + [t], g) == InGroup(ts, g)
  {
    forall g | g != t.group ensures InGroup(ts + [t], g) == InGroup(ts, g) {
      InGroupAppend(ts, t, g);
    }
  }

  lemma OpenHoldWellFormed(s: State, k: WalletKey, amount: int, subtype: Subtype,
                           inviter: UserId, phone: string, sponsored: bool, now: int)
    requires WellFormed(s) && k in s.wallets && !k.account.Main?
    requires sponsored ==> k == FUND
    requires !sponsored ==> k.account == Customer(inviter)
    requires subtype.DebitReferralOsmo? || subtype.DebitFiatTransfer?
    ensures WellFormed(OpenHold(s, k, amount, subtype, inviter, phone, sponsored, now))
  {
    var post := OpenHold(s, k, amount, subtype, inviter, phone, sponsored, now);
    var t := Transaction(k, amount, s.nextId, subtype);
    InGroupFresh(s.transactions, s.nextId);
    InGroupAppend(s.transactions, t, s.nextId);
    AppendElsewhere(s.transactions, t);
    forall g | g in post.groups ensures GroupHold(post, g) {
      if g != s.nextId { assert GroupHold(s, g); }
    }
    forall r | r in post.referrals ensures RowHold(post, r) {
      if r != s.nextId + 1 { assert RowHold(s, r); }
    }
    assert forall task :: task in post.tasks ==> task.invitation < s.nextId;
  }

  /** Adding settled business - a COMPLETED or FAILED group and a transaction in it - while the
      set of rows stays or shrinks and the rows keep inviter, sponsor and group. */
  lemma SettledWellFormed(s: State, post: State, t: Transaction)
    requires WellFormed(s) && FreshIds(post)
    requires post.transactions == s.transactions + [t]
    requires !IsPending(post.groups, t.group)
    requires s.groups.Keys <= post.groups.Keys && s.wallets.Keys <= post.wallets.Keys
    requires forall g :: g in post.groups && post.groups[g].status.Pending? ==>
               g in s.groups && s.groups[g] == post.groups[g]
    requires forall g :: g in s.groups ==> post.groups[g].coin == s.groups[g].coin
    requires forall r :: r in post.referrals ==> r in s.referrals && SameOrigin(s.referrals[r], post.referrals[r])
    requires post.tasks == s.tasks && post.nextId >= s.nextId
    ensures WellFormed(post)
  {
    AppendElsewhere(s.transactions, t);
    forall g | g in post.groups ensures GroupHold(post, g) {
      if IsPending(post.groups, g) { assert GroupHold(s, g); }
    }
    forall r | r in post.referrals ensures RowHold(post, r) {
      assert RowHold(s, r);
    }
  }

  /** `q` is what has become of row `r`: an acceptance may have been recorded, nothing else. */
  predicate SameOrigin(r: Referral, q: Referral) {
    r.inviter == q.inviter && r.phone == q.phone && r.sponsored == q.sponsored && r.group == q.group &&
    r.createdAt == q.createdAt && (r.invited.Some? ==> q.invited.Some?)
  }

  /** The same for a step that only closes a group and may drop rows. */
  lemma ClosedWellFormed(s: State, post: State)
    requires WellFormed(s) && FreshIds(post)
    requires post.transactions == s.transactions
    requires post.groups.Keys == s.groups.Keys && s.wallets.Keys <= post.wallets.Keys
    requires forall g :: g in post.groups && post.groups[g].status.Pending? ==> s.groups[g] == post.groups[g]
    requires forall g :: g in s.groups ==> post.groups[g].coin == s.groups[g].coin
    requires forall r :: r in post.referrals ==> r in s.referrals && s.referrals[r] == post.referrals[r]
    requires post.nextId == s.nextId && post.tasks == s.tasks
    ensures WellFormed(post)
  {
    forall g | g in post.groups ensures GroupHold(post, g) {
      if IsPending(post.groups, g) { assert GroupHold(s, g); }
    }
    forall r | r in post.referrals ensures RowHold(post, r) {
      assert RowHold(s, r);
    }
  }

  lemma PayRewardWellFormed(s: State, inviter: UserId, coin: Coin)
    requires WellFormed(s) && RewardDue(s, inviter, coin)
    ensures WellFormed(PayReward(s, inviter, coin))
  {
    var post := PayReward(s, inviter, coin);
    var t := post.transactions[|s.transactions|];
    var half := post.(transactions := s.transactions + [t]);
    SettledWellFormed(s, half, t);
    var u := post.transactions[|s.transactions| + 1];
    assert post.transactions == half.transactions + [u];
    SettledWellFormed(half, post, u);
  }

  lemma SettleByUserWellFormed(s: State, user: UserId, rid: Id, pick: nat)
    requires WellFormed(s) && MovedByUser(s, user, rid, pick).Some?
    ensures WellFormed(SettleByUser(s, user, rid, MovedByUser(s, user, rid, pick).value))
  {
    var settled := SettleByUser(s, user, rid, MovedByUser(s, user, rid, pick).value);
    SettledWellFormed(s, settled, settled.transactions[|s.transactions|]);
  }

  lemma AcceptByUserWellFormed(s: State, user: UserId, rid: Id, pick: nat, ready: bool)
    requires WellFormed(s)
    ensures WellFormed(AcceptByUser(s, user, rid, pick, ready).state)
  {
    var moved := MovedByUser(s, user, rid, pick);
    if moved.Some? {
      var settled := SettleByUser(s, user, rid, moved.value);
      SettleByUserWellFormed(s, user, rid, pick);
      if PaysReward(s, user, rid, pick, ready) {
        PayRewardWellFormed(settled, s.referrals[rid].inviter, moved.value.wallet.coin);
      }
    }
  }

  lemma AcceptByOsmoWellFormed(s: State, user: UserId, rid: Id, pick: nat)
    requires WellFormed(s)
    ensures WellFormed(AcceptByOsmo(s, user, rid, pick).state)
  {
    var moved := MovedByOsmo(s, user, rid, pick);
    if moved.Some? {
      assert RowHold(s, rid);
      var post := AcceptByOsmo(s, user, rid, pick).state;
      SettledWellFormed(s, post, post.transactions[|s.transactions|]);
    }
  }

  lemma InviteWellFormed(s: State, user: UserId, phone: string, featureOn: bool, now: int)
    requires WellFormed(s)
    ensures WellFormed(Invite(s, user, phone, featureOn, now).state)
  {
    if Invite(s, user, phone, featureOn, now).ok {
      OpenHoldWellFormed(s, FUND, s.reward.value, DebitReferralOsmo, user, phone, true, now);
    }
  }

  lemma SendBySmsWellFormed(s: State, user: UserId, coin: Coin, amount: int, phone: string, now: int)
    requires WellFormed(s)
    ensures WellFormed(SendBySms(s, user, coin, amount, phone, now).state)
  {
    if SendBySms(s, user, coin, amount, phone, now).ok {
      OpenHoldWellFormed(s, WalletKey(Customer(user), coin), amount, DebitFiatTransfer, user, phone, false, now);
    }
  }

  lemma RefundInvitationWellFormed(s: State, rid: Id, sponsored: bool, pick: nat)
    requires WellFormed(s)
    ensures WellFormed(RefundInvitation(s, rid, sponsored, pick).state)
  {
    if RefundInvitation(s, rid, sponsored, pick).ok {
      ClosedWellFormed(s, RefundInvitation(s, rid, sponsored, pick).state);
    }
  }

  lemma ScanWellFormed(s: State, user: UserId, amount: int)
    requires WellFormed(s)
    ensures WellFormed(ScanToReceive(s, user, amount).state)
  {
    var r := ScanToReceive(s, user, amount);
    if r.ok { SettledWellFormed(s, r.state, r.state.transactions[|s.transactions|]); }
  }

  lemma RefundNativeWellFormed(s: State, user: UserId, coin: Coin, amount: int, g: Option<Id>)
    requires WellFormed(s)
    ensures WellFormed(RefundNative(s, user, coin, amount, g).state)
  {
    ClosedWellFormed(s, RefundNative(s, user, coin, amount, g).state);
  }

  lemma RefundAutoconvertWellFormed(s: State, user: UserId, coin: Coin, fee: int, total: int, g: Option<Id>,
                                    ready: bool)
    requires WellFormed(s)
    ensures WellFormed(RefundAutoconvert(s, user, coin, fee, total, g, ready).state)
  {
    ClosedWellFormed(s, RefundAutoconvert(s, user, coin, fee, total, g, ready).state);
  }

  /** Every handler keeps the table invariants, whatever its arguments and the lookups' answers. */
  lemma StepWellFormed(s: State, e: Event)
    requires WellFormed(s)
    ensures WellFormed(Step(s, e))
  {
    match e
    case Invited(u, phone, on, now) => InviteWellFormed(s, u, phone, on, now);
    case SentBySms(u, coin, amount, phone, now) => SendBySmsWellFormed(s, u, coin, amount, phone, now);
    case AcceptedByUser(u, rid, pick, ready) => AcceptByUserWellFormed(s, u, rid, pick, ready);
    case AcceptedByOsmo(u, rid, pick) => AcceptByOsmoWellFormed(s, u, rid, pick);
    case RefundedInvitation(rid, sponsored, pick) => RefundInvitationWellFormed(s, rid, sponsored, pick);
    case CheckedExpired(userCutoff, osmoCutoff) => SameTablesWellFormed(s, Step(s, e));
    case Scanned(u, amount) => ScanWellFormed(s, u, amount);
    case RefundedNative(u, coin, amount, g) => RefundNativeWellFormed(s, u, coin, amount, g);
    case RefundedAutoconvert(u, coin, fee, total, g, ready) =>
      RefundAutoconvertWellFormed(s, u, coin, fee, total, g, ready);
    case RewardSet(r) => SameTablesWellFormed(s, Step(s, e));
  }

  /** Enqueuing tasks and changing the setting touch none of the ledger's rows. */
  lemma SameTablesWellFormed(s: State, post: State)
    requires WellFormed(s) && TasksMatchRows(post)
    requires post == s.(tasks := post.tasks, reward := post.reward)
    ensures WellFormed(post)
  {
    forall g | g in post.groups ensures GroupHold(post, g) { assert GroupHold(s, g); }
    forall r | r in post.referrals ensures RowHold(post, r) { assert RowHold(s, r); }
  }

  lemma {:induction false} RunWellFormed(s: State, es: seq<Event>)
    requires WellFormed(s)
    ensures WellFormed(Run(s, es))
    decreases es
  {
    if es != [] {
      StepWellFormed(s, es[0]);
      RunWellFormed(Step(s, es[0]), es[1..]);
    }
  }

  /** A run can also be read from its end. */
  lemma {:induction false} RunSnoc(s: State, es: seq<Event>, e: Event)
    ensures Run(s, es + [e]) == Step(Run(s, es), e)
    decreases es
  {
    hide Step;
    if es == [] {
      assert Run(s, [e]) == Run(Step(s, e), []);
      assert es + [e] == [e];
    } else {
      RunSnoc(Step(s, es[0]), es[1..], e);
      assert (es + [e])[1..] == es[1..] + [e];
    }
  }

  lemma RunCons(s: State, e: Event, es: seq<Event>)
    ensures Run(s, [e] + es) == Run(Step(s, e), es)
  {
    assert ([e] + es)[1..] == es;
  }

  lemma {:induction false} RunConcat(s: State, es: seq<Event>, more: seq<Event>)
    ensures Run(s, es + more) == Run(Run(s, es), more)
    decreases es
  {
    hide Step;
    if es == [] {
      assert es + more == more;
    } else {
      RunConcat(Step(s, es[0]), es[1..], more);
      assert es + more == [es[0]] + (es[1..] + more);
      RunCons(s, es[0], es[1..] + more);
    }
  }
}
