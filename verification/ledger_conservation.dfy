/** Conservation: how the total balance of a coin changes over a run, event by event. */
module LedgerConservation {
  import opened Common
  import opened LedgerModel
  import opened LedgerTables
  import opened LedgerHistory

  function BalanceIn(c: Coin): (WalletKey, Wallet) -> int {
    (k: WalletKey, w: Wallet) => if k.coin == c then w.balance else 0
  }

  /** The balance of all wallets of coin `c` together. */
  ghost function Total(wallets: map<WalletKey, Wallet>, c: Coin): int {
    MapSum(wallets, BalanceIn(c))
  }

  function In(c: Coin, coin: Coin, amount: int): int {
    if c == coin then amount else 0
  }

  /** What event `e` adds to the total balance of coin `c`. An Osmo acceptance adds the reward
      paid less the amount held; accepting one's own invitation loses the held amount; receptions
      and refunds of sends bring in money from outside the ledger; nothing else adds anything. */
  function Minted(s: State, e: Event, c: Coin): int {
    match e
    case AcceptedByOsmo(u, rid, pick) =>
      var t := MovedByOsmo(s, u, rid, pick);
      if t.None? then 0 else In(c, Usd, s.reward.value - t.value.amount)
    case AcceptedByUser(u, rid, pick, ready) =>
      var t := MovedByUser(s, u, rid, pick);
      if t.Some? && s.referrals[rid].inviter == u then In(c, t.value.wallet.coin, -t.value.amount) else 0
    case Scanned(u, amount) =>
      if WalletKey(Customer(u), Sats) in s.wallets then In(c, Sats, amount) else 0
    case RefundedNative(u, coin, amount, g) =>
      if WalletKey(Customer(u), coin) in s.wallets then In(c, coin, amount) else 0
    case RefundedAutoconvert(u, coin, fee, total, g, ready) =>
      if ready && WalletKey(Fees, coin) in s.wallets && WalletKey(Customer(u), coin) in s.wallets &&
         fee != 0 && total != 0
      then In(c, coin, total - fee) else 0
    case _ => 0
  }

  lemma TotalPut(ws: map<WalletKey, Wallet>, k: WalletKey, w: Wallet, c: Coin)
    requires k in ws
    ensures Total(ws[k := w], c) == Total(ws, c) + In(c, k.coin, w.balance - ws[k].balance)
  {
    MapSumUpdate(ws, BalanceIn(c), k, w);
  }

  lemma TotalAcceptByUser(s: State, u: UserId, rid: Id, pick: nat, ready: bool, c: Coin)
    ensures Total(AcceptByUser(s, u, rid, pick, ready).state.wallets, c)
         == Total(s.wallets, c) + Minted(s, AcceptedByUser(u, rid, pick, ready), c)
  {
    var moved := MovedByUser(s, u, rid, pick);
    if moved.Some? {
      var t := moved.value;
      var from := WalletKey(Customer(s.referrals[rid].inviter), t.wallet.coin);
      var to := WalletKey(Customer(u), t.wallet.coin);
      var credited := AddBoth(s.wallets, to, t.amount);
      var settled := SettleByUser(s, u, rid, t);
      TotalPut(s.wallets, to, credited[to], c);
      TotalPut(credited, from, settled.wallets[from], c);
      if PaysReward(s, u, rid, pick, ready) {
        var main := WalletKey(Main, t.wallet.coin);
        var paid := AddBoth(settled.wallets, from, TENTH_REWARD);
        TotalPut(settled.wallets, from, paid[from], c);
        TotalPut(paid, main, AddBalance(paid, main, -TENTH_REWARD)[main], c);
      }
    }
  }

  lemma TotalAcceptByOsmo(s: State, u: UserId, rid: Id, pick: nat, c: Coin)
    ensures Total(AcceptByOsmo(s, u, rid, pick).state.wallets, c)
         == Total(s.wallets, c) + Minted(s, AcceptedByOsmo(u, rid, pick), c)
  {
    var moved := MovedByOsmo(s, u, rid, pick);
    if moved.Some? {
      var debited := AddBalance(s.wallets, FUND, -moved.value.amount);
      var to := WalletKey(Customer(u), Usd);
      TotalPut(s.wallets, FUND, debited[FUND], c);
      TotalPut(debited, to, AddBoth(debited, to, s.reward.value)[to], c);
    }
  }

  lemma TotalRefundAutoconvert(s: State, u: UserId, coin: Coin, fee: int, total: int, g: Option<Id>, ready: bool,
                               c: Coin)
    ensures Total(RefundAutoconvert(s, u, coin, fee, total, g, ready).state.wallets, c)
         == Total(s.wallets, c) + Minted(s, RefundedAutoconvert(u, coin, fee, total, g, ready), c)
  {
    var fees, k := WalletKey(Fees, coin), WalletKey(Customer(u), coin);
    if fees in s.wallets && k in s.wallets {
      var debited := AddBoth(s.wallets, fees, -fee);
      TotalPut(s.wallets, fees, debited[fees], c);
      TotalPut(debited, k, AddBoth(debited, k, total)[k], c);
    }
  }

  /** One entry rewritten: the cases that touch a single wallet. */
  lemma TotalSingle(s: State, e: Event, k: WalletKey, c: Coin)
    requires k in s.wallets && Step(s, e).wallets == s.wallets[k := Step(s, e).wallets[k]]
    ensures Total(Step(s, e).wallets, c)
         == Total(s.wallets, c) + In(c, k.coin, Step(s, e).wallets[k].balance - s.wallets[k].balance)
  {
    TotalPut(s.wallets, k, Step(s, e).wallets[k], c);
  }

  /** Every event, on every state, changes the total of every coin by exactly `Minted`. */
  lemma StepTotal(s: State, e: Event, c: Coin)
    ensures Total(Step(s, e).wallets, c) == Total(s.wallets, c) + Minted(s, e, c)
  {
    match e
    case Invited(_, _, _, _) => if Step(s, e) != s { TotalSingle(s, e, FUND, c); }
    case SentBySms(u, coin, _, _, _) => if Step(s, e) != s { TotalSingle(s, e, WalletKey(Customer(u), coin), c); }
    case AcceptedByUser(u, rid, pick, ready) => TotalAcceptByUser(s, u, rid, pick, ready, c);
    case AcceptedByOsmo(u, rid, pick) => TotalAcceptByOsmo(s, u, rid, pick, c);
    case RefundedInvitation(rid, sponsored, pick) =>
      if RefundedBy(s, rid, sponsored, pick).Some? { TotalSingle(s, e, RefundTarget(s, rid, sponsored).value, c); }
    case CheckedExpired(_, _) =>
    case Scanned(u, _) => if Step(s, e) != s { TotalSingle(s, e, WalletKey(Customer(u), Sats), c); }
    case RefundedNative(u, coin, _, _) => if Step(s, e) != s { TotalSingle(s, e, WalletKey(Customer(u), coin), c); }
    case RefundedAutoconvert(u, coin, fee, total, g, ready) =>
      TotalRefundAutoconvert(s, u, coin, fee, total, g, ready, c);
    case RewardSet(_) =>
  }

  function TotalMinted(s: State, es: seq<Event>, c: Coin): int
    decreases es
  {
    if es == [] then 0 else Minted(s, es[0], c) + TotalMinted(Step(s, es[0]), es[1..], c)
  }

  /** Over every run the total balance of a coin changes by exactly the sum of `Minted`. */
  lemma {:induction false} RunTotal(s: State, es: seq<Event>, c: Coin)
    ensures Total(Run(s, es).wallets, c) == Total(s.wallets, c) + TotalMinted(s, es, c)
    decreases es
  {
    if es != [] {
      StepTotal(s, es[0], c);
      RunTotal(Step(s, es[0]), es[1..], c);
    }
  }

  // ---- Conservation while the reward setting stays ------------------------------------

  /** An event of the invitation protocol; Osmo's acceptance is of an open sponsored row, as `referral`
      finds them. The reward setting does not change. */
  predicate Proper(s: State, e: Event) {
    match e
    case AcceptedByOsmo(u, rid, _) =>
      rid in s.referrals ==> s.referrals[rid].sponsored && IsPending(s.groups, s.referrals[rid].group)
    case _ => e.AcceptedByUser? || e.Invited? || e.SentBySms? || e.RefundedInvitation? || e.CheckedExpired?
  }

  ghost predicate AllProper(s: State, es: seq<Event>)
    decreases es
  {
    es == [] || (Proper(s, es[0]) && AllProper(Step(s, es[0]), es[1..]))
  }

  /** An inviter accepts an invitation of their own that moves money in coin `c`. */
  predicate AcceptsOwn(s: State, e: Event, c: Coin) {
    e.AcceptedByUser? &&
    var t := MovedByUser(s, e.user, e.rid, e.pick);
    t.Some? && s.referrals[e.rid].inviter == e.user && t.value.wallet.coin == c && t.value.amount != 0
  }

  ghost predicate NoneAcceptsOwn(s: State, es: seq<Event>, c: Coin)
    decreases es
  {
    es == [] || (!AcceptsOwn(s, es[0], c) && NoneAcceptsOwn(Step(s, es[0]), es[1..], c))
  }

  /** Every open sponsored invitation holds the current reward. */
  predicate HeldAtReward(s: State) {
    forall rid :: rid in s.referrals && s.referrals[rid].sponsored && IsPending(s.groups, s.referrals[rid].group) ==>
      forall t :: t in InGroup(s.transactions, s.referrals[rid].group) ==> s.reward == Some(t.amount)
  }

  /** A row an event adds under sponsorship holds the reward of the moment. */
  lemma NewRowAtReward(s: State, e: Event, rid: Id)
    requires WellFormed(s) && rid >= s.nextId && rid in Step(s, e).referrals && Step(s, e).referrals[rid].sponsored
    ensures Step(s, e).referrals[rid].group == s.nextId
    ensures forall t :: t in InGroup(Step(s, e).transactions, s.nextId) ==> s.reward == Some(t.amount)
  {
    hide InGroup, FindTransaction, SetStatus, AddBoth, AddBalance, AddAvailable, GroupHold, RowHold;
    assert e.Invited? && Invite(s, e.user, e.phone, e.featureOn, e.now).ok;
    FirstOfGroup(s.transactions, Transaction(FUND, s.reward.value, s.nextId, DebitReferralOsmo));
  }

  lemma RewardStays(s: State, e: Event)
    requires !e.RewardSet?
    ensures Step(s, e).reward == s.reward
  {
  }

  lemma HeldAtRewardKept(s: State, e: Event)
    requires WellFormed(s) && HeldAtReward(s) && Proper(s, e)
    ensures HeldAtReward(Step(s, e))
  {
    hide Step, InGroup, WellFormed;
    var post := Step(s, e);
    RewardStays(s, e);
    forall rid | rid in post.referrals && post.referrals[rid].sponsored &&
                 IsPending(post.groups, post.referrals[rid].group)
      ensures forall t :: t in InGroup(post.transactions, post.referrals[rid].group) ==> post.reward == Some(t.amount)
    {
      if rid < s.nextId {
        RowKept(s, e, rid);
        GroupBelowCounter(s, rid);
        PendingUntouched(s, e, post.referrals[rid].group);
      } else {
        NewRowAtReward(s, e, rid);
      }
    }
  }

  lemma GroupBelowCounter(s: State, rid: Id)
    requires WellFormed(s) && rid in s.referrals
    ensures s.referrals[rid].group < s.nextId
  {
    assert RowHold(s, rid);
  }

  lemma ProperMintsIff(s: State, e: Event, c: Coin)
    requires WellFormed(s) && HeldAtReward(s) && Proper(s, e)
    ensures Minted(s, e, c) == 0 <==> !AcceptsOwn(s, e, c)
  {
    if e.AcceptedByOsmo? && MovedByOsmo(s, e.user, e.rid, e.pick).Some? {
      assert MovedByOsmo(s, e.user, e.rid, e.pick).value in InGroup(s.transactions, s.referrals[e.rid].group);
    }
  }

  /** The total of coin `c` is `total` at the start and after each event of the run. */
  ghost predicate ConservedThroughout(total: int, s: State, es: seq<Event>, c: Coin)
    decreases es
  {
    Total(s.wallets, c) == total && (es == [] || ConservedThroughout(total, Step(s, es[0]), es[1..], c))
  }

  lemma {:induction false} ConservedIffFrom(s: State, es: seq<Event>, c: Coin)
    requires WellFormed(s) && HeldAtReward(s) && AllProper(s, es)
    ensures ConservedThroughout(Total(s.wallets, c), s, es, c) <==> NoneAcceptsOwn(s, es, c)
    decreases es
  {
    hide Step, Minted, Proper, AcceptsOwn, HeldAtReward, WellFormed, Total;
    if es != [] {
      StepTotal(s, es[0], c);
      ProperMintsIff(s, es[0], c);
      StepWellFormed(s, es[0]);
      HeldAtRewardKept(s, es[0]);
      ConservedIffFrom(Step(s, es[0]), es[1..], c);
    }
  }

  /** A run of invitations, acceptances, refunds and ten-referral rewards under one reward setting
      conserves the total of a coin in every reachable state if and only if nobody accepts an
      invitation of their own that moves money in that coin. */
  lemma RunConservedIff(s: State, es: seq<Event>, c: Coin)
    requires Initial(s) && AllProper(s, es)
    ensures ConservedThroughout(Total(s.wallets, c), s, es, c) <==> NoneAcceptsOwn(s, es, c)
  {
    InitialWellFormed(s);
    ConservedIffFrom(s, es, c);
  }

  lemma {:induction false} ConservedAtEnd(total: int, s: State, es: seq<Event>, c: Coin)
    requires ConservedThroughout(total, s, es, c)
    ensures Total(Run(s, es).wallets, c) == total
    decreases es
  {
    hide Step, Total;
    if es != [] { ConservedAtEnd(total, Step(s, es[0]), es[1..], c); }
  }

  /** So without such acceptances the total at the end is the total at the start. */
  lemma RunConserved(s: State, es: seq<Event>, c: Coin)
    requires Initial(s) && AllProper(s, es) && NoneAcceptsOwn(s, es, c)
    ensures Total(Run(s, es).wallets, c) == Total(s.wallets, c)
  {
    RunConservedIff(s, es, c);
    ConservedAtEnd(Total(s.wallets, c), s, es, c);
  }
}
