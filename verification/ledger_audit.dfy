/** The audit property: what every wallet has is explained by the recorded transactions - its
    balance by those in COMPLETED groups, its available balance by those in PENDING ones too. First
    exactly how far each event moves a balance away from that, then exactly when an event, a
    registration and a whole run keep it. */
module LedgerAudit {
  import opened Common
  import opened LedgerModel
  import opened LedgerTables
  import opened LedgerEscrow
  import opened LedgerRouting

  /** What a transaction means for wallet `w` once its group is completed. */
  function NetOn(t: Transaction, w: WalletKey): int {
    if t.wallet != w then 0 else if IsDebit(t) then -t.amount else t.amount
  }

  predicate IsCompleted(groups: map<Id, Group>, g: Id) {
    g in groups && groups[g].status.Completed?
  }

  /** Credits less debits of wallet `w` in COMPLETED groups. */
  function Booked(ts: seq<Transaction>, groups: map<Id, Group>, w: WalletKey): int {
    if ts == [] then 0
    else
      var t := ts[|ts| - 1];
      Booked(ts[..|ts| - 1], groups, w) + if IsCompleted(groups, t.group) then NetOn(t, w) else 0
  }

  function NetSum(ts: seq<Transaction>, w: WalletKey): int {
    if ts == [] then 0 else NetSum(ts[..|ts| - 1], w) + NetOn(ts[|ts| - 1], w)
  }

  lemma NetSumAppend(ts: seq<Transaction>, t: Transaction, w: WalletKey)
    ensures NetSum(ts + [t], w) == NetSum(ts, w) + NetOn(t, w)
  {
    assert (ts + [t])[..|ts|] == ts;
  }

  lemma BookedAppend(ts: seq<Transaction>, t: Transaction, groups: map<Id, Group>, w: WalletKey)
    ensures Booked(ts + [t], groups, w)
         == Booked(ts, groups, w) + if IsCompleted(groups, t.group) then NetOn(t, w) else 0
  {
    assert (ts + [t])[..|ts|] == ts;
  }

  function BookedIn(groups: map<Id, Group>, g: Id, amount: int): int {
    if IsCompleted(groups, g) then amount else 0
  }

  /** Rewriting one group moves exactly that group's transactions in or out of the booked sum. */
  lemma {:induction false} BookedRegroup(ts: seq<Transaction>, groups: map<Id, Group>, g: Id, grp: Group, w: WalletKey)
    ensures Booked(ts, groups[g := grp], w)
         == Booked(ts, groups, w) - BookedIn(groups, g, NetSum(InGroup(ts, g), w))
            + BookedIn(groups[g := grp], g, NetSum(InGroup(ts, g), w))
  {
    if ts != [] {
      var rest, t := ts[..|ts| - 1], ts[|ts| - 1];
      BookedRegroup(rest, groups, g, grp, w);
      if t.group == g {
        NetSumAppend(InGroup(rest, g), t, w);
      } else {
        assert InGroup(ts, g) == InGroup(rest, g);
      }
    }
  }

  /** The part of the balance no recorded transaction explains. */
  function Unbooked(s: State, w: WalletKey): int
    requires w in s.wallets
  {
    s.wallets[w].balance - Booked(s.transactions, s.groups, w)
  }

  // ---- The exact accounting of every event --------------------------------------------

  /** What completing group `g` books on `w`. */
  function NewlyBooked(s: State, g: Id, w: WalletKey): int {
    if IsCompleted(s.groups, g) then 0 else NetSum(InGroup(s.transactions, g), w)
  }

  /** What failing group `g` takes off the books of `w`. */
  function TakenOff(s: State, g: Id, w: WalletKey): int {
    BookedIn(s.groups, g, NetSum(InGroup(s.transactions, g), w))
  }

  function TakenOffBySend(s: State, g: Option<Id>, w: WalletKey): int {
    if g.Some? then TakenOff(s, g.value, w) else 0
  }

  /** The inviter's wallet that referralByUser debits, and what it loses beyond the recorded credits:
      twice the amount when inviter and invitee are one. */
  function Payer(s: State, rid: Id, t: Transaction): WalletKey
    requires rid in s.referrals
  {
    WalletKey(Customer(s.referrals[rid].inviter), t.wallet.coin)
  }

  function Payment(s: State, u: UserId, rid: Id, t: Transaction): int
    requires rid in s.referrals
  {
    if s.referrals[rid].inviter == u then 2 * t.amount else t.amount
  }

  /** How far event `e` moves `Unbooked` of wallet `w`. */
  function AuditDrift(s: State, e: Event, w: WalletKey): int {
    match e
    case AcceptedByUser(u, rid, pick, ready) =>
      (match MovedByUser(s, u, rid, pick)
       case None => 0
       case Some(t) =>
         -At(w, Payer(s, rid, t), Payment(s, u, rid, t)) - NewlyBooked(s, s.referrals[rid].group, w))
    case AcceptedByOsmo(u, rid, pick) =>
      (match MovedByOsmo(s, u, rid, pick)
       case None => 0
       case Some(t) => -At(w, FUND, t.amount) - NewlyBooked(s, s.referrals[rid].group, w))
    case RefundedInvitation(rid, sponsored, pick) =>
      if RefundedBy(s, rid, sponsored, pick).None? then 0 else TakenOff(s, s.referrals[rid].group, w)
    case Scanned(_, _) => 0
    case RefundedNative(u, coin, amount, g) =>
      var k := WalletKey(Customer(u), coin);
      if k !in s.wallets || amount == 0 then 0 else At(w, k, amount) + TakenOffBySend(s, g, w)
    case RefundedAutoconvert(u, coin, fee, total, g, ready) =>
      var fees, k := WalletKey(Fees, coin), WalletKey(Customer(u), coin);
      if !ready || fees !in s.wallets || k !in s.wallets || fee == 0 || total == 0 then 0
      else At(w, k, total) - At(w, fees, fee) + TakenOffBySend(s, g, w)
    case _ => 0
  }

  lemma OpeningUnbooked(s: State, e: Event, w: WalletKey)
    requires WellFormed(s) && (e.Invited? || e.SentBySms?) && w in s.wallets
    ensures w in Step(s, e).wallets && Unbooked(Step(s, e), w) == Unbooked(s, w)
  {
    hide InGroup;
    var post := Step(s, e);
    if post != s {
      var g, t := s.nextId, post.transactions[|s.transactions|];
      BookedRegroup(s.transactions, s.groups, g, post.groups[g], w);
      BookedAppend(s.transactions, t, post.groups, w);
      assert post.transactions == s.transactions + [t];
    }
  }

  lemma SettleByUserUnbooked(s: State, u: UserId, rid: Id, pick: nat, w: WalletKey)
    requires MovedByUser(s, u, rid, pick).Some? && w in s.wallets
    ensures Unbooked(SettleByUser(s, u, rid, MovedByUser(s, u, rid, pick).value), w)
         == Unbooked(s, w) + AuditDrift(s, AcceptedByUser(u, rid, pick, false), w)
  {
    hide InGroup, Booked, FindTransaction, NetSum;
    var post := SettleByUser(s, u, rid, MovedByUser(s, u, rid, pick).value);
    var g := s.referrals[rid].group;
    BookedRegroup(s.transactions, s.groups, g, post.groups[g], w);
    BookedAppend(s.transactions, post.transactions[|s.transactions|], post.groups, w);
  }

  lemma PayRewardUnbooked(s: State, inviter: UserId, coin: Coin, w: WalletKey)
    requires WellFormed(s) && RewardDue(s, inviter, coin) && w in s.wallets
    ensures Unbooked(PayReward(s, inviter, coin), w) == Unbooked(s, w)
  {
    var post := PayReward(s, inviter, coin);
    var t, u := post.transactions[|s.transactions|], post.transactions[|s.transactions| + 1];
    InGroupFresh(s.transactions, s.nextId);
    BookedRegroup(s.transactions, s.groups, s.nextId, Group(Completed, None), w);
    BookedAppend(s.transactions, t, post.groups, w);
    BookedAppend(s.transactions + [t], u, post.groups, w);
    assert post.transactions == s.transactions + [t] + [u];
  }

  lemma AcceptByUserUnbooked(s: State, u: UserId, rid: Id, pick: nat, ready: bool, w: WalletKey)
    requires WellFormed(s) && w in s.wallets
    ensures w in AcceptByUser(s, u, rid, pick, ready).state.wallets
    ensures Unbooked(AcceptByUser(s, u, rid, pick, ready).state, w)
         == Unbooked(s, w) + AuditDrift(s, AcceptedByUser(u, rid, pick, ready), w)
  {
    hide InGroup, Booked, Unbooked, NewlyBooked, WellFormed;
    var moved := MovedByUser(s, u, rid, pick);
    if moved.Some? {
      SettleByUserUnbooked(s, u, rid, pick, w);
      SettleByUserWellFormed(s, u, rid, pick);
      if PaysReward(s, u, rid, pick, ready) {
        var settled := SettleByUser(s, u, rid, moved.value);
        PayRewardUnbooked(settled, s.referrals[rid].inviter, moved.value.wallet.coin, w);
      }
    }
  }

  lemma AcceptByOsmoUnbooked(s: State, u: UserId, rid: Id, pick: nat, w: WalletKey)
    requires WellFormed(s) && w in s.wallets
    ensures w in AcceptByOsmo(s, u, rid, pick).state.wallets
    ensures Unbooked(AcceptByOsmo(s, u, rid, pick).state, w)
         == Unbooked(s, w) + AuditDrift(s, AcceptedByOsmo(u, rid, pick), w)
  {
    hide InGroup, Booked, GroupHold, FindTransaction, NetSum;
    if MovedByOsmo(s, u, rid, pick).Some? {
      GroupThere(s, rid);
      var post := AcceptByOsmo(s, u, rid, pick).state;
      var g := s.referrals[rid].group;
      BookedRegroup(s.transactions, s.groups, g, post.groups[g], w);
      BookedAppend(s.transactions, post.transactions[|s.transactions|], post.groups, w);
    }
  }

  lemma FailedTakesOff(s: State, g: Id, w: WalletKey)
    ensures Booked(s.transactions, SetStatus(s.groups, g, Failed), w)
         == Booked(s.transactions, s.groups, w) - TakenOff(s, g, w)
  {
    if g in s.groups { BookedRegroup(s.transactions, s.groups, g, s.groups[g].(status := Failed), w); }
  }

  lemma RefundUnbooked(s: State, e: Event, w: WalletKey)
    requires (e.RefundedInvitation? || e.RefundedNative? || e.RefundedAutoconvert?) && w in s.wallets
    ensures w in Step(s, e).wallets
    ensures Unbooked(Step(s, e), w) == Unbooked(s, w) + AuditDrift(s, e, w)
  {
    hide InGroup, Booked, FindTransaction, TakenOff, SetStatus;
    if e.RefundedInvitation? {
      if e.rid in s.referrals { FailedTakesOff(s, s.referrals[e.rid].group, w); }
    } else if e.group.Some? {
      FailedTakesOff(s, e.group.value, w);
    }
  }

  lemma ScanUnbooked(s: State, u: UserId, amount: int, w: WalletKey)
    requires WellFormed(s) && w in s.wallets
    ensures w in ScanToReceive(s, u, amount).state.wallets
    ensures Unbooked(ScanToReceive(s, u, amount).state, w) == Unbooked(s, w)
  {
    var r := ScanToReceive(s, u, amount);
    if r.ok {
      InGroupFresh(s.transactions, s.nextId);
      BookedRegroup(s.transactions, s.groups, s.nextId, Group(Completed, Some(Sats)), w);
      BookedAppend(s.transactions, r.state.transactions[|s.transactions|], r.state.groups, w);
    }
  }

  /** Every event, on every input, moves what the books leave unexplained by exactly `AuditDrift`. */
  lemma StepUnbooked(s: State, e: Event, w: WalletKey)
    requires WellFormed(s) && w in s.wallets
    ensures w in Step(s, e).wallets && Unbooked(Step(s, e), w) == Unbooked(s, w) + AuditDrift(s, e, w)
  {
    match e
    case Invited(_, _, _, _) => OpeningUnbooked(s, e, w);
    case SentBySms(_, _, _, _, _) => OpeningUnbooked(s, e, w);
    case AcceptedByUser(u, rid, pick, ready) => AcceptByUserUnbooked(s, u, rid, pick, ready, w);
    case AcceptedByOsmo(u, rid, pick) => AcceptByOsmoUnbooked(s, u, rid, pick, w);
    case Scanned(u, amount) => ScanUnbooked(s, u, amount, w);
    case CheckedExpired(_, _) =>
    case RewardSet(_) =>
    case _ => RefundUnbooked(s, e, w);
  }

  function TotalAuditDrift(s: State, es: seq<Event>, w: WalletKey): int
    decreases es
  {
    if es == [] then 0 else AuditDrift(s, es[0], w) + TotalAuditDrift(Step(s, es[0]), es[1..], w)
  }

  lemma {:induction false} RunUnbooked(s: State, es: seq<Event>, w: WalletKey)
    requires WellFormed(s) && w in s.wallets
    ensures w in Run(s, es).wallets && Unbooked(Run(s, es), w) == Unbooked(s, w) + TotalAuditDrift(s, es, w)
    decreases es
  {
    hide Step, AuditDrift, Unbooked, WellFormed;
    if es != [] {
      StepUnbooked(s, es[0], w);
      StepWellFormed(s, es[0]);
      RunUnbooked(Step(s, es[0]), es[1..], w);
    }
  }

  /** After every run from an empty ledger, each wallet's two balances follow from its starting
      balance, the transaction table and the sums of the two drifts. */
  lemma RunBalances(s: State, es: seq<Event>, w: WalletKey)
    requires Initial(s) && w in s.wallets
    ensures var post := Run(s, es);
            w in post.wallets &&
            post.wallets[w].balance ==
              s.wallets[w].balance + Booked(post.transactions, post.groups, w) + TotalAuditDrift(s, es, w) &&
            post.wallets[w].available ==
              post.wallets[w].balance - Held(post.transactions, post.groups, w) - TotalDrift(s, es, w)
  {
    hide Run, TotalDrift, TotalAuditDrift, WellFormed;
    InitialHolds(s);
    RunUnbooked(s, es, w);
    RunSlack(s, es, w);
  }

  // ---- Exactly when an event keeps the audit property ----------------------------------

  /** The transactions of group `g` net to `want`, and to nothing on the other wallets they name. */
  predicate Nets(s: State, g: Id, want: map<WalletKey, int>) {
    var ts := InGroup(s.transactions, g);
    (forall w :: w in want ==> NetSum(ts, w) == want[w]) &&
    (forall t :: t in ts && t.wallet in s.wallets && t.wallet !in want ==> NetSum(ts, t.wallet) == 0)
  }

  /** A condition a caller can check before the event, on the rows the event is about. The acceptances
      that move money are audited on an open invitation held where they take it from, or on a failed
      group that then books exactly what they take; a refund, when the group it fails was not
      completed, or booked what the refund gives back. */
  predicate AuditSound(s: State, e: Event) {
    match e
    case AcceptedByUser(u, rid, pick, ready) =>
      var t := MovedByUser(s, u, rid, pick);
      t.None? ||
      (var row := s.referrals[rid];
       if IsPending(s.groups, row.group) then t.value.amount == 0 || (!row.sponsored && row.inviter != u)
       else if IsCompleted(s.groups, row.group) then t.value.amount == 0
       else Nets(s, row.group, map[Payer(s, rid, t.value) := -Payment(s, u, rid, t.value)]))
    case AcceptedByOsmo(u, rid, pick) =>
      var t := MovedByOsmo(s, u, rid, pick);
      t.None? ||
      (var row := s.referrals[rid];
       if IsPending(s.groups, row.group) then t.value.amount == 0 || row.sponsored
       else if IsCompleted(s.groups, row.group) then t.value.amount == 0
       else Nets(s, row.group, map[FUND := -t.value.amount]))
    case RefundedInvitation(rid, sponsored, pick) =>
      RefundedBy(s, rid, sponsored, pick).None? || !IsCompleted(s.groups, s.referrals[rid].group) ||
      Nets(s, s.referrals[rid].group, map[])
    case RefundedNative(u, coin, amount, g) =>
      var k := WalletKey(Customer(u), coin);
      k !in s.wallets || amount == 0 ||
      (g.Some? && IsCompleted(s.groups, g.value) && Nets(s, g.value, map[k := -amount]))
    case RefundedAutoconvert(u, coin, fee, total, g, ready) =>
      var fees, k := WalletKey(Fees, coin), WalletKey(Customer(u), coin);
      !ready || fees !in s.wallets || k !in s.wallets || fee == 0 || total == 0 ||
      (g.Some? && IsCompleted(s.groups, g.value) && Nets(s, g.value, map[fees := fee, k := -total]))
    case _ => true
  }

  lemma {:induction false} NetSumElsewhere(ts: seq<Transaction>, w: WalletKey)
    requires forall t :: t in ts ==> t.wallet != w
    ensures NetSum(ts, w) == 0
  {
    if ts != [] { NetSumElsewhere(ts[..|ts| - 1], w); }
  }

  lemma NetsIff(s: State, g: Id, want: map<WalletKey, int>)
    requires want.Keys <= s.wallets.Keys
    ensures Nets(s, g, want) <==>
            forall w :: w in s.wallets ==>
              NetSum(InGroup(s.transactions, g), w) == if w in want then want[w] else 0
  {
    hide InGroup, NetSum;
    var ts := InGroup(s.transactions, g);
    forall w | w in s.wallets && forall t :: t in ts ==> t.wallet != w ensures NetSum(ts, w) == 0 {
      NetSumElsewhere(ts, w);
    }
  }

  /** An open invitation's group has nothing but the hold to book. */
  lemma HoldToBook(s: State, rid: Id, pick: nat, w: WalletKey)
    requires WellFormed(s) && rid in s.referrals && IsPending(s.groups, s.referrals[rid].group)
    ensures var row := s.referrals[rid];
            var t := TransactionOf(s, row.group, pick);
            row.group in s.groups && s.groups[row.group].coin.Some? && t.Some? &&
            t.value.wallet == Holder(row, s.groups[row.group].coin.value) && t.value.wallet in s.wallets &&
            NewlyBooked(s, row.group, w) == -At(w, t.value.wallet, t.value.amount)
  {
    assert RowHold(s, rid);
    var g := s.referrals[rid].group;
    PendingHold(s, g, pick, w);
    var t := InGroup(s.transactions, g)[0];
    NetSumAppend([], t, w);
    assert [] + [t] == InGroup(s.transactions, g);
  }

  lemma AcceptByUserAuditIff(s: State, u: UserId, rid: Id, pick: nat, ready: bool)
    requires WellFormed(s)
    ensures var e := AcceptedByUser(u, rid, pick, ready);
            (forall w :: w in s.wallets ==> AuditDrift(s, e, w) == 0) <==> AuditSound(s, e)
  {
    hide InGroup, FindTransaction, NetSum, WellFormed, Nets;
    var e := AcceptedByUser(u, rid, pick, ready);
    var moved := MovedByUser(s, u, rid, pick);
    if moved.Some? {
      var g, from := s.referrals[rid].group, Payer(s, rid, moved.value);
      if IsPending(s.groups, g) {
        forall w { HoldToBook(s, rid, pick, w); }
        hide NewlyBooked;
        if !AuditSound(s, e) { assert AuditDrift(s, e, from) != 0; }
      } else {
        NetsIff(s, g, map[from := -Payment(s, u, rid, moved.value)]);
        if IsCompleted(s.groups, g) && moved.value.amount != 0 { assert AuditDrift(s, e, from) != 0; }
      }
    }
  }

  lemma AcceptByOsmoAuditIff(s: State, u: UserId, rid: Id, pick: nat)
    requires WellFormed(s)
    ensures var e := AcceptedByOsmo(u, rid, pick);
            (forall w :: w in s.wallets ==> AuditDrift(s, e, w) == 0) <==> AuditSound(s, e)
  {
    hide InGroup, FindTransaction, NetSum, WellFormed, Nets;
    var e := AcceptedByOsmo(u, rid, pick);
    var moved := MovedByOsmo(s, u, rid, pick);
    if moved.Some? {
      var g := s.referrals[rid].group;
      if IsPending(s.groups, g) {
        forall w { HoldToBook(s, rid, pick, w); }
        hide NewlyBooked;
        if !AuditSound(s, e) { assert AuditDrift(s, e, FUND) != 0; }
      } else {
        NetsIff(s, g, map[FUND := -moved.value.amount]);
        if IsCompleted(s.groups, g) && moved.value.amount != 0 { assert AuditDrift(s, e, FUND) != 0; }
      }
    }
  }

  lemma RefundAuditIff(s: State, e: Event)
    requires e.RefundedInvitation? || e.RefundedNative? || e.RefundedAutoconvert?
    ensures (forall w :: w in s.wallets ==> AuditDrift(s, e, w) == 0) <==> AuditSound(s, e)
  {
    hide InGroup, FindTransaction, NetSum, Nets;
    match e
    case RefundedInvitation(rid, sponsored, pick) =>
      if rid in s.referrals { NetsIff(s, s.referrals[rid].group, map[]); }
    case RefundedNative(u, coin, amount, g) =>
      var k := WalletKey(Customer(u), coin);
      if k in s.wallets && amount != 0 {
        if g.Some? { NetsIff(s, g.value, map[k := -amount]); }
        if g.None? || !IsCompleted(s.groups, g.value) { assert AuditDrift(s, e, k) != 0; }
      }
    case RefundedAutoconvert(u, coin, fee, total, g, ready) =>
      var fees, k := WalletKey(Fees, coin), WalletKey(Customer(u), coin);
      if ready && fees in s.wallets && k in s.wallets && fee != 0 && total != 0 {
        if g.Some? { NetsIff(s, g.value, map[fees := fee, k := -total]); }
        if g.None? || !IsCompleted(s.groups, g.value) { assert AuditDrift(s, e, k) != 0; }
      }
  }

  /** An event leaves every balance as explained as it was if and only if it is audit-sound. */
  lemma AuditSoundIff(s: State, e: Event)
    requires WellFormed(s)
    ensures (forall w :: w in s.wallets ==> AuditDrift(s, e, w) == 0) <==> AuditSound(s, e)
  {
    match e
    case AcceptedByUser(u, rid, pick, ready) => AcceptByUserAuditIff(s, u, rid, pick, ready);
    case AcceptedByOsmo(u, rid, pick) => AcceptByOsmoAuditIff(s, u, rid, pick);
    case RefundedInvitation(_, _, _) => RefundAuditIff(s, e);
    case RefundedNative(_, _, _, _) => RefundAuditIff(s, e);
    case RefundedAutoconvert(_, _, _, _, _, _) => RefundAuditIff(s, e);
    case _ =>
  }

  // ---- Whole runs ---------------------------------------------------------------------

  /** Every balance is what the wallet had in `start` plus what is booked. */
  ghost predicate Audited(start: State, s: State) {
    forall w :: w in start.wallets ==> w in s.wallets && Unbooked(s, w) == start.wallets[w].balance
  }

  ghost predicate AuditedThroughout(start: State, s: State, es: seq<Event>)
    decreases es
  {
    Audited(start, s) && (es == [] || AuditedThroughout(start, Step(s, es[0]), es[1..]))
  }

  ghost predicate AllAuditSound(s: State, es: seq<Event>)
    decreases es
  {
    es == [] || (AuditSound(s, es[0]) && AllAuditSound(Step(s, es[0]), es[1..]))
  }

  /** From an audited state, an event keeps the audit property if and only if it is audit-sound. */
  lemma StepKeepsAuditIff(start: State, s: State, e: Event)
    requires WellFormed(s) && Audited(start, s) && start.wallets.Keys == s.wallets.Keys
    ensures Audited(start, Step(s, e)) <==> AuditSound(s, e)
  {
    hide Step, AuditDrift, AuditSound, Unbooked, WellFormed;
    forall w | w in s.wallets
      ensures w in Step(s, e).wallets && Unbooked(Step(s, e), w) == Unbooked(s, w) + AuditDrift(s, e, w)
    {
      StepUnbooked(s, e, w);
    }
    AuditSoundIff(s, e);
  }

  lemma {:induction false} RunKeepsAuditIffFrom(start: State, s: State, es: seq<Event>)
    requires WellFormed(s) && Audited(start, s) && start.wallets.Keys == s.wallets.Keys
    ensures AuditedThroughout(start, s, es) <==> AllAuditSound(s, es)
    decreases es
  {
    hide Step, AuditSound, Audited, WellFormed;
    if es != [] {
      StepKeepsAuditIff(start, s, es[0]);
      StepWellFormed(s, es[0]);
      SameWallets(s, es[0]);
      if Audited(start, Step(s, es[0])) { RunKeepsAuditIffFrom(start, Step(s, es[0]), es[1..]); }
    }
  }

  lemma InitialAudited(s: State)
    requires Initial(s)
    ensures WellFormed(s) && Audited(s, s)
  {
  }

  /** In a run that starts with an empty ledger, every balance, MAIN's included, is explained by the
      COMPLETED groups in every reachable state, if and only if every event is audit-sound. */
  lemma RunKeepsAuditIff(s: State, es: seq<Event>)
    requires Initial(s)
    ensures AuditedThroughout(s, s, es) <==> AllAuditSound(s, es)
  {
    InitialAudited(s);
    RunKeepsAuditIffFrom(s, s, es);
  }

  lemma {:induction false} NoDrift(s: State, es: seq<Event>, w: WalletKey)
    requires WellFormed(s) && w in s.wallets
    ensures AllAuditSound(s, es) ==> TotalAuditDrift(s, es, w) == 0
    ensures AllSound(s, es) && !w.account.Main? ==> TotalDrift(s, es, w) == 0
    decreases es
  {
    hide Step, Drift, AuditDrift, Sound, AuditSound, WellFormed;
    if es != [] {
      SoundIff(s, es[0]);
      AuditSoundIff(s, es[0]);
      StepWellFormed(s, es[0]);
      SameWallets(s, es[0]);
      NoDrift(Step(s, es[0]), es[1..], w);
    }
  }

  /** After a run of events sound in both senses, the two balances of a wallet can be recomputed from
      the transaction table: the balance is the starting balance plus what is booked, and the
      available balance of any wallet but MAIN is that less what is held. */
  lemma RunAudited(s: State, es: seq<Event>, w: WalletKey)
    requires Initial(s) && AllSound(s, es) && AllAuditSound(s, es) && w in s.wallets
    ensures var post := Run(s, es);
            w in post.wallets &&
            post.wallets[w].balance == s.wallets[w].balance + Booked(post.transactions, post.groups, w) &&
            (!w.account.Main? ==>
               post.wallets[w].available == post.wallets[w].balance - Held(post.transactions, post.groups, w))
  {
    InitialAudited(s);
    hide Run, Held, Booked, AllSound, AllAuditSound, TotalDrift, TotalAuditDrift, WellFormed, Initial;
    RunBalances(s, es, w);
    NoDrift(s, es, w);
  }

  // ---- Registrations ------------------------------------------------------------------

  /** The second lookup's acceptance is audit-sound: its row is open and sponsored. */
  lemma SecondIsAuditSound(s: State, user: UserId, first: Option<Id>, second: Option<Id>, pick: nat, ready: bool)
    requires Answers(s, user, first, second, pick, ready) && second.Some?
    ensures AuditSound(RouteFirst(s, user, first, pick, ready).state, AcceptedByOsmo(user, second.value, pick))
  {
    hide RouteFirst, InGroup, Nets;
  }

  /** A registration leaves unexplained exactly what its first lookup's acceptance does. */
  lemma RouteUnbooked(s: State, user: UserId, first: Option<Id>, second: Option<Id>, pick: nat, ready: bool,
                      w: WalletKey)
    requires WellFormed(s) && Answers(s, user, first, second, pick, ready) && w in s.wallets
    ensures w in Route(s, user, first, second, pick, ready).state.wallets
    ensures Unbooked(Route(s, user, first, second, pick, ready).state, w)
         == Unbooked(s, w) + if first.None? then 0 else AuditDrift(s, AcceptedByUser(user, first.value, pick, ready), w)
  {
    hide WellFormed, Unbooked, AuditDrift, AuditSound, AcceptByUser, AcceptByOsmo;
    var mid := RouteFirst(s, user, first, pick, ready);
    if first.Some? { StepUnbooked(s, AcceptedByUser(user, first.value, pick, ready), w); }
    RouteWellFormed(s, user, first, pick, ready);
    if mid.ok && second.Some? {
      SecondIsAuditSound(s, user, first, second, pick, ready);
      StepUnbooked(mid.state, AcceptedByOsmo(user, second.value, pick), w);
      AuditSoundIff(mid.state, AcceptedByOsmo(user, second.value, pick));
    }
  }

  /** The first lookup's row is open and sponsored: its acceptance is audit-sound only when it moves
      nothing. */
  lemma FirstAuditSoundIff(s: State, user: UserId, row: Id, pick: nat, ready: bool)
    requires row in s.referrals && s.referrals[row].sponsored && IsPending(s.groups, s.referrals[row].group)
    ensures AuditSound(s, AcceptedByUser(user, row, pick, ready)) <==> Misrouted(s, user, Some(row), pick) == 0
  {
  }

  /** A registration keeps the audit property if and only if its first lookup moves no money. */
  lemma RouteKeepsAuditIff(start: State, s: State, user: UserId, first: Option<Id>, second: Option<Id>,
                           pick: nat, ready: bool)
    requires WellFormed(s) && Audited(start, s) && start.wallets.Keys == s.wallets.Keys
    requires Answers(s, user, first, second, pick, ready)
    ensures Audited(start, Route(s, user, first, second, pick, ready).state) <==> Misrouted(s, user, first, pick) == 0
  {
    var post := Route(s, user, first, second, pick, ready).state;
    if first.Some? { assert first.value in Matching(s, s.users[user].value); }
    hide WellFormed, Unbooked, AuditDrift, AuditSound, Route, Answers;
    forall w | w in s.wallets
      ensures w in post.wallets
      ensures Unbooked(post, w) == Unbooked(s, w) +
                if first.None? then 0 else AuditDrift(s, AcceptedByUser(user, first.value, pick, ready), w)
    {
      RouteUnbooked(s, user, first, second, pick, ready, w);
    }
    if first.Some? {
      AuditSoundIff(s, AcceptedByUser(user, first.value, pick, ready));
      FirstAuditSoundIff(s, user, first.value, pick, ready);
    }
  }

  /** User 1 invites "+2" and user 2 registers: the inviter's balance is 5 dollars less, and the fund's
      5 dollars more, than the transactions say. */
  lemma RegistrationUnaudited()
    ensures Initial(Example()) && Audited(Example(), Sent()) && Answers(Sent(), 2, Some(1), None, 0, true)
    ensures !Audited(Example(), Route(Sent(), 2, Some(1), None, 0, true).state)
  {
    var e := Invited(1, "+2", true, 0);
    InitialAudited(Example());
    RoutingBreaksHolds();
    SentShape();
    hide Example, Route, WellFormed, Answers, Misrouted, Initial, Audited, HoldInvariant;
    StepKeepsAuditIff(Example(), Example(), e);
    SameWallets(Example(), e);
    RouteKeepsAuditIff(Example(), Sent(), 2, Some(1), None, 0, true);
  }
}
