/** What each handler answers and leaves, told from outside: exactly when it succeeds, and what it does to
    every wallet, group, row and task. Amounts and limits are written out. */
module LedgerOutcomes {
  import opened Common
  import opened LedgerModel
  import opened LedgerTables
  import opened LedgerHistory
  import opened LedgerReward
  import opened LedgerRouting

  // ---- Lookups ------------------------------------------------------------------------

  lemma {:induction false} InGroupIff(ts: seq<Transaction>, g: Id, t: Transaction)
    ensures t in InGroup(ts, g) <==> t in ts && t.group == g
  {
    if ts != [] {
      InGroupIff(ts[..|ts| - 1], g, t);
      assert t in ts <==> t in ts[..|ts| - 1] || t == ts[|ts| - 1];
    }
  }

  /** A lookup by group answers with a transaction of the group, if there is one, and may answer with
      any of them. */
  lemma FindIff(ts: seq<Transaction>, g: Id, t: Transaction)
    ensures (exists pick :: FindTransaction(ts, g, pick) == Some(t)) <==> t in ts && t.group == g
    ensures forall pick :: FindTransaction(ts, g, pick).None? ==> t !in ts || t.group != g
  {
    InGroupIff(ts, g, t);
    hide InGroup;
    var found := InGroup(ts, g);
    if t in found {
      var i :| 0 <= i < |found| && found[i] == t;
      PickOne(i, |found|);
      assert FindTransaction(ts, g, i) == Some(t);
    }
    if pick: nat :| FindTransaction(ts, g, pick) == Some(t) {
      assert found[pick % |found|] == t;
    }
  }

  lemma PickOne(i: nat, n: nat)
    requires i < n
    ensures i % n == i
  {
  }

  lemma FindIsThere(ts: seq<Transaction>, g: Id, pick: nat)
    requires FindTransaction(ts, g, pick).Some?
    ensures FindTransaction(ts, g, pick).value in ts && FindTransaction(ts, g, pick).value.group == g
  {
    FindIff(ts, g, FindTransaction(ts, g, pick).value);
  }

  // ---- Wallets, one by one ------------------------------------------------------------

  function If(c: bool, amount: int): int { if c then amount else 0 }

  /** The wallets are the same ones, and `w` has changed by the two amounts. */
  predicate Changed(s: State, post: State, w: WalletKey, balance: int, available: int)
    requires w in s.wallets
  {
    post.wallets.Keys == s.wallets.Keys &&
    post.wallets[w] == Wallet(s.wallets[w].balance + balance, s.wallets[w].available + available)
  }

  /** Users, tasks and the reward setting are as they were. */
  predicate SameRest(s: State, post: State) {
    post.users == s.users && post.tasks == s.tasks && post.reward == s.reward
  }

  /** Group `g` has the new status, and no other group has changed. */
  predicate Restated(s: State, post: State, g: Id, status: Status) {
    s.groups.Keys <= post.groups.Keys &&
    forall h :: h in s.groups ==> post.groups[h] == if h == g then Group(status, s.groups[h].coin) else s.groups[h]
  }

  // ---- Opening ------------------------------------------------------------------------

  /** `amount` is out of wallet `k`'s available balance, under a new PENDING group with one debit, for a
      new row. */
  ghost predicate Reserved(s: State, post: State, k: WalletKey, amount: int, subtype: Subtype, row: Referral) {
    (forall w :: w in s.wallets ==> Changed(s, post, w, 0, If(w == k, -amount))) &&
    row.group !in s.groups && post.groups == s.groups[row.group := Group(Pending, Some(k.coin))] &&
    post.transactions == s.transactions + [Transaction(k, amount, row.group, subtype)] &&
    (exists rid: Id :: rid !in s.referrals && post.referrals == s.referrals[rid := row]) && SameRest(s, post)
  }

  lemma OpenHoldReserves(s: State, k: WalletKey, amount: int, subtype: Subtype,
                         inviter: UserId, phone: string, sponsored: bool, now: int)
    requires WellFormed(s) && k in s.wallets
    ensures Reserved(s, OpenHold(s, k, amount, subtype, inviter, phone, sponsored, now), k, amount, subtype,
                     Referral(inviter, None, phone, sponsored, s.nextId, now))
  {
    var post := OpenHold(s, k, amount, subtype, inviter, phone, sponsored, now);
    var row := Referral(inviter, None, phone, sponsored, s.nextId, now);
    assert s.nextId + 1 !in s.referrals && post.referrals == s.referrals[s.nextId + 1 := row];
  }

  /** An invitation is granted to a user of the feature with fewer than ten sponsored rows while the fund
      has 250 dollars available and the reward is set; it reserves the reward. */
  lemma InviteExact(s: State, user: UserId, phone: string, on: bool, now: int)
    requires WellFormed(s)
    ensures Invite(s, user, phone, on, now).ok <==>
            on && user in s.users && s.reward.Some? && FUND in s.wallets && s.wallets[FUND].available >= 250_00000 &&
            |(set r | r in s.referrals && s.referrals[r].inviter == user && s.referrals[r].sponsored)| < 10
    ensures !Invite(s, user, phone, on, now).ok ==> Invite(s, user, phone, on, now).state == s
    ensures Invite(s, user, phone, on, now).ok ==>
              Reserved(s, Invite(s, user, phone, on, now).state, FUND, s.reward.value, DebitReferralOsmo,
                       Referral(user, None, phone, true, s.nextId, now))
  {
    hide OpenHold, Reserved, WellFormed;
    assert SponsoredBy(s.referrals, user)
        == set r | r in s.referrals && s.referrals[r].inviter == user && s.referrals[r].sponsored;
    if Invite(s, user, phone, on, now).ok {
      OpenHoldReserves(s, FUND, s.reward.value, DebitReferralOsmo, user, phone, true, now);
    }
  }

  /** Money is sent by SMS if and only if the user and the wallet exist and the amount is available. */
  lemma SendBySmsExact(s: State, user: UserId, coin: Coin, amount: int, phone: string, now: int)
    requires WellFormed(s)
    ensures var k := WalletKey(Customer(user), coin);
            var r := SendBySms(s, user, coin, amount, phone, now);
            (r.ok <==> user in s.users && k in s.wallets && amount <= s.wallets[k].available) &&
            (!r.ok ==> r.state == s) &&
            (r.ok ==> Reserved(s, r.state, k, amount, DebitFiatTransfer,
                               Referral(user, None, phone, false, s.nextId, now)))
  {
    hide OpenHold, Reserved, WellFormed;
    if SendBySms(s, user, coin, amount, phone, now).ok {
      OpenHoldReserves(s, WalletKey(Customer(user), coin), amount, DebitFiatTransfer, user, phone, false, now);
    }
  }

  /** Nor does any send of any run take what a wallet has available below zero. */
  lemma SendNeverOverdraws(s: State, es: seq<Event>, i: nat, w: WalletKey)
    requires i < |es| && es[i].SentBySms? && w in Run(s, es[..i]).wallets
    ensures var before := Run(s, es[..i]).wallets[w].available;
            var after := Step(Run(s, es[..i]), es[i]).wallets;
            w in after && (after[w].available == before || after[w].available >= 0)
  {
    hide Run;
  }

  predicate NoNegativeAmounts(ts: seq<Transaction>) {
    forall i :: 0 <= i < |ts| ==> ts[i].amount >= 0
  }

  /** The amounts the event brings are not negative. */
  predicate NotNegative(e: Event) {
    match e
    case SentBySms(_, _, amount, _, _) => amount >= 0
    case Scanned(_, amount) => amount >= 0
    case RefundedNative(_, _, amount, _) => amount >= 0
    case RefundedAutoconvert(_, _, _, total, _, _) => total >= 0
    case RewardSet(reward) => reward.Some? ==> reward.value >= 0
    case _ => true
  }

  predicate Covered(s: State) {
    NoNegativeAmounts(s.transactions) && (s.reward.Some? ==> s.reward.value >= 0) &&
    forall w :: w in s.wallets && w.account.Customer? ==> s.wallets[w].available >= 0
  }

  lemma MovedNotNegative(ts: seq<Transaction>, g: Id, pick: nat)
    requires NoNegativeAmounts(ts) && FindTransaction(ts, g, pick).Some?
    ensures FindTransaction(ts, g, pick).value.amount >= 0
  {
    hide FindTransaction;
    FindIsThere(ts, g, pick);
  }

  lemma StepCovered(s: State, e: Event)
    requires Covered(s) && NotNegative(e)
    ensures Covered(Step(s, e))
  {
    hide InGroup, FindTransaction, InvitedBy, SponsoredBy, SetStatus;
    forall g, pick | FindTransaction(s.transactions, g, pick).Some?
      ensures FindTransaction(s.transactions, g, pick).value.amount >= 0
    {
      MovedNotNegative(s.transactions, g, pick);
    }
    match e
    case AcceptedByUser(u, rid, pick, ready) => AcceptByUserCovered(s, u, rid, pick, ready);
    case _ =>
  }

  lemma AcceptByUserCovered(s: State, u: UserId, rid: Id, pick: nat, ready: bool)
    requires Covered(s)
    ensures Covered(AcceptByUser(s, u, rid, pick, ready).state)
  {
    hide InGroup, FindTransaction, InvitedBy, SetStatus;
    var moved := MovedByUser(s, u, rid, pick);
    if moved.Some? {
      MovedNotNegative(s.transactions, s.referrals[rid].group, pick);
    }
  }

  /** With no negative amounts in its events, no run overdraws a customer's available balance. */
  lemma {:induction false} CustomersNeverOverdrawn(s: State, es: seq<Event>)
    requires Covered(s) && forall i :: 0 <= i < |es| ==> NotNegative(es[i])
    ensures Covered(Run(s, es))
    decreases es
  {
    hide Step, Covered, NotNegative;
    if es != [] {
      StepCovered(s, es[0]);
      var rest := es[1..];
      assert forall i :: 0 <= i < |rest| ==> rest[i] == es[i + 1];
      CustomersNeverOverdrawn(Step(s, es[0]), rest);
    }
  }

  // ---- Acceptance ---------------------------------------------------------------------

  /** referralByUser's database transaction commits if and only if the user, the row, a transaction of its
      group, the group and both users' wallets of that transaction's coin are there. */
  lemma MovedByUserIff(s: State, u: UserId, rid: Id, pick: nat)
    ensures MovedByUser(s, u, rid, pick).Some? <==>
            u in s.users && rid in s.referrals && s.referrals[rid].group in s.groups &&
            var t := TransactionOf(s, s.referrals[rid].group, pick);
            t.Some? && WalletKey(Customer(u), t.value.wallet.coin) in s.wallets &&
            WalletKey(Customer(s.referrals[rid].inviter), t.value.wallet.coin) in s.wallets
    ensures MovedByUser(s, u, rid, pick).Some? ==>
              MovedByUser(s, u, rid, pick).value in s.transactions &&
              MovedByUser(s, u, rid, pick).value.group == s.referrals[rid].group
  {
    hide FindTransaction;
    if MovedByUser(s, u, rid, pick).Some? { FindIsThere(s.transactions, s.referrals[rid].group, pick); }
  }

  /** An acceptance by a user returns normally if and only if it commits, the payout is configured, and
      MAIN's wallet is there in case the inviter has ten rows. */
  lemma AcceptByUserOkIff(s: State, u: UserId, rid: Id, pick: nat, ready: bool)
    ensures AcceptByUser(s, u, rid, pick, ready).ok <==>
            MovedByUser(s, u, rid, pick).Some? && ready &&
            (|(set r | r in s.referrals && s.referrals[r].inviter == s.referrals[rid].inviter)| == 10 ==>
               WalletKey(Main, MovedByUser(s, u, rid, pick).value.wallet.coin) in s.wallets)
    ensures MovedByUser(s, u, rid, pick).None? ==> AcceptByUser(s, u, rid, pick, ready).state == s
  {
    hide InGroup, FindTransaction, SetStatus;
    if MovedByUser(s, u, rid, pick).Some? {
      var row := s.referrals[rid];
      InvitedByKept(s.referrals, rid, row.(invited := Some(u)), row.inviter);
      assert InvitedBy(s.referrals, row.inviter) == set r | r in s.referrals && s.referrals[r].inviter == row.inviter;
    }
  }

  /** What it does to every wallet: the invitee gets the amount, the inviter's balance loses it - after
      the invitee's credit, and over it if they are one - and the reward of 10 goes from MAIN to the
      inviter. */
  lemma AcceptByUserWallets(s: State, u: UserId, rid: Id, pick: nat, ready: bool, w: WalletKey)
    requires MovedByUser(s, u, rid, pick).Some? && w in s.wallets
    ensures var t := MovedByUser(s, u, rid, pick).value;
            var from := WalletKey(Customer(s.referrals[rid].inviter), t.wallet.coin);
            var to := WalletKey(Customer(u), t.wallet.coin);
            var reward := If(PaysReward(s, u, rid, pick, ready), 10_00000);
            Changed(s, AcceptByUser(s, u, rid, pick, ready).state, w,
                    If(w == to && to != from, t.amount) - If(w == from, t.amount)
                      + If(w == from, reward) - If(w == WalletKey(Main, t.wallet.coin), reward),
                    If(w == to, t.amount) + If(w == from, reward))
  {
    hide InGroup, FindTransaction, InvitedBy, SetStatus;
  }

  /** What it does to the other tables: the group is COMPLETED, the row names the invitee, the credit is
      recorded; a reward has a COMPLETED group of its own with a debit of MAIN and a credit. */
  lemma AcceptByUserTables(s: State, u: UserId, rid: Id, pick: nat, ready: bool)
    requires WellFormed(s) && MovedByUser(s, u, rid, pick).Some?
    ensures var t := MovedByUser(s, u, rid, pick).value;
            var row := s.referrals[rid];
            var coin := t.wallet.coin;
            var post := AcceptByUser(s, u, rid, pick, ready).state;
            var credit := Transaction(WalletKey(Customer(u), coin), t.amount, row.group, CreditFiatTransfer);
            Restated(s, post, row.group, Completed) && SameRest(s, post) &&
            post.referrals == s.referrals[rid := row.(invited := Some(u))] &&
            if PaysReward(s, u, rid, pick, ready) then
              s.nextId !in s.groups && post.groups.Keys == s.groups.Keys + {s.nextId} &&
              post.groups[s.nextId] == Group(Completed, None) &&
              post.transactions == s.transactions +
                [credit, Transaction(WalletKey(Main, coin), 10_00000, s.nextId, DebitReferralOsmo),
                 Transaction(WalletKey(Customer(row.inviter), coin), 10_00000, s.nextId, CreditFiatTransfer)]
            else post.groups.Keys == s.groups.Keys && post.transactions == s.transactions + [credit]
  {
    hide InGroup, FindTransaction, InvitedBy, AddBoth, AddBalance, GroupHold, RowHold;
  }

  /** referralByOsmo succeeds if and only if the row, a transaction of its group, the setting and the two
      wallets are there, and otherwise changes nothing. */
  lemma AcceptByOsmoIff(s: State, u: UserId, rid: Id, pick: nat)
    ensures AcceptByOsmo(s, u, rid, pick).ok <==>
            rid in s.referrals && s.reward.Some? && FUND in s.wallets && WalletKey(Customer(u), Usd) in s.wallets &&
            TransactionOf(s, s.referrals[rid].group, pick).Some?
    ensures !AcceptByOsmo(s, u, rid, pick).ok ==> AcceptByOsmo(s, u, rid, pick).state == s
  {
    hide FindTransaction;
  }

  /** The fund's balance pays what was held, and the invitee gets the reward of the day. */
  lemma AcceptByOsmoLeaves(s: State, u: UserId, rid: Id, pick: nat, w: WalletKey)
    requires AcceptByOsmo(s, u, rid, pick).ok && w in s.wallets
    ensures var t := TransactionOf(s, s.referrals[rid].group, pick).value;
            var row := s.referrals[rid];
            var to := WalletKey(Customer(u), Usd);
            var post := AcceptByOsmo(s, u, rid, pick).state;
            Changed(s, post, w, If(w == to, s.reward.value) - If(w == FUND, t.amount), If(w == to, s.reward.value)) &&
            Restated(s, post, row.group, Completed) && post.groups.Keys == s.groups.Keys && SameRest(s, post) &&
            post.referrals == s.referrals[rid := row.(invited := Some(u))] &&
            post.transactions == s.transactions + [Transaction(to, s.reward.value, row.group, CreditFiatTransfer)]
  {
    hide InGroup, FindTransaction;
  }

  // ---- Refunds ------------------------------------------------------------------------

  /** A refund of an invitation succeeds if and only if the row, a transaction of its group and the wallet
      are there: the fund's, or the inviter's in the group's coin. */
  lemma RefundInvitationIff(s: State, rid: Id, sponsored: bool, pick: nat)
    ensures RefundInvitation(s, rid, sponsored, pick).ok <==>
            rid in s.referrals &&
            var row := s.referrals[rid];
            TransactionOf(s, row.group, pick).Some? &&
            if sponsored then FUND in s.wallets
            else
              row.group in s.groups && s.groups[row.group].coin.Some? &&
              WalletKey(Customer(row.inviter), s.groups[row.group].coin.value) in s.wallets
    ensures !RefundInvitation(s, rid, sponsored, pick).ok ==> RefundInvitation(s, rid, sponsored, pick).state == s
  {
    hide FindTransaction;
  }

  /** It gives the transaction's amount back to that wallet's available balance, fails the group, and
      removes the row - whatever the status was. */
  lemma RefundInvitationLeaves(s: State, rid: Id, sponsored: bool, pick: nat, w: WalletKey)
    requires RefundInvitation(s, rid, sponsored, pick).ok && w in s.wallets
    ensures var row := s.referrals[rid];
            var t := TransactionOf(s, row.group, pick).value;
            var back := if sponsored then FUND
                        else WalletKey(Customer(row.inviter), s.groups[row.group].coin.value);
            var post := RefundInvitation(s, rid, sponsored, pick).state;
            Changed(s, post, w, 0, If(w == back, t.amount)) && Restated(s, post, row.group, Failed) &&
            post.groups.Keys == s.groups.Keys && SameRest(s, post) && post.transactions == s.transactions &&
            post.referrals == s.referrals - {rid}
  {
    hide InGroup, FindTransaction;
  }

  /** The refund of a native send succeeds if and only if the wallet and the user exist and the amount is
      not zero; a missing user is noticed after the tables have changed. */
  lemma RefundNativeExact(s: State, u: UserId, coin: Coin, amount: int, g: Option<Id>, w: WalletKey)
    requires w in s.wallets
    ensures var k := WalletKey(Customer(u), coin);
            var r := RefundNative(s, u, coin, amount, g);
            (r.ok <==> k in s.wallets && amount != 0 && u in s.users) &&
            if k in s.wallets && amount != 0 then
              Changed(s, r.state, w, If(w == k, amount), If(w == k, amount)) && SameRest(s, r.state) &&
              r.state.transactions == s.transactions && r.state.referrals == s.referrals &&
              r.state.groups.Keys == s.groups.Keys &&
              (if g.Some? then Restated(s, r.state, g.value, Failed) else r.state.groups == s.groups)
            else r.state == s
  {
  }

  /** The same for a converted send, which also takes the fee back from Osmo's fee wallet. */
  lemma RefundAutoconvertExact(s: State, u: UserId, coin: Coin, fee: int, total: int, g: Option<Id>, ready: bool,
                               w: WalletKey)
    requires w in s.wallets
    ensures var k := WalletKey(Customer(u), coin);
            var fees := WalletKey(Fees, coin);
            var r := RefundAutoconvert(s, u, coin, fee, total, g, ready);
            var commits := ready && k in s.wallets && fees in s.wallets && fee != 0 && total != 0;
            (r.ok <==> commits && u in s.users) &&
            if commits then
              Changed(s, r.state, w, If(w == k, total) - If(w == fees, fee), If(w == k, total) - If(w == fees, fee)) &&
              SameRest(s, r.state) && r.state.transactions == s.transactions && r.state.referrals == s.referrals &&
              r.state.groups.Keys == s.groups.Keys &&
              (if g.Some? then Restated(s, r.state, g.value, Failed) else r.state.groups == s.groups)
            else r.state == s
  {
  }

  /** A reception succeeds if and only if the user has a wallet of sats, which gets the amount under a
      COMPLETED group of its own. */
  lemma ScanExact(s: State, u: UserId, amount: int, w: WalletKey)
    requires WellFormed(s) && w in s.wallets
    ensures var k := WalletKey(Customer(u), Sats);
            var r := ScanToReceive(s, u, amount);
            (r.ok <==> k in s.wallets) && (!r.ok ==> r.state == s) &&
            (r.ok ==> Changed(s, r.state, w, If(w == k, amount), If(w == k, amount)) && SameRest(s, r.state) &&
                      s.nextId !in s.groups && r.state.groups == s.groups[s.nextId := Group(Completed, Some(Sats))] &&
                      r.state.transactions ==
                        s.transactions + [Transaction(k, amount, s.nextId, CreditBtcTransferLn)] &&
                      r.state.referrals == s.referrals)
  {
  }

  // ---- Tasks --------------------------------------------------------------------------

  /** No event removes a refund task, and only the expiry check adds any; it always succeeds. */
  lemma StepKeepsTasks(s: State, e: Event)
    ensures s.tasks <= Step(s, e).tasks
    ensures if e.CheckedExpired? then CheckExpired(s, e.userCutoff, e.osmoCutoff).ok
            else Step(s, e).tasks == s.tasks
  {
    hide InGroup, FindTransaction, InvitedBy, SponsoredBy, SetStatus, AddBoth, AddBalance, AddAvailable;
  }

  lemma {:induction false} RunKeepsTasks(s: State, es: seq<Event>)
    ensures s.tasks <= Run(s, es).tasks
    decreases es
  {
    hide Step;
    if es != [] {
      StepKeepsTasks(s, es[0]);
      RunKeepsTasks(Step(s, es[0]), es[1..]);
    }
  }

  // ---- Registrations ------------------------------------------------------------------

  /** A registration whose first acceptance throws makes no second one, and throws too. */
  lemma RouteStops(s: State, user: UserId, first: Id, second: Option<Id>, pick: nat, ready: bool)
    requires user in s.users && s.users[user].Some? && !AcceptByUser(s, user, first, pick, ready).ok
    ensures Route(s, user, Some(first), second, pick, ready) == AcceptByUser(s, user, first, pick, ready)
    ensures RouteEvents(s, user, Some(first), second, pick, ready) == [AcceptedByUser(user, first, pick, ready)]
  {
    hide AcceptByUser;
  }

  /** A registration returns normally if and only if the user has a number and both acceptances, of the
      rows the lookups find, do. */
  lemma RouteOkIff(s: State, user: UserId, first: Option<Id>, second: Option<Id>, pick: nat, ready: bool)
    ensures Route(s, user, first, second, pick, ready).ok <==>
            user in s.users && s.users[user].Some? &&
            (first.Some? ==> AcceptByUser(s, user, first.value, pick, ready).ok) &&
            (second.Some? ==>
               AcceptByOsmo(RouteFirst(s, user, first, pick, ready).state, user, second.value, pick).ok)
  {
    hide AcceptByUser, AcceptByOsmo;
  }

  /** The rows a registration changes are open, sponsored and for the user's own number; they now name the
      user, and their groups are COMPLETED. */
  lemma RouteAcceptsOwnRows(s: State, user: UserId, first: Option<Id>, second: Option<Id>, pick: nat, ready: bool,
                            rid: Id)
    requires WellFormed(s) && Answers(s, user, first, second, pick, ready) && rid in s.referrals
    ensures var post := Route(s, user, first, second, pick, ready).state;
            var row := s.referrals[rid];
            rid in post.referrals &&
            (post.referrals[rid] == row ||
             (row.sponsored && Some(row.phone) == s.users[user] && row.group in s.groups &&
              s.groups[row.group].status == Pending && post.referrals[rid] == row.(invited := Some(user))))
  {
    hide InGroup, FindTransaction, AddBoth, AddBalance, WellFormed, AcceptByUser, AcceptByOsmo;
    var mid := RouteFirst(s, user, first, pick, ready);
    if first.Some? {
      assert first.value in Matching(s, s.users[user].value);
      AcceptByUserRows(s, user, first.value, pick, ready);
      if first.value != rid { AcceptByUserElsewhere(s, user, first.value, pick, ready, rid); }
    } else {
      GroupThere(s, rid);
    }
    RouteWellFormed(s, user, first, pick, ready);
    if mid.ok && second.Some? {
      assert second.value in Matching(mid.state, s.users[user].value);
      AcceptByOsmoRows(mid.state, user, second.value, pick);
      if second.value == rid && first == Some(rid) { FirstIsClosed(s, user, rid, pick, ready); }
    }
  }

  lemma AcceptByOsmoRows(s: State, u: UserId, rid: Id, pick: nat)
    ensures var post := AcceptByOsmo(s, u, rid, pick).state;
            post.referrals == s.referrals ||
            (rid in s.referrals && post.referrals == s.referrals[rid := s.referrals[rid].(invited := Some(u))])
  {
    hide InGroup, FindTransaction, SetStatus, AddBoth, AddBalance;
  }

  /** A row the first half has accepted is not open any more. */
  lemma FirstIsClosed(s: State, u: UserId, rid: Id, pick: nat, ready: bool)
    requires WellFormed(s) && AcceptByUser(s, u, rid, pick, ready).ok
    ensures rid in s.referrals && rid in AcceptByUser(s, u, rid, pick, ready).state.referrals
    ensures !IsPending(AcceptByUser(s, u, rid, pick, ready).state.groups, s.referrals[rid].group)
  {
    hide InGroup, FindTransaction, InvitedBy, WellFormed;
    AcceptByUserOkIff(s, u, rid, pick, ready);
    AcceptanceCloses(s, u, rid, pick, ready);
  }

  /** After a registration that returns normally, the open sponsored rows for its number are those from
      before without the ones the lookups found. */
  lemma RouteLeavesOpen(s: State, user: UserId, first: Option<Id>, second: Option<Id>, pick: nat, ready: bool,
                        rid: Id)
    requires WellFormed(s) && Answers(s, user, first, second, pick, ready) && rid in s.referrals
    requires Route(s, user, first, second, pick, ready).ok
    ensures var post := Route(s, user, first, second, pick, ready).state;
            rid in post.referrals &&
            (IsPending(post.groups, s.referrals[rid].group) <==>
             IsPending(s.groups, s.referrals[rid].group) && first != Some(rid) && second != Some(rid))
  {
    hide InGroup, FindTransaction, AddBoth, AddBalance, WellFormed, AcceptByUser, AcceptByOsmo;
    var mid := RouteFirst(s, user, first, pick, ready);
    if first.Some? {
      assert first.value in Matching(s, s.users[user].value);
      if first.value != rid { AcceptByUserElsewhere(s, user, first.value, pick, ready, rid); }
      else { FirstIsClosed(s, user, rid, pick, ready); AcceptByUserRows(s, user, rid, pick, ready); }
    } else {
      GroupThere(s, rid);
    }
    RouteWellFormed(s, user, first, pick, ready);
    if second.Some? {
      assert second.value in Matching(mid.state, s.users[user].value);
      if second.value != rid { AcceptByOsmoElsewhere(mid.state, user, second.value, pick, rid); }
      else { SecondIsClosed(mid.state, user, rid, pick); }
    }
  }

  lemma SecondIsClosed(s: State, u: UserId, rid: Id, pick: nat)
    requires AcceptByOsmo(s, u, rid, pick).ok
    ensures rid in s.referrals && rid in AcceptByOsmo(s, u, rid, pick).state.referrals
    ensures !IsPending(AcceptByOsmo(s, u, rid, pick).state.groups, s.referrals[rid].group)
  {
    hide InGroup, FindTransaction;
  }
}
