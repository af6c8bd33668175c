/** What later events cannot change about an open invitation, and what follows for its refund and for
    a second delivery of it; the cap of ten sponsored rows. */
module LedgerHistory {
  import opened Common
  import opened LedgerModel
  import opened LedgerTables

  /** A step that records at most one transaction, in a group that is not PENDING afterwards. */
  lemma UntouchedByOne(s: State, post: State, g: Id)
    requires IsPending(post.groups, g)
    requires post.transactions == s.transactions ||
             (|post.transactions| == |s.transactions| + 1 && s.transactions <= post.transactions &&
              post.transactions[|s.transactions|].group != g)
    ensures InGroup(post.transactions, g) == InGroup(s.transactions, g)
  {
    if post.transactions != s.transactions {
      var t := post.transactions[|s.transactions|];
      InGroupAppend(s.transactions, t, g);
      assert post.transactions == s.transactions + [t];
    }
  }

  lemma UntouchedByAcceptByUser(s: State, u: UserId, rid: Id, pick: nat, ready: bool, g: Id)
    requires WellFormed(s) && g < s.nextId && IsPending(AcceptByUser(s, u, rid, pick, ready).state.groups, g)
    ensures IsPending(s.groups, g)
    ensures InGroup(AcceptByUser(s, u, rid, pick, ready).state.transactions, g) == InGroup(s.transactions, g)
  {
    var moved := MovedByUser(s, u, rid, pick);
    if moved.Some? {
      var settled := SettleByUser(s, u, rid, moved.value);
      assert IsPending(settled.groups, g);
      UntouchedByOne(s, settled, g);
      if PaysReward(s, u, rid, pick, ready) {
        var paid := PayReward(settled, s.referrals[rid].inviter, moved.value.wallet.coin);
        var t, v := paid.transactions[|settled.transactions|], paid.transactions[|settled.transactions| + 1];
        InGroupAppend(settled.transactions, t, g);
        InGroupAppend(settled.transactions + [t], v, g);
        assert paid.transactions == settled.transactions + [t] + [v];
      }
    }
  }

  /** A group still PENDING after an event was PENDING before it, with the same transactions. */
  lemma PendingUntouched(s: State, e: Event, g: Id)
    requires WellFormed(s) && g < s.nextId && IsPending(Step(s, e).groups, g)
    ensures IsPending(s.groups, g)
    ensures InGroup(Step(s, e).transactions, g) == InGroup(s.transactions, g)
  {
    hide InGroup, AddBoth, AddBalance, AddAvailable, AcceptByUser;
    match e
    case AcceptedByUser(u, rid, pick, ready) => UntouchedByAcceptByUser(s, u, rid, pick, ready, g);
    case AcceptedByOsmo(_, _, _) => UntouchedByOne(s, Step(s, e), g);
    case Invited(_, _, _, _) => UntouchedByOne(s, Step(s, e), g);
    case SentBySms(_, _, _, _, _) => UntouchedByOne(s, Step(s, e), g);
    case Scanned(_, _) => UntouchedByOne(s, Step(s, e), g);
    case _ =>
  }

  /** An acceptance rewrites one row, to record who accepted. */
  lemma AcceptByUserRows(s: State, u: UserId, rid: Id, pick: nat, ready: bool)
    ensures var post := AcceptByUser(s, u, rid, pick, ready).state;
            post.referrals == s.referrals ||
            (rid in s.referrals && post.referrals == s.referrals[rid := s.referrals[rid].(invited := Some(u))])
  {
    hide InGroup, FindTransaction, SetStatus, AddBoth, AddBalance;
  }

  /** A row that existed before an event and after it is the same row, accepted at most. */
  lemma RowKept(s: State, e: Event, rid: Id)
    requires WellFormed(s) && rid < s.nextId && rid in Step(s, e).referrals
    ensures rid in s.referrals && SameOrigin(s.referrals[rid], Step(s, e).referrals[rid])
  {
    hide InGroup, FindTransaction, SetStatus, AddBoth, AddBalance, AddAvailable, GroupHold, RowHold, AcceptByUser;
    match e
    case AcceptedByUser(u, r, pick, ready) => AcceptByUserRows(s, u, r, pick, ready);
    case _ =>
  }

  lemma IdsAndWalletsStay(s: State, e: Event)
    ensures s.nextId <= Step(s, e).nextId && Step(s, e).wallets.Keys == s.wallets.Keys
  {
  }

  /** Over any run: an invitation still open is the same invitation with the same hold, and its
      hold is what every lookup returns. */
  lemma {:induction false} OpenInvitationKept(s: State, es: seq<Event>, rid: Id)
    requires WellFormed(s) && rid < s.nextId
    requires rid in Run(s, es).referrals && IsPending(Run(s, es).groups, Run(s, es).referrals[rid].group)
    ensures rid in s.referrals && SameOrigin(s.referrals[rid], Run(s, es).referrals[rid])
    ensures IsPending(s.groups, s.referrals[rid].group)
    ensures InGroup(Run(s, es).transactions, s.referrals[rid].group) == InGroup(s.transactions, s.referrals[rid].group)
    ensures Run(s, es).wallets.Keys == s.wallets.Keys
    decreases es
  {
    if es != [] {
      var mid := Step(s, es[0]);
      StepWellFormed(s, es[0]);
      IdsAndWalletsStay(s, es[0]);
      OpenInvitationKept(mid, es[1..], rid);
      RowKept(s, es[0], rid);
      assert RowHold(s, rid);
      PendingUntouched(s, es[0], s.referrals[rid].group);
    }
  }

  /** What the refund of an open invitation does: the held amount goes back to the wallet it was
      held on, the group fails, the row goes - and nothing else. */
  predicate Returns(s: State, post: State, rid: Id, k: WalletKey, amount: int)
    requires rid in s.referrals && k in s.wallets
  {
    post == s.(wallets := AddAvailable(s.wallets, k, amount),
               groups := SetStatus(s.groups, s.referrals[rid].group, Failed),
               referrals := s.referrals - {rid})
  }

  /** The refund of an open invitation, under its own sponsor flag, returns the hold to its wallet,
      whichever transaction the lookup is asked to pick. */
  lemma OpenRefund(s: State, rid: Id, pick: nat)
    requires WellFormed(s) && rid in s.referrals && IsPending(s.groups, s.referrals[rid].group)
    ensures |InGroup(s.transactions, s.referrals[rid].group)| == 1
    ensures var t := InGroup(s.transactions, s.referrals[rid].group)[0];
            var r := RefundInvitation(s, rid, s.referrals[rid].sponsored, pick);
            r.ok && t.wallet in s.wallets && Returns(s, r.state, rid, t.wallet, t.amount)
  {
    assert RowHold(s, rid) && GroupHold(s, s.referrals[rid].group);
    var ts := InGroup(s.transactions, s.referrals[rid].group);
    assert ts[pick % |ts|] == ts[0] && ts[0] in ts;
  }

  lemma OpenHoldRecorded(s: State, k: WalletKey, amount: int, subtype: Subtype,
                         inviter: UserId, phone: string, sponsored: bool, now: int)
    requires WellFormed(s) && k in s.wallets
    ensures var post := OpenHold(s, k, amount, subtype, inviter, phone, sponsored, now);
            InGroup(post.transactions, s.nextId) == [Transaction(k, amount, s.nextId, subtype)] &&
            post.referrals[s.nextId + 1] == Referral(inviter, None, phone, sponsored, s.nextId, now)
  {
    hide InGroup;
    FirstOfGroup(s.transactions, Transaction(k, amount, s.nextId, subtype));
  }

  lemma FirstOfGroup(ts: seq<Transaction>, t: Transaction)
    requires forall i :: 0 <= i < |ts| ==> ts[i].group < t.group
    ensures InGroup(ts + [t], t.group) == [t]
  {
    hide InGroup;
    InGroupFresh(ts, t.group);
    InGroupAppend(ts, t, t.group);
  }

  ghost predicate StillOpen(s: State, rid: Id) {
    rid in s.referrals && IsPending(s.groups, s.referrals[rid].group)
  }

  /** An invitation open now and still open after any run is refunded with the hold it has now. */
  lemma LaterRefund(s: State, es: seq<Event>, rid: Id, pick: nat)
    requires WellFormed(s) && rid < s.nextId && StillOpen(Run(s, es), rid)
    ensures rid in s.referrals && |InGroup(s.transactions, s.referrals[rid].group)| == 1
    ensures var t := InGroup(s.transactions, s.referrals[rid].group)[0];
            var later := Run(s, es);
            var r := RefundInvitation(later, rid, s.referrals[rid].sponsored, pick);
            r.ok && t.wallet in later.wallets && Returns(later, r.state, rid, t.wallet, t.amount)
  {
    hide RefundInvitation, WellFormed, Run, InGroup;
    OpenInvitationKept(s, es, rid);
    RunWellFormed(s, es);
    OpenRefund(Run(s, es), rid, pick);
  }

  /** However the run continues after an invitation - the reward setting changing included - a
      refund of the still open invitation returns exactly the reward of the day it was sent. */
  lemma InvitationRefundExact(s: State, user: UserId, phone: string, on: bool, now: int, es: seq<Event>, pick: nat)
    requires WellFormed(s) && Invite(s, user, phone, on, now).ok
    requires StillOpen(Run(Invite(s, user, phone, on, now).state, es), s.nextId + 1)
    ensures var later := Run(Invite(s, user, phone, on, now).state, es);
            var r := RefundInvitation(later, s.nextId + 1, true, pick);
            r.ok && FUND in later.wallets && Returns(later, r.state, s.nextId + 1, FUND, s.reward.value)
  {
    hide RefundInvitation, WellFormed, Run, InGroup, StillOpen, Returns;
    OpenHoldRecorded(s, FUND, s.reward.value, DebitReferralOsmo, user, phone, true, now);
    InviteWellFormed(s, user, phone, on, now);
    LaterRefund(Invite(s, user, phone, on, now).state, es, s.nextId + 1, pick);
  }

  /** The same for money sent by SMS: the sender's wallet gets back exactly what was sent. */
  lemma SmsRefundExact(s: State, user: UserId, coin: Coin, amount: int, phone: string, now: int,
                       es: seq<Event>, pick: nat)
    requires WellFormed(s) && SendBySms(s, user, coin, amount, phone, now).ok
    requires StillOpen(Run(SendBySms(s, user, coin, amount, phone, now).state, es), s.nextId + 1)
    ensures var later := Run(SendBySms(s, user, coin, amount, phone, now).state, es);
            var r := RefundInvitation(later, s.nextId + 1, false, pick);
            var k := WalletKey(Customer(user), coin);
            r.ok && k in later.wallets && Returns(later, r.state, s.nextId + 1, k, amount)
  {
    hide RefundInvitation, WellFormed, Run, InGroup, StillOpen, Returns;
    OpenHoldRecorded(s, WalletKey(Customer(user), coin), amount, DebitFiatTransfer, user, phone, false, now);
    SendBySmsWellFormed(s, user, coin, amount, phone, now);
    LaterRefund(SendBySms(s, user, coin, amount, phone, now).state, es, s.nextId + 1, pick);
  }

  // ---- Redelivery ---------------------------------------------------------------------

  lemma {:induction false} RowGoneForGood(s: State, es: seq<Event>, rid: Id)
    requires WellFormed(s) && rid < s.nextId && rid !in s.referrals
    ensures rid !in Run(s, es).referrals
    decreases es
  {
    hide Step, WellFormed;
    if es != [] {
      StepWellFormed(s, es[0]);
      IdsAndWalletsStay(s, es[0]);
      if rid in Step(s, es[0]).referrals { RowKept(s, es[0], rid); }
      RowGoneForGood(Step(s, es[0]), es[1..], rid);
    }
  }

  /** After one refund, every later delivery of the same task is rejected and changes nothing,
      however many events come between. */
  lemma RedeliveryHarmless(s: State, rid: Id, sponsored: bool, pick: nat, es: seq<Event>, again: bool, pick': nat)
    requires WellFormed(s) && RefundInvitation(s, rid, sponsored, pick).ok
    ensures var later := Run(RefundInvitation(s, rid, sponsored, pick).state, es);
            RefundInvitation(later, rid, again, pick') == Reject(later)
  {
    StepWellFormed(s, RefundedInvitation(rid, sponsored, pick));
    RowGoneForGood(RefundInvitation(s, rid, sponsored, pick).state, es, rid);
  }

  // ---- Ten invitations per inviter ----------------------------------------------------

  predicate AtMostTen(s: State, user: UserId) {
    |SponsoredBy(s.referrals, user)| <= 10
  }

  lemma InviteAddsOne(s: State, user: UserId, phone: string, on: bool, now: int, inviter: UserId)
    requires WellFormed(s) && Invite(s, user, phone, on, now).ok
    ensures SponsoredBy(Invite(s, user, phone, on, now).state.referrals, inviter)
         == SponsoredBy(s.referrals, inviter) + if inviter == user then {s.nextId + 1} else {}
  {
    assert s.nextId + 1 !in s.referrals;
    hide WellFormed, AddAvailable;
    SponsoredInsert(s.referrals, s.nextId + 1, Referral(user, None, phone, true, s.nextId, now), inviter);
  }

  lemma SponsoredInsert(rows: map<Id, Referral>, rid: Id, row: Referral, inviter: UserId)
    requires rid !in rows && row.sponsored
    ensures SponsoredBy(rows[rid := row], inviter)
         == SponsoredBy(rows, inviter) + if row.inviter == inviter then {rid} else {}
  {
  }

  lemma OthersAddNone(s: State, e: Event, inviter: UserId)
    requires WellFormed(s) && !e.Invited?
    ensures SponsoredBy(Step(s, e).referrals, inviter) <= SponsoredBy(s.referrals, inviter)
  {
    var post := Step(s, e);
    forall r | r in SponsoredBy(post.referrals, inviter) ensures r in SponsoredBy(s.referrals, inviter) {
      if r < s.nextId { RowKept(s, e, r); } else { NewRowsUnsponsored(s, e, r); }
    }
  }

  lemma NewRowsUnsponsored(s: State, e: Event, r: Id)
    requires WellFormed(s) && !e.Invited? && r in Step(s, e).referrals && r >= s.nextId
    ensures !Step(s, e).referrals[r].sponsored
  {
  }

  lemma StepAtMostTen(s: State, e: Event, user: UserId)
    requires WellFormed(s) && AtMostTen(s, user)
    ensures AtMostTen(Step(s, e), user)
  {
    if e.Invited? && Invite(s, e.user, e.phone, e.featureOn, e.now).ok {
      InviteAddsOne(s, e.user, e.phone, e.featureOn, e.now, user);
    } else if !e.Invited? {
      OthersAddNone(s, e, user);
      SubsetSize(SponsoredBy(Step(s, e).referrals, user), SponsoredBy(s.referrals, user));
    }
  }

  /** No run, however interleaved, gives an inviter more than ten sponsored rows. */
  lemma {:induction false} RunAtMostTen(s: State, es: seq<Event>, user: UserId)
    requires WellFormed(s) && AtMostTen(s, user)
    ensures AtMostTen(Run(s, es), user)
    decreases es
  {
    if es != [] {
      StepWellFormed(s, es[0]);
      StepAtMostTen(s, es[0], user);
      RunAtMostTen(Step(s, es[0]), es[1..], user);
    }
  }
}
