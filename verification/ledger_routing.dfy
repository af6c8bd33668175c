/** `referral`, which routes a registered user's invitations. Both of its lookups ask for sponsored
    rows, so the handler for user-to-user money receives rows whose money sits in the referral
    fund. The lemmas say exactly what that does to the escrow property, and give a run. */
module LedgerRouting {
  import opened Common
  import opened LedgerModel
  import opened LedgerTables
  import opened LedgerEscrow
  import opened LedgerHistory

  predicate Answers(s: State, user: UserId, first: Option<Id>, second: Option<Id>, pick: nat, ready: bool) {
    user in s.users && s.users[user].Some? &&
    IsAnswer(first, Matching(s, s.users[user].value)) &&
    IsAnswer(second, Matching(RouteFirst(s, user, first, pick, ready).state, s.users[user].value))
  }

  /** The money the first lookup's row moves, if that transaction commits. */
  function Misrouted(s: State, user: UserId, first: Option<Id>, pick: nat): int {
    if first.None? || MovedByUser(s, user, first.value, pick).None? then 0
    else MovedByUser(s, user, first.value, pick).value.amount
  }

  /** The second lookup's acceptance keeps every wallet's slack: its row is open and sponsored. */
  lemma SecondIsSound(s: State, user: UserId, first: Option<Id>, second: Option<Id>, pick: nat, ready: bool)
    requires WellFormed(s) && Answers(s, user, first, second, pick, ready) && second.Some?
    ensures Sound(RouteFirst(s, user, first, pick, ready).state, AcceptedByOsmo(user, second.value, pick))
  {
  }

  lemma RouteWellFormed(s: State, user: UserId, first: Option<Id>, pick: nat, ready: bool)
    requires WellFormed(s)
    ensures WellFormed(RouteFirst(s, user, first, pick, ready).state)
  {
    if first.Some? { StepWellFormed(s, AcceptedByUser(user, first.value, pick, ready)); }
  }

  /** How `referral` as a whole moves the slack of the referral fund and of every other wallet. */
  lemma RouteSlack(s: State, user: UserId, first: Option<Id>, second: Option<Id>, pick: nat, ready: bool, w: WalletKey)
    requires WellFormed(s) && Answers(s, user, first, second, pick, ready)
    requires w in s.wallets && !w.account.Main?
    ensures w in Route(s, user, first, second, pick, ready).state.wallets
    ensures Slack(Route(s, user, first, second, pick, ready).state, w)
         == Slack(s, w) + if first.None? then 0 else Drift(s, AcceptedByUser(user, first.value, pick, ready), w)
  {
    var mid := RouteFirst(s, user, first, pick, ready);
    if first.Some? { StepSlack(s, AcceptedByUser(user, first.value, pick, ready), w); }
    RouteWellFormed(s, user, first, pick, ready);
    if mid.ok && second.Some? {
      SecondIsSound(s, user, first, second, pick, ready);
      StepSlack(mid.state, AcceptedByOsmo(user, second.value, pick), w);
      AcceptByOsmoSoundIff(mid.state, user, second.value, pick);
    }
  }

  /** The events of one registration: the acceptances it carries out, in order. */
  function RouteEvents(s: State, user: UserId, first: Option<Id>, second: Option<Id>, pick: nat, ready: bool)
    : seq<Event>
  {
    if user !in s.users || s.users[user].None? then []
    else
      (if first.Some? then [AcceptedByUser(user, first.value, pick, ready)] else []) +
      (if RouteFirst(s, user, first, pick, ready).ok && second.Some?
       then [AcceptedByOsmo(user, second.value, pick)] else [])
  }

  lemma RouteIsRun(s: State, user: UserId, first: Option<Id>, second: Option<Id>, pick: nat, ready: bool)
    ensures Route(s, user, first, second, pick, ready).state == Run(s, RouteEvents(s, user, first, second, pick, ready))
  {
    hide AcceptByUser, AcceptByOsmo;
    var es := RouteEvents(s, user, first, second, pick, ready);
    if |es| == 1 {
      RunCons(s, es[0], []);
      assert es == [es[0]] + [];
    } else if |es| == 2 {
      RunCons(s, es[0], [es[1]]);
      RunCons(Step(s, es[0]), es[1], []);
      assert es == [es[0]] + [es[1]] && [es[1]] == [es[1]] + [];
    }
  }

  lemma RouteSameWallets(s: State, user: UserId, first: Option<Id>, second: Option<Id>, pick: nat, ready: bool)
    ensures Route(s, user, first, second, pick, ready).state.wallets.Keys == s.wallets.Keys
  {
    var mid := RouteFirst(s, user, first, pick, ready).state;
    if first.Some? { SameWallets(s, AcceptedByUser(user, first.value, pick, ready)); }
    if second.Some? { SameWallets(mid, AcceptedByOsmo(user, second.value, pick)); }
  }

  /** The first lookup's acceptance is sound only when it moves nothing: its row is sponsored. */
  lemma FirstSoundIff(s: State, user: UserId, row: Id, pick: nat, ready: bool)
    requires row in s.referrals && s.referrals[row].sponsored
    ensures Sound(s, AcceptedByUser(user, row, pick, ready)) <==> Misrouted(s, user, Some(row), pick) == 0
  {
  }

  /** `referral` keeps the escrow property if and only if the first lookup moves no money:
      it finds no row, or the move is rejected, or the row holds nothing. */
  lemma RouteKeepsHoldsIff(s: State, user: UserId, first: Option<Id>, second: Option<Id>, pick: nat, ready: bool)
    requires WellFormed(s) && HoldInvariant(s) && Answers(s, user, first, second, pick, ready)
    ensures HoldInvariant(Route(s, user, first, second, pick, ready).state) <==> Misrouted(s, user, first, pick) == 0
  {
    var post := Route(s, user, first, second, pick, ready).state;
    RouteSameWallets(s, user, first, second, pick, ready);
    if first.None? {
      forall w | w in s.wallets && !w.account.Main? ensures Slack(post, w) == 0 {
        RouteSlack(s, user, first, second, pick, ready, w);
      }
    } else {
      var e := AcceptedByUser(user, first.value, pick, ready);
      forall w | w in s.wallets && !w.account.Main? ensures Slack(post, w) == Drift(s, e, w) {
        RouteSlack(s, user, first, second, pick, ready, w);
      }
      AcceptByUserSoundIff(s, user, first.value, pick, ready);
      FirstSoundIff(s, user, first.value, pick, ready);
      assert HoldInvariant(post) <==> Sound(s, e);
    }
  }

  lemma AcceptByUserElsewhere(s: State, user: UserId, row: Id, pick: nat, ready: bool, rid: Id)
    requires WellFormed(s) && row in s.referrals && rid in s.referrals && row != rid
    ensures var post := AcceptByUser(s, user, row, pick, ready).state;
            var g := s.referrals[rid].group;
            g in s.groups && rid in post.referrals && post.referrals[rid] == s.referrals[rid] &&
            g in post.groups && post.groups[g] == s.groups[g]
  {
    hide InGroup, FindTransaction, AddBoth, AddBalance, InvitedBy, GroupHold;
    assert RowHold(s, rid);
    assert s.referrals[row].group != s.referrals[rid].group;
  }

  lemma AcceptByOsmoElsewhere(s: State, user: UserId, row: Id, pick: nat, rid: Id)
    requires WellFormed(s) && row in s.referrals && rid in s.referrals && row != rid
    ensures var post := AcceptByOsmo(s, user, row, pick).state;
            var g := s.referrals[rid].group;
            g in s.groups && rid in post.referrals && post.referrals[rid] == s.referrals[rid] &&
            g in post.groups && post.groups[g] == s.groups[g]
  {
    hide InGroup, FindTransaction, AddBoth, AddBalance, GroupHold;
    assert RowHold(s, rid);
    assert s.referrals[row].group != s.referrals[rid].group;
  }

  /** Whoever registers, money a user sent by SMS stays where it is: neither its row nor its group
      is touched, although the documentation promises that registering completes it. */
  lemma RouteSkipsUserMoney(s: State, user: UserId, first: Option<Id>, second: Option<Id>,
                            pick: nat, ready: bool, rid: Id)
    requires WellFormed(s) && Answers(s, user, first, second, pick, ready)
    requires rid in s.referrals && !s.referrals[rid].sponsored
    ensures var post := Route(s, user, first, second, pick, ready).state;
            var g := s.referrals[rid].group;
            g in s.groups && rid in post.referrals && post.referrals[rid] == s.referrals[rid] &&
            g in post.groups && post.groups[g] == s.groups[g]
  {
    hide AcceptByUser, AcceptByOsmo, WellFormed;
    var mid := RouteFirst(s, user, first, pick, ready);
    if first.Some? { AcceptByUserElsewhere(s, user, first.value, pick, ready, rid); }
    else { GroupThere(s, rid); }
    RouteWellFormed(s, user, first, pick, ready);
    if mid.ok && second.Some? { AcceptByOsmoElsewhere(mid.state, user, second.value, pick, rid); }
  }

  lemma GroupThere(s: State, rid: Id)
    requires WellFormed(s) && rid in s.referrals
    ensures s.referrals[rid].group in s.groups
  {
    assert RowHold(s, rid);
  }

  // ---- A registration that loses the escrow property ----------------------------------

  const INVITER: WalletKey := WalletKey(Customer(1), Usd)
  const INVITEE: WalletKey := WalletKey(Customer(2), Usd)

  /** A fund with 1000 dollars, two users without money, and a reward of 5 dollars. */
  function Example(): State {
    State(map[1 := Some("+1"), 2 := Some("+2")],
          map[FUND := Wallet(1000 * UNIT, 1000 * UNIT), INVITER := Wallet(0, 0), INVITEE := Wallet(0, 0)],
          map[], [], map[], {}, Some(5 * UNIT), 0)
  }

  /** The state after user 1 has invited "+2" at time 0. */
  function Sent(): State { Step(Example(), Invited(1, "+2", true, 0)) }

  lemma SentShape()
    ensures Sent() == Example().(
              wallets := Example().wallets[FUND := Wallet(1000 * UNIT, 995 * UNIT)],
              groups := map[0 := Group(Pending, Some(Usd))],
              transactions := [Transaction(FUND, 5 * UNIT, 0, DebitReferralOsmo)],
              referrals := map[1 := Referral(1, None, "+2", true, 0, 0)],
              nextId := 2)
    ensures InGroup(Sent().transactions, 0) == Sent().transactions
    ensures WellFormed(Sent()) && HoldInvariant(Sent())
  {
    assert SponsoredBy(Example().referrals, 1) == {};
    InGroupAppend([], Transaction(FUND, 5 * UNIT, 0, DebitReferralOsmo), 0);
    assert [] + [Transaction(FUND, 5 * UNIT, 0, DebitReferralOsmo)] == Sent().transactions;
    assert Initial(Example());
    InitialHolds(Example());
    StepWellFormed(Example(), Invited(1, "+2", true, 0));
    StepKeepsHoldsIff(Example(), Invited(1, "+2", true, 0));
  }

  /** The invited user registers: the inviter, who held nothing, is debited 5 dollars. */
  lemma RoutingBreaksHolds()
    ensures Answers(Sent(), 2, Some(1), None, 0, true)
    ensures !HoldInvariant(Route(Sent(), 2, Some(1), None, 0, true).state)
    ensures Route(Sent(), 2, Some(1), None, 0, true).state.wallets[INVITER].balance == -5 * UNIT
    ensures Misrouted(Sent(), 2, Some(1), 0) == 5 * UNIT
  {
    SentShape();
    var s := Sent();
    var t := Transaction(FUND, 5 * UNIT, 0, DebitReferralOsmo);
    assert TransactionOf(s, 0, 0) == Some(t);
    assert MovedByUser(s, 2, 1, 0) == Some(t);
    var settled := SettleByUser(s, 2, 1, t);
    assert InvitedBy(settled.referrals, 1) == {1};
    assert RouteFirst(s, 2, Some(1), 0, true) == Outcome(settled, true);
    assert 1 in Matching(s, "+2");
    assert Matching(settled, "+2") == {};
    RouteKeepsHoldsIff(s, 2, Some(1), None, 0, true);
  }
}
