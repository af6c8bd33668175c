/** The ten-referral reward: when it is paid, how often, and what that costs Osmo's main wallet. */
module LedgerReward {
  import opened Common
  import opened LedgerModel
  import opened LedgerTables
  import opened LedgerEscrow
  import opened LedgerHistory
  import opened LedgerRouting

  lemma InvitedByKept(rows: map<Id, Referral>, rid: Id, row: Referral, user: UserId)
    requires rid in rows && rows[rid].inviter == row.inviter
    ensures InvitedBy(rows[rid := row], user) == InvitedBy(rows, user)
  {
  }

  /** The reward is paid at every acceptance made while the inviter has exactly ten rows - however
      many of them were accepted - if the payout is configured and MAIN has a wallet of the coin. */
  lemma RewardPaidIff(s: State, u: UserId, rid: Id, pick: nat, ready: bool)
    ensures PaysReward(s, u, rid, pick, ready) <==>
            ready && MovedByUser(s, u, rid, pick).Some? &&
            |InvitedBy(s.referrals, s.referrals[rid].inviter)| == 10 &&
            WalletKey(Main, MovedByUser(s, u, rid, pick).value.wallet.coin) in s.wallets
  {
    if MovedByUser(s, u, rid, pick).Some? {
      var row := s.referrals[rid];
      InvitedByKept(s.referrals, rid, row.(invited := Some(u)), row.inviter);
    }
  }

  // ---- What MAIN pays -----------------------------------------------------------------

  /** The event meets RewardPaidIff's condition, in coin `c`. */
  predicate Charged(s: State, e: Event, c: Coin) {
    e.AcceptedByUser? && e.payoutReady &&
    var t := MovedByUser(s, e.user, e.rid, e.pick);
    t.Some? && t.value.wallet.coin == c &&
    |InvitedBy(s.referrals, s.referrals[e.rid].inviter)| == REWARDED_REFERRALS
  }

  function Charges(s: State, es: seq<Event>, c: Coin): nat
    decreases es
  {
    if es == [] then 0 else (if Charged(s, es[0], c) then 1 else 0) + Charges(Step(s, es[0]), es[1..], c)
  }

  lemma AcceptByUserMain(s: State, u: UserId, rid: Id, pick: nat, ready: bool, c: Coin)
    requires WalletKey(Main, c) in s.wallets
    ensures var main := WalletKey(Main, c);
            var post := AcceptByUser(s, u, rid, pick, ready).state;
            var paid := if Charged(s, AcceptedByUser(u, rid, pick, ready), c) then TENTH_REWARD else 0;
            main in post.wallets &&
            post.wallets[main] == s.wallets[main].(balance := s.wallets[main].balance - paid)
  {
    hide InGroup, FindTransaction, SetStatus, InvitedBy;
    RewardPaidIff(s, u, rid, pick, ready);
  }

  lemma StepMain(s: State, e: Event, c: Coin)
    requires WalletKey(Main, c) in s.wallets
    ensures var main := WalletKey(Main, c);
            main in Step(s, e).wallets &&
            Step(s, e).wallets[main] ==
              s.wallets[main].(balance := s.wallets[main].balance - if Charged(s, e, c) then TENTH_REWARD else 0)
  {
    hide InGroup, FindTransaction, SetStatus, SponsoredBy, AcceptByUser;
    match e
    case AcceptedByUser(u, rid, pick, ready) => AcceptByUserMain(s, u, rid, pick, ready, c);
    case _ =>
  }

  /** Over every run, from every state: MAIN's balance of a coin falls by ten for each acceptance made
      while its inviter has exactly ten rows, and by nothing else; its available balance stays. */
  lemma {:induction false} RunMain(s: State, es: seq<Event>, c: Coin)
    requires WalletKey(Main, c) in s.wallets
    ensures var main := WalletKey(Main, c);
            main in Run(s, es).wallets &&
            Run(s, es).wallets[main] ==
              s.wallets[main].(balance := s.wallets[main].balance - 10_00000 * Charges(s, es, c))
    decreases es
  {
    hide Step, Charged;
    if es != [] {
      StepMain(s, es[0], c);
      RunMain(Step(s, es[0]), es[1..], c);
    }
  }

  // ---- Paid again ---------------------------------------------------------------------

  /** The event neither adds a row of `inviter` nor is a refund of one. */
  predicate KeepsRows(s: State, e: Event, inviter: UserId) {
    ((e.Invited? || e.SentBySms?) ==> e.user != inviter) &&
    (e.RefundedInvitation? ==> e.rid !in InvitedBy(s.referrals, inviter))
  }

  ghost predicate AllKeepRows(s: State, es: seq<Event>, inviter: UserId)
    decreases es
  {
    es == [] || (KeepsRows(s, es[0], inviter) && AllKeepRows(Step(s, es[0]), es[1..], inviter))
  }

  lemma StepInvitedBy(s: State, e: Event, inviter: UserId)
    requires WellFormed(s) && KeepsRows(s, e, inviter)
    ensures InvitedBy(Step(s, e).referrals, inviter) == InvitedBy(s.referrals, inviter)
  {
    hide InGroup, FindTransaction, SetStatus, SponsoredBy, AcceptByUser, AddBoth, AddBalance, AddAvailable;
    match e
    case AcceptedByUser(u, rid, pick, ready) =>
      AcceptByUserRows(s, u, rid, pick, ready);
      if rid in s.referrals { InvitedByKept(s.referrals, rid, s.referrals[rid].(invited := Some(u)), inviter); }
    case AcceptedByOsmo(u, rid, _) =>
      if rid in s.referrals { InvitedByKept(s.referrals, rid, s.referrals[rid].(invited := Some(u)), inviter); }
    case _ =>
  }

  lemma {:induction false} RunInvitedBy(s: State, es: seq<Event>, inviter: UserId)
    requires WellFormed(s) && AllKeepRows(s, es, inviter)
    ensures InvitedBy(Run(s, es).referrals, inviter) == InvitedBy(s.referrals, inviter)
    ensures Run(s, es).wallets.Keys == s.wallets.Keys
    decreases es
  {
    hide Step, KeepsRows, InvitedBy, WellFormed;
    if es != [] {
      StepWellFormed(s, es[0]);
      StepInvitedBy(s, es[0], inviter);
      IdsAndWalletsStay(s, es[0]);
      RunInvitedBy(Step(s, es[0]), es[1..], inviter);
    }
  }

  /** While an inviter with ten rows neither invites nor gets a refund, every acceptance of one of the
      inviter's rows that moves money pays the reward - the first, the second and all later ones. */
  lemma RewardRepeats(s: State, es: seq<Event>, u: UserId, rid: Id, pick: nat, ready: bool)
    requires WellFormed(s) && MovedByUser(Run(s, es), u, rid, pick).Some?
    requires var inviter := Run(s, es).referrals[rid].inviter;
             AllKeepRows(s, es, inviter) && |InvitedBy(s.referrals, inviter)| == REWARDED_REFERRALS
    ensures PaysReward(Run(s, es), u, rid, pick, ready) <==>
            ready && WalletKey(Main, MovedByUser(Run(s, es), u, rid, pick).value.wallet.coin) in s.wallets
  {
    hide Run, WellFormed, PaysReward, MovedByUser, InvitedBy, AllKeepRows;
    var later := Run(s, es);
    MovedHasRow(later, u, rid, pick);
    RunInvitedBy(s, es, later.referrals[rid].inviter);
    RewardPaidIff(later, u, rid, pick, ready);
  }

  lemma MovedHasRow(s: State, u: UserId, rid: Id, pick: nat)
    ensures MovedByUser(s, u, rid, pick).Some? ==> rid in s.referrals
  {
  }

  // ---- A run that pays twice ----------------------------------------------------------

  const MAIN: WalletKey := WalletKey(Main, Usd)

  /** User `u` is about to register; row `rid` is the one invitation `u` has, its inviter has ten rows,
      and all the wallets are there. */
  predicate AboutToPay(s: State, u: UserId, rid: Id) {
    u in s.users && s.users[u].Some? && Matching(s, s.users[u].value) == {rid} && rid in s.referrals &&
    var inviter := s.referrals[rid].inviter;
    |InvitedBy(s.referrals, inviter)| == REWARDED_REFERRALS &&
    {MAIN, WalletKey(Customer(u), Usd), WalletKey(Customer(inviter), Usd)} <= s.wallets.Keys
  }

  lemma MovesHold(s: State, u: UserId, rid: Id, pick: nat)
    requires WellFormed(s) && AboutToPay(s, u, rid)
    ensures MovedByUser(s, u, rid, pick).Some? && MovedByUser(s, u, rid, pick).value.wallet == FUND
  {
    assert rid in Matching(s, s.users[u].value);
    assert RowHold(s, rid);
    PendingHold(s, s.referrals[rid].group, pick, FUND);
  }

  /** `post` is `s` after an acceptance of row `rid` for number `phone`, which closed its group. */
  lemma NoneLeft(s: State, post: State, phone: string, rid: Id)
    requires Matching(s, phone) == {rid} && post.referrals.Keys == s.referrals.Keys && rid in s.referrals
    requires post.referrals[rid].group == s.referrals[rid].group && !IsPending(post.groups, s.referrals[rid].group)
    requires forall r :: r in s.referrals && r != rid ==>
               post.referrals[r] == s.referrals[r] &&
               (IsPending(post.groups, s.referrals[r].group) ==> IsPending(s.groups, s.referrals[r].group))
    ensures Matching(post, phone) == {}
  {
    assert forall r :: r in s.referrals && r != rid ==> r !in Matching(s, phone);
  }

  /** Registering then accepts that row, and MAIN pays. */
  lemma RegistrationPays(s: State, u: UserId, rid: Id, pick: nat)
    requires WellFormed(s) && AboutToPay(s, u, rid)
    ensures Answers(s, u, Some(rid), None, pick, true)
    ensures Route(s, u, Some(rid), None, pick, true) == AcceptByUser(s, u, rid, pick, true)
    ensures var post := AcceptByUser(s, u, rid, pick, true).state;
            MAIN in post.wallets && post.wallets[MAIN].balance == s.wallets[MAIN].balance - TENTH_REWARD
  {
    hide InGroup, FindTransaction, WellFormed, AcceptByUser, InvitedBy, RewardDue, MovedByUser;
    var e := AcceptedByUser(u, rid, pick, true);
    var post := Step(s, e);
    MovesHold(s, u, rid, pick);
    RewardPaidIff(s, u, rid, pick, true);
    AcceptByUserMain(s, u, rid, pick, true, Usd);
    PaidIsOk(s, u, rid, pick);
    AcceptanceCloses(s, u, rid, pick, true);
    forall r | r in s.referrals && r != rid
      ensures r in post.referrals && post.referrals[r] == s.referrals[r]
      ensures IsPending(post.groups, s.referrals[r].group) ==> IsPending(s.groups, s.referrals[r].group)
    {
      AcceptByUserElsewhere(s, u, rid, pick, true, r);
    }
    NoneLeft(s, post, s.users[u].value, rid);
  }

  lemma PaidIsOk(s: State, u: UserId, rid: Id, pick: nat)
    requires PaysReward(s, u, rid, pick, true)
    ensures AcceptByUser(s, u, rid, pick, true).ok
  {
    hide InGroup, FindTransaction, InvitedBy;
  }

  lemma AcceptanceCloses(s: State, u: UserId, rid: Id, pick: nat, ready: bool)
    requires WellFormed(s) && MovedByUser(s, u, rid, pick).Some?
    ensures var post := AcceptByUser(s, u, rid, pick, ready).state;
            rid in s.referrals && post.referrals == s.referrals[rid := s.referrals[rid].(invited := Some(u))] &&
            !IsPending(post.groups, s.referrals[rid].group)
  {
    hide InGroup, FindTransaction, InvitedBy, AddBoth, AddBalance;
    assert RowHold(s, rid);
  }

  /** The fund has 1000 dollars; MAIN and users 1, 2 and 3 have nothing; the reward is 5 dollars. */
  function Opening(): State {
    State(map[1 := Some("+1"), 2 := Some("+2"), 3 := Some("+3")],
          map[FUND := Wallet(1000 * UNIT, 1000 * UNIT), MAIN := Wallet(0, 0), INVITER := Wallet(0, 0),
              INVITEE := Wallet(0, 0), WalletKey(Customer(3), Usd) := Wallet(0, 0)],
          map[], [], map[], {}, Some(5 * UNIT), 0)
  }

  /** The number row `rid` is for: user 2's, then user 3's, then numbers nobody has. */
  function Phone(rid: Id): string {
    if rid == 1 then "+2" else if rid == 3 then "+3" else "+4"
  }

  /** User 1 invites `n` times. */
  function Invitations(n: nat): seq<Event> {
    if n == 0 then [] else Invitations(n - 1) + [Invited(1, Phone(2 * n - 1), true, 0)]
  }

  predicate InvitedShape(s: State, n: nat) {
    s.nextId == 2 * n && s.users == Opening().users && s.reward == Opening().reward &&
    s.wallets.Keys == Opening().wallets.Keys && s.wallets[MAIN] == Wallet(0, 0) &&
    s.wallets[FUND].available == 1000_00000 - 5_00000 * n &&
    |s.referrals.Keys| == n && (n >= 1 ==> 1 in s.referrals) && (n >= 2 ==> 3 in s.referrals) &&
    RowsOpen(s)
  }

  /** All rows are open sponsored invitations by user 1, each for its number. */
  predicate RowsOpen(s: State) {
    forall r :: r in s.referrals ==>
      s.referrals[r].inviter == 1 && s.referrals[r].sponsored && s.referrals[r].phone == Phone(r) &&
      IsPending(s.groups, s.referrals[r].group)
  }

  lemma AllRowsInvited(s: State, n: nat)
    requires InvitedShape(s, n)
    ensures InvitedBy(s.referrals, 1) == SponsoredBy(s.referrals, 1) == s.referrals.Keys
  {
  }

  lemma InviteGranted(s: State, n: nat)
    requires InvitedShape(s, n) && n < 10
    ensures FUND in s.wallets && MAIN in s.wallets
    ensures Step(s, Invited(1, Phone(2 * n + 1), true, 0))
         == OpenHold(s, FUND, 5 * UNIT, DebitReferralOsmo, 1, Phone(2 * n + 1), true, 0)
  {
    AllRowsInvited(s, n);
  }

  lemma NewBelowCounter(s: State)
    requires WellFormed(s)
    ensures s.nextId + 1 !in s.referrals
    ensures forall r :: r in s.referrals ==> s.referrals[r].group != s.nextId
  {
    forall r | r in s.referrals ensures s.referrals[r].group != s.nextId { assert RowHold(s, r); }
  }

  lemma OneMoreOpen(s: State, amount: int)
    requires WellFormed(s) && RowsOpen(s)
    requires FUND in s.wallets
    ensures RowsOpen(OpenHold(s, FUND, amount, DebitReferralOsmo, 1, Phone(s.nextId + 1), true, 0))
  {
    hide WellFormed, Phone, AddAvailable;
    NewBelowCounter(s);
  }

  lemma OneMoreHeld(s: State, amount: int, phone: string)
    requires WellFormed(s) && FUND in s.wallets && MAIN in s.wallets
    ensures var post := OpenHold(s, FUND, amount, DebitReferralOsmo, 1, phone, true, 0);
            post.nextId == s.nextId + 2 && post.users == s.users && post.reward == s.reward &&
            post.wallets.Keys == s.wallets.Keys && post.wallets[MAIN] == s.wallets[MAIN] &&
            post.wallets[FUND].available == s.wallets[FUND].available - amount &&
            post.referrals.Keys == s.referrals.Keys + {s.nextId + 1} &&
            |post.referrals.Keys| == |s.referrals.Keys| + 1
  {
    NewBelowCounter(s);
    hide WellFormed;
    var post := OpenHold(s, FUND, amount, DebitReferralOsmo, 1, phone, true, 0);
    assert post.referrals.Keys == s.referrals.Keys + {s.nextId + 1};
  }

  lemma OneMore(s: State, n: nat)
    requires WellFormed(s) && InvitedShape(s, n) && n < 10
    ensures InvitedShape(Step(s, Invited(1, Phone(2 * n + 1), true, 0)), n + 1)
  {
    InviteGranted(s, n);
    hide WellFormed, Step, Phone, RowsOpen, OpenHold, Opening;
    OneMoreOpen(s, 5 * UNIT);
    OneMoreHeld(s, 5 * UNIT, Phone(2 * n + 1));
  }

  lemma {:induction false} Inviting(n: nat)
    requires n <= 10
    ensures WellFormed(Run(Opening(), Invitations(n))) && InvitedShape(Run(Opening(), Invitations(n)), n)
  {
    hide InvitedShape, WellFormed, Step;
    if n == 0 {
      OpeningShape();
    } else {
      var s := Run(Opening(), Invitations(n - 1));
      var e := Invited(1, Phone(2 * n - 1), true, 0);
      Inviting(n - 1);
      RunSnoc(Opening(), Invitations(n - 1), e);
      StepWellFormed(s, e);
      OneMore(s, n - 1);
    }
  }

  lemma OpeningShape()
    ensures Initial(Opening()) && WellFormed(Opening()) && InvitedShape(Opening(), 0)
  {
    InitialWellFormed(Opening());
  }

  lemma FirstReady(s: State)
    requires InvitedShape(s, 10)
    ensures AboutToPay(s, 2, 1)
    ensures s.wallets[MAIN] == Wallet(0, 0)
  {
    AllRowsInvited(s, 10);
    assert Matching(s, "+2") == {1};
  }

  lemma SecondReady(s: State, pick: nat)
    requires WellFormed(s) && InvitedShape(s, 10)
    ensures AboutToPay(AcceptByUser(s, 2, 1, pick, true).state, 3, 3)
  {
    hide InGroup, FindTransaction, WellFormed, AcceptByUser, InvitedBy;
    var e := AcceptedByUser(2, 1, pick, true);
    var post := Step(s, e);
    AllRowsInvited(s, 10);
    FirstReady(s);
    MovesHold(s, 2, 1, pick);
    StepInvitedBy(s, e, 1);
    IdsAndWalletsStay(s, e);
    AcceptanceCloses(s, 2, 1, pick, true);
    AcceptByUserElsewhere(s, 2, 1, pick, true, 3);
    assert post.users == s.users by { UsersStay(s, e); }
    assert Matching(post, "+3") == {3};
  }

  lemma UsersStay(s: State, e: Event)
    ensures Step(s, e).users == s.users
  {
    hide InGroup, FindTransaction, InvitedBy;
  }

  /** User 1 invites ten numbers; users 2 and 3, two of them, register; MAIN is charged twice. */
  lemma TwoRegistrationsPayTwice()
    ensures var s := Run(Opening(), Invitations(10));
            var once := Route(s, 2, Some(1), None, 0, true).state;
            var twice := Route(once, 3, Some(3), None, 0, true).state;
            Initial(Opening()) && Answers(s, 2, Some(1), None, 0, true) && Answers(once, 3, Some(3), None, 0, true) &&
            MAIN in twice.wallets && twice.wallets[MAIN].balance == -20_00000
  {
    hide InvitedShape, WellFormed, Route, AcceptByUser, Answers, Run, AboutToPay, Invitations;
    OpeningShape();
    Inviting(10);
    var s := Run(Opening(), Invitations(10));
    FirstReady(s);
    RegistrationPays(s, 2, 1, 0);
    SecondReady(s, 0);
    StepWellFormed(s, AcceptedByUser(2, 1, 0, true));
    RegistrationPays(AcceptByUser(s, 2, 1, 0, true).state, 3, 3, 0);
  }
}
