/** The wallet ledger: its tables and, for each handler, the state the handler leaves behind.

    Amounts are integers in units of 10^-5, the scale of the decimal(15,5) columns.
    Rows carry numeric identifiers taken from one counter, which stands for fresh UUIDs.
    Where a handler asks the database for "a" transaction of a group without an order, the
    answer is chosen by the argument `pick`, so every statement about all picks covers every
    answer the database may give. */
module LedgerModel {
  import opened Common

  const UNIT := 100000
  const MINIMUM_FUND := 250 * UNIT
  const MAX_SPONSORED := 10
  const REWARDED_REFERRALS := 10
  const TENTH_REWARD := 10 * UNIT

  type Id = nat
  type UserId = nat

  datatype Coin = Usd | Sats | Other(acronym: string)
  datatype Account = Main | Fees | ReferralFund | Customer(user: UserId)
  datatype WalletKey = WalletKey(account: Account, coin: Coin)
  datatype Wallet = Wallet(balance: int, available: int)

  datatype Status = Pending | Completed | Failed
  datatype Group = Group(status: Status, coin: Option<Coin>)
  datatype Subtype = DebitReferralOsmo | DebitFiatTransfer | CreditFiatTransfer | CreditBtcTransferLn
  datatype Transaction = Transaction(wallet: WalletKey, amount: int, group: Id, subtype: Subtype)
  datatype Referral = Referral(inviter: UserId, invited: Option<UserId>, phone: string,
                               sponsored: bool, group: Id, createdAt: int)
  datatype RefundTask = RefundTask(invitation: Id, sponsored: bool)

  datatype State = State(
    users: map<UserId, Option<string>>,   // every user with the mobile number, if there is one
    wallets: map<WalletKey, Wallet>,
    groups: map<Id, Group>,
    transactions: seq<Transaction>,
    referrals: map<Id, Referral>,
    tasks: set<RefundTask>,
    reward: Option<int>,                  // the setting 'referralInvitedReward'
    nextId: Id)

  /** What a handler leaves: the state, and whether it returned normally. A handler may throw
      after its database transaction was committed, so `!ok` does not mean "unchanged". */
  datatype Outcome = Outcome(state: State, ok: bool)

  const FUND := WalletKey(ReferralFund, Usd)

  function Reject(s: State): Outcome { Outcome(s, false) }

  // ---- Table access -------------------------------------------------------------------

  predicate IsDebit(t: Transaction) {
    t.subtype.DebitReferralOsmo? || t.subtype.DebitFiatTransfer?
  }

  predicate IsPending(groups: map<Id, Group>, g: Id) {
    g in groups && groups[g].status.Pending?
  }

  /** The transactions of group `g`, oldest first. */
  function InGroup(ts: seq<Transaction>, g: Id): seq<Transaction> {
    if ts == [] then []
    else
      InGroup(ts[..|ts| - 1], g) + if ts[|ts| - 1].group == g then [ts[|ts| - 1]] else []
  }

  /** The transaction an unordered lookup by group returns. */
  function FindTransaction(ts: seq<Transaction>, g: Id, pick: nat): Option<Transaction> {
    var found := InGroup(ts, g);
    if found == [] then None else Some(found[pick % |found|])
  }

  function TransactionOf(s: State, g: Id, pick: nat): Option<Transaction> {
    FindTransaction(s.transactions, g, pick)
  }

  function SponsoredBy(referrals: map<Id, Referral>, user: UserId): set<Id> {
    set r | r in referrals && referrals[r].inviter == user && referrals[r].sponsored
  }

  function InvitedBy(referrals: map<Id, Referral>, user: UserId): set<Id> {
    set r | r in referrals && referrals[r].inviter == user
  }

  function AddAvailable(ws: map<WalletKey, Wallet>, k: WalletKey, d: int): map<WalletKey, Wallet>
    requires k in ws
  {
    ws[k := ws[k].(available := ws[k].available + d)]
  }

  function AddBalance(ws: map<WalletKey, Wallet>, k: WalletKey, d: int): map<WalletKey, Wallet>
    requires k in ws
  {
    ws[k := ws[k].(balance := ws[k].balance + d)]
  }

  function AddBoth(ws: map<WalletKey, Wallet>, k: WalletKey, d: int): map<WalletKey, Wallet>
    requires k in ws
  {
    ws[k := Wallet(ws[k].balance + d, ws[k].available + d)]
  }

  function SetStatus(groups: map<Id, Group>, g: Id, status: Status): map<Id, Group> {
    if g in groups then groups[g := groups[g].(status := status)] else groups
  }

  // ---- Holds --------------------------------------------------------------------------

  /** Reserve `amount` on wallet `k` under a new PENDING group and a new referral row. */
  function OpenHold(s: State, k: WalletKey, amount: int, subtype: Subtype,
                    inviter: UserId, phone: string, sponsored: bool, now: int): State
    requires k in s.wallets
  {
    var g := s.nextId;
    s.(wallets := AddAvailable(s.wallets, k, -amount),
       groups := s.groups[g := Group(Pending, Some(k.coin))],
       transactions := s.transactions + [Transaction(k, amount, g, subtype)],
       referrals := s.referrals[g + 1 := Referral(inviter, None, phone, sponsored, g, now)],
       nextId := g + 2)
  }

  /** generateInvitation. */
  function Invite(s: State, user: UserId, phone: string, featureOn: bool, now: int): Outcome {
    if !featureOn || |SponsoredBy(s.referrals, user)| >= MAX_SPONSORED || user !in s.users ||
       FUND !in s.wallets || s.wallets[FUND].available < MINIMUM_FUND || s.reward.None?
    then Reject(s)
    else Outcome(OpenHold(s, FUND, s.reward.value, DebitReferralOsmo, user, phone, true, now), true)
  }

  /** SmsSendFiat.sendFiat. */
  function SendBySms(s: State, user: UserId, coin: Coin, amount: int, phone: string, now: int): Outcome {
    var k := WalletKey(Customer(user), coin);
    if user !in s.users || k !in s.wallets || s.wallets[k].available < amount
    then Reject(s)
    else Outcome(OpenHold(s, k, amount, DebitFiatTransfer, user, phone, false, now), true)
  }

  // ---- Acceptance ---------------------------------------------------------------------

  /** The transaction referralByUser moves, when its database transaction commits. */
  function MovedByUser(s: State, user: UserId, rid: Id, pick: nat): Option<Transaction> {
    if user !in s.users || rid !in s.referrals then None
    else
      var row := s.referrals[rid];
      match TransactionOf(s, row.group, pick)
      case None => None
      case Some(t) =>
        if row.group in s.groups &&
           WalletKey(Customer(row.inviter), t.wallet.coin) in s.wallets &&
           WalletKey(Customer(user), t.wallet.coin) in s.wallets
        then Some(t) else None
  }

  /** The committed part of referralByUser. Both wallet updates are computed from the values
      read before either is written, and are written one after the other. */
  function SettleByUser(s: State, user: UserId, rid: Id, t: Transaction): State
    requires rid in s.referrals
    requires WalletKey(Customer(s.referrals[rid].inviter), t.wallet.coin) in s.wallets
    requires WalletKey(Customer(user), t.wallet.coin) in s.wallets
  {
    var row := s.referrals[rid];
    var from := WalletKey(Customer(row.inviter), t.wallet.coin);
    var to := WalletKey(Customer(user), t.wallet.coin);
    var credited := AddBoth(s.wallets, to, t.amount);
    s.(wallets := credited[from := credited[from].(balance := s.wallets[from].balance - t.amount)],
       groups := SetStatus(s.groups, row.group, Completed),
       transactions := s.transactions + [Transaction(to, t.amount, row.group, CreditFiatTransfer)],
       referrals := s.referrals[rid := row.(invited := Some(user))])
  }

  /** The ten-referral reward: paid when the inviter has exactly ten rows. */
  predicate RewardDue(s: State, inviter: UserId, coin: Coin) {
    |InvitedBy(s.referrals, inviter)| == REWARDED_REFERRALS &&
    WalletKey(Customer(inviter), coin) in s.wallets && WalletKey(Main, coin) in s.wallets
  }

  function PayReward(s: State, inviter: UserId, coin: Coin): State
    requires RewardDue(s, inviter, coin)
  {
    var k := WalletKey(Customer(inviter), coin);
    var main := WalletKey(Main, coin);
    var g := s.nextId;
    s.(wallets := AddBalance(AddBoth(s.wallets, k, TENTH_REWARD), main, -TENTH_REWARD),
       groups := s.groups[g := Group(Completed, None)],
       transactions := s.transactions + [Transaction(main, TENTH_REWARD, g, DebitReferralOsmo),
                                         Transaction(k, TENTH_REWARD, g, CreditFiatTransfer)],
       nextId := g + 1)
  }

  /** referralByUser. `payoutReady` says that the payout account and the inviter's on-chain
      address are configured; the handler checks them after the first commit. */
  function AcceptByUser(s: State, user: UserId, rid: Id, pick: nat, payoutReady: bool): Outcome {
    match MovedByUser(s, user, rid, pick)
    case None => Reject(s)
    case Some(t) =>
      var settled := SettleByUser(s, user, rid, t);
      var inviter := s.referrals[rid].inviter;
      if !payoutReady then Outcome(settled, false)
      else if |InvitedBy(settled.referrals, inviter)| != REWARDED_REFERRALS then Outcome(settled, true)
      else if !RewardDue(settled, inviter, t.wallet.coin) then Outcome(settled, false)
      else Outcome(PayReward(settled, inviter, t.wallet.coin), true)
  }

  /** Whether AcceptByUser also pays the ten-referral reward. */
  predicate PaysReward(s: State, user: UserId, rid: Id, pick: nat, payoutReady: bool) {
    var t := MovedByUser(s, user, rid, pick);
    t.Some? && payoutReady &&
    RewardDue(SettleByUser(s, user, rid, t.value), s.referrals[rid].inviter, t.value.wallet.coin)
  }

  /** The hold referralByOsmo spends, when its database transaction commits. */
  function MovedByOsmo(s: State, user: UserId, rid: Id, pick: nat): Option<Transaction> {
    if rid !in s.referrals || s.reward.None? || FUND !in s.wallets ||
       WalletKey(Customer(user), Usd) !in s.wallets
    then None
    else TransactionOf(s, s.referrals[rid].group, pick)
  }

  /** referralByOsmo: the fund pays what was held, the invitee receives the current reward. */
  function AcceptByOsmo(s: State, user: UserId, rid: Id, pick: nat): Outcome {
    match MovedByOsmo(s, user, rid, pick)
    case None => Reject(s)
    case Some(t) =>
      var row := s.referrals[rid];
      var to := WalletKey(Customer(user), Usd);
      Outcome(
        s.(wallets := AddBoth(AddBalance(s.wallets, FUND, -t.amount), to, s.reward.value),
           groups := SetStatus(s.groups, row.group, Completed),
           transactions := s.transactions + [Transaction(to, s.reward.value, row.group, CreditFiatTransfer)],
           referrals := s.referrals[rid := row.(invited := Some(user))]),
        true)
  }

  // ---- Refunds of invitations ---------------------------------------------------------

  /** The wallet an invitation's refund credits, if the referral row and the wallet exist. */
  function RefundTarget(s: State, rid: Id, sponsored: bool): Option<WalletKey> {
    if rid !in s.referrals then None
    else if sponsored then (if FUND in s.wallets then Some(FUND) else None)
    else
      var row := s.referrals[rid];
      if row.group in s.groups && s.groups[row.group].coin.Some? &&
         WalletKey(Customer(row.inviter), s.groups[row.group].coin.value) in s.wallets
      then Some(WalletKey(Customer(row.inviter), s.groups[row.group].coin.value))
      else None
  }

  /** The transaction whose amount a refund returns, when the refund commits. */
  function RefundedBy(s: State, rid: Id, sponsored: bool, pick: nat): Option<Transaction> {
    if RefundTarget(s, rid, sponsored).None? then None
    else TransactionOf(s, s.referrals[rid].group, pick)
  }

  /** POST /referral/refund: refundOsmoReferralTransaction or refundSmsTransaction. */
  function RefundInvitation(s: State, rid: Id, sponsored: bool, pick: nat): Outcome {
    match RefundedBy(s, rid, sponsored, pick)
    case None => Reject(s)
    case Some(t) =>
      Outcome(
        s.(wallets := AddAvailable(s.wallets, RefundTarget(s, rid, sponsored).value, t.amount),
           groups := SetStatus(s.groups, s.referrals[rid].group, Failed),
           referrals := s.referrals - {rid}),
        true)
  }

  /** checkExpiredInvitation: one refund task for each unaccepted row older than its cutoff. */
  function CheckExpired(s: State, userCutoff: int, osmoCutoff: int): Outcome {
    var due := set r | r in s.referrals && s.referrals[r].invited.None? &&
                       s.referrals[r].createdAt < (if s.referrals[r].sponsored then osmoCutoff else userCutoff)
                     :: RefundTask(r, s.referrals[r].sponsored);
    Outcome(s.(tasks := s.tasks + due), true)
  }

  // ---- Receptions and refunds of sends ------------------------------------------------

  /** scanToReceive, once the LNURL withdrawal has been paid. */
  function ScanToReceive(s: State, user: UserId, amount: int): Outcome {
    var k := WalletKey(Customer(user), Sats);
    if k !in s.wallets then Reject(s)
    else
      var g := s.nextId;
      Outcome(
        s.(wallets := AddBoth(s.wallets, k, amount),
           groups := s.groups[g := Group(Completed, Some(Sats))],
           transactions := s.transactions + [Transaction(k, amount, g, CreditBtcTransferLn)],
           nextId := g + 1),
        true)
  }

  function CloseSend(groups: map<Id, Group>, g: Option<Id>): map<Id, Group> {
    if g.Some? then SetStatus(groups, g.value, Failed) else groups
  }

  /** refundNativeInvoiceTransaction; `g` is the group, when its identifier is a UUID. */
  function RefundNative(s: State, user: UserId, coin: Coin, amount: int, g: Option<Id>): Outcome {
    var k := WalletKey(Customer(user), coin);
    if k !in s.wallets || amount == 0 then Reject(s)
    else Outcome(s.(wallets := AddBoth(s.wallets, k, amount), groups := CloseSend(s.groups, g)),
                 user in s.users)
  }

  /** refundAutoConverToSendInvoiceTransaction. `ready` says that the user has an Ibex account and that
      the transfer back to Osmo, if one was asked for, went through; both come before the tables. */
  function RefundAutoconvert(s: State, user: UserId, coin: Coin, fee: int, total: int, g: Option<Id>, ready: bool)
    : Outcome
  {
    var k := WalletKey(Customer(user), coin);
    var fees := WalletKey(Fees, coin);
    if !ready || fees !in s.wallets || k !in s.wallets || fee == 0 || total == 0 then Reject(s)
    else Outcome(s.(wallets := AddBoth(AddBoth(s.wallets, fees, -fee), k, total), groups := CloseSend(s.groups, g)),
                 user in s.users)
  }

  // ---- Runs ---------------------------------------------------------------------------

  datatype Event =
    | Invited(user: UserId, phone: string, featureOn: bool, now: int)
    | SentBySms(user: UserId, coin: Coin, amount: int, phone: string, now: int)
    | AcceptedByUser(user: UserId, rid: Id, pick: nat, payoutReady: bool)
    | AcceptedByOsmo(user: UserId, rid: Id, pick: nat)
    | RefundedInvitation(rid: Id, sponsored: bool, pick: nat)
    | CheckedExpired(userCutoff: int, osmoCutoff: int)
    | Scanned(user: UserId, amount: int)
    | RefundedNative(user: UserId, coin: Coin, amount: int, group: Option<Id>)
    | RefundedAutoconvert(user: UserId, coin: Coin, fee: int, total: int, group: Option<Id>, ready: bool)
    | RewardSet(reward: Option<int>)

  function Step(s: State, e: Event): State {
    match e
    case Invited(u, phone, on, now) => Invite(s, u, phone, on, now).state
    case SentBySms(u, coin, amount, phone, now) => SendBySms(s, u, coin, amount, phone, now).state
    case AcceptedByUser(u, rid, pick, ready) => AcceptByUser(s, u, rid, pick, ready).state
    case AcceptedByOsmo(u, rid, pick) => AcceptByOsmo(s, u, rid, pick).state
    case RefundedInvitation(rid, sponsored, pick) => RefundInvitation(s, rid, sponsored, pick).state
    case CheckedExpired(userCutoff, osmoCutoff) => CheckExpired(s, userCutoff, osmoCutoff).state
    case Scanned(u, amount) => ScanToReceive(s, u, amount).state
    case RefundedNative(u, coin, amount, g) => RefundNative(s, u, coin, amount, g).state
    case RefundedAutoconvert(u, coin, fee, total, g, ready) => RefundAutoconvert(s, u, coin, fee, total, g, ready).state
    case RewardSet(r) => s.(reward := r)
  }

  function Run(s: State, es: seq<Event>): State
    decreases es
  {
    if es == [] then s else Run(Step(s, es[0]), es[1..])
  }

  // ---- Routing ------------------------------------------------------------------------

  /** The rows `referral` looks for: sponsored, for this number, with a PENDING group.
      Both of its lookups use this filter. */
  function Matching(s: State, mobile: string): set<Id> {
    set r | r in s.referrals && s.referrals[r].sponsored && s.referrals[r].phone == mobile &&
            IsPending(s.groups, s.referrals[r].group)
  }

  /** The first half of `referral`: the lookup whose row is handed to referralByUser. */
  function RouteFirst(s: State, user: UserId, first: Option<Id>, pick: nat, payoutReady: bool): Outcome {
    if first.None? then Outcome(s, true) else AcceptByUser(s, user, first.value, pick, payoutReady)
  }

  /** referral: `first` and `second` are the answers to its two lookups. */
  function Route(s: State, user: UserId, first: Option<Id>, second: Option<Id>, pick: nat, payoutReady: bool): Outcome {
    if user !in s.users || s.users[user].None? then Reject(s)
    else
      var r := RouteFirst(s, user, first, pick, payoutReady);
      if !r.ok || second.None? then r else AcceptByOsmo(r.state, user, second.value, pick)
  }
}
