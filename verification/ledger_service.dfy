/** The handlers of the referral, send and receive services as methods that rewrite the tables row
    by row, each proved to leave exactly the state the model says. `Valid` keeps the tables equal to
    the run of the events of all calls so far, so what is proved of runs holds after any calls. */
module LedgerService {
  import opened Common
  import opened LedgerModel
  import opened LedgerTables
  import opened LedgerRouting
  import opened Calendar

  class Ledger {
    var users: map<UserId, Option<string>>
    var wallets: map<WalletKey, Wallet>
    var groups: map<Id, Group>
    var transactions: seq<Transaction>
    var referrals: map<Id, Referral>
    var tasks: set<RefundTask>
    var reward: Option<int>
    var nextId: Id
    ghost var start: State         // the tables at construction
    ghost var events: seq<Event>   // the events of the calls so far

    ghost function Contents(): State
      reads `users, `wallets, `groups, `transactions, `referrals, `tasks, `reward, `nextId
    {
      State(users, wallets, groups, transactions, referrals, tasks, reward, nextId)
    }

    ghost predicate Valid()
      reads this
    {
      Initial(start) && Contents() == Run(start, events)
    }

    constructor (users: map<UserId, Option<string>>, wallets: map<WalletKey, Wallet>, reward: Option<int>)
      requires forall w :: w in wallets ==> wallets[w].balance == wallets[w].available
      ensures Valid() && start == Contents() && events == []
      ensures this.users == users && this.wallets == wallets && this.reward == reward
    {
      this.users, this.wallets, this.reward := users, wallets, reward;
      groups, transactions, referrals, tasks, nextId := map[], [], map[], {}, 0;
      start, events := State(users, wallets, map[], [], map[], {}, reward, 0), [];
    }

    /** Records the event a call is about to carry out. */
    ghost method Record(e: Event)
      requires Valid()
      modifies `events
      ensures events == old(events) + [e] && Run(start, events) == Step(Contents(), e)
    {
      hide Step, Run;
      RunSnoc(start, events, e);
      events := events + [e];
    }

    method InsertGroup(status: Status, coin: Option<Coin>) returns (g: Id)
      modifies `groups, `nextId
      ensures g == old(nextId) && nextId == g + 1
      ensures groups == old(groups)[g := Group(status, coin)]
    {
      g := nextId;
      groups := groups[g := Group(status, coin)];
      nextId := nextId + 1;
    }

    method UpdateStatus(g: Id, status: Status)
      modifies `groups
      ensures groups == SetStatus(old(groups), g, status)
    {
      if g in groups {
        groups := groups[g := groups[g].(status := status)];
      }
    }

    method InsertTransaction(k: WalletKey, amount: int, g: Id, subtype: Subtype)
      modifies `transactions
      ensures transactions == old(transactions) + [Transaction(k, amount, g, subtype)]
    {
      transactions := transactions + [Transaction(k, amount, g, subtype)];
    }

    method InsertReferral(inviter: UserId, phone: string, sponsored: bool, g: Id, now: int)
      modifies `referrals, `nextId
      ensures nextId == old(nextId) + 1
      ensures referrals == old(referrals)[old(nextId) := Referral(inviter, None, phone, sponsored, g, now)]
    {
      referrals := referrals[nextId := Referral(inviter, None, phone, sponsored, g, now)];
      nextId := nextId + 1;
    }

    method GenerateInvitation(user: UserId, phone: string, featureOn: bool, now: int) returns (ok: bool)
      requires Valid()
      modifies this
      ensures Valid() && start == old(start) && events == old(events) + [Invited(user, phone, featureOn, now)]
      ensures Outcome(Contents(), ok) == Invite(old(Contents()), user, phone, featureOn, now)
    {
      hide Run, Initial, InGroup, SponsoredBy, SetStatus;
      Record(Invited(user, phone, featureOn, now));
      if !featureOn { return false; }
      if |SponsoredBy(referrals, user)| >= MAX_SPONSORED { return false; }
      if user !in users || FUND !in wallets { return false; }
      var fund := wallets[FUND];
      if fund.available < MINIMUM_FUND || reward.None? { return false; }
      var amountToDebit := reward.value;
      wallets := wallets[FUND := fund.(available := fund.available - amountToDebit)];
      var g := InsertGroup(Pending, Some(Usd));
      InsertReferral(user, phone, true, g, now);
      InsertTransaction(FUND, amountToDebit, g, DebitReferralOsmo);
      return true;
    }

    method SendFiatBySms(user: UserId, coin: Coin, amount: int, phone: string, now: int) returns (ok: bool)
      requires Valid()
      modifies this
      ensures Valid() && start == old(start) && events == old(events) + [SentBySms(user, coin, amount, phone, now)]
      ensures Outcome(Contents(), ok) == SendBySms(old(Contents()), user, coin, amount, phone, now)
    {
      hide Run, Initial, InGroup, SponsoredBy, SetStatus;
      Record(SentBySms(user, coin, amount, phone, now));
      var k := WalletKey(Customer(user), coin);
      if user !in users || k !in wallets { return false; }
      var wallet := wallets[k];
      if wallet.available < amount { return false; }
      wallets := wallets[k := wallet.(available := wallet.available - amount)];
      var g := InsertGroup(Pending, Some(coin));
      InsertReferral(user, phone, false, g, now);
      InsertTransaction(k, amount, g, DebitFiatTransfer);
      return true;
    }

    /** The writes of referralByUser's database transaction. */
    method SettleReferral(user: UserId, rid: Id, debit: Transaction)
      requires rid in referrals
      requires WalletKey(Customer(referrals[rid].inviter), debit.wallet.coin) in wallets
      requires WalletKey(Customer(user), debit.wallet.coin) in wallets
      modifies `wallets, `groups, `transactions, `referrals
      ensures Contents() == SettleByUser(old(Contents()), user, rid, debit)
    {
      hide SetStatus;
      var row, amount, coin := referrals[rid], debit.amount, debit.wallet.coin;
      var inviterKey, invitedKey := WalletKey(Customer(row.inviter), coin), WalletKey(Customer(user), coin);
      // Both rows are read before either update is issued.
      var inviterWallet, invitedWallet := wallets[inviterKey], wallets[invitedKey];
      wallets := wallets[invitedKey := Wallet(invitedWallet.balance + amount, invitedWallet.available + amount)];
      wallets := wallets[inviterKey := wallets[inviterKey].(balance := inviterWallet.balance - amount)];
      UpdateStatus(row.group, Completed);
      referrals := referrals[rid := row.(invited := Some(user))];
      InsertTransaction(invitedKey, amount, row.group, CreditFiatTransfer);
    }

    method ReferralByUser(user: UserId, rid: Id, pick: nat, payoutReady: bool) returns (ok: bool)
      requires Valid()
      modifies this
      ensures Valid() && start == old(start) && events == old(events) + [AcceptedByUser(user, rid, pick, payoutReady)]
      ensures Outcome(Contents(), ok) == AcceptByUser(old(Contents()), user, rid, pick, payoutReady)
    {
      hide InGroup, FindTransaction, InvitedBy, Run, Initial, SetStatus;
      Record(AcceptedByUser(user, rid, pick, payoutReady));
      if user !in users || rid !in referrals { return false; }
      var row := referrals[rid];
      var debit := FindTransaction(transactions, row.group, pick);
      if debit.None? || row.group !in groups { return false; }
      var coin := debit.value.wallet.coin;
      if WalletKey(Customer(row.inviter), coin) !in wallets { return false; }
      if WalletKey(Customer(user), coin) !in wallets { return false; }
      SettleReferral(user, rid, debit.value);

      if !payoutReady { return false; }
      if |InvitedBy(referrals, row.inviter)| != REWARDED_REFERRALS { return true; }
      ok := PayTenReferralReward(row.inviter, coin);
    }

    method PayTenReferralReward(inviter: UserId, coin: Coin) returns (ok: bool)
      requires |InvitedBy(referrals, inviter)| == REWARDED_REFERRALS
      modifies `wallets, `groups, `transactions, `nextId
      ensures ok == RewardDue(old(Contents()), inviter, coin)
      ensures Contents() == if ok then PayReward(old(Contents()), inviter, coin) else old(Contents())
    {
      var main, k := WalletKey(Main, coin), WalletKey(Customer(inviter), coin);
      if k !in wallets || main !in wallets { return false; }
      var osmoWallet, inviterWallet := wallets[main], wallets[k];
      wallets := wallets[k := Wallet(inviterWallet.balance + TENTH_REWARD, inviterWallet.available + TENTH_REWARD)];
      wallets := wallets[main := osmoWallet.(balance := osmoWallet.balance - TENTH_REWARD)];
      var g := InsertGroup(Completed, None);
      InsertTransaction(main, TENTH_REWARD, g, DebitReferralOsmo);
      InsertTransaction(k, TENTH_REWARD, g, CreditFiatTransfer);
      return true;
    }

    /** The writes of referralByOsmo's database transaction. */
    method SettleInvitation(user: UserId, rid: Id, held: int, invitedReward: int)
      requires rid in referrals && FUND in wallets && WalletKey(Customer(user), Usd) in wallets
      modifies `wallets, `groups, `transactions, `referrals
      ensures var k := WalletKey(Customer(user), Usd);
              wallets == AddBoth(AddBalance(old(wallets), FUND, -held), k, invitedReward) &&
              groups == SetStatus(old(groups), old(referrals)[rid].group, Completed) &&
              transactions == old(transactions) +
                [Transaction(k, invitedReward, old(referrals)[rid].group, CreditFiatTransfer)] &&
              referrals == old(referrals)[rid := old(referrals)[rid].(invited := Some(user))]
    {
      hide SetStatus;
      var row, k := referrals[rid], WalletKey(Customer(user), Usd);
      var fund, invited := wallets[FUND], wallets[k];
      wallets := wallets[FUND := fund.(balance := fund.balance - held)];
      wallets := wallets[k := Wallet(invited.balance + invitedReward, invited.available + invitedReward)];
      UpdateStatus(row.group, Completed);
      referrals := referrals[rid := row.(invited := Some(user))];
      InsertTransaction(k, invitedReward, row.group, CreditFiatTransfer);
    }

    method ReferralByOsmo(user: UserId, rid: Id, pick: nat) returns (ok: bool)
      requires Valid()
      modifies this
      ensures Valid() && start == old(start) && events == old(events) + [AcceptedByOsmo(user, rid, pick)]
      ensures Outcome(Contents(), ok) == AcceptByOsmo(old(Contents()), user, rid, pick)
    {
      hide InGroup, FindTransaction, Run, Initial, SetStatus, AddBoth, AddBalance;
      Record(AcceptedByOsmo(user, rid, pick));
      if rid !in referrals || reward.None? { return false; }
      var hold := FindTransaction(transactions, referrals[rid].group, pick);
      if hold.None? || FUND !in wallets || WalletKey(Customer(user), Usd) !in wallets { return false; }
      SettleInvitation(user, rid, hold.value.amount, reward.value);
      return true;
    }

    /** `first` and `second` are what the database answers to the two lookups. */
    method RegisterReferral(user: UserId, first: Option<Id>, second: Option<Id>, pick: nat, payoutReady: bool)
      returns (ok: bool)
      requires Valid()
      modifies this
      ensures Valid() && start == old(start)
      ensures events == old(events) + RouteEvents(old(Contents()), user, first, second, pick, payoutReady)
      ensures Outcome(Contents(), ok) == Route(old(Contents()), user, first, second, pick, payoutReady)
    {
      hide AcceptByUser, AcceptByOsmo, Run;
      if user !in users || users[user].None? { return false; }
      if first.Some? {
        var done := ReferralByUser(user, first.value, pick, payoutReady);
        if !done { return false; }
      }
      if second.None? { return true; }
      ok := ReferralByOsmo(user, second.value, pick);
    }

    method Refund(rid: Id, sponsored: bool, pick: nat) returns (ok: bool)
      requires Valid()
      modifies this
      ensures Valid() && start == old(start) && events == old(events) + [RefundedInvitation(rid, sponsored, pick)]
      ensures Outcome(Contents(), ok) == RefundInvitation(old(Contents()), rid, sponsored, pick)
    {
      if sponsored {
        ok := RefundOsmoReferralTransaction(rid, pick);
      } else {
        ok := RefundSmsTransaction(rid, pick);
      }
    }

    method RefundOsmoReferralTransaction(rid: Id, pick: nat) returns (ok: bool)
      requires Valid()
      modifies this
      ensures Valid() && start == old(start) && events == old(events) + [RefundedInvitation(rid, true, pick)]
      ensures Outcome(Contents(), ok) == RefundInvitation(old(Contents()), rid, true, pick)
    {
      hide Run, Initial, InGroup, SponsoredBy, SetStatus;
      Record(RefundedInvitation(rid, true, pick));
      if rid !in referrals { return false; }
      var row := referrals[rid];
      var osmoTransaction := FindTransaction(transactions, row.group, pick);
      if osmoTransaction.None? || FUND !in wallets { return false; }
      var fund := wallets[FUND];
      wallets := wallets[FUND := fund.(available := fund.available + osmoTransaction.value.amount)];
      UpdateStatus(row.group, Failed);
      referrals := referrals - {rid};
      return true;
    }

    method RefundSmsTransaction(rid: Id, pick: nat) returns (ok: bool)
      requires Valid()
      modifies this
      ensures Valid() && start == old(start) && events == old(events) + [RefundedInvitation(rid, false, pick)]
      ensures Outcome(Contents(), ok) == RefundInvitation(old(Contents()), rid, false, pick)
    {
      hide Run, Initial, InGroup, SponsoredBy, SetStatus;
      Record(RefundedInvitation(rid, false, pick));
      if rid !in referrals { return false; }
      var row := referrals[rid];
      if row.group !in groups || groups[row.group].coin.None? { return false; }
      var k := WalletKey(Customer(row.inviter), groups[row.group].coin.value);
      if k !in wallets { return false; }
      var invitedTransaction := FindTransaction(transactions, row.group, pick);
      if invitedTransaction.None? { return false; }
      wallets := wallets[k := wallets[k].(available := wallets[k].available + invitedTransaction.value.amount)];
      UpdateStatus(row.group, Failed);
      referrals := referrals - {rid};
      return true;
    }

    /** Creation times and today's time of day are in milliseconds. */
    method CheckExpiredInvitation(day: int, ms: int)
      requires Valid()
      modifies `tasks, `events
      ensures var now := day * DAY_MS + ms;
              events == old(events) + [CheckedExpired(now - 5 * DAY_MS, now - OsmoDays(CivilOf(day)) * DAY_MS)]
      ensures Valid()
      ensures var now := day * DAY_MS + ms;
              Contents() == CheckExpired(old(Contents()), now - 5 * DAY_MS,
                                         now - OsmoDays(CivilOf(day)) * DAY_MS).state
    {
      hide Run, CivilOf, OsmoDays;
      var userCutoff, osmoCutoff := ExpiryCutoffs(day, ms);
      assert userCutoff == day * DAY_MS + ms - 5 * DAY_MS;
      assert osmoCutoff == day * DAY_MS + ms - OsmoDays(CivilOf(day)) * DAY_MS;
      Record(CheckedExpired(userCutoff, osmoCutoff));
      var byUsers := set r | r in referrals && referrals[r].invited.None? && !referrals[r].sponsored &&
                             referrals[r].createdAt < userCutoff :: RefundTask(r, false);
      var byOsmo := set r | r in referrals && referrals[r].invited.None? && referrals[r].sponsored &&
                            referrals[r].createdAt < osmoCutoff :: RefundTask(r, true);
      tasks := tasks + byUsers + byOsmo;
    }

    method ScanToReceive(user: UserId, amountSats: int) returns (ok: bool)
      requires Valid()
      modifies this
      ensures Valid() && start == old(start) && events == old(events) + [Scanned(user, amountSats)]
      ensures Outcome(Contents(), ok) == LedgerModel.ScanToReceive(old(Contents()), user, amountSats)
    {
      hide Run, Initial, InGroup, SponsoredBy, SetStatus;
      Record(Scanned(user, amountSats));
      var k := WalletKey(Customer(user), Sats);
      if k !in wallets { return false; }
      wallets := wallets[k := wallets[k].(available := wallets[k].available + amountSats)];
      wallets := wallets[k := wallets[k].(balance := wallets[k].balance + amountSats)];
      var g := InsertGroup(Completed, Some(Sats));
      InsertTransaction(k, amountSats, g, CreditBtcTransferLn);
      return true;
    }

    method RefundNativeInvoiceTransaction(user: UserId, coin: Coin, amount: int, g: Option<Id>) returns (ok: bool)
      requires Valid()
      modifies this
      ensures Valid() && start == old(start) && events == old(events) + [RefundedNative(user, coin, amount, g)]
      ensures Outcome(Contents(), ok) == RefundNative(old(Contents()), user, coin, amount, g)
    {
      hide Run, Initial, InGroup, SponsoredBy, SetStatus;
      Record(RefundedNative(user, coin, amount, g));
      var k := WalletKey(Customer(user), coin);
      if k !in wallets || amount == 0 { return false; }
      wallets := wallets[k := wallets[k].(available := wallets[k].available + amount)];
      wallets := wallets[k := wallets[k].(balance := wallets[k].balance + amount)];
      if g.Some? { UpdateStatus(g.value, Failed); }
      return user in users;
    }

    /** `transferred` says whether the transfer back to Osmo, made if `refundToOsmo` asks for it before
        any table is read, goes through. */
    method RefundAutoConvertToSendInvoiceTransaction(user: UserId, coin: Coin, fee: int, total: int, g: Option<Id>,
                                                     hasAccount: bool, refundToOsmo: bool, transferred: bool)
      returns (ok: bool)
      requires Valid()
      modifies this
      ensures var ready := hasAccount && (refundToOsmo ==> transferred);
              Valid() && start == old(start) &&
              events == old(events) + [RefundedAutoconvert(user, coin, fee, total, g, ready)] &&
              Outcome(Contents(), ok) == RefundAutoconvert(old(Contents()), user, coin, fee, total, g, ready)
    {
      hide Run, Initial, InGroup, SponsoredBy, SetStatus;
      Record(RefundedAutoconvert(user, coin, fee, total, g, hasAccount && (refundToOsmo ==> transferred)));
      if !hasAccount { return false; }
      if refundToOsmo {
        if !transferred { return false; }
      }
      var fees, k := WalletKey(Fees, coin), WalletKey(Customer(user), coin);
      if fees !in wallets || k !in wallets || fee == 0 || total == 0 { return false; }
      var feeWallet, userWallet := wallets[fees], wallets[k];
      feeWallet := feeWallet.(available := feeWallet.available - fee);
      feeWallet := feeWallet.(balance := feeWallet.balance - fee);
      userWallet := userWallet.(available := userWallet.available + total);
      userWallet := userWallet.(balance := userWallet.balance + total);
      wallets := wallets[fees := feeWallet][k := userWallet];
      if g.Some? { UpdateStatus(g.value, Failed); }
      return user in users;
    }

    /** A new value of the setting 'referralInvitedReward'. */
    method ChangeReward(reward: Option<int>)
      requires Valid()
      modifies `reward, `events
      ensures Valid() && events == old(events) + [RewardSet(reward)] && this.reward == reward
    {
      Record(RewardSet(reward));
      this.reward := reward;
    }
  }
}
