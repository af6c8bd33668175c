# Osmo Wallet core: a verified model

This project models the parts of the Osmo Wallet backend that keep money and credentials, and proves
what holds over every run of them. Check it with `dafny verify dfyconfig.toml` (Dafny 4.11).

Code that computes a value is a function here; a service that rewrites rows or objects is a class whose
methods rewrite fields step by step, each proved to leave exactly the state the functions describe.
Statements about runs are lemmas about sequences of those states.

| file | what it models |
|---|---|
| `common.dfy` | optional values, the sum over a map |
| `ledger_model.dfy` | wallets, groups, transactions, referral rows, refund tasks; the state each handler leaves; runs; the routing of registered users |
| `ledger_tables.dfy` | held amounts; the table invariants every handler keeps on every input |
| `ledger_escrow.dfy` | the escrow property: exact accounting, exactly when a handler or run keeps it |
| `ledger_conservation.dfy` | how totals of a coin change over a run |
| `ledger_history.dfy` | what later events cannot change about an open invitation; its refund, redelivery, the cap of ten |
| `ledger_queue.dfy` | what the expiry check enqueues, and exactly when a delivery keeps the escrow property |
| `ledger_outcomes.dfy` | exactly when each handler succeeds, and what it does to every wallet, group, row and task |
| `ledger_audit.dfy` | balances recomputed from the transaction table: exact accounting, exactly when an event, a registration or a run keeps it |
| `ledger_fund.dfy` | solvency of the referral fund |
| `ledger_routing.dfy` | `referral`, what it never touches, and a registration that loses the escrow property |
| `ledger_arrivals.dfy` | runs in which invitations are accepted only by registering |
| `ledger_arrival_runs.dfy` | escrow, audit, solvency and totals over those runs |
| `ledger_late_refund.dfy` | refunds delivered after the acceptance, and a run that loses the escrow property |
| `ledger_reward.dfy` | the ten-referral reward: when, how often, what MAIN pays |
| `ledger_service.dfy` | the handlers as methods, over the run of their events |
| `encrypter.dfy` | counter mode and hexadecimal |
| `one_time_codes.dfy` | one-time codes: sent, verified, issued for cash-outs and spent by them |
| `sessions.dfy` | refresh tokens, the updates refreshes start, and logouts |
| `ibex_token.dfy` | the Ibex access token and its cache |
| `rate_limit.dfy` | the sliding-window limit |
| `partner_quote.dfy` | the partner quote and its three roundings |
| `analytics.dfy` | the weighted average price |
| `calendar.dfy` | dates changed in place, billing windows, expiry cutoffs |
| `kyc.dfy` | identity events, the name splitter |
| `cards.dfy` | saved cards |

## The ledger

A wallet has a balance and an available balance, here in units of 10^-5. An invitation takes its amount
out of the available balance only and records it as the hold, a debit under a PENDING group. Acceptance
takes the hold out of the holder's balance; a refund puts it back into the available balance. The escrow
property says that, outside MAIN, balance less available balance is what the wallet holds under PENDING
groups. `Drift` says by how much each event moves a wallet away from that, `Sound` when it does not; both
are read off the rows before the event. Where the database may answer an unordered lookup in several
ways, the answer is an argument and every statement covers all of them.

## Where the code differs from what it promises

- The repository's README.md:180-181 describes two invitations, Osmo's and a user's own. `referral` looks for both with
  `isOsmoSponsor: true` (src/modules/referral/referral.service.ts:283-289 and 303-309), so the first
  handler debits the inviter for money the referral fund holds, and money sent by SMS is never accepted
  (`UserMoneyNeverAccepted`). `RouteKeepsHoldsIff` says exactly when this breaks the escrow property,
  `RoutingBreaksHolds` gives a run.
- The ten-referral reward counts rows, accepted or not, so every acceptance made while there are ten rows
  pays it again (`RewardPaidIff`, `RewardRepeats`). `RunMain` says what that costs over any run, and in
  `TwoRegistrationsPayTwice` ten invitations and two registrations charge MAIN twice.
- The refund handlers read no status. A task enqueued before an acceptance and delivered after it gives the
  fund back money it has paid, if `referralByOsmo` made the acceptance: `LateRefundBreaksHolds` is such a run,
  at whose end the fund has more available than its balance. If `referralByUser` made it, the fund gets back
  what the inviter paid in its place (`LateAfterUser`). In runs driven by the queue a delivery goes wrong
  only if its row's group is no longer PENDING (`DeliveryKeepsHoldsIff`, `QueueKeepsHoldsIff`).
- The transaction table explains every balance until a registration finds an invitation that moves money:
  then the inviter's balance is short of the amount and the fund's is over by it (`RouteKeepsAuditIff`,
  `RegistrationUnaudited`).
- A user may invite their own number and register. `referralByUser` then reads one wallet twice and writes it
  twice, and the amount is lost; nothing else changes a total under one reward setting
  (`ArrivalsConserveIff`, `OwnInvitationLoses`).
- The repository's README.md:181 says 30 days for Osmo's invitations. The code's cutoff is 35 days back, or 4 to 7 days
  back in the first five days of a month (`ExpiryCutoffs`, `OsmoDaysExact`).
- On a day of the month that the previous month does not have, the billing window starts in the current
  month and is empty (`BillingWindow`, `EmptyOnMarch31`).
- The attempt counter of an identity verification stores the value before its increment, so it never moves
  (`AttemptsStay`). For users who signed up it stays at 1 and the rule for a third attempt never applies
  (`FreshNeverAtLimit`). A migrated row may hold another number
  (src/modules/app-migration/app-migration.service.ts:709-715); `RejectionReachesIff` says exactly when a
  rejection is then lost, `MigratedRowMeetsLimit` gives one.
- After a login that returned an empty token, `getToken` never returns (`GetTokenReturnsIff`, `EmptyLogin`).
- A cash-out finds its code by number alone, so it is accepted for any unexpired code, whoever has it and for
  whatever purpose (`CashOutAcceptedIff`), and a sign-in or verification code it deletes no longer verifies
  (`CashOutConsumesAnyCode`, `SpentByAnother`).
- Issuing a code for a cash-out looks for no earlier one, so a user may have several, each usable
  (`TransactionUniqueIff`, `TwoIssues`).
- A refresh answers before its update takes effect. Until then the old token is accepted again and the new one
  refused (`OldTokenUntilStored`), and of two overlapping refreshes one hands out a token that is never
  accepted (`OverlappingRefreshes`).
- Two sign-ins that sign the same claims get the same refresh token, and rotating it in one session leaves
  it usable through the other (`RepeatedTokenSurvives`).
- The limit of four transactions in five minutes counts recorded ones only: with `d` attempts of a user
  checked and not yet recorded it is three and `d`, which is reached for every `d` (`AtMostThreeAndWaiting`,
  `BoundReached`).
- A user's first card is no default unless asked for; the second is (`CreateExact`).

## Model

| member | source | states |
|---|---|---|
| LedgerTables.StepWellFormed | src/modules/referral/referral.service.ts:66-118 | every handler keeps, on all arguments and lookup answers: one transaction, the hold, under each PENDING group, on the wallet the row says; one row per group; tasks with their row's sponsor flag |
| LedgerTables.RunWellFormed | src/modules/referral/referral.service.ts:198-263 | the same in every reachable state |
| LedgerTables.HeldClose | src/modules/referral/referral.service.ts:105-107 | moving a group out of PENDING releases exactly that group's debits from the held amount of each wallet |
| LedgerEscrow.AcceptByUserSlack | src/modules/referral/referral.service.ts:333-498 | accepting a user's invitation, reward included, moves each wallet's balance-available-held difference by exactly the stated drift, also when inviter and invitee coincide |
| LedgerEscrow.AcceptByOsmoSlack | src/modules/referral/referral.service.ts:514-583 | the same for Osmo's acceptance |
| LedgerEscrow.RefundInvitationSlack | src/modules/referral/referral.service.ts:66-163 | the same for both refunds of invitations |
| LedgerEscrow.RefundSendSlack | src/modules/send/send.service.ts:158-226 | the same for both refunds of sends, which move only what the named group held |
| LedgerEscrow.StepSlack | src/entities/wallet.entity.ts:23-29 | the accounting is exact for every event, state and wallet |
| LedgerEscrow.RunSlack | src/entities/wallet.entity.ts:23-29 | over every run the difference is the sum of the drifts |
| LedgerEscrow.PendingHold | src/modules/referral/referral.service.ts:80-88 | while a group is PENDING its only transaction is the hold, and every lookup by group returns it |
| LedgerEscrow.AcceptByUserSoundIff | src/modules/referral/referral.service.ts:337-379 | accepting leaves all non-MAIN wallets balanced if and only if nothing moves, or the group is PENDING, not sponsored, and inviter and invitee differ |
| LedgerEscrow.AcceptByOsmoSoundIff | src/modules/referral/referral.service.ts:533-566 | if and only if nothing moves, or the row is sponsored and open |
| LedgerEscrow.RefundSoundIff | src/modules/referral/referral.service.ts:93-154 | if and only if nothing moves, or the group is PENDING and the handler is the one for the row's sponsor flag |
| LedgerEscrow.RefundSendSoundIff | src/modules/send/send.service.ts:174-225 | if and only if the refund is rejected or the group it fails is not an open invitation with money in it |
| LedgerEscrow.StepKeepsHoldsIff | src/modules/referral/referral.service.ts:93-109 | from a state with balance - available = held for every non-MAIN wallet, an event keeps that if and only if it is sound |
| LedgerEscrow.RunKeepsHoldsIff | src/modules/receive/receive.service.ts:121-153 | from an empty ledger, the property holds in every state of the run if and only if every event of it is sound |
| LedgerConservation.TotalAcceptByUser | src/modules/referral/referral.service.ts:371-476 | a user's acceptance and the ten-referral reward change no total, unless inviter and invitee coincide, which loses the held amount |
| LedgerConservation.StepTotal | src/modules/referral/referral.service.ts:540-552 | each event changes the total balance of each coin by exactly the stated amount: reward paid less amount held for Osmo's acceptance |
| LedgerConservation.RunTotal | src/modules/referral/referral.service.ts:229-246 | over every run the total changes by the sum of those amounts |
| LedgerConservation.RunConservedIff | src/modules/referral/referral.service.ts:224-246 | under one reward setting, a run of invitations, acceptances, refunds and rewards conserves the total of a coin in every state if and only if nobody accepts an invitation of their own that moves money in that coin |
| LedgerConservation.RunConserved | src/modules/referral/referral.service.ts:371-379 | without such acceptances the total at the end is the total at the start |
| LedgerHistory.PendingUntouched | src/modules/referral/referral.service.ts:234-254 | a group PENDING after an event was PENDING before it, with the same transactions |
| LedgerHistory.OpenInvitationKept | src/modules/referral/referral.service.ts:247-254 | over any run, an invitation still open is the same row with the same hold |
| LedgerHistory.OpenRefund | src/modules/referral/referral.service.ts:120-154 | refunding an open invitation returns its hold to the wallet it is on, fails the group, removes the row, and changes nothing else, for every lookup answer |
| LedgerHistory.InvitationRefundExact | src/modules/referral/referral.service.ts:101-109 | after any run, the refund of a still open invitation returns the reward of the moment it was sent, whatever the setting is by then |
| LedgerHistory.SmsRefundExact | src/modules/send/send_fiat/strategies/smsSendFiat.strategy.ts:34-68 | the same for money sent by SMS: the sender gets back exactly what was sent |
| LedgerHistory.RedeliveryHarmless | src/modules/referral/referral.service.ts:67-78 | after one refund, any later delivery of the task is rejected and changes nothing, whatever came between |
| LedgerQueue.QueueRoutesRefunds | src/modules/referral/referral.service.ts:190-196 | in runs driven by the queue, a refund of an open invitation reaches the handler for the wallet that holds the money |
| LedgerQueue.DeliveryKeepsHoldsIff | src/modules/referral/referral.service.ts:66-109 | delivering an enqueued task keeps the escrow property if and only if nothing moves or the group of its row is still PENDING |
| LedgerQueue.QueueKeepsHoldsIff | src/modules/referral/referral.service.ts:165-196 | in a run from an empty ledger whose refunds all come from the queue, the property holds throughout if and only if every delivery moves nothing or finds its group PENDING, and every other event is sound |
| LedgerQueue.AcceptedNeverEnqueued | src/modules/referral/referral.service.ts:391-392 | once an acceptance commits, no later expiry check makes a refund task for the row |
| LedgerQueue.ExpiryByAge | src/modules/referral/referral.service.ts:165-188 | a new task exists exactly for an unaccepted row that is too old: five days for users' money, for sponsored invitations the number of days the calendar gives |
| LedgerReward.RewardPaidIff | src/modules/referral/referral.service.ts:423-466 | an acceptance pays the reward if and only if, before it, the inviter has exactly ten rows and the payout setup and MAIN's wallet are there |
| LedgerReward.RunMain | src/modules/referral/referral.service.ts:473-475 | over every run MAIN's balance of a coin falls by ten times the number of acceptances that meet that condition, and its available balance stays |
| LedgerReward.RewardRepeats | src/modules/referral/referral.service.ts:423-448 | over any run in which an inviter with ten rows neither invites nor gets a refund, each acceptance of one of those rows pays the reward if and only if the payout setup and MAIN's wallet are there |
| LedgerReward.RegistrationPays | src/modules/referral/referral.service.ts:276-294 | registering as the invitee of one row of an inviter with ten rows accepts that row and charges MAIN |
| LedgerReward.TwoRegistrationsPayTwice | src/modules/referral/referral.service.ts:448-498 | ten invitations by one user, then two of the invited register: MAIN is charged twice |
| LedgerHistory.RunAtMostTen | src/modules/referral/referral.service.ts:200-206 | no run gives an inviter more than ten sponsored rows |
| LedgerOutcomes.FindIff | src/modules/referral/referral.service.ts:80-88 | a lookup by group finds a transaction exactly if the group has one, and may find any of them |
| LedgerOutcomes.InviteExact | src/modules/referral/referral.service.ts:199-254 | granted if and only if the feature is on, the user has fewer than ten sponsored rows and exists, the fund has 250 dollars available and the reward is set; refused, nothing changes; granted, the reward leaves the fund's available balance under a new PENDING group with one debit and a new row |
| LedgerOutcomes.SendBySmsExact | src/modules/send/send_fiat/strategies/smsSendFiat.strategy.ts:31-68 | granted if and only if the user and the wallet exist and the amount is available; refused, nothing changes; granted, the amount is reserved in the same way |
| LedgerOutcomes.SendNeverOverdraws | src/modules/send/send_fiat/strategies/smsSendFiat.strategy.ts:38-44 | in no run does a send take an available balance below zero |
| LedgerOutcomes.CustomersNeverOverdrawn | src/entities/wallet.entity.ts:23-29 | in no run whose events bring no negative amounts does a customer's available balance go below zero |
| LedgerOutcomes.MovedByUserIff | src/modules/referral/referral.service.ts:333-369 | referralByUser commits if and only if user, row, a transaction of its group, the group and both wallets of that transaction's coin are there |
| LedgerOutcomes.AcceptByUserOkIff | src/modules/referral/referral.service.ts:436-466 | it returns normally if and only if it commits, the payout is configured, and with exactly ten rows MAIN's wallet is there |
| LedgerOutcomes.AcceptByUserWallets | src/modules/referral/referral.service.ts:371-476 | the change of every wallet: invitee, inviter and MAIN, inviter and invitee being one included |
| LedgerOutcomes.AcceptByUserTables | src/modules/referral/referral.service.ts:380-497 | the group is COMPLETED, the row names the invitee, the credit is recorded, and a reward has a group with a debit and a credit of its own |
| LedgerOutcomes.AcceptByOsmoIff | src/modules/referral/referral.service.ts:514-538 | referralByOsmo succeeds if and only if row, transaction, setting and both wallets are there, and otherwise changes nothing |
| LedgerOutcomes.AcceptByOsmoLeaves | src/modules/referral/referral.service.ts:540-568 | the fund's balance loses the hold, the invitee gets the reward, and the group, the row and the credit are recorded |
| LedgerOutcomes.RefundInvitationIff | src/modules/referral/referral.service.ts:67-144 | a refund succeeds if and only if row, transaction and the wallet of its kind are there, and otherwise changes nothing |
| LedgerOutcomes.RefundInvitationLeaves | src/modules/referral/referral.service.ts:101-154 | that wallet's available balance gets the amount, the group fails, the row goes |
| LedgerOutcomes.RefundNativeExact | src/modules/send/send.service.ts:158-182 | when it succeeds, and what it changes; a missing user is noticed after the commit |
| LedgerOutcomes.RefundAutoconvertExact | src/modules/send/send.service.ts:190-229 | the same with the fee taken back |
| LedgerOutcomes.ScanExact | src/modules/receive/receive.service.ts:121-153 | succeeds if and only if the user has a wallet of sats, which gets the amount under a COMPLETED group |
| LedgerOutcomes.StepKeepsTasks | src/modules/referral/referral.service.ts:186-196 | no event removes a refund task and only the expiry check adds any |
| LedgerOutcomes.RunKeepsTasks | src/modules/referral/referral.service.ts:186-196 | nor does any run |
| LedgerOutcomes.RouteStops | src/modules/referral/referral.service.ts:292-313 | a registration whose first acceptance throws makes no second one |
| LedgerOutcomes.RouteOkIff | src/modules/referral/referral.service.ts:265-314 | a registration returns normally if and only if the user has a number and both acceptances do |
| LedgerOutcomes.RouteAcceptsOwnRows | src/modules/referral/referral.service.ts:276-310 | the rows it changes are open, sponsored and for the user's own number, and then name the user |
| LedgerOutcomes.RouteLeavesOpen | src/modules/referral/referral.service.ts:276-310 | after one that returns normally, exactly the rows its lookups found are closed |
| LedgerAudit.StepUnbooked | src/modules/referral/referral.service.ts:384-393 | every event, on every input, moves what the books leave unexplained of each balance by exactly the stated amount |
| LedgerAudit.RunBalances | src/entities/transaction.entity.ts:14-36 | after every run both balances of a wallet follow from its starting balance, the transaction table and the sums of the two drifts |
| LedgerAudit.AuditSoundIff | src/modules/referral/referral.service.ts:337-393 | an event leaves every balance as explained as it was if and only if the condition on its rows holds |
| LedgerAudit.RunKeepsAuditIff | src/entities/transaction.entity.ts:14-36 | from an empty ledger, every balance is explained by the COMPLETED groups in every state of the run if and only if every event is audit-sound |
| LedgerAudit.RunAudited | src/entities/transaction.entity.ts:14-36 | after a run of events sound in both senses both balances follow from the transaction table: booked in COMPLETED groups, less held in PENDING ones |
| LedgerAudit.RouteKeepsAuditIff | src/modules/referral/referral.service.ts:276-314 | a registration keeps every balance explained if and only if its first lookup moves no money |
| LedgerAudit.RegistrationUnaudited | src/modules/referral/referral.service.ts:371-392 | a run: after one invitation a registration leaves two balances unexplained |
| LedgerFund.FundSolvent | src/modules/referral/referral.service.ts:216-232 | with the reward between 0 and 250, the fund has 0 <= available <= balance after every run in which Osmo's acceptances and the refunds to the fund are sound, whatever the other events do |
| LedgerFund.InviteSolventIff | src/modules/referral/referral.service.ts:223-232 | whatever the reward, a granted invitation leaves the fund solvent if and only if the reward is at most what is available and at least what is available less the balance |
| LedgerFund.RouteIsFundSound | src/modules/referral/referral.service.ts:276-314 | whatever a registration finds and moves, it draws on the fund only soundly |
| LedgerRouting.RouteSlack | src/modules/referral/referral.service.ts:265-314 | routing moves each wallet's difference by what its first lookup's acceptance moves, and its second lookup's by nothing |
| LedgerRouting.RouteKeepsHoldsIff | src/modules/referral/referral.service.ts:276-314 | routing keeps the escrow property if and only if its first lookup moves no money |
| LedgerRouting.RouteSkipsUserMoney | src/modules/referral/referral.service.ts:276-313 | registering never touches the row or group of money a user sent by SMS |
| LedgerRouting.RouteIsRun | src/modules/referral/referral.service.ts:265-314 | one registration is the run of the acceptances it carries out |
| LedgerRouting.RoutingBreaksHolds | src/modules/referral/referral.service.ts:276-294 | a registration after one invitation debits the inviter, who held nothing |
| LedgerArrivals.ArrivalsAreRuns | src/modules/referral/referral.service.ts:265-314 | runs of registrations and other events are runs of events, so what holds of every run holds of them |
| LedgerArrivals.UserMoneyStays | src/modules/referral/referral.service.ts:276-313 | whoever registers, the row and group of money a user sent stay the same until that row is refunded or a send's refund names its group |
| LedgerArrivals.UserMoneyNeverAccepted | src/modules/send/send_fiat/strategies/smsSendFiat.strategy.ts:34-68 | in every such run, money sent by SMS has no invitee and a PENDING group until it is refunded |
| LedgerArrivalRuns.ArrivalsKeepHoldsIff | src/modules/referral/referral.service.ts:265-314 | from an empty ledger, the escrow property holds after every registration and other event if and only if no registration finds a row that moves money and the other events are sound |
| LedgerArrivalRuns.ArrivalsKeepAuditIff | src/modules/referral/referral.service.ts:265-314 | from an empty ledger, the COMPLETED groups explain every balance after every arrival if and only if no registration finds a row that moves money and the other events are audit-sound |
| LedgerArrivalRuns.FundSolventUnlessLate | src/modules/referral/referral.service.ts:93-109 | with the reward between 0 and 250, the fund is solvent after every run of registrations and other events whose refunds come from the queue, if those to the fund are not late |
| LedgerArrivalRuns.ArrivalsConserveIff | src/modules/referral/referral.service.ts:357-379 | under one reward setting, registrations, invitations, refunds and rewards conserve the total of dollars after every arrival if and only if nobody registers for an invitation of their own that moves money; other coins always |
| LedgerArrivalRuns.OwnInvitationLoses | src/modules/referral/referral.service.ts:371-379 | a run: user 1 invites their own number, registers, and 5 dollars are gone |
| LedgerLateRefund.LateAfterUser | src/modules/referral/referral.service.ts:371-379 | a refund after referralByUser leaves the fund's balances as far apart as before both, and the inviter's wallet short of the amount, whatever the lookup picks |
| LedgerLateRefund.LateRefundBreaksHolds | src/modules/referral/referral.service.ts:66-118 | two invitations, expiry check, registration, delivery: the property holds until the delivery, after which the fund has more available than its balance |
| LedgerService.Ledger.constructor | src/entities/wallet.entity.ts:23-29 | wallets with nothing reserved make an initial ledger, whose run is empty |
| LedgerService.Ledger.GenerateInvitation | src/modules/referral/referral.service.ts:198-263 | the row updates leave exactly the modelled state and outcome, and add one event to the run |
| LedgerService.Ledger.SendFiatBySms | src/modules/send/send_fiat/strategies/smsSendFiat.strategy.ts:27-79 | the row updates leave exactly the modelled state and outcome, and add one event to the run |
| LedgerService.Ledger.SettleReferral | src/modules/referral/referral.service.ts:355-399 | two updates from values read before either leave exactly the modelled state, also when both rows are one |
| LedgerService.Ledger.ReferralByUser | src/modules/referral/referral.service.ts:333-512 | reads, writes, then the reward: exactly the modelled state and outcome, and one event |
| LedgerService.Ledger.PayTenReferralReward | src/modules/referral/referral.service.ts:448-498 | pays exactly when both wallets exist, and otherwise changes nothing |
| LedgerService.Ledger.ReferralByOsmo | src/modules/referral/referral.service.ts:514-583 | the row updates leave exactly the modelled state and outcome, and add one event to the run |
| LedgerService.Ledger.RegisterReferral | src/modules/referral/referral.service.ts:265-314 | the two lookups and handlers in sequence; an error in the first ends the call |
| LedgerService.Ledger.Refund | src/modules/referral/referral.controller.ts:23-32 | routes by the flag in the body to the modelled refund |
| LedgerService.Ledger.RefundOsmoReferralTransaction | src/modules/referral/referral.service.ts:66-118 | exactly the modelled refund to the referral fund |
| LedgerService.Ledger.RefundSmsTransaction | src/modules/referral/referral.service.ts:120-163 | exactly the modelled refund to the inviter |
| LedgerService.Ledger.CheckExpiredInvitation | src/modules/referral/referral.service.ts:165-196 | cutoffs from the calendar and two queries add exactly the modelled tasks |
| LedgerService.Ledger.ScanToReceive | src/modules/receive/receive.service.ts:121-153 | both fields take the amount, under a COMPLETED group |
| LedgerService.Ledger.RefundNativeInvoiceTransaction | src/modules/send/send.service.ts:158-188 | exactly the modelled refund; the missing user is reported after the commit |
| LedgerService.Ledger.RefundAutoConvertToSendInvoiceTransaction | src/modules/send/send.service.ts:190-234 | a missing account or a failed transfer back to Osmo ends the call before any row changes; otherwise exactly the modelled refund of amount and fee |
| Encrypter.CounterCipher.Update | src/common/helpers/encrypter.helper.ts:21-22 | whatever the blocks, a call continues the keystream of successive counters where the last one stopped |
| Encrypter.EncryptedDigits | src/common/helpers/encrypter.helper.ts:6-23 | byte i of a ciphertext is byte i of the text combined with byte i mod 16 of the cipher of counter iv + i / 16, modulo 2^128, and stands there as two hexadecimal digits |
| Encrypter.EncryptedFresh | src/common/helpers/encrypter.helper.ts:21-22 | after j whole blocks the ciphertext goes on as a fresh one whose first counter is iv + j |
| Encrypter.CtrTwice | src/common/helpers/encrypter.helper.ts:26-31 | applying the keystream twice gives the data back |
| Encrypter.CtrPieces | src/common/helpers/encrypter.helper.ts:35-37 | encrypting in pieces is encrypting at once |
| Encrypter.FromToHex | src/common/helpers/encrypter.helper.ts:23-29 | decoding undoes hexadecimal encoding |
| Encrypter.ToFromHex | src/common/helpers/encrypter.helper.ts:45 | on well-formed input encoding undoes decoding up to letter case |
| Encrypter.HexTables | src/common/helpers/encrypter.helper.ts:23-29 | the digits are 0-9 and a-f, or A-F when decoding |
| Encrypter.FromHexStops | src/common/helpers/encrypter.helper.ts:29 | decoding stops at the first pair that is not two digits and drops a last unpaired one |
| Encrypter.DecryptEncrypt | src/common/helpers/encrypter.helper.ts:19-48 | decryption undoes encryption of every byte string under every keystream |
| Encrypter.EncryptInjective | src/common/helpers/encrypter.helper.ts:19-24 | ciphertexts are equal if and only if the texts are |
| Encrypter.EncryptDecrypt | src/common/helpers/encrypter.helper.ts:26-31 | encryption undoes decryption of well-formed ciphertexts up to letter case |
| Encrypter.EncrypterHelper.Encrypt | src/common/helpers/encrypter.helper.ts:19-24 | what it returns decrypts to its argument, and is that combined byte by byte with the keystream of successive counters |
| Encrypter.EncrypterHelper.EncryptPayload | src/common/helpers/encrypter.helper.ts:33-39 | the same under the payload key |
| OneTimeCodes.RunUnique | src/modules/auth/auth.service.ts:216-237 | in every run each owner has at most one sign-in code and one verification code |
| OneTimeCodes.LiveIsOutstanding | src/modules/auth/auth.service.ts:314-335 | reading the history from its end finds the latest send whose row nothing has deleted since |
| OneTimeCodes.RunExplained | src/modules/auth/auth.service.ts:358-379 | in every run the rows of these kinds are exactly the outstanding sends, with their codes and times |
| OneTimeCodes.VerifyAcceptedIff | src/modules/auth/auth.service.ts:247-298 | a verification is accepted if and only if its checks pass and the latest send carried its code, is less than fifteen minutes old, and its row was deleted neither by a verification nor by a cash-out |
| OneTimeCodes.NoReplay | src/modules/auth/auth.service.ts:688-697 | after an accepted verification none is accepted until a new send |
| OneTimeCodes.IssueRows | src/modules/partners/cash-in-out/cash-in-out.service.ts:50-61 | in every run the TRANSACTION rows are exactly the issued codes nothing has deleted, each its own row |
| OneTimeCodes.TransactionUniqueIff | src/modules/partners/cash-in-out/cash-in-out.service.ts:53-59 | users have at most one TRANSACTION row each if and only if no user has two issued codes outstanding |
| OneTimeCodes.TwoIssues | src/modules/partners/cash-in-out/cash-in-out.service.ts:36-62 | two codes issued to one user are two rows, and each can be spent |
| OneTimeCodes.CashOutAcceptedIff | src/modules/withdraw/strategies/cash-out.strategy.ts:173-183 | a cash-out whose other checks pass is accepted if and only if some outstanding code, of any owner and kind, has its number and has not expired |
| OneTimeCodes.CashOutTakesOne | src/modules/withdraw/strategies/cash-out.strategy.ts:151 | it deletes the one row it found and changes nothing else |
| OneTimeCodes.CashOutConsumesAnyCode | src/modules/withdraw/strategies/cash-out.strategy.ts:47-151 | whatever unexpired code is outstanding for an owner, any user's cash-out may delete it, and no verification is accepted then until a new send |
| OneTimeCodes.SpentByAnother | src/modules/withdraw/strategies/cash-out.strategy.ts:173-183 | a run: user 1's sign-in code, deleted by a cash-out of user 2, no longer signs in |
| OneTimeCodes.OtpService.SendCode | src/modules/auth/auth.service.ts:629-650 | the send handlers' shared part keeps the table equal to the run of all calls and leaves one row of the owner and kind |
| OneTimeCodes.OtpService.VerifyCode | src/modules/auth/auth.service.ts:387-410 | accepts exactly by the history of calls, and consumes the row only then |
| OneTimeCodes.OtpService.GetOtp | src/modules/partners/cash-in-out/cash-in-out.service.ts:36-62 | inserts a row that expires in a minute, whatever rows there are |
| OneTimeCodes.OtpService.SpendCode | src/modules/withdraw/strategies/cash-out.strategy.ts:44-183 | accepts exactly by the history of calls, and deletes the row found only then |
| Sessions.CurrentIsNewest | src/modules/auth/auth.service.ts:824-829 | the current token of a session is the last one stored for it, while it lasts |
| Sessions.RunAgrees | src/modules/auth/auth.service.ts:831-837 | a session's row exists while it lasts, with its owner and newest token's ciphertext |
| Sessions.LookupFindsNewest | src/modules/auth/auth.service.ts:805-812 | the ciphertext lookup finds exactly the user's sessions whose newest token is the given one |
| Sessions.RefreshAcceptedIff | src/modules/auth/auth.service.ts:792-822 | a refresh is accepted if and only if its token is the newest one stored for a session of that user that lasts |
| Sessions.LogoutFindsNewest | src/modules/auth/auth.service.ts:720-724 | logout's lookup finds exactly the sessions whose newest token is the one presented |
| Sessions.LogoutSucceedsIff | src/modules/auth/auth.service.ts:718-729 | a logout succeeds if and only if its token is the newest of a session that lasts, and the session it finds is such a one |
| Sessions.LogoutEndsOne | src/modules/auth/auth.service.ts:728 | that session is over afterwards and every other keeps its newest token |
| Sessions.LogoutAllEnds | src/modules/auth/auth.service.ts:735-741 | exactly the user's sessions are over afterwards |
| Sessions.RefreshKeepsSessions | src/modules/auth/auth.service.ts:817-829 | neither a refresh nor its update opens or ends a session |
| Sessions.OldTokenUntilStored | src/modules/auth/auth.service.ts:815-818 | between a refresh and its update, the old token is accepted again and the renewed one refused |
| Sessions.StoredIsNewest | src/modules/auth/auth.service.ts:824-829 | when the update takes effect while the session lasts, the renewed token is its newest |
| Sessions.OverlappingRefreshes | src/modules/auth/auth.service.ts:805-818 | two overlapping refreshes are both accepted, and the token handed out by the one stored first is refused |
| Sessions.ReplacedTokenRejected | src/modules/auth/auth.service.ts:718-741 | with distinct tokens, a replaced token or one of an ended session is never accepted again |
| Sessions.LookupUnique | src/modules/auth/auth.service.ts:806-812 | with distinct tokens the lookup has one row at most to find |
| Sessions.RepeatedTokenSurvives | src/modules/auth/auth.service.ts:839-861 | a token issued to two sessions outlives its rotation in one |
| Sessions.AuthTokens.StoreTokensForUser | src/modules/auth/auth.service.ts:831-837 | adds one session to the run |
| Sessions.AuthTokens.RefreshTokens | src/modules/auth/auth.service.ts:792-822 | accepts exactly by the rotation chains, and changes no row itself |
| Sessions.AuthTokens.UpdateTokens | src/modules/auth/auth.service.ts:824-829 | makes the renewed token the newest of its session, if that still lasts, and keeps the set of sessions |
| Sessions.AuthTokens.LogOut | src/modules/auth/auth.service.ts:718-733 | succeeds exactly for the newest token of a lasting session, ends it, and otherwise changes nothing |
| Sessions.AuthTokens.LogOutAll | src/modules/auth/auth.service.ts:735-741 | leaves exactly the other users' sessions |
| IbexToken.RunAgrees | src/modules/ibex/ibex.service.ts:751-764 | in every run the row and, unless evicted, the cache hold the most recent login's token |
| IbexToken.GetTokenAnswers | src/modules/ibex/ibex.service.ts:53-66 | entered at most twice, getToken answers with the most recent login's token, cached or not |
| IbexToken.GetTokenReturnsIff | src/modules/ibex/ibex.service.ts:55-65 | getToken returns if and only if that token is not the empty string |
| IbexToken.EmptyLogin | src/modules/ibex/ibex.service.ts:55-65 | after one login that returned an empty token, no number of entries is enough |
| IbexToken.IbexService.Login | src/modules/ibex/ibex.service.ts:739-764 | keeps row and cache in agreement with the run |
| IbexToken.IbexService.GetToken | src/modules/ibex/ibex.service.ts:53-71 | with two entries answers by the run's last login, unless that token is empty, and keeps the row |
| RateLimit.CountIsNumberOfRows | src/modules/transactions/transactions.service.ts:25-38 | a check passes if and only if fewer than four rows created after now - 300000 are of the kind and from or to the user |
| RateLimit.FourRows | src/modules/transactions/transactions.service.ts:25-38 | four rows alike let an attempt pass if and only if they are five minutes old, of another kind, or neither from nor to the user |
| RateLimit.IncomingRefuse | src/modules/transactions/transactions.service.ts:30-39 | four incoming sends refuse a send; four swaps do not, nor do sends exactly five minutes old |
| RateLimit.AtMostThreeAndWaiting | src/modules/transactions/transactions.service.ts:24-40 | when at most d attempts of a user and kind wait to be recorded at a time, no five-minute window holds more than three and d initiated by the user, those still waiting included |
| RateLimit.AtMostFour | src/modules/transactions/transactions.service.ts:38-39 | recorded one by one, at most four |
| RateLimit.BoundReached | src/modules/transactions/transactions.service.ts:24-40 | for every d a run reaches three and d |
| RateLimit.FourPass | src/modules/transactions/transactions.service.ts:38-39 | recorded one by one, four attempts at one moment pass and a fifth is refused |
| PartnerQuote.RoundCentsIff | src/modules/partners/partners.service.ts:321-322 | rounding gives the nearest cent, away from zero on ties, and nothing else does |
| PartnerQuote.GtqIff | src/modules/partners/partners.service.ts:321-322 | the quoted amount is price times sats over 10^8 to the nearest cent, times the rate, to the nearest cent, and nothing else |
| PartnerQuote.GtqError | src/modules/partners/partners.service.ts:321-322 | it is within 0.005 times the rate plus 0.005 of price * sats / 10^8 * rate |
| PartnerQuote.FourHundred | src/modules/partners/partners.service.ts:321-322 | at 50000 dollars and 8 quetzales, 100000 sats are 400 quetzales |
| PartnerQuote.TargetIff | src/modules/partners/partners.service.ts:351 | the payout is the quoted amount less the fee to the nearest cent, and nothing else |
| PartnerQuote.TargetError | src/modules/partners/partners.service.ts:351 | the payout is within 0.005 of the quoted amount less the fee |
| PartnerQuote.TargetWithinIff | src/modules/partners/partners.service.ts:351 | for fees in [0,1] the payout is between 0 and the quoted amount if and only if that is not negative |
| PartnerQuote.TargetMonotone | src/modules/partners/partners.service.ts:321-351 | more sats never pay out less, through three roundings |
| PartnerQuote.AcceptedIff | src/modules/partners/partners.service.ts:302-351 | a quote is given if and only if all the checks succeed |
| PartnerQuote.RejectedIff | src/modules/partners/partners.service.ts:302-343 | otherwise with the error of the first check that fails, in the order of the code |
| PartnerQuote.AcceptedQuote | src/modules/partners/partners.service.ts:302-351 | an accepted quote is within the limits, uses the withdrawal fee exactly for bank flows, and meets all the bounds |
| PartnerQuote.RangeByExactAmount | src/modules/partners/partners.service.ts:329-330 | farther than the rounding error from a limit, the exact amount decides on which side the quote falls |
| Analytics.SpentConcat | src/modules/analytics/analytics.service.ts:115-118 | what is spent and bought adds up over purchases, each costing amount times price |
| Analytics.SpentOrder | src/modules/analytics/analytics.service.ts:115-118 | the order of the purchases does not matter |
| Analytics.WeightedByAmount | src/modules/analytics/analytics.service.ts:115-121 | one unit at 100 and three at 200 average 175 |
| Analytics.SpentBounds | src/modules/analytics/analytics.service.ts:115-118 | money spent lies between lowest and highest price times the amount bought |
| Analytics.RoundedWithin | src/modules/analytics/analytics.service.ts:120-121 | rounding a quotient does not leave an interval between integers |
| Analytics.RoundedNearest | src/modules/analytics/analytics.service.ts:121 | the rounded quotient is within half a cent, and a tie goes away from zero |
| Analytics.QuotientNearest | src/modules/analytics/analytics.service.ts:120-121 | there is one exactly when the amounts do not sum to zero |
| Analytics.GetBtcAverage | src/modules/analytics/analytics.service.ts:95-125 | the rounded weighted average lies between any bounds on the prices |
| Calendar.FirstNext | src/modules/bills/bills.service.ts:36-44 | months follow each other without gap or overlap in the day numbers of ECMA-262 |
| Calendar.MonthLengths | src/modules/bills/bills.service.ts:36-44 | the lengths of the months of any year |
| Calendar.CivilOfIff | src/modules/bills/bills.service.ts:38-39 | a day has one date and a date is one day's |
| Calendar.MonthBack | src/modules/bills/bills.service.ts:42 | the same date a month back is in the previous month exactly if that month has it, else in the current one |
| Calendar.WindowWholeIff | src/modules/bills/bills.service.ts:36-44 | the window is the whole previous month to the second if and only if that month has today's date, and empty if and only if it has not |
| Calendar.EmptyOnMarch31 | src/modules/bills/bills.service.ts:42 | on 31 March 2023 it is empty |
| Calendar.BillingWindow | src/modules/bills/bills.service.ts:139-146 | the dates changed in place give that window |
| Calendar.WindowsPartition | src/modules/bills/bills.service.ts:36-44 | windows of successive months are disjoint and one second apart; each whole second is in exactly one |
| Calendar.ExpiryCutoffs | src/modules/referral/referral.service.ts:165-169 | the user cutoff is 5 days back; Osmo's is 35, or 35 less the previous month's length up to the fifth |
| Calendar.OsmoDaysExact | src/modules/referral/referral.service.ts:168-169 | Osmo's cutoff is never 30 days back, at most a week in the first five days of a month, and shorter than users' after a month of 31 days |
| Kyc.AttemptsStay | src/modules/kyc/kyc.service.ts:103-125 | from any rows, over any events, the attempt counter never moves |
| Kyc.VerdictMeaning | src/modules/kyc/kyc.service.ts:127-139 | the verdict is that of the last deciding event, or the starting flag if there is none |
| Kyc.FlagIsLatestVerdict | src/modules/kyc/kyc.service.ts:80-181 | from any rows, after any events, the flag is the latest verdict |
| Kyc.StatusStaysInAgreement | src/modules/kyc/kyc.service.ts:145-181 | VERIFIED goes with a true flag and REJECTED with a false one after any events, if they do before |
| Kyc.FreshAgrees | src/modules/kyc/kyc.service.ts:80-181 | for a user who signed up they always do, and the flag is the verdict of the events |
| Kyc.StatusAfter | src/modules/kyc/kyc.service.ts:109-145 | the status and verification identifier each event leaves, for every name and identity |
| Kyc.VerifiedIff | src/modules/kyc/kyc.service.ts:127-145 | after any events from any rows the status is VERIFIED if and only if the last event that sets it reported a verified identity, or none did and it was |
| Kyc.RejectionReachesIff | src/modules/kyc/kyc.service.ts:113-143 | after any events from any rows, a rejection reaches status and flag if and only if the attempts in memory are not three |
| Kyc.FreshNeverAtLimit | src/modules/kyc/kyc.service.ts:113-143 | for a user who signed up the counter stays at 1 and they never are |
| Kyc.MigratedRowMeetsLimit | src/modules/app-migration/app-migration.service.ts:698-715 | a verified user migrated with two attempts: a rejection gives PENDING and leaves the flag true |
| Kyc.KycService.ManageEvent | src/modules/kyc/kyc.service.ts:80-181 | keeps the rows equal to the run and the flag equal to the latest verdict |
| Kyc.JoinSplit | src/modules/kyc/kyc.service.ts:265 | joining undoes splitting, and parts have no spaces |
| Kyc.ParseNameExact | src/modules/kyc/kyc.service.ts:264-286 | no name loses anything: all first name without spaces, else first, space and last; first names have at most two words |
| Cards.MarkDefaultExact | src/modules/card/card.service.ts:103-108 | exactly the chosen card becomes the user's default; other users' defaults stay |
| Cards.CreateExact | src/modules/card/card.service.ts:71-84 | a new card becomes the only default exactly when it is the second or asks for it |
| Cards.CreateRefused | src/modules/card/card.service.ts:71-84 | at three cards, or when the provider fails, nothing changes |
| Cards.CreatePublicExact | src/modules/card/card.service.ts:66-69 | a public method adds a card of no user and changes no default |
| Cards.SetDefaultExact | src/modules/card/card.service.ts:103-108 | works for one's own card and otherwise changes nothing |
| Cards.DeleteExact | src/modules/card/card.service.ts:86-94 | deleting removes that card of that user, if it is one, and no other default |
| Cards.OthersUntouched | src/modules/card/card.service.ts:86-108 | a call by one user leaves every other user's cards as they are |
| Cards.RunSound | src/modules/card/card.service.ts:71-94 | in every run each authenticated user has at most three cards and at most one default |
| Cards.CardService.CreatePaymentMethod | src/modules/card/card.service.ts:71-84 | succeeds exactly below the limit, and keeps the limit and the single default |
| Cards.CardService.DeletePaymentMethod | src/modules/card/card.service.ts:86-94 | succeeds exactly for one of the user's own cards |
| Cards.CardService.SetDefaultCard | src/modules/card/card.service.ts:103-108 | succeeds exactly for one of the user's own cards, which is then the only default |

## Left out

- Interleavings inside a handler: each database transaction with the reads before it is one atomic step. Locks and isolation are not modelled, and neither are guards read outside a transaction while another handler runs.
- The `balance` snapshot on transactions: some handlers store the value before an update and some the one after.
- Sends, swaps, withdrawals, funding and partner flows: only the refunds listed above and a cash-out's use of its code are modelled. Groups they create are identifiers outside the ledger's table.
- The range and rounding of decimal(15,5) columns, and floating-point effects: amounts are exact.
- Coins, settings and users come from fixed tables; a missing coin or malformed reward is not modelled.
- AES, scrypt, JWT signing, UTF-8 and bolt11: arbitrary functions, or bytes.
- HTTP calls, pushes, mails and SMS: no effect, or an argument that says whether they succeeded.
- Time zones, daylight saving and leap seconds.
- Of an identity verification: the verified and error columns of its step rows, the country and the name saved to the user, and the administrators' own accept, reject and reset.
- Transaction search and CSV export, the one-off migrations, the reports, the controllers' request handling and the table declarations.
- RateLimit.AtMostThreeAndWaiting: assumes that a row's creation time is not before its check, that is, one clock. Where rows are recorded is not part of this model.
- PartnerQuote.GtqError: does not model that the decimal library keeps twenty significant digits of a product; only the three roundings to cents are modelled.
- OneTimeCodes.RunUnique: takes each call as one step; two sends to one owner whose lookups both come before either insert would leave two rows.
- IbexToken.IbexService.GetToken: takes a bound on its entries, because after a login with an empty token it does not return; `GetTokenReturnsIff` says that this is the only case.
- LedgerAudit.RunKeepsAuditIff: sends are not modelled, so the refund of a send is a credit that no recorded debit explains, unless the group it names is a completed one with such a debit.
- LedgerFund.FundSolvent: needs the reward between 0 and 250, which the code does not check (`InviteSolventIff` has the exact condition), and sound draws on the fund; registrations always are, and refunds that come from the queue are unless they are late (`FundSolventUnlessLate`).
