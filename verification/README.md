# Verified model of the deping client service

This project models the stateful core of the deping client service and proves what it guarantees over whole
runs. `dafny verify dfyconfig.toml` checks all of it.

| file | models |
|---|---|
| `Registry.dfy` | the heartbeat table with its expiry filter and background eviction |
| `Scheduler.dfy` | the greedy batch matcher: one monitor per node, five per domain, never a domain's last node again |
| `Program.dfy` | the on-chain staking and reward program over 64-bit balances |
| `ProgramHistories.dfy` | what every wallet and node of that program remembers of a run |
| `Credits.dfy` | the two-tier notification credit ledger of the SQL functions |
| `TwoPacket.dfy` | the two-packet health machine |
| `Alerts.dfy` | batch consumer, alert service and telegram repository as mutable objects |
| `AlertRuns.dfy` | runs of the alert pipeline: stored health rows under arbitrary batches, failures and redeliveries |
| `AlertMessages.dfy` | the alert events and messages of one monitor over such runs |
| `AlertCredits.dfy` | the credits and reminders of one user over such runs |
| `Payments.dfy` | crediting a payment, as a protocol of interleaved repository calls |
| `Transfer.dfy` | reading a token transfer off a transaction's balance changes |
| `Sums.dfy`, `Wrappers.dfy` | sums over maps, optional values |

## How to read it

Objects that the service updates in place are classes. Each of their methods is proved equal to one step of a
plain function on values (`Registry.Apply`, `Scheduler.Match`, `Program.Exec`, `Credits.Deduct`, `Alerts.Process`,
`Payments.Next`, `Transfer.TransferInfo`). The main theorems are about arbitrary sequences of such steps,
and they state what a step does in terms of their own: constants are written out, and who pays, who is paid, whose row
changes and what the caller is told are said without the functions that the steps are made of.

Clocks, query failures, lost replies, link and subscription state are arguments that the theorems quantify over, and
so is the list of rounds in which the broker delivers a batch, whatever caused each round. `cleanDomain` is an arbitrary
function, the order of the online nodes an arbitrary one. A write to the database may be executed, not executed, or
executed with its answer lost. The chain is a table of the balances before and after each transaction.

Where the code does not do what its documentation or its names promise, the code is modelled; a lemma gives an input,
and another one says exactly when the promise holds.

- README.md:257 of the repository and the column comment at db/telegram.sql:43 promise that RESTORED is only sent
  after a DOWN, and README.md:252 that DOWN is not repeated. Both fail in two ways. A failed upsert is only logged
  (services/alert_service.go:75-77), so the next result is judged by the old row: `AlertMessages.DownRepeats` and
  `AlertMessages.RestoredRepeats` are runs with every gate open. And `alert_sent` is set before the alert is
  dispatched (services/alert_service.go:57-58): `AlertMessages.RestoredAlone` is a run whose only message is RESTORED,
  with every state stored. The conditions, for every run: events alternate exactly when every event but the last was
  stored (`AlertMessages.EventsAlternateIff`), and `AlertMessages.DeliveredAlternateIff` for messages.
- README.md:247 promises that DOWN needs two consecutive failed checks. The counter counts stored deliveries: a batch
  that is handed back is counted again, and so is one whose acknowledgement is lost (`AlertRuns.AcknowledgedYetDown`).
  `AlertRuns.OneFailureDownIffStoredTwice` is the condition over any rounds of the batch;
  `AlertRuns.OneFailureDownIffRequeued` is what it means when no acknowledgement is lost.
- The amount of a payment is the last losing account's loss, and its receiver the last gaining account
  (solana/solana_client.go:130-141): `Transfer.ReportedExactly`. If the payer also pays someone else, on a listed
  account or on one that the transaction creates, the whole is taken for a payment to the treasury:
  `Transfer.SplitPayment`, and `Payments.SplitPaymentCredited` for what is recorded and credited.
  `Transfer.Overstatement` is the exact difference for any transaction that neither mints nor burns,
  `Transfer.ReportedIsReceivedIff` the condition with one losing account.
- The number of credits granted comes from the request and is not tied to the amount paid
  (services/telegram_service.go:153, controllers/telegram.go:99): `Payments.LoneSuccess`. It may be negative, and
  then free-first deduction may stop being optimal: `Credits.NegativePurchaseBreaksOptimality`.
- A payment into a token account that the transaction itself created is not recognised
  (solana/solana_client.go:112-148): `Transfer.NewAccountUnseen`; `Transfer.FailsIffNothingMoved` is the condition.
- README.md:586 promises that a batch is acknowledged only after successful processing, and handed back once. An
  acknowledged batch may have lost upserts: `AlertRuns.AcknowledgedStoresIff` is the condition. Whether a batch is
  handed back depends on the lookups of that round alone, so nothing bounds how often: `AlertRuns.RequeuedIff`.
- A payment whose insert loses its answer, or whose credit statement fails, stays recorded and is never credited:
  `Payments.RecordedAccountedFor` and `Payments.DroppedForGood`.
- The credit status query does not apply the daily reset (services/telegram_service.go:81-98);
  `Credits.StatusNeverOverPromises` says when the displayed total is nevertheless exact.
- A failed mark after a sent reminder (services/alert_service.go:130-133) allows another one at once:
  `AlertCredits.RemindedTwiceAtOnce` is such a run, `AlertCredits.EarlyReminderLostMarks` shows that nothing else does
  it, and `AlertCredits.RemindsAgainIff` is the condition after any run.
- `claim_reward` asks for no signature of the node's owner (program/lib.rs:45-54), so the destination is whatever
  wallet the caller passes: `Program.ClaimOutcome`.

## Model

| member | source | states |
|---|---|---|
| Registry.MemoryRegistry.TrackHeartbeat | services/registry.go:46-56 | a heartbeat replaces exactly the record of its pubkey |
| Registry.MemoryRegistry.GetOnlineNodes | services/registry.go:58-70 | returns every record at most five minutes old exactly once and nothing else, in whatever order the map is walked |
| Registry.MemoryRegistry.EvictTick | services/registry.go:72-84 | deleting while walking leaves exactly the fresh records, unchanged |
| Registry.TableRefinesLog | services/registry.go:46-84 | for every clocked history the evicting table agrees with the never-evicted heartbeat log on every fresh pubkey |
| Registry.EvictionInvisible | services/registry.go:46-84 | for every clocked history a read at time t is, without duplicates, exactly the latest record of each pubkey heard from within five minutes of t |
| Registry.TickLeavesRecent | services/registry.go:72-84 | right after a tick the table holds the last heartbeat of exactly the pubkeys heard from within five minutes, and nothing else |
| Registry.NothingOldSurvives | services/registry.go:72-84 | at any later moment nothing in the table is older than five minutes before any past tick |
| Scheduler.FirstEligible | services/registry.go:129-142 | the inner loop's node: idle, not the domain's last one, and the first such in the order |
| Scheduler.SmartScheduler.MatchBatch | services/registry.go:108-145 | for some listing of the online nodes the nested loops compute the fold of single matching steps, and only the rotation memory changes |
| Scheduler.MatchInvariant | services/registry.go:122-143 | for every list and order: only listed nodes are used, the counts are the true per-domain counts and within the cap and the list, and a domain short of its quota has no idle node but its last one |
| Scheduler.GreedyExactly | services/registry.go:122-143 | at every position of every list: if the domain has fewer than five nodes so far and some idle node is not its last one, the first such node is given, and otherwise nothing changes |
| Scheduler.EarlierFirst | services/registry.go:122-143 | later entries of the list take nothing from earlier ones |
| Scheduler.MatchNearMaximal | services/registry.go:108-145 | min(online-1, total quota) <= assignments <= min(online, total quota) |
| Scheduler.LowerBoundAttained | services/registry.go:134-142 | the lower bound is tight for every number of nodes: if as many domains were all served last by the same node, that node stays idle and the batch is one short |
| Scheduler.WithinOneOfAnyRival | services/registry.go:108-145 | no schedule that respects the cap, even one that ignores rotation, assigns more than one monitor more than the greedy batch |
| Scheduler.BatchPicks | services/registry.go:122-144 | the batch's picks are exactly its assignment: one per node, for the pick's own domain, and no list entry is handed out more often than it is listed |
| Scheduler.HistoryIrrelevant | services/registry.go:108-145 | what a batch assigns and remembers is the same whatever history it is recorded on, so the method's batches are those of the histories below |
| Scheduler.RotationForever | services/registry.go:134-140 | over any sequence of heartbeats, evictions and batches no domain is served by the same node twice in a row, and the rotation memory is the end of its history |
| Scheduler.SnapshotOnly | services/registry.go:114-144 | every node a batch assigns was in the table and fresh when the batch took its snapshot |
| Program.Deping.InitNode | program/lib.rs:118-128 | creates a zeroed node for unused seeds and refuses used ones |
| Program.Deping.AddReward | program/lib.rs:130-134 | adds to the node's reward with a checked addition, for the backend only |
| Program.Deping.ClaimReward | program/lib.rs:136-156 | moves a positive, owed amount from reward balance and treasury to the user, or changes nothing |
| Program.Deping.BuyProduct | program/lib.rs:158-169 | moves a positive amount from the user to the treasury |
| Program.Deping.WithdrawTreasury | program/lib.rs:171-186 | moves treasury tokens for the admin only |
| Program.Deping.StakeTokens | program/lib.rs:188-204 | first stake of a non-validator that reaches the minimum, or a full rollback |
| Program.Deping.AddStake | program/lib.rs:207-228 | top-up at any time; reaching the minimum makes a validator |
| Program.Deping.WithdrawStake | program/lib.rs:231-262 | leaves nothing or at least the minimum, for the owner only, or changes nothing |
| Program.Deping.DeleteAccount | program/lib.rs:265-308 | pays out the exact stake and removes a node without rewards, for the owner only |
| Program.RunSound | program/lib.rs:118-308 | in every reachable state: tokens are conserved; vault = live stakes + outside deposits; treasury = opening balance + purchases + donations - claims - withdrawals; rewards granted = owed + claimed; status <=> stake at least the minimum and no unstake request |
| Program.WithdrawOutcome | program/lib.rs:231-262 | after any run, for every signer, destination and amount: only the owner withdraws, exactly when zero or at least the minimum is left; the vault never lacks the funds |
| Program.DeleteOutcome | program/lib.rs:265-308 | after any run, for every signer, destination and amount: only the owner closes, exactly with the full stake as amount and no reward owed |
| Program.ClaimOutcome | program/lib.rs:136-156 | after any run a claim succeeds exactly for a positive amount that is owed and that the treasury holds, whoever is paid, and which error it gives otherwise |
| Program.PurchaseOutcome | program/lib.rs:158-169 | after any run a purchase succeeds exactly for a positive amount that the wallet holds |
| Program.TreasuryWithdrawalOutcome | program/lib.rs:171-186 | after any run only the admin withdraws, exactly what the treasury holds at most |
| Program.StakeOutcome | program/lib.rs:188-204 | after any run a first stake succeeds exactly for a node below the minimum that the amount lifts to it, if the payer holds the amount |
| Program.TopUpOutcome | program/lib.rs:207-228 | after any run a top-up succeeds exactly if the payer holds the amount and the stake fits 64 bits |
| Program.AffordableStake | program/lib.rs:188-228 | after any run no affordable amount takes an overflow branch: a top-up always succeeds, a first stake fails only for an existing validator or below the minimum |
| Program.NeverTokenOverflow | program/lib.rs:147-154 | no transfer between reachable balances overflows the receiver |
| Program.StakeIsAddStake | program/lib.rs:188-228 | wherever stake_tokens succeeds, add_stake reaches the same state |
| Program.TotalsMove | program/lib.rs:118-288 | how each accepted instruction moves the total stake and the total reward owed; closing an account loses no reward |
| Program.StatusFromNetDeposits | program/lib.rs:118-262 | stake and validator status of a node are a function of its deposits minus withdrawals since its last initialisation |
| Program.EveryoneCanLeave | program/lib.rs:231-262 | from any reachable state any owners, in any order, can all withdraw their whole stakes; each one's wallet then has grown by the sum of its own stakes, the vault has shrunk by all of them, and no other account changed |
| Program.VaultEmptiesOut | program/lib.rs:231-262 | when all have left, the vault holds exactly what was never staked |
| ProgramHistories.WalletsAccounted | program/lib.rs:136-308 | after any run every wallet holds its opening balance plus what the accepted instructions named it as payee for, less what they named it as payer for |
| ProgramHistories.NodesAccounted | program/lib.rs:118-308 | after any run a node exists exactly if it was initialised and not closed since, and is owed exactly what was granted to it less what was claimed for it |
| Credits.CreditStore.DeductTelegramCredit | db/telegram.sql:89-140 | the locked statement sequence is one ledger step: lazy daily reset, then free, then purchased, then refusal |
| Credits.CreditStore.AddPurchasedCredits | db/telegram.sql:145-161 | raises balance and lifetime total together, or fails on 32-bit overflow and changes nothing |
| Credits.CreditStore.GetCreditStatus | services/telegram_service.go:81-98 | creates a missing row if that statement executes, and reports used, clamped free, reset date, purchased and total, or the query's failure |
| Credits.LedgerAffordable | db/telegram.sql:110-138 | the ledger never exceeds the day's free limit and never spends a credit that was not bought |
| Credits.FreeFirstOptimal | db/telegram.sql:110-138 | for non-decreasing dates and non-negative purchases no policy with the same allowances serves more requests |
| Credits.OptimalThroughout | db/telegram.sql:110-157 | ... and the ledger is level or ahead at every prefix |
| Credits.NegativePurchaseBreaksOptimality | db/telegram.sql:145-157 | for every pool, a purchase that takes it back lets a rival who spent from it earlier serve more |
| Credits.DecreasingDateBreaksOptimality | db/telegram.sql:110-127 | when requests of an earlier date follow one of a later date some rival serves more |
| Credits.Budget | db/telegram.sql:25-34 | lifetime purchases = balance + paid deductions, at most three free per date, so services <= 3 * dates + purchases |
| Credits.ServedIffAvailable | db/telegram.sql:110-138 | exactly the first so many deductions of a day succeed and the next is refused |
| Credits.NewUserGetsThree | db/telegram.sql:96-138 | a new user is served exactly three times on the first day, and nothing is paid for it |
| Credits.PurchasesCount | db/telegram.sql:145-161 | over every history with non-negative purchases that fit the column, the lifetime total is the plain sum of all purchases and the balance is that sum less the paid deductions |
| Credits.StatusNeverOverPromises | services/telegram_service.go:87-97 | the displayed total can always be spent today; it is exact if and only if no reset is pending on a used day and the balance is not negative |
| Credits.StatusFollowsHistory | services/telegram_service.go:87-97 | for every regular history of a new user the reported reset date is that of the last request, the used count that day's free services, the free part what they leave of three, and the purchased part the purchases less the paid deductions |
| TwoPacket.FoldClosedForm | services/alert_service.go:54-73 | the row after any checks: counter = trailing failure run, down = alert sent = run of at least two, last alert time = last time the run reached two |
| TwoPacket.AlertsClosedForm | services/alert_service.go:54-73 | DOWN exactly when the trailing run reaches two; RESTORED exactly on a success ending a run of at least two |
| TwoPacket.EventsAlternate | services/alert_service.go:54-73 | events alternate strictly from DOWN, and #DOWN - #RESTORED is 1 while down, else 0 |
| TwoPacket.DownPerOutage | services/alert_service.go:54-62 | as many DOWN events as maximal failure runs of length at least two |
| Alerts.ExtractMonitorIDFromJobID | services/consumer_service.go:140-147 | the scan returns the longest colon-free prefix |
| Alerts.JobIDRoundTrip | services/consumer_service.go:140-147 | a job identifier built from a colon-free monitor resolves to that monitor |
| Alerts.MonitorResolved | services/consumer_service.go:111-115 | a result belongs to the monitor it names, or else to the one its job identifier was built from |
| Alerts.TelegramRepository.GetHealthState | db/repositories/telegram_repo.go:333-346 | the stored row, or the zero state for a new monitor |
| Alerts.TelegramRepository.UpsertHealthState | db/repositories/telegram_repo.go:348-374 | replaces one row, if the statement takes effect |
| Alerts.TelegramRepository.DeductCredit | db/repositories/telegram_repo.go:290-296 | one deduction on the user's row, with the answer possibly lost |
| Alerts.TelegramRepository.ShouldSendReminder | db/repositories/telegram_repo.go:314-321 | due when never reminded or reminded more than seven days ago, for an existing user row |
| Alerts.TelegramRepository.MarkReminderSent | db/repositories/telegram_repo.go:323-329 | stamps an existing user row |
| Alerts.AlertService.ProcessPingResult | services/alert_service.go:33-86 | the assignments to the loaded state, the upsert and the dispatch amount to one pipeline step; only a failed lookup is an error |
| Alerts.AlertService.DispatchAlert | services/alert_service.go:88-108 | subscription, owner and credit gate in order, then a message or a reminder |
| Alerts.AlertService.SendCreditReminder | services/alert_service.go:114-134 | reminds when due and marks only after sending |
| Alerts.ConsumerService.HandleDelivery | services/consumer_service.go:88-138 | processes every result, and requeues, acknowledges or rejects the delivery |
| AlertRuns.RequeuedIff | services/consumer_service.go:111-138 | a batch is requeued exactly when the state lookup of one of its identified results failed, whatever came before |
| AlertRuns.VerdictExactly | services/consumer_service.go:88-138 | for every delivery in every state: rejected exactly if undecodable, which changes nothing; handed back exactly if a batch with a failed lookup; acknowledged otherwise |
| AlertRuns.AcknowledgedStoresIff | services/consumer_service.go:111-138 | an acknowledged batch has stored exactly what it reports about every monitor if and only if none of its upserts failed |
| AlertRuns.BatchesDissolve | services/consumer_service.go:88-138 | a run of deliveries leaves the state that its results, one by one, leave |
| AlertRuns.FaultTolerantFold | services/alert_service.go:38-77 | under any failures and redeliveries a monitor's row is the two-packet fold over exactly its persisted results in order |
| AlertRuns.RowsAgree | services/alert_service.go:54-77 | in every row of every run is_down <=> alert_sent <=> consecutive_failures >= 2, and the counter is the trailing failure run of the stored checks |
| AlertRuns.OneFailureDownIffStoredTwice | services/consumer_service.go:88-138 | over any list of rounds of a batch with one failed check of a healthy monitor, and any other traffic in between, the failure counter is the number of rounds that stored it, so DOWN if and only if at least two did |
| AlertRuns.OneFailureDownIffRequeued | services/consumer_service.go:111-133 | if the broker redelivers exactly what is handed back and every round stores the failure, DOWN if and only if the first round was handed back |
| AlertRuns.AcknowledgedYetDown | services/consumer_service.go:135-138 | an acknowledged batch with one failure that is delivered again leaves the monitor down |
| AlertMessages.MonitorIsolation | services/alert_service.go:33-86 | as long as no upsert of its own is lost, a monitor's row and events depend only on its own results, whatever fails for others |
| AlertMessages.BatchIndependence | services/consumer_service.go:111-127 | two such runs with the same results for a monitor agree on its row and events, however batched and interleaved |
| AlertMessages.EventsAlternateIff | services/alert_service.go:54-81 | in every run, under any faults, the first event is DOWN, two consecutive events differ if and only if the earlier one's state was stored, and so they alternate from DOWN if and only if every event but the last was stored |
| AlertMessages.DeliveredAreFiltered | services/alert_service.go:69-108 | in every run, under any faults, the messages about a monitor are exactly its alert events whose gates (subscription, chat, answered deduction, credit left) were open |
| AlertMessages.DeliveredAlternateIff | services/alert_service.go:54-108 | in every run, under any faults: give each message the number of stored events before it; messages alternate from DOWN if and only if these levels alternate in parity from an even one, and every RESTORED follows a DOWN if and only if the level before each odd one is even |
| AlertMessages.GatesDecide | services/alert_service.go:54-108 | when no upsert of the monitor is lost, its events alternate and the levels are the positions of the open gates among the events |
| AlertMessages.RestoredAlone | services/alert_service.go:54-108 | alerts switched off at the second failure and on at the recovery: the only message is RESTORED |
| AlertMessages.DownRepeats | services/alert_service.go:54-77 | with the second of three failures unstored and every gate open the messages are DOWN, DOWN |
| AlertMessages.RestoredRepeats | services/alert_service.go:65-77 | with the first of two recoveries unstored and every gate open the messages are DOWN, RESTORED, RESTORED |
| AlertMessages.EverythingCaused | services/alert_service.go:88-134 | in every run every message, reminder and charge goes to the owner and chat that the owner query named for the alerting monitor, with notifications on and on the day of the query; and no entry of the log is without a step that says so |
| AlertCredits.BooksAlways | services/alert_service.go:99-107 | every credit row is the ledger run over that user's statements, and every credit taken is one message handed over or one lost reply |
| AlertCredits.AlertBudget | services/alert_service.go:88-134 | per user: messages + lost replies = deductions, at most three free per date, and messages <= 3 * dates + lifetime purchases |
| AlertCredits.ReminderSpacing | services/alert_service.go:114-134 | in every clocked run a reminder whose mark was stored is more than seven days before every later one |
| AlertCredits.EarlyReminderLostMarks | services/alert_service.go:130-133 | in every clocked run two reminders within a week mean that the marks of the earlier one and of all between were lost |
| AlertCredits.LostMarksRepeat | services/alert_service.go:130-133 | for every sequence of results of one monitor with all marks lost, the reminders are as many as the alerts beyond the day's free credits, all at one moment |
| AlertCredits.RemindedTwiceAtOnce | services/alert_service.go:130-133 | a run of one flapping monitor that reminds its owner twice at the same moment after one lost mark |
| AlertCredits.RemindsAgainIff | db/repositories/telegram_repo.go:314-329 | after any run a refused alert reminds exactly when its calls succeed, the user is linked, and no stored mark lies within the last seven days |
| AlertCredits.RefusalReminds | services/alert_service.go:88-134 | after any run an alert sends a reminder, to the owner, exactly when the earlier gates were open, the deduction was answered with a refusal, and the marks allow it |
| Payments.CreditService.ProcessPayment | db/repositories/tx_repo.go:24-38 | a unique insert: refuses a recorded signature and an amount the driver cannot pass |
| Payments.CreditService.CreditBalance | db/repositories/user.go:65-82 | adds to the balance within the column's range and returns the new total, or fails and changes nothing; a monitor balance must exist |
| Payments.CreditService.AddPurchasedCredits | services/telegram_service.go:100-159 | the method is the protocol's four steps for a request running alone |
| Payments.LoneRun | services/user_service.go:231-291 | exactly when a request running alone records its signature, credits, and reports success |
| Payments.RequestOutcome | services/telegram_service.go:100-159 | for every request and every fate of its four calls, in terms of the tables and the balance lists alone: when it succeeds, what it records and for whom, and whose balance grows by how much |
| Payments.LoneSuccess | services/telegram_service.go:108-158 | a verified payment is credited with whatever number the request asks for |
| Payments.AtMostOnce | services/telegram_service.go:108-158 | under any interleaving no signature is credited twice across both flows; each credit has its own recorded signature, whose transaction's balances were read as a payment of the recorded amount to the treasury; signatures recorded by others are never credited |
| Payments.CreditedOverstates | services/telegram_service.go:119-138 | for every credit of every run whose transaction neither mints nor burns: recorded amount minus what the treasury gained is what third parties gained on listed and created accounts, plus the whole amount if the treasury paid itself |
| Payments.CreditedIsReceivedIff | services/telegram_service.go:119-138 | with one losing account that is never negative; it is zero if and only if nobody but the treasury gained, on a listed or a created account, and the treasury did not pay itself; and the amount is the gain of the treasury's listed accounts if moreover no created account holds tokens |
| Payments.SplitPaymentCredited | services/user_service.go:250-289 | a payment split between the treasury and another account, listed or created, is recorded and credited for more than the treasury gained |
| Payments.RecordedAccountedFor | services/telegram_service.go:108-158 | at every moment of every interleaving a signature is recorded exactly when it is someone else's, or credited, or held by a request about to credit it, or dropped by a lost answer or a failed credit, and never two of these |
| Payments.DroppedForGood | services/telegram_service.go:142-157 | a dropped signature stays recorded and no later request is ever credited for it |
| Payments.LedgersConserved | services/user_service.go:281-289 | after any interleaving the balance of each user in each ledger is its opening value plus what that user's own granted requests of that flow asked for |
| Transfer.FindPostEntry | solana/solana_client.go:168-175 | the first entry with the index, or none |
| Transfer.ParseNumeral | solana/solana_client.go:177-180 | a string of digits is read as the number it denotes, up to the int64 maximum |
| Transfer.ParseSigned | solana/solana_client.go:177-180 | signs are read, and negative numbers are cut at the int64 minimum |
| Transfer.ParseMalformed | solana/solana_client.go:177-180 | digits followed by anything else are read as 0 |
| Transfer.GetTransferInfo | solana/solana_client.go:71-161 | fails when the call fails; otherwise the loop's variables are the fold of the balance changes, and the checks after it decide the error |
| Transfer.ScanFinds | solana/solana_client.go:112-152 | sender and receiver are found exactly when some listed account lost or gained, they are such accounts, and the amount is then never zero |
| Transfer.SucceedsIff | solana/solana_client.go:144-160 | the call succeeds exactly when some listed account lost and some listed account gained |
| Transfer.ReportedExactly | solana/solana_client.go:112-160 | whatever the balances, the report is the owner of the last listed loser, its loss, and the owner of the last listed gainer, or nothing if either is missing |
| Transfer.FailsIffNothingMoved | solana/solana_client.go:112-152 | if tokens are conserved, a sender is found <=> a receiver is or a created account holds tokens; the call fails exactly when nobody listed gained, that is when nothing changed or all that moved went to created accounts |
| Transfer.SimpleTransfer | solana/solana_client.go:112-160 | with one loser and one listed gainer the reported amount is the loss, which is the gain plus what created accounts hold |
| Transfer.OrderIndependent | solana/solana_client.go:112-175 | ... and the result does not depend on the order of either list |
| Transfer.Overstatement | solana/solana_client.go:112-160 | in every transfer that neither mints nor burns, the reported receiver is the last gainer's owner, and reported amount minus all that it gained is what everybody else but the reported sender's account gained, on listed and on created accounts, plus the whole amount if the receiver paid itself |
| Transfer.ReportedIsReceivedIff | solana/solana_client.go:112-160 | with one losing account the call reports its loss, or fails because all went to created accounts; the amount is at least the reported receiver's gain, and equal to it if and only if nobody else gained, on a listed or a created account, and the receiver did not pay itself |
| Transfer.SplitPayment | solana/solana_client.go:130-141 | a conserved payment of a part to the treasury and the rest to a third account is reported as the whole, paid to the treasury; if the third account is created, the treasury is the only listed gainer |
| Transfer.NewAccountUnseen | solana/solana_client.go:112-148 | a conserved payment into a newly created account is reported as an error |

## Left out

- HTTP controllers, routing, authentication, the bot's commands, websocket hub and message texts: no property beyond their bodies.
- The off-chain stake mirror (services/noderunner_service.go:137-172): appears only as a step that records a signature; it does not promise agreement with the chain.
- Telegram linking and subscription toggles: the pipeline sees their answers as arguments; a user row is created once and never removed.
- Account substitution in the program: the canonical vault and treasury accounts and one token account per wallet are passed; a PDA's bump and rent are not modelled, and distinct seeds are taken to have distinct addresses.
- Minting and burning: the token supply is constant within a run.
- Soft deletion of monitors and users, and the columns `updated_at` and `created_at`.
- Alerts.AlertService.SendCreditReminder: a reminder that the sender reports as failed counts as not sent, although the network may have delivered it.
- Alerts.AlertService.ProcessPingResult: the failure counter is unbounded; where the 32-bit column would overflow, the upsert counts as not taking effect.
- Registry.MemoryRegistry.GetOnlineNodes: the mutexes are modelled by making each method one step, and durations do not saturate.
- Payments.CreditService.CreditBalance: the lifetime total of a telegram row is not part of this module; where only that total would overflow, the statement counts as failed. The type of the users table's balance is not in the repository, so its range is a parameter.
- Transfer.GetTransferInfo: the mint and timestamp of the answer; a signature or mint that is not base58 ends the request like a failed call.
- Transfer.Overstatement: supposes that a balance list names an account once, with an amount that fits int64, and that an account keeps its mint within a transaction.
- Credits.FreeFirstOptimal: needs non-negative purchases and dates that do not decrease; `Credits.NegativePurchaseBreaksOptimality` and `Credits.DecreasingDateBreaksOptimality` show both needs.
- Spellings of a monitor identifier: health rows are keyed by its text, while the column is a UUID (db/telegram.sql:40), so two spellings of one identifier share a row in the code and not in the model.
- Pings stored in `ping_logs`, uptime percentages and latencies: averages over floats.
