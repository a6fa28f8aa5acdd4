# A verified model of the money-moving protocol

The repository moves money between wallets with two services. The **ledger** keeps one event stream per
wallet, decides commands on replayed aggregates and appends with an expected version. **Payments** drives each
transfer through a saga that reserves the sender's money, settles it in the ledger, or gives it back. Events
leave the ledger through an outbox, a broker and a deduplicating inbox.

This project models that protocol as state machines whose steps interleave freely, together with the service
loops themselves and the arithmetic and text they rest on, and proves what the design promises over every run.

| files | what they hold |
|---|---|
| `Base`, `Backoff` | identifiers, results, the shared retry delay |
| `LedgerTransactions`, `WalletAggregate`, `LedgerDb` | double entry, the replayed wallet, the tables and each command as one serial transaction |
| `LedgerInvariants`, `LedgerProperties`, `Conservation` | what every command keeps, and what it does to holds, receipts and money |
| `LedgerSessions`, `LedgerTheorems`, `ReleaseRace`, `BankRefinement`, `Refusals` | concurrent sessions (load, then commit), the theorems over every interleaving, the simple bank that the ledger refines, and why commands are refused |
| `WalletsService`, `Maintenance`, `GlobalReconciliation` | the retry loops under interference; reconciliation and rebuild |
| `TransferStatus`, `Saga`, `SagaInvariants`, `SagaSteps` | one transfer: workers, leases, conditional updates, calls that may be late, repeated or unanswered |
| `TransferSystem`, `SagaTheorems`, `Compensation`, `LateHold`, `TransferMoney`, `SettlementReady` | both services together, and the agreement between them |
| `SagaRun`, `SagaRefinement` | `run` as a loop, its termination, and its place in the machine |
| `SplitBills`, `TransferCreation`, `CreatedOrders` | shares and bills; idempotent creation |
| `EventDelivery`, `OutboxRelay` | outbox relay, broker and inbox |
| `CircuitBreaker`, `FxQuote`, `MoneyText`, `WireAmount` | the ledger client's breaker, currency conversion, money as text and as binary64 |

## How the machines are built

A machine is a `State`, a `Step` datatype and a total function `Do`; a step that is not enabled changes nothing.
A run is any sequence of steps, so a lemma over all `steps` is a statement about every interleaving, crash
(a session, worker or relay that takes no more steps), lost answer and repeated delivery. Clocks and fresh UUIDs
are parameters of the steps. A property over runs is an invariant of `Do`, proved step by step.

`LedgerSessions` proves that concurrent sessions are serializable, and `LedgerTheorems` that each accepted one is atomic. `WalletsService`, `TransferSystem` and
`EventDelivery` therefore use a ledger command as one step. `BankRefinement` then says what the commands mean, without
events: the ledger accepts a command exactly when a plain bank does, refuses it for the same reason, and changes the
accounts in the same way.

## Assumptions

- A database transaction is one atomic step, and rows of `ledger_events` and of the receipts table are never deleted.
- `randomUUID` values are fresh: a transaction id is either random or a transfer's id, never both (`TxId`), and a lock
  or lease id is used once. Event ids need no such assumption, since the model keeps the unique keys that refuse them.
- The SHA-256 fingerprint of a request is injective, so it is modelled by the request.
- The queue is bound to the exchange before anything is published, and the broker redelivers what was not acknowledged.
- The settle endpoint is internal: only the saga issues settlements. Users may issue every other ledger command at any
  time, also on hold ids that belong to transfers, except where `Timely` says otherwise.
- Amounts stay within the `bigint` columns of the projection and receipt tables; an overflow there would refuse a commit
  that the model accepts.
- Settings read from the environment have their default values or are parameters (`maxAttempts`, lease length, breaker).
- Amounts cross the wire as integers in `TransferSystem`; `WireAmount` shows for which amounts that is exact.

## Where the code and its description differ

- `claim` tests `raw.length`, which a driver that returns rows and count together makes non-zero even when nothing was
  updated (apps/payments-service/src/transfers/transfer-saga.service.ts:388). In the model a worker therefore goes on
  whether or not its claim matched, and all safety comes from the conditional updates and the ledger's idempotence.
- "A failed transfer leaves no active hold" is false in general: releasing a missing hold leaves nothing behind, so a
  `placeHold` that lands late reserves money until a user releases it. `LateHold.FailedWithActiveHold` is such a run, with the default
  three attempts. `Compensation.FailedReservesIff` says for every run when it happens: the hold was placed while the
  transfer did not expect it (it did not exist yet, its flag was not stored, or a release was already answered) and
  nothing has ended it since.
  `Compensation.StepTimelyIff` gives the same condition step by step, as guards that could be checked before each step.
  A call in flight is not the only danger: a worker that lost its lease may issue `placeHold` after the failure, and a
  user may place a hold under the transfer's id.
- `released` does not mean that a placed hold was released: a release that loaded the stream before the hold was placed
  may answer afterwards, for the hold it did not see (`ReleaseRace.EmptyReleaseHappens`). `ReleaseRace.EmptyReleaseIff`
  says exactly when that can still happen, and `SettleReleaseRace` settles the race from any other state on.
- A share payment whose key was used by another request can end in the error "winner was not visible"
  (apps/payments-service/src/transfers/transfers.service.ts:146-148). `TransferCreation.WinnerMissingIff` says exactly when
  the lookup fails, `RefusalsDeserved` that another request then holds the key, and `MissingWinnerHappens` that every such
  pair of quotable requests has a schedule that ends there.
- Converting to a currency and back is exact for every amount if and only if the other currency's unit is worth no more:
  `FxQuote.RoundTripExactIff`.

## Model

| member | source | states |
|---|---|---|
| `LedgerTransactions.MovementIsBalanced` | apps/ledger-service/src/ledger/domain/ledger-transaction.ts:20-53 | a created transaction sums to zero, posts its amount to the wallet exactly once and the opposite to `system:external` |
| `WalletAggregate.ApplySolvent` | apps/ledger-service/src/wallets/domain/wallet.aggregate.ts:129-233 | every event the replay accepts keeps all holds positive and 0 <= held <= balance, and raises the version by one |
| `WalletAggregate.ReplaySolvent` | apps/ledger-service/src/wallets/domain/wallet.aggregate.ts:37-43 | any event list that replays without error is numbered 1..n and ends solvent |
| `WalletAggregate.ReplayWellFormed` | apps/ledger-service/src/wallets/domain/wallet.aggregate.ts:129-233 | a stream replays only if every event of it is well formed: the first schema, or the two of a created wallet, positive holds, and movements that are balanced double entries with one posting on the wallet |
| `WalletAggregate.ApplyHoldStep` | apps/ledger-service/src/wallets/domain/wallet.aggregate.ts:190-233 | an event creates a hold active, or ends an active one keeping its amount, and does nothing else to any hold |
| `LedgerInvariants.DecisionApplies` | apps/ledger-service/src/wallets/domain/wallet.aggregate.ts:53-127 | whatever a solvent wallet decides, its own replay accepts, so no command rolls back on its own event |
| `LedgerInvariants.SingleKeepsInv` | apps/ledger-service/src/wallets/wallets.service.ts:383-531 | deposit, withdraw, place, release and consume keep streams, projections, outbox and receipts consistent with each other |
| `LedgerInvariants.SettleKeepsInv` | apps/ledger-service/src/wallets/wallets.service.ts:234-353 | so does a settlement, with its two appends, two projections and receipt |
| `LedgerInvariants.OpenKeepsInv` | apps/ledger-service/src/wallets/wallets.service.ts:47-90 | so does opening a wallet, and no owner gets two wallets of one currency |
| `LedgerProperties.CommandHoldStep` | apps/ledger-service/src/wallets/wallets.service.ts:466-531 | over whole commands, every hold of every wallet moves by at most one legal step |
| `LedgerProperties.CommandHoldCause` | apps/ledger-service/src/wallets/wallets.service.ts:466-531 | a hold changes only by a command that names it, in the way that command says |
| `LedgerProperties.CommandReceipts` | apps/ledger-service/src/wallets/wallets.service.ts:343-351 | receipts are written once and only by the settlement of their own transfer |
| `LedgerProperties.SettleAnswers` | apps/ledger-service/src/wallets/wallets.service.ts:225-368 | a settlement that succeeds, first or repeated, leaves a receipt with exactly the asked terms |
| `LedgerProperties.SettleNeedsActiveHold` | apps/ledger-service/src/wallets/wallets.service.ts:282-304 | a new receipt takes an active hold of its own transfer for its own amount |
| `LedgerProperties.ReceiptMeansConsumed` | apps/ledger-service/src/wallets/wallets.service.ts:290-351 | wherever there is a receipt, the sender's hold of that transfer is consumed |
| `LedgerProperties.ReleaseAnswers` | apps/ledger-service/src/wallets/wallets.service.ts:200-223 | a release that succeeds leaves the hold absent or released |
| `LedgerProperties.PlaceAnswers` | apps/ledger-service/src/wallets/wallets.service.ts:188-198 | a placement that succeeds leaves a hold of that id and amount |
| `LedgerProperties.ConsumeAnswers` | apps/ledger-service/src/wallets/wallets.service.ts:140-142 | a consume that succeeds leaves the hold consumed |
| `Conservation.WalletConserves` | apps/ledger-service/src/ledger/domain/ledger-transaction.ts:33-53 | a wallet's balance and the `system:external` postings of its stream sum to zero |
| `Conservation.SettleBalances` | apps/ledger-service/src/wallets/wallets.service.ts:295-331 | a new settlement moves exactly the two balances its terms name, by exactly its two amounts |
| `Conservation.SettleTotals` | apps/ledger-service/src/wallets/wallets.service.ts:295-331 | each currency's total changes by what the settlement takes and gives in it, and no other total changes |
| `Conservation.SameCurrencySettleConserves` | apps/ledger-service/src/wallets/wallets.service.ts:295-331 | a settlement within one currency at par, first or repeated, leaves every currency's total unchanged |
| `LedgerSessions.AttemptIsSerial` | apps/ledger-service/src/event-store/event-store.service.ts:47-97 | a commit that passes the expected-version guard, on streams loaded long before, is the command run alone at that moment |
| `LedgerSessions.ReleaseAnswerTrue` | apps/ledger-service/src/wallets/wallets.service.ts:466-531 | a release that saw a hold answers success only if the hold is released for good |
| `LedgerSessions.RunKeepsLedger` | apps/ledger-service/src/wallets/wallets.service.ts:399-529 | serializability: after any interleaving the tables are those of the committed commands run one at a time in commit order, each succeeding, and every answer given is still true |
| `LedgerTheorems.NoDoubleSpend` | apps/ledger-service/src/event-store/event-store.service.ts:53-85 | after any interleaving every stream is numbered 1..n, replays without error and has only positive holds that the balance covers |
| `LedgerTheorems.ProjectionRefinesReplay` | apps/ledger-service/src/wallets/wallets.service.ts:547-565 | after any interleaving each projection row is balance, held, available and version of its replayed stream, and there is one per wallet |
| `LedgerTheorems.SettlementIsExactlyOnce` | apps/ledger-service/src/wallets/wallets.service.ts:234-353 | a receipt exists with exactly one matching debit and one matching credit in the whole event table, or there is none and neither event exists |
| `LedgerTheorems.EveryCurrencyConserves` | apps/ledger-service/src/ledger/domain/ledger-transaction.ts:20-53 | after any interleaving wallet balances and external postings of each currency sum to zero |
| `LedgerTheorems.SessionLinearizes` | apps/ledger-service/src/wallets/wallets.service.ts:399-529 | every accepted session is atomic, whatever steps come between its load and its commit: it is its command alone at its commit, or it changed nothing and its command alone would have changed nothing at its load |
| `LedgerTheorems.CheckIsAtomic` | apps/ledger-service/src/wallets/wallets.service.ts:200-259 | an answer of the receipt check is the settlement command alone at that step |
| `ReleaseRace.EmptyReleaseIff` | apps/ledger-service/src/wallets/wallets.service.ts:200-223 | from any state in which the hold is placed: some continuation answers `released` for want of the hold if and only if an open release is blind to it, that is, would be accepted on a stream loaded without it |
| `ReleaseRace.EmptyReleaseHappens` | apps/ledger-service/src/wallets/wallets.service.ts:495-500 | in every reachable state whose wallet can cover a new hold, a release can load, the hold be placed, and the release then answer `released` |
| `ReleaseRace.SettleReleaseRace` | apps/ledger-service/src/wallets/wallets.service.ts:200-368 | from any state in which the hold is placed and no open release is blind to it, over every continuation: every `released` is about the hold, `released` and a receipt on the wallet exclude each other, and every settle, `released` and `already_settled` answer agrees with the hold and the receipts |
| `LedgerTheorems.OutcomesAreFinal` | apps/ledger-service/src/wallets/domain/wallet.aggregate.ts:101-127 | an ended hold and a receipt stay as they are in every continuation |
| `BankRefinement.DecisionMatches` | apps/ledger-service/src/wallets/domain/wallet.aggregate.ts:53-127 | for all five operations, deciding an event and replaying it is the bank's one-line update of balance and hold table, refused exactly when the bank refuses |
| `BankRefinement.CommandRefines` | apps/ledger-service/src/wallets/wallets.service.ts:225-531 | an accepted command does to the accounts that the tables stand for exactly what the bank's command does |
| `BankRefinement.AcceptedIffServed` | apps/ledger-service/src/wallets/wallets.service.ts:225-531 | with fresh event ids a command is accepted if and only if the bank accepts it: no guard is missing and none is too strict |
| `BankRefinement.RunIsABank` | apps/ledger-service/src/wallets/wallets.service.ts:399-529 | over any interleaving the tables stand for the bank that served the committed commands one at a time |
| `Refusals.SingleRefused` | apps/ledger-service/src/wallets/wallets.service.ts:383-531 | an attempt that is refused on a stream loaded earlier is refused for the reason the bank of its load gives, or met a conflict that really happened |
| `Refusals.SettleRefused` | apps/ledger-service/src/wallets/wallets.service.ts:234-366 | the same for a settlement attempt and its two streams |
| `Refusals.AnsweredAsServed` | apps/ledger-service/src/wallets/wallets.service.ts:225-531 | with fresh event ids every command is answered exactly as the bank answers it: the same accounts, or the same refusal |
| `WalletsService.WalletsService.constructor` | apps/ledger-service/src/wallets/wallets.service.ts:34-45 | an empty ledger is consistent |
| `WalletsService.WalletsService.ExecuteSingle` | apps/ledger-service/src/wallets/wallets.service.ts:383-531 | the retry loop under arbitrary interference carries the command out exactly once or not at all, within 25 attempts; it refuses only for the reason the bank of its last load gives or for a conflict that really happened; alone, it answers exactly as the bank does |
| `WalletsService.WalletsService.ReleaseTransferHold` | apps/ledger-service/src/wallets/wallets.service.ts:200-223 | with other sessions before, during and after its attempts: `already_settled` means there is a receipt, an error means there is none and has the reason of the refused release, `released` means the release was carried out, and otherwise it changed nothing |
| `WalletsService.WalletsService.SettleTransfer` | apps/ledger-service/src/wallets/wallets.service.ts:225-368 | success means a receipt with the asked terms, a mismatch means a receipt with others; it changes the tables by exactly one settlement at its commit or not at all; it refuses only for the reason the bank of its last load gives or, after 25 attempts, for a conflict that really happened; alone, it answers exactly as the bank does |
| `WalletsService.WalletsService.GetOrCreateForUser` | apps/ledger-service/src/wallets/wallets.service.ts:47-90 | returns the one wallet of that owner and currency, whoever created it; it changes nothing but by opening that wallet, and fails only if the drawn wallet id or event id is taken |
| `Maintenance.ConsistentIffEqual` | apps/ledger-service/src/admin/ledger-maintenance.service.ts:34-69 | comparing printed amounts says consistent if and only if total, held, available and version are numerically equal |
| `Maintenance.WalletsAlwaysReconcile` | apps/ledger-service/src/admin/ledger-maintenance.service.ts:34-69 | after any interleaving every wallet reconciles |
| `GlobalReconciliation.ReconcileGlobal` | apps/ledger-service/src/admin/ledger-maintenance.service.ts:71-116 | the loops over the window's stored rows, loaded in any order, count the movements, list those that cannot be read or do not balance, and sum credits and debits; the verdict is balanced if and only if every movement stored in the window is readable and a balanced double entry |
| `GlobalReconciliation.ReportMeans` | apps/ledger-service/src/admin/ledger-maintenance.service.ts:78-107 | credits and debits are not negative, differ by the sum of the posted amounts and add up to their magnitude; the count is the number of movements, and exactly the invalid ones are listed |
| `GlobalReconciliation.RowInvalidIff` | apps/ledger-service/src/admin/ledger-maintenance.service.ts:158-183 | the untyped row of a stored event is reported if and only if its postings are not a balanced double entry: what the ledger writes is always read back |
| `GlobalReconciliation.EveryWindowBalances` | apps/ledger-service/src/admin/ledger-maintenance.service.ts:78-107 | after any interleaving the report on every time window is balanced and lists no invalid movement |
| `Maintenance.LedgerMaintenanceService.RebuildAllBalanceProjections` | apps/ledger-service/src/admin/ledger-maintenance.service.ts:118-140 | succeeds exactly when every stream replays to its wallet's identity, and then replaces all projections; otherwise nothing changes |
| `Maintenance.RebuildRestores` | apps/ledger-service/src/admin/ledger-maintenance.service.ts:118-140 | from any corrupted projection table the rebuild restores the tables exactly |
| `TransferStatus.MovesRaiseRank` | apps/payments-service/src/transfers/domain/transfer-status.ts:11-48 | every allowed transition raises the rank, and exactly Completed and Failed have none |
| `SagaSteps.AdvanceKeeps` | apps/payments-service/src/transfers/transfer-saga.service.ts:54-140 | every step of every worker, leased or stale, keeps the transfer's invariant (history, what each worker knows, calls, answers, ledger state, outcome) |
| `SagaSteps.AdvanceShape` | apps/payments-service/src/transfers/transfer-saga.service.ts:330-362 | a worker that does not own the lease changes nothing, and a failure is written only after a `released` answer or without the hold flag |
| `SagaSteps.ClaimGrantedIff` | apps/payments-service/src/transfers/transfer-saga.service.ts:364-390 | a new worker gets the lease if and only if the transfer is not decided, its retry is due and no lease still runs; nobody else gets it until the lease has run out, and then somebody can |
| `TransferSystem.RunKeeps` | apps/payments-service/src/transfers/transfer-saga.service.ts:49-362 | both services' invariants hold together after every run |
| `SagaTheorems.CrossServiceAgreement` | apps/payments-service/src/transfers/transfer-saga.service.ts:54-140 | Completed means a receipt with exactly the stored wallets and amounts, Failed means no receipt, in every run |
| `SagaTheorems.OutcomeIsTheMoney` | apps/ledger-service/src/wallets/wallets.service.ts:225-368 | Completed means exactly one debit and one credit for the stored terms, Failed means neither exists anywhere |
| `SagaTheorems.OutcomeIsForever` | apps/payments-service/src/transfers/transfer-saga.service.ts:364-390 | terminal rows never change, and a failed transfer can never get a receipt, in every continuation |
| `SagaTheorems.StoredVersions` | apps/payments-service/src/transfers/transfer-saga.service.ts:258-362 | the stored versions are numbered 1..n from a new Pending row to the current one, the flag implies a receiver, and one completion event exists if and only if Completed |
| `SagaTheorems.FencedHistory` | apps/payments-service/src/transfers/transfer-saga.service.ts:319-362 | any two stored versions lie on a path of allowed transitions; the receiver is set once, the flag never reverts and no version follows a terminal one |
| `SagaTheorems.WriteAhead` | apps/payments-service/src/transfers/transfer-saga.service.ts:81-95 | placeHold is issued only after the flag is stored, settle only after the hold exists and with the stored receiver, release only when compensating or later |
| `SettlementReady.ReceiverIsValid` | apps/ledger-service/src/wallets/wallets.service.ts:144-186 | in every run the stored receiver is a wallet of the target currency other than the sender's, and the sender's wallet is the user's own in the source currency |
| `SettlementReady.SettleAcceptedIff` | apps/ledger-service/src/wallets/wallets.service.ts:225-368 | a settlement ordered by the saga succeeds if and only if it was settled already or its hold is still active for the ordered amount |
| `Compensation.CommandReserves` | apps/ledger-service/src/wallets/wallets.service.ts:466-531 | after a command a hold is active if and only if the command just placed it on a wallet that covers it, or it was active and the command neither released, consumed nor settled it |
| `Compensation.StepTimelyIff` | apps/ledger-service/src/wallets/wallets.service.ts:495-500 | for every step of both services: holds stay reserved only for transfers that expect them if and only if the step is timely, that is, neither a late call nor a user places an unexpected hold and no transfer is created under an active one |
| `Compensation.RunTimelyIff` | apps/payments-service/src/transfers/transfer-saga.service.ts:212-227 | over runs: every state on the way has only expected holds if and only if every step is timely |
| `Compensation.FailedReservesIff` | apps/payments-service/src/transfers/transfer-saga.service.ts:212-227 | in every run: a failed transfer has an active hold if and only if the hold was placed while the transfer did not expect it and no release or consume of it has landed since |
| `Compensation.FailedReservesNothing` | apps/payments-service/src/transfers/transfer-saga.service.ts:212-227 | in every timely run a failed transfer reserves nothing and moved no money, and its hold is absent or released if and only if no user consumed it |
| `Compensation.LatePlaceReserves` | apps/ledger-service/src/wallets/wallets.service.ts:495-500 | a placeHold that lands after the failure leaves an active hold if and only if the wallet can cover it |
| `LateHold.FailedWithActiveHold` | apps/ledger-service/src/wallets/wallets.service.ts:495-500 | a complete run of both services with three attempts and retryable errors only that ends Failed with 50 of the sender's 100 still reserved |
| `TransferMoney.SettlementTotals` | apps/payments-service/src/transfers/ledger.gateway.ts:57-75 | a settlement of the saga changes each currency's total by the order and its quote, a repeated one changes nothing, and within one currency no total changes |
| `SagaRun.SagaRunner.constructor` | apps/payments-service/src/transfers/transfers.service.ts:116-134 | a new transfer is Pending, version 1, without receiver or flag |
| `SagaRun.SagaRunner.Validate` | apps/payments-service/src/transfers/transfer-saga.service.ts:66-103 | resolves, flags and places in that order, and leaves what the specification says on each failure |
| `SagaRun.SagaRunner.HandleFailure` | apps/payments-service/src/transfers/transfer-saga.service.ts:193-228 | retries, compensates or fails as the status, the error, the attempts and the flag decide |
| `SagaRun.SagaRunner.Run` | apps/payments-service/src/transfers/transfer-saga.service.ts:49-153 | the loop leaves exactly `RunResult`, stores only allowed edges and never reaches its step budget |
| `SagaRun.RunProgress` | apps/payments-service/src/transfers/transfer-saga.service.ts:49-153 | every run that keeps its lease gives it back and decides the transfer or makes lexicographic progress on (status, receiver, flag, attempts) |
| `SagaRun.RunsDecide` | apps/payments-service/src/transfers/transfer-saga.service.ts:193-256 | 16 * max(1, maxAttempts) such runs reach Completed, Failed or Compensating, whatever the ledger answers |
| `SagaRun.ForwardOutcome` | apps/payments-service/src/transfers/transfer-saga.service.ts:54-152 | what a run of a forward transfer comes to for every policy verdict and every set of ledger answers: completed without a failure; waiting exactly for its delay after a retryable one with attempts left; otherwise out of the forward phase, by the release's answer if a hold may exist and failed if none can |
| `SagaRun.TerminalEndsForward` | apps/payments-service/src/transfers/transfer-saga.service.ts:205-227 | a terminal failure of the policy or of any ledger call ends the forward phase in the same run |
| `SagaRun.CompensatingOutcome` | apps/payments-service/src/transfers/transfer-saga.service.ts:122-135 | compensating ends on the release's answer, and is otherwise due again exactly after its delay |
| `SagaRun.VerdictsFollowAnswers` | apps/payments-service/src/transfers/transfer-saga.service.ts:112-135 | a run completes only on a settlement or `already_settled`, and fails only on `released` or before anything could be held |
| `SagaRun.WillingLedgerCompletes` | apps/payments-service/src/transfers/transfer-saga.service.ts:54-120 | with a willing policy and ledger, one run completes the transfer from any forward status, with the receiver already stored or the one validated |
| `SagaRefinement.RunIsABehaviour` | apps/payments-service/src/transfers/transfer-saga.service.ts:49-153 | for every script of answers the loop's result is a behaviour of the interleaved machine |
| `SagaRefinement.FailureDecides` | apps/payments-service/src/transfers/transfer-saga.service.ts:193-256 | in the machine, a failing forward transfer stays undecided if and only if the failure is retryable and attempts are left, and then waits exactly for its delay without a lease; otherwise it is compensated if the flag is stored and failed if not |
| `Backoff.DelayDoublesToCap` | apps/payments-service/src/transfers/transfer-saga.service.ts:245-246 | the delay starts at one second, doubles, never shrinks and is one minute from the seventh attempt on |
| `SplitBills.EqualSharesExact` | apps/payments-service/src/split-bills/split-bills.service.ts:162-177 | equal shares are positive, differ by at most one minor unit, never increase and sum to the total; refused exactly when the total is below one unit each |
| `SplitBills.ShareAmountsExact` | apps/payments-service/src/split-bills/split-bills.service.ts:162-190 | either mode yields one positive amount per participant, together exactly the total, and custom shares are kept as given |
| `SplitBills.ShareAmountsRefused` | apps/payments-service/src/split-bills/split-bills.service.ts:162-190 | which splits are refused, for each of the four reasons |
| `SplitBills.SplitMakesBill` | apps/payments-service/src/split-bills/split-bills.service.ts:58-97 | whatever split is accepted can be stored as a bill under fresh ids |
| `SplitBills.NeverOverCollects` | apps/payments-service/src/split-bills/split-bills.service.ts:130-229 | in every run a bill has collected at most its total, and a Settled view means exactly its total |
| `SplitBills.StatusMeans` | apps/payments-service/src/split-bills/domain/split-bill-status.ts:14-24 | Settled means that every share is paid, PartiallyPaid that some are and some are not, Pending that none is, each if and only if |
| `SplitBills.StatusNeverMovesBack` | apps/payments-service/src/split-bills/domain/split-bill-status.ts:14-24 | the derived status never moves backwards in any continuation |
| `TransferCreation.IdempotentCreation` | apps/payments-service/src/transfers/transfers.service.ts:98-151 | in every interleaving: one row per (sender, key) and per share, a returned id names a row with the caller's request and its quote, and calls of one request agree on the id |
| `TransferCreation.StoredAmounts` | apps/payments-service/src/transfers/transfers.service.ts:115-118 | every stored row has two supported currencies and a destination amount within half a minor unit of the exact rate from the source currency to the destination currency; within one currency it is the amount |
| `TransferCreation.QuoteRefusedIff` | apps/payments-service/src/transfers/domain/fx-quote.ts:27-51 | a request has no quote if and only if a currency is not supported, there is no amount, or its value is below half a minor unit |
| `TransferCreation.FirstCallCreates` | apps/payments-service/src/transfers/transfers.service.ts:98-137 | a quotable request that no row blocks is stored under the drawn id, and that id is returned |
| `TransferCreation.RepeatReturns` | apps/payments-service/src/transfers/transfers.service.ts:104-113 | a repeated call returns the stored transfer's id and inserts nothing |
| `TransferCreation.RefusalsDeserved` | apps/payments-service/src/transfers/transfers.service.ts:138-151 | a conflict is answered only if another request holds the key or share, and the missing-winner error is met only by a share payment whose key another request holds |
| `TransferCreation.WinnerMissingIff` | apps/payments-service/src/transfers/transfers.service.ts:140-148 | the lookup of the winner fails if and only if the call pays a share that no row holds |
| `TransferCreation.MissingWinnerHappens` | apps/payments-service/src/transfers/transfers.service.ts:140-148 | every share payment meets that error in some schedule, for every other request of its sender and key that does not pay the share, both having a quote |
| `TransferCreation.TransfersService.CreateCanonical` | apps/payments-service/src/transfers/transfers.service.ts:98-151 | a whole call, with any other calls between its round trips, is a behaviour of the machine and ends in a deserved answer |
| `TransferCreation.KeySpellings` | apps/payments-service/src/transfers/transfers.service.ts:198-208 | a header gives a key if and only if it is that key, of 1 to 200 characters without a space at either end, with any spaces around it |
| `TransferCreation.TransfersService.Create` | apps/payments-service/src/transfers/transfers.service.ts:64-72 | a header without a usable key is refused and changes nothing; any other runs the whole call under its key |
| `CreatedOrders.CreatedOrderOk` | apps/payments-service/src/transfers/transfers.service.ts:98-137 | every created row is an order the saga may be given, a share payment exactly when it has its share's terms |
| `EventDelivery.OwnMessagesTrusted` | apps/notifications-service/src/messaging/integration-event.ts:45-61 | every message the ledger publishes passes the consumer's trust check |
| `EventDelivery.TrustedIff` | apps/notifications-service/src/messaging/integration-event.ts:45-61 | trusted is each service for its own event types and routing keys, and nobody else |
| `EventDelivery.EffectivelyOnce` | apps/notifications-service/src/messaging/inbox.service.ts:15-32 | in every run: one outbox row per stored event; published means confirmed and in the feed or still queued; at most one feed item per event, with the committed contents; no ledger message is dead-lettered |
| `EventDelivery.PublishedForever` | apps/ledger-service/src/messaging/outbox.service.ts:95-105 | once published, a row keeps every column in every continuation, whatever stale relays do |
| `EventDelivery.LockHeld` | apps/ledger-service/src/messaging/outbox.service.ts:154-175 | until its lock expires, only the relay that holds it changes a row |
| `OutboxRelay.WhenClaimable` | apps/ledger-service/src/messaging/outbox.service.ts:107-118 | a failed row is due exactly after its backoff, a locked one exactly after its lock, a published one never |
| `OutboxRelay.OutboxService.PublishBatch` | apps/ledger-service/src/messaging/outbox.service.ts:88-124 | the batch loop marks each row published at its time, or counts the attempt and sets its backoff, and unlocks it; it leaves unfinished rows locked for thirty seconds and all others alone, and is a behaviour of the machine |
| `OutboxRelay.BatchUndisturbed` | apps/ledger-service/src/messaging/outbox.service.ts:88-124 | between any two steps of a relay, whatever commands, other relays and consumers do, its batch and every row it holds under an unexpired lock are as they were |
| `OutboxRelay.ConsumerService.Process` | apps/notifications-service/src/messaging/inbox.service.ts:15-32 | records the first delivery once, ignores the rest, and leaves nothing when the handler throws |
| `OutboxRelay.ConsumerService.Consume` | apps/notifications-service/src/messaging/rabbitmq-consumer.service.ts:133-192 | dead-letters exactly the untrusted, requeues exactly a new event whose handler or notification throws, acknowledges all else, duplicates included, and is a step of the machine |
| `CircuitBreaker.LedgerHttpClient.constructor` | apps/payments-service/src/transfers/ledger.gateway.ts:32-35 | a new client is closed and has made no fetch |
| `CircuitBreaker.LedgerHttpClient.Request` | apps/payments-service/src/transfers/ledger.gateway.ts:86-127 | makes no fetch while open and at most maxAttempts, stops at the first success or terminal answer, and keeps both counters equal to functions of the whole fetch history |
| `CircuitBreaker.ClassifyIff` | apps/payments-service/src/transfers/ledger.gateway.ts:129-209 | exactly the lost replies, overloads and server errors are retryable, and exactly the other refusals are terminal |
| `CircuitBreaker.CooldownApart` | apps/payments-service/src/transfers/ledger.gateway.ts:211-218 | over any run, once the breaker has opened and until a fetch succeeds, each retryable failure is followed by a whole cooldown before the next fetch starts |
| `CircuitBreaker.FailingLoadBounded` | apps/payments-service/src/transfers/ledger.gateway.ts:86-127 | without a success, every retryable failure past the threshold has taken one cooldown of time |
| `FxQuote.QuoteIsNearest` | apps/payments-service/src/transfers/domain/fx-quote.ts:27-51 | a quote is positive and within half a minor unit of the exact rate |
| `FxQuote.QuoteRefusals` | apps/payments-service/src/transfers/domain/fx-quote.ts:27-51 | which amounts have no quote, for each of the three reasons |
| `FxQuote.Monotone` | apps/payments-service/src/transfers/domain/fx-quote.ts:27-51 | a larger amount never converts to less |
| `FxQuote.QuoteSameCurrency` | apps/payments-service/src/transfers/domain/fx-quote.ts:27-51 | within one currency the quote is the amount |
| `FxQuote.QuoteRoundTrip` | apps/payments-service/src/transfers/domain/fx-quote.ts:27-51 | into a currency of strictly smaller unit value and back gives the original amount |
| `FxQuote.RoundTripExactIff` | apps/payments-service/src/transfers/domain/fx-quote.ts:27-51 | every amount survives the trip to another currency and back if and only if that currency's unit is worth no more than the first one's |
| `MoneyText.ParseOfFormat` | apps/payments-service/src/split-bills/domain/money.ts:5-20 | printing and parsing is the identity on every supported amount |
| `MoneyText.FormatOfParse` | apps/payments-service/src/split-bills/domain/money.ts:5-20 | parsing and printing is the identity on every accepted text |
| `MoneyText.AcceptedTexts` | apps/payments-service/src/split-bills/domain/money.ts:3-16 | a text is accepted if and only if it is the print of an amount from 1 to 2^53 - 1 |
| `MoneyText.FormatMinorUnitsInjective` | apps/ledger-service/src/ledger/domain/ledger-transaction.ts:95-101 | the signed format tells all integers apart |
| `MoneyText.ParseOfSigned` | apps/ledger-service/src/ledger/domain/ledger-transaction.ts:80-85 | a stored posting amount is read back exactly, for every integer |
| `WireAmount.WireRoundTrip` | apps/payments-service/src/transfers/ledger.gateway.ts:229-231 | for every n up to 2^51 - 1 and every pair of roundings with relative error at most 2^-53, the ledger reads n back |
| `WireAmount.ExactRange` | apps/ledger-service/src/ledger/domain/ledger-transaction.ts:87-93 | these are exactly the amounts for which that holds |
| `WireAmount.PolicyAmountsSurvive` | apps/payments-service/src/transfers/transfer-policy.service.ts:12-17 | both amounts of every transfer within the default limit cross the wire exactly |
| `WireAmount.RequestAmountExact` | apps/payments-service/src/transfers/transfers.service.ts:229-241 | a request of n minor units is accepted and read as n, up to 45 times the default limit |

## Left out

- Frontend, gateway, controllers, authentication, rate limits, reminders, WebSocket, metrics and tracing: no part in these properties.
- Activity feed pagination: its cursor keeps only milliseconds of a finer timestamp, so exact enumeration does not hold.
- `TransfersService.transition`, which has no lease and no caller, is not a step of the saga.
- `rebuildBalanceProjection` for one wallet has no version guard and is not interleaved with commits; the rebuild of all projections is one SERIALIZABLE step.
- The payments outbox relay is the same lock, publish and mark loop as the ledger's; only the ledger's is composed with its tables, and payments messages are not in the modelled queue. Completion events are counted in `Saga` instead.
- `failureCode`, `failureMessage`, `lastAttemptAt` and other columns that no decision reads.
- Liveness while Compensating: retries there are unbounded by design.
- The transfer policy's rules: its verdict is a parameter of a run; only its amount limit is used, in `WireAmount`.
- Which receiver a validation resolves from a textual reference is a parameter of the delivery; the checks on the wallets are modelled.
- Composition of `LedgerSessions` into `TransferSystem`: each accepted session is atomic (`SessionLinearizes`), which is what the system's single steps rest on, but no lemma rewrites a whole run of sessions as a run of system steps.
- SagaRun.SagaRunner.Run: describes a run that keeps its lease and whose ledger calls answer as its script says; losing the lease, crashes and lost answers are in `Saga` and `TransferSystem`.
- CircuitBreaker.LedgerHttpClient.Request: requests do not overlap, so no other request changes the counters while one awaits its fetch.
- OutboxRelay.OutboxService.PublishBatch: no other step happens between its turns; `BatchUndisturbed` says what other steps leave alone there, and `EventDelivery` interleaves everything.
- TransferCreation.TransfersService.CreateCanonical: of the stored columns only the request, the key and the quoted amount; the displayed rate and the quote's times are not modelled.
- The retry loop of `executeMoneyCommand` and that of `executeHoldCommand` are one method, `ExecuteSingle`, since they differ only in the decision.
