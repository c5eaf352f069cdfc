# Verified model of the multi-currency payment backend

A Dafny model of the money-moving core of a payment backend (Go services over PostgreSQL and Redis), with proofs
about every run of it: transfers, four-leg currency exchanges, deposit webhooks, the asynchronous payout protocol with
its workers and operators, reconciliation, the two-layer idempotency protocol, ordered locking and the FX arithmetic.
`dafny verify dfyconfig.toml` checks all of it.

## How the model is built

- **Tables and statements.** `Tables.dfy` has one datatype per table row and one function per SQL statement, with
  CHECK, UNIQUE and foreign-key constraints as guards. `Queries.dfy` has the same statements as methods on mutable
  tables, any of which may fail, and the commit-or-rollback scope. `TransactionState.dfy` has the status machine.
- **Transaction bodies.** `Ledger.dfy` and `Payouts.dfy` give the value of each `RunInTx` body; `Acceptance.dfy` says when
  each is accepted and with which error it is refused, in terms of the tables alone. `TransferService.dfy`,
  `WebhookService.dfy`, `PayoutService.dfy` and `PayoutWorker.dfy` are the services statement by statement, each proved
  to commit exactly that value or to leave no trace, to take its locks in the order `Deadlock.dfy` supposes, and to fail
  only on a rule or a fault that happened.
- **Runs.** `Runs.dfy` is a labelled transition system. An event is one committed transaction, one separately committed
  write, one gateway answer or one process giving up; all nondeterminism (lost writes, crashes, gateway answers,
  arrivals) is in the label, so a run is a list of events and a property of all runs is a property of all lists. Any
  account may play any role: a payout from a system account, a deposit to one, an exchange by the liquidity account.
- **Steps.** `Next(s, e, s')` says that event `e` takes state `s` to `s'`; `NextAll` and `Leads` say it of whole runs.
  They keep the transition function folded. `Steps.dfy` unfolds it once for each kind of event: what the event changes,
  what it leaves alone, where it may happen. `WorkerSteps.dfy` is the converse: which steps a state allows.
- **Descriptions.** `Deltas.dfy` and `Schema.dfy` describe every event by what it adds to each table, once; the
  invariants in `Books.dfy`, `Effects.dfy`, `AuditTrail.dfy`, `PayoutProtocol.dfy` and `Solvency.dfy` are proved from
  the descriptions.
- **Programs inside runs.** `PayoutWorker.dfy` and `IdempotencyStore.dfy`/`Middleware.dfy` are imperative programs whose
  object also carries the history of the transition system. Between any two of their own statements any other process
  may take any steps (`Others`), so what is proved of runs applies at each of their program points. The choices of the
  environment are inputs where an answer depends on them: what the gateway says, when a pass is cancelled, which rows a
  SELECT cannot see, how often a request can poll. `Deposits.dfy` is the webhook as a run.

The hypotheses have names. A result about one payout or one account asks them of that one only, and each is proved to
be exactly what its invariant needs, step by step.

- `SingleHolder.SingleOn`: stale recovery takes this payout only when nobody is working on it ("single holder").
  `SingleHolder.HeldStepIff`: exactly what keeps the claims on the payout in order. Final statuses, exactly-once
  settlement (`Settlement.OnceStepIff`), "never sent again" and what a worker reports rest on it alone.
- `Settlement.KeepsAgreement`: and this payout's fallback loses neither its read nor its transaction write nor its payout
  write. `Settlement.AgreeStepIff`: exactly what keeps the payout's status in agreement with its transaction's.
- `Sending.KeepsSend`: single holder, and nobody lets go of this payout after the gateway has taken it.
  `Sending.SentStepIff`: exactly what keeps "sent at most once".
- `PayoutProtocol.TameOn`: single holder for the payouts of this account, and their fallbacks run to their end (the audit
  row may be lost). `PayoutProtocol.AccountStepIff`: exactly what keeps the account's lock equal to what its payouts hold.
  `Tame` asks it of every account (`PayoutProtocol.ProtocolStepIff`).

Everything in `Books`, `Effects`, `AuditTrail`, `Reconciliation`, `Solvency`, `Idempotency`, `Deadlock` and `Evolution`
needs none of them.
The gateway may take a payout without the worker hearing of it (`GatewayTakes`); `sent` counts such sends too.

## What the code does not do

These are results about the code as it is, each with the exact condition under which it behaves.

- **Locks can lose their backing.** Transfers and exchanges test the balance, not the balance less the locked funds
  (`Witnesses.UnbackedLock`). A committed transfer or exchange keeps its sender backed if and only if the amount is within
  the available funds (`Solvency.TransferBackedIff`, `Solvency.ExchangeBackedIff`), and no other step can unback a user
  account, double settlements, lost writes and crashes included (`Solvency.BackedStepIff`).
- **A payout can settle twice without the single holder.** `README.md:193` of the repository promises no double
  processing; a slow worker and a recovered claim settle the same payout twice (`Witnesses.DoubleSettlement`). A second
  settlement commits if and only if other payouts keep enough funds locked (`Witnesses.StaleSettleIff`). Recovering the
  payout while it is held is the only step that lets this happen (`Settlement.OnceStepIff`).
- **A payout can be sent twice.** If the settlement aborts and the review mark is lost, stale recovery hands the payout out
  again (`Witnesses.LostMarkResends`). From any protocol state a tame run sends a payout again if and only if it is neither
  parked (COMPLETED, FAILED, MANUAL_REVIEW) nor already released by a fallback (`Sending.CanResendIff`).
- **A gateway timeout is requeued or failed, not parked.** `docs/failure-drills.md:8-18` expects MANUAL_REVIEW, no duplicate
  send and no unlocked funds. The code requeues a cancelled or timed-out call (`internal/service/payout.go:253-260`;
  `PayoutWorker.Worker.ProcessOne`: the pass stops if and only if the call was interrupted, and the payout is then PENDING,
  or PROCESSING on a lost write) and fails any other error. If the gateway had taken the payout, the first is sent again
  (`Sending.TimeoutRequeues`, every state) and the second has its funds released with no operator asked
  (`Sending.TakenIsFailed`, every state). The drill's first criterion holds exactly along `KeepsSend` steps
  (`Sending.SentStepIff`), its second exactly along `Truthful` ones (`Sending.CarriedStepIff`, `Sending.OperatorsFailSent`).
- **A fallback that loses a write leaves the protocol** (`PayoutProtocol.AccountStepIff` for each write). A lost read leaks the
  lock (`FallbackRefinement.LostReadLeaks`); a lost last write leaves a PROCESSING payout with a FAILED transaction
  (`Recovery.LostCloseJams`), from every state.
- **One such payout blocks stale recovery for good.** It never changes again in any run (`Recovery.JammedForever`) and every
  recovery that selects it fails as a whole (`Recovery.JammedBlocks`), so the pass ends before claiming anything. A recovery
  commits if and only if every selected payout's transaction can go back to PENDING (`Recovery.RecoveryIff`), which
  holds for all payouts nobody holds whose status agrees with their transaction's (`Recovery.RecoveryCommits`).
- **A reused reference is answered with whatever is stored under it.** A success is about the request if and only if the
  reference is not taken otherwise (`TransferService.Transfer`, `TransferService.TransferExchange`,
  `PayoutService.RequestPayout`).
- **The audit trail can break without any fallback.** The review note is written after the review is visible; if an
  operator resolves the review first, the note reads PROCESSING to PROCESSING behind a final row
  (`Witnesses.LateReviewNote`). A step keeps all trails if and only if it satisfies `AuditTrail.KeepsTrail`.
- **Deposits and settlements can deadlock.** They lock the user's row and then the system's, whatever the ids, and a deposit
  inserts its reference in between; transfers and exchanges sort their accounts and insert the reference last.
  `Deadlock.DeadlockIff` gives the exact condition. Ids alone do not decide it: a deposit and a transfer with one reference
  (`Deadlock.ReferenceDeadlocks`), or two deposits with one reference and a transfer (`Deadlock.TriangleDeadlocks`), can
  close a chain while every user id is below its own system id.
- **A round trip can gain.** Dollars to pounds and back, or the reverse, returns more than was put in for some amounts
  from 71 428 571 428 571 429 micros on (`Money.RoundTripCanGain`); `Money.RoundTripGainsIff` says for which.
- **Reconciliation sees only the plain sum.** Errors in two currencies that cancel as numbers raise no alarm
  (`Reconciliation.OffsettingGoesUnnoticed`); an alarm is raised if and only if the sum of all entries is off
  (`Reconciliation.Run`).
- **A replay can carry another status than the first response.** The recorder keeps the last header written, the client
  gets the first (`Recorder.RecordedAsSentIff` says, for every handler, when they agree).
- **A lost finalizing write blocks its idempotency key for good** (`Idempotency.OrphanBlocks`): safe, but never answered.

## Model

| member | source | states |
|---|---|---|
| `PayoutProtocol.ProtocolHolds` | internal/service/payout.go:134-829 | in every tame run, with any number of workers, requests and operators: locked funds equal the sum of open payouts less what a running fallback released, every payout has at most one live holder, its status is coupled to its transaction's, and its entries exist exactly when it is COMPLETED |
| `PayoutProtocol.ProtocolStep` | internal/service/payout.go:134-829 | each of the 22 kinds of event, if tame, keeps the protocol invariant on every payout |
| `PayoutProtocol.ProtocolStepIff` | internal/service/payout.go:512-559 | a step keeps the whole invariant if and only if it is tame: recovery of a held payout, a lost fallback read, release, transaction or payout write, and giving up after the release each break it, from every state |
| `PayoutProtocol.AccountStepIff` | internal/service/payout.go:512-559 | a step keeps one account's lock and payouts in order if and only if it is tame or about something else; nothing is asked of other accounts |
| `PayoutProtocol.AccountHolds` | internal/service/payout.go:134-829 | in every run that is tame on the payouts of one account, that account's lock and payouts are as the protocol promises |
| `PayoutTheorems.LockedIsOpenSum` | internal/service/payout.go:134-205 | in every run that is tame on one account's payouts, whatever happens to others: with no fallback of the account half way, its locked_micros is exactly the sum of its PENDING, PROCESSING and MANUAL_REVIEW payouts |
| `Settlement.SettledExactlyOnce` | internal/service/payout.go:381-456 | in every run in which this payout is recovered only unheld, with lost writes, crashes and other payouts as they may be: when COMPLETED its transaction has exactly one user debit and one liquidity credit of its amount, otherwise none, whoever settled it |
| `Settlement.OnceStepIff` | internal/service/payout.go:278-316 | a step keeps a payout's claims in order and its entries right if and only if it does not recover the payout while it is held |
| `Settlement.StatusesAgree` | internal/service/payout.go:381-601 | in every run of agreeable steps on this payout its transaction has its status, a review pairing with PROCESSING, except that a fallback fails the transaction first |
| `Settlement.AgreeStepIff` | internal/service/payout.go:512-559 | a step keeps that agreement if and only if it does not recover the payout while held, lose its fallback's read, transaction write or payout write, or give it up between the last two |
| `PayoutTheorems.FinalisationCommits` | internal/service/payout.go:381-509 | from every state in which the account's lock and payouts are in order, no business rule or CHECK refuses a settlement, a failure or a requeue by a live holder |
| `PayoutTheorems.ResolutionCommits` | internal/service/payout.go:672-829 | from every such state both resolutions of a review commit and the guarded release affects exactly one row |
| `SingleHolder.FinalStays` | internal/service/payout.go:680-709 | while the claims on a payout are in order, no event changes it once COMPLETED or FAILED, and it leaves MANUAL_REVIEW only by a resolution |
| `SingleHolder.HeldStepIff` | internal/service/payout.go:278-316 | a step keeps the claims on one payout in order (at most one live claim, on a PROCESSING row) if and only if it does not recover that payout while it is held; nothing is assumed of fallbacks or other payouts |
| `SingleHolder.NeverSentAgain` | internal/service/payout.go:381-456 | once the settlement or the review mark is written, no run in which this payout is recovered only unheld ever sends it again |
| `Sending.SentAtMostOnce` | internal/service/payout.go:220-276 | in every run in which this payout is recovered only unheld and nobody lets go of it after its send, the gateway takes it at most once, acknowledged or not, whatever happens to other payouts |
| `Sending.SentStepIff` | internal/service/payout.go:220-341 | a step keeps "this payout is sent at most once, then parked or still worked on" if and only if it neither recovers it while held, nor gives it up, requeues it or loses the last write of its fallback after the send |
| `Sending.CanResendIff` | internal/service/payout.go:278-376 | from every protocol state some tame run sends a payout again if and only if it is not parked and no fallback has released its funds |
| `Sending.TimeoutRequeues` | internal/service/payout.go:253-260 | from every protocol state, a call cut off after the gateway took the payout leaves it PENDING and sendable again |
| `Sending.TakenIsFailed` | internal/service/payout.go:261-262 | from every protocol state, an error after the gateway took the payout ends FAILED with the funds released |
| `Sending.CarriedStepIff` | internal/service/payout.go:253-262 | a step also keeps every live claim on the sent payout carrying its send if and only if no worker hears a refusal of it either |
| `Sending.OperatorsFailSent` | internal/service/payout.go:795-829 | along such steps on this payout only an operator's refund fails it once the gateway has taken it |
| `FallbackRefinement.FallbackRefinesFailure` | internal/service/payout.go:459-559 | from every state in which the account's lock and payouts are in order, the separately committed fallback, with all writes succeeding, ends in the same accounts, payouts, transactions, entries and claims as the atomic failure |
| `FallbackRefinement.LostReadLeaks` | internal/service/payout.go:512-559 | from every such state, a fallback whose read is lost leaves a FAILED payout with a PROCESSING transaction and its amount locked for no open payout |
| `PayoutWorker.Worker.ProcessPayouts` | internal/service/payout.go:220-276 | for every world (which rows the two SELECTs cannot see, what the gateway answers about each payout, before which turns the pass is cancelled) and with other processes running in between: at every exit nothing is held; the report names exactly the payouts taken and none the pass could not see, says of each what the gateway said, and skips one exactly when the pass had been cancelled by then or an earlier call interrupted; unless a full batch was claimed there was a moment at which every PENDING payout was one it could not see, and unless a full batch was recovered, every PROCESSING one; each payout was left in the reported status at some point of the pass; an accepted payout is COMPLETED, in review or PROCESSING, never requeued or failed, and without a fault never PROCESSING; finished outcomes still stand at exit; and when the whole history has been tame, whatever is PENDING can be claimed, whatever is PROCESSING and unheld can be recovered, with no lost write each status is the one due, and a pass stopped by a rule met a payout that blocks recovery |
| `PayoutWorker.Worker.ProcessClaimed` | internal/service/payout.go:234-275 | cancellation at any index, interrupted sends and lost writes, reported payout by payout as the gateway and the cancellation decide; it succeeds if and only if every payout had its turn uninterrupted; with no lost write the rest is PENDING after a cancellation and PROCESSING after an interrupted call |
| `PayoutWorker.Worker.ProcessOne` | internal/service/payout.go:242-272 | one turn: the payout is unread only after a fault, and otherwise reported with the gateway's answer; accepted is settled, parked or stuck; declined or unreadable is failed or stuck; nothing is stuck without a fault; the pass stops if and only if the call was interrupted, and that payout is PENDING, or PROCESSING on a lost write, never in review |
| `PayoutWorker.Worker.Leave` | internal/service/payout.go:235-260 | everything not yet processed is requeued in one transaction on cancellation and abandoned after an interrupted call; none of it was sent by this pass |
| `PayoutWorker.Worker.RecoverStale` | internal/service/payout.go:278-316 | up to the batch size of PROCESSING rows go back to PENDING without a gateway reference in one transaction, or none does; a batch below the limit leaves no PROCESSING row but those it could not see; without a database fault it fails only on a payout whose transaction cannot go back, which in a calm history a worker is closing |
| `PayoutWorker.Worker.RequeueClaimed` | internal/service/payout.go:318-341 | listed claims all return to PENDING, or all stay PROCESSING; in a calm history only a database fault prevents it |
| `PayoutWorker.Worker.ClaimPending` | internal/service/payout.go:343-376 | up to the batch size of PENDING payouts become this worker's claims, each taken once; a batch below the limit leaves no PENDING row but those it could not see; in a calm history only a database fault prevents it |
| `PayoutWorker.Worker.HandlePayoutSuccess` | internal/service/payout.go:381-456 | an accepted payout ends COMPLETED, in MANUAL_REVIEW, or PROCESSING; when no write is lost never PROCESSING, and what the worker did about the payout is exactly the settlement, or its abort, the mark and the note, in that order; then also COMPLETED when the whole history has been tame |
| `PayoutWorker.Worker.MarkManualReview` | internal/service/payout.go:561-601 | the mark and the note are separate writes; a lost mark leaves the row PROCESSING, a lost note loses nothing else; when no write is lost the payout is in review, marked and then noted |
| `PayoutWorker.Worker.HandlePayoutFailure` | internal/service/payout.go:459-509 | a refused payout ends FAILED or PROCESSING, whatever happens to other payouts; when no write is lost it ends FAILED, and the worker did exactly the failure transaction, or its abort and the five fallback writes; if besides nobody else moved meanwhile, either way the whole state is the one the atomic failure leads to, up to the wording of the audit rows |
| `PayoutWorker.Worker.UpdatePayoutFailed` | internal/service/payout.go:512-559 | five separately committed steps with other processes in between, any of which may be lost and skipped; no more writes are recorded as lost than faults occurred, and without a fault the worker takes exactly the five successful steps in order; the last event is the payout's own write, and the row ends FAILED if that write succeeds and PROCESSING if it is lost |
| `Guidance.FailsAsOne` | internal/service/payout.go:459-559 | in any history, a refused payout failed while nobody else moves, by its transaction or by the aborted transaction and five fallback writes, ends in the state of the atomic failure up to the audit wording |
| `Batches.ClaimRun` | internal/service/payout.go:343-376 | one claiming transaction over a list is a run of one claim per payout, always tame, that adds exactly the listed claims |
| `Batches.RequeueRun` | internal/service/payout.go:318-341 | one requeuing transaction is a run of one requeue per payout that drops exactly the listed claims |
| `Batches.RecoverRun` | internal/service/payout.go:278-316 | one recovering transaction is a run of one recovery per payout, and is tame if and only if nobody holds any of them |
| `Batches.ReadyMoves` | internal/service/payout.go:290-369 | a list of distinct payouts of one status moves as a whole whenever the transition is allowed |
| `Batches.AllMoved` | internal/service/payout.go:283-305 | a transaction that moves every row its SELECT can see leaves no row of that status but those it cannot see |
| `PayoutService.MoveRows` | internal/service/payout.go:290-305 | the loop inside the claiming, requeuing and recovering transactions computes the left-to-right fold over the selected rows |
| `PayoutService.SettleTx` | internal/service/payout.go:382-447 | commits the settlement's value or leaves no trace |
| `PayoutService.FailTx` | internal/service/payout.go:460-500 | commits the failure's value or leaves no trace |
| `PayoutService.ResolveManualReview` | internal/service/payout.go:672-829 | commits the confirmation or refund of a payout that is in MANUAL_REVIEW, or leaves no trace and reports why; a confirmation stores the operator's gateway reference when one is given and keeps the stored one otherwise, a refund keeps it; without a fault an unknown payout is reported missing and any other status refused |
| `PayoutService.RequestPayout` | internal/service/payout.go:100-211 | with others stepping between the reference check, the payout read and the transaction: reports the payout stored under the reference, or commits funds lock, transaction, audit row and payout together; without a fault a payout stored under the reference is always reported, and a request the tables admit is always committed; it is about this request if and only if no other payout has the reference; an error changes nothing and is a real fault or the request's own |
| `PayoutService.RequestBody` | internal/service/payout.go:134-205 | runs exactly the request; the locks it holds are at every exit a prefix of the account and then the reference, and both when it succeeds |
| `PayoutService.SettleBody` | internal/service/payout.go:382-447 | runs exactly the settlement; from no locks it takes the user's account and then the system's, and holds both when it succeeds |
| `Acceptance.RequestIff` | internal/service/payout.go:100-205 | a request is accepted if and only if the amount is positive and within the available funds, the reference non-empty and unused, ids fresh, and the account in the supported currency asked for |
| `Acceptance.RequestRefused` | internal/service/payout.go:100-205 | each refused request fails with the error of the first check it misses |
| `Acceptance.SettleIff` | internal/service/payout.go:382-447 | a settlement is accepted if and only if the lock covers the amount, the liquidity account exists and the transaction is PROCESSING or already COMPLETED |
| `Acceptance.FailIff` | internal/service/payout.go:460-500 | a failure is accepted if and only if the lock covers the amount and the payout's transaction may become FAILED |
| `Acceptance.ReviewIff` | internal/service/payout.go:672-829 | an operator resolves exactly what is in review: an unknown payout and any other status are refused, and each resolution is accepted exactly when its funds and transaction allow it |
| `Acceptance.ResolvedRow` | internal/service/payout.go:776-829 | a confirmed row carries the replacement reference when one is given and the stored one otherwise; a refunded row keeps it; nothing but the status changes besides |
| `Acceptance.MoveIff` | internal/service/payout.go:290-369 | a claim, requeue or recovery of a row is accepted if and only if payout and transaction exist and the transaction is there already or may go there; otherwise the error says which |
| `Histories.RestsOn` | internal/service/payout.go:672-715 | an outcome a worker left behind is still true after any later steps of anybody, unless a recovery finds this payout held |
| `Guidance.ClaimedRow` | internal/service/payout.go:343-376 | a claim is always on a row of its own transaction, and a live claim is on a PROCESSING row unless a recovery has found the payout held |
| `Recovery.RecoveryIff` | internal/service/payout.go:290-305 | a recovering transaction commits if and only if every selected payout's transaction can go back to PENDING, and otherwise fails as an invalid transition |
| `Recovery.RecoveryCommits` | internal/service/payout.go:278-316 | the recovery of any list of unheld PROCESSING payouts, each in agreement with its transaction, commits |
| `Recovery.JammedForever` | internal/service/transaction_state.go:57-59 | a PROCESSING payout nobody holds whose transaction is FAILED stays so in every run at all |
| `Recovery.JammedBlocks` | internal/service/payout.go:220-223 | in every later state each recovery that selects such a payout fails as a whole |
| `Recovery.LostCloseJams` | internal/service/payout.go:544-556 | from every state in which the account's lock and payouts are in order, a fallback that loses only its last write leaves such a payout |
| `Witnesses.LostMarkResends` | internal/service/payout.go:561-576 | for every amount, a tame run in which the settlement aborts, no review mark is ever written and the payout is sent twice |
| `Witnesses.StaleSettleIff` | internal/service/transaction_state.go:54-56 | a second settlement of a settled payout commits if and only if that much is still locked on the account |
| `Witnesses.DoubleSettlement` | db/queries/account.sql:43-46 | for every amount, a run without single holder that debits the user twice for one payout |
| `Witnesses.LateReviewNote` | internal/service/payout.go:582-600 | for every amount, a run with no lost send and no fallback whose audit trail no longer replays |
| `Witnesses.UnbackedLock` | internal/service/transfer.go:107-109 | for every amount, a tame run that leaves the amount locked on an empty account |
| `Books.BooksHold` | internal/service/transfer.go:129-171 | in every run at all, each balance is its opening balance plus credits minus debits, system and user accounts alike, and every transaction nets to zero in every currency |
| `Books.BooksStep` | internal/service/payout.go:383-430 | each event keeps both, including when user and system account coincide |
| `Books.LogsOnlyGrow` | db/migrations/000012_add_integrity_constraints_and_immutability.up.sql:101-119 | no event changes or removes an entry or an audit row |
| `Entries.ExchangeBalanced` | internal/service/transfer.go:341-424 | the four legs of an exchange cancel within each currency |
| `Effects.OneEffectPerReference` | internal/service/webhook.go:94-114 | in every run each reference has at most one row, and a transfer, exchange or deposit has exactly its own legs once, or none for a FAILED deposit |
| `Effects.EffectsStep` | internal/service/transfer.go:65-185 | each event keeps that, including retried deposits and races on one reference |
| `Effects.SecondRetryAborts` | internal/service/webhook.go:129-238 | of two webhooks that both decided to retry one FAILED deposit, the second commit is refused |
| `AuditTrail.TrailStepIff` | internal/service/transaction_state.go:48-77 | a step keeps every audit trail an unbroken chain to the current status if and only if it satisfies KeepsTrail |
| `AuditTrail.TrailsHold` | internal/service/transaction_state.go:12-77 | in every run of such steps each transaction's rows lead unbroken from creation to its current status by allowed transitions |
| `AuditTrail.ReviewNoteIff` | internal/service/payout.go:582-600 | the review note fits the trail if and only if the transaction is still PROCESSING |
| `TransactionState.ChainUnique` | internal/service/transaction_state.go:48-77 | a trail determines the status it ends in |
| `Solvency.StaysBacked` | internal/service/payout.go:136-164 | a user account with a non-negative opening balance keeps 0 <= locked <= balance in every run that moves no more than the available funds out of it; nothing is asked of workers and operators |
| `Solvency.BackedStepIff` | internal/service/transfer.go:107-109 | a step keeps a user account backed if and only if it opens it with a non-negative balance and transfers or exchanges no more than its available funds out of it |
| `Solvency.TransferBackedIff` | internal/service/transfer.go:107-109 | a committed transfer keeps its sender backed if and only if the amount is available |
| `Solvency.ExchangeBackedIff` | internal/service/transfer.go:286-288 | the same for an exchange |
| `Solvency.AvailablePayoutStep` | db/queries/account.sql:28-46 | no step of the payout protocol takes from a user's available funds or unlocks more than is locked |
| `Reconciliation.NoAlarm` | internal/service/reconciliation.go:22-47 | in every reachable state the ledger net and every currency net are zero |
| `Reconciliation.NetsAddUp` | db/queries/reconciliation.sql:1-30 | for arbitrary entries on existing accounts the currency groups' nets sum to the ledger net |
| `Reconciliation.OffSomewhere` | db/queries/reconciliation.sql:11-30 | a nonzero ledger net always yields a nonempty currency list |
| `Reconciliation.OffsettingGoesUnnoticed` | internal/service/reconciliation.go:29-45 | equal and opposite errors in two currencies leave the ledger net zero |
| `Reconciliation.Run` | internal/service/reconciliation.go:22-47 | alarms if and only if the net is nonzero, first for the whole ledger and then once for each currency that is off; a failed second query loses only the details |
| `Reconciliation.GetLedgerNet` | db/queries/reconciliation.sql:1-9 | the loop computes the signed sum of all entries |
| `Reconciliation.GetCurrencyImbalances` | db/queries/reconciliation.sql:11-30 | lists each currency with a nonzero net exactly once |
| `Idempotency.HandlerRunsOnce` | internal/api/middleware/idempotency.go:48-115 | for any interleaving of requests, faults, crashes and cache losses the wrapped handler starts at most once per key |
| `Idempotency.ReplayIsTheRun` | internal/api/middleware/idempotency.go:48-92 | every replay carries the response recorded for the one run of its key, and that run was for the same request hash |
| `Idempotency.CacheRefines` | internal/idempotency/store.go:52-101 | in every reachable state a lookup through Redis answers as the table alone would, up to the layer named |
| `Idempotency.FoundForever` | internal/idempotency/store.go:120-146 | a record once found is found unchanged by every later lookup in every run |
| `Idempotency.OrphanBlocks` | internal/idempotency/store.go:103-146 | a reserved key whose holder vanished or lost its finalizing write is never run again and never replayed |
| `Idempotency.StepKeeps` | internal/idempotency/store.go:52-187 | each step keeps the invariant; keys stay reserved under their hash, finalized rows and responses never change, runs only accumulate |
| `IdempotencyStore.IdemStore.Lookup` | internal/idempotency/store.go:52-101 | cache read, table read and cache fill, interleaved with others; it fails only by a fault, and every answer it gives, record, mismatch, running or missing, is the table's answer on return; without a fault a record found is in the cache on return |
| `IdempotencyStore.IdemStore.ReadCacheEntry` | internal/idempotency/store.go:53-75 | a hash mismatch found in the cache is a mismatch in the table; without a fault only an absent entry goes on to the table |
| `IdempotencyStore.IdemStore.ReadTableRow` | internal/idempotency/store.go:77-98 | each of the four table answers, or a failed read, takes the request to its own next step; the answer is the table's, and only a fault withholds it |
| `IdempotencyStore.IdemStore.Reserve` | internal/idempotency/store.go:103-118 | true only for the request that inserted the key; false only if the key is there; an error only after a real failure |
| `IdempotencyStore.IdemStore.Finalize` | internal/idempotency/store.go:120-146 | fails only if the write failed; when it succeeds, the table holds this response for key and hash on return, whatever others did, and without a fault so does the cache |
| `IdempotencyStore.IdemStore.WaitForCompletion` | internal/idempotency/store.go:148-166 | polls until a record, a failure or the end of the request's time; a record it returns is the table's and makes the request a replay; without a fault it gives up only on a row that is not finalized under this hash, and on a running one only after all the polls the deadline allows |
| `IdempotencyStore.IdemStore.Cache` | internal/idempotency/store.go:168-187 | what is put in the cache is what the table holds for the key, and only a fault keeps it out |
| `Middleware.Handle` | internal/api/middleware/idempotency.go:28-118 | bypass exactly for non-mutating methods, missing-key answer exactly without a key, invalid-body answer exactly for an unreadable body; every other reply is the outcome in which the request ended in the protocol; without a fault a record on file for this hash is replayed with its response, a key taken for another hash refused, a fresh response is on file, and a request is told to come back only if the key's row is another request's or still running after all its polls; a replay carries the response of the key's one run for the same hash; this request runs the handler if and only if its reply is fresh |
| `Middleware.HandleKeyed` | internal/api/middleware/idempotency.go:48-92 | the same for a request with a key: first lookup, conflict, wait and reserve paths |
| `Middleware.ReserveAndRun` | internal/api/middleware/idempotency.go:74-115 | only the request that reserved the key runs the handler; without a fault its response is on file and it is never told that the store is unavailable |
| `Middleware.Await` | internal/api/middleware/idempotency.go:60-72 | a record found is the record replayed; without a fault a finalized row under this hash is always replayed, and the wait ends otherwise only on another hash or after all polls |
| `Middleware.RunHandler` | internal/api/middleware/idempotency.go:94-105 | the recorded response has the last header written, every byte in order, and status 200 and content type application/json by default |
| `Middleware.AnswersLast` | db/queries/idempotency.sql:12-20 | what a key's run answered never changes afterwards |
| `Recorder.BodyRecorder.Serve` | internal/api/middleware/idempotency.go:125-142 | for any sequence of writer calls the recorded body is the body sent, and both statuses are the folds over the calls |
| `Recorder.RecordedAsSentIff` | internal/api/middleware/idempotency.go:131-142 | for every sequence of calls, recorded and sent status agree if and only if there is no header call or the last one repeats the call that fixed the status sent |
| `Recorder.InformationalDiffers` | internal/api/middleware/idempotency.go:131-134 | a handler that writes only informational headers is recorded below 200 and sent as 200 |
| `Recorder.NoHeaderAgrees` | internal/api/middleware/idempotency.go:136-142 | a handler that never writes a header is recorded and sent as 200 |
| `Recorder.LateHeaderDiffers` | internal/api/middleware/idempotency.go:131-134 | a header other than 200 after the first byte is recorded but not sent |
| `LockOrder.DedupeUuids` | internal/service/transfer.go:496-507 | the loop returns the same set of ids without repetition |
| `LockOrder.SortUuids` | internal/service/transfer.go:486-494 | the in-place swap sort leaves a non-decreasing permutation |
| `LockOrder.LockList` | internal/service/transfer.go:255-256 | dedupe then sort yields a strictly ascending list with the same set of ids, for any input |
| `LockOrder.LockPair` | internal/service/transfer.go:76-89 | a transfer's two locks in ascending order |
| `LockOrder.AscendingUnique` | internal/service/transfer.go:255-256 | the lock list is determined by the set of accounts alone |
| `Deadlock.DeadlockIff` | internal/service/webhook.go:129-205 | beside transfers over all accounts, any list of deposits and settlements, each run any number of times, can reach a closed chain of waits if and only if it is not orderly: some settlement has its user's id above its system's, or some deposit that is not into its own system account shares its reference with a transfer, or with a deposit whose user is not below that system account |
| `Deadlock.UserBelowSystemIff` | internal/service/payout.go:381-430 | when every reference belongs to one deposit or to transfers alone, a chain of waits can close if and only if some deposit or settlement has its user's id above its system's |
| `Deadlock.NoWaitCycle` | internal/service/transfer.go:255-300 | in every reachable state of any number of transfers, exchanges and payout requests, alone or beside orderly deposits and settlements, no chain of waits closes |
| `Deadlock.SomeoneCanStep` | internal/service/transfer.go:76-121 | under the same load, whenever a process is unfinished, some unfinished one can step |
| `Deadlock.ReachableIff` | internal/service/transfer.go:76-121 | under any load the reachable lock tables are exactly those in which no lock, account or reference, has two holders |
| `TransferService.Transfer` | internal/service/transfer.go:52-195 | with others stepping before the transaction and before the duplicate lookup: success describes a row under the reference, and is about this request if and only if the reference is not taken otherwise; the tables change by exactly the ledger's transfer or not at all; a taken reference changes nothing and without a fault is always answered with the stored row; a transfer the tables admit is always committed without a fault; every error is a real fault or the ledger's own |
| `Evolution.RunEvolves` | db/queries/transfer.sql:1-50 | what the services rely on in between holds of every run: transactions and payouts are never removed, nothing but a transaction's status changes, and a payout keeps its transaction |
| `TransferService.TransferExchange` | internal/service/transfer.go:210-449 | the same for an exchange that credits the floor of amount times the service's rate; a business error is the ledger's own |
| `TransferService.TransferTx` | internal/service/transfer.go:75-175 | commits the transfer's value or leaves no trace |
| `TransferService.ExchangeTx` | internal/service/transfer.go:254-428 | commits the exchange's value or leaves no trace |
| `TransferService.TransferBody` | internal/service/transfer.go:75-175 | runs exactly the ledger's transfer; the locks it holds are at every exit a prefix of the two accounts in ascending order and then the reference, and all of them when it succeeds |
| `TransferService.ExchangeBody` | internal/service/transfer.go:254-428 | runs exactly the ledger's exchange; the locks it holds are at every exit a prefix of the distinct accounts in ascending order and then the reference, and all of them when it succeeds |
| `TransferService.LockAll` | internal/service/transfer.go:257-265 | the loop locks the listed accounts in their order, all of them or those before the first that is missing |
| `Acceptance.TransferIff` | internal/service/transfer.go:52-121 | a transfer is accepted if and only if the amount is positive and at most the sender's balance, the reference non-empty and unused, the id fresh, the accounts distinct, existing and of one supported currency |
| `Acceptance.TransferRefused` | internal/service/transfer.go:52-121 | each refused transfer fails with the error of the first check it misses |
| `Acceptance.ExchangeIff` | internal/service/transfer.go:210-305 | an exchange is accepted if and only if amount and target are positive, the reference non-empty and unused, the id fresh, accounts and currencies differ, both currencies are supported and their liquidity accounts exist, sender and receiver are in their currencies, and the amount is at most the sender's balance |
| `Acceptance.ExchangeRefused` | internal/service/transfer.go:210-305 | each refused exchange fails with the error of the first check it misses |
| `Deltas.TransferChanges` | internal/service/transfer.go:103-175 | a committed transfer adds one COMPLETED row, a debit and a credit, the matching balances and a straight audit trail, and changes nothing else |
| `Deltas.PostExchangeChanges` | internal/service/transfer.go:302-428 | a committed exchange adds one COMPLETED row and four legs, moves four balances by them, also where accounts coincide, and changes nothing else |
| `Deltas.DepositChanges` | internal/service/webhook.go:129-211 | a committed deposit books its two legs on a fresh row or on the FAILED row it retries, and changes nothing else |
| `Deltas.RequestChanges` | internal/service/payout.go:134-205 | a committed request locks the amount and adds a PENDING transaction and payout, and changes nothing else |
| `Deltas.SettleChanges` | internal/service/payout.go:382-447 | a committed settlement unlocks and debits the user, credits the liquidity account, posts both legs and closes both rows, also where the accounts coincide |
| `Deltas.FailChanges` | internal/service/payout.go:460-500 | a committed failure unlocks the amount and closes both rows, and moves no money |
| `Deltas.RefundChanges` | internal/service/payout.go:795-829 | a committed refund unlocks the amount if that much is locked and closes both rows |
| `WebhookService.HandleDeposit` | internal/service/webhook.go:62-244 | with others stepping before the transaction and after its abort: success always reports a COMPLETED deposit of this payload under this reference; the tables change by exactly that deposit or not at all; without a fault what happens is decided by the row found: replayed, retried or refused as the payload and status say, and a deposit the tables admit is always committed; every error is a real fault, the payload's, the stored row's or the deposit transaction's own |
| `WebhookService.ResolveDuplicate` | internal/service/webhook.go:212-230 | after a lost race a replay is answered only from a matching COMPLETED deposit, and without a fault always then; a row that is gone or could be retried is in progress, any other is refused as it stands |
| `WebhookService.DepositTx` | internal/service/webhook.go:129-211 | commits the deposit's value or leaves no trace |
| `WebhookService.DepositBody` | internal/service/webhook.go:129-211 | runs exactly the ledger's deposit; the locks it holds are at every exit a prefix of the user's account, the reference of a new row and the system's account, in that order, and all of them when it succeeds |
| `Acceptance.EvaluateIff` | internal/service/webhook.go:273-302 | a row under the reference is replayed if and only if it is this payload's COMPLETED deposit, retried if and only if it is its FAILED one, in progress if and only if PENDING or PROCESSING, and a mismatch exactly when kind, amount, currency or account differ |
| `Acceptance.DepositIff` | internal/service/webhook.go:129-205 | a valid deposit is accepted if and only if the account is in its currency, the liquidity account exists, and the reference is unused or the retried row can be opened again |
| `Acceptance.DepositRefused` | internal/service/webhook.go:129-205 | each refused deposit fails with the error of the first check it misses |
| `Deposits.GoesAheadIff` | internal/service/webhook.go:66-113 | a webhook goes on to its transaction if and only if its payload is valid and its reference is unused or belongs to its own FAILED deposit |
| `Deposits.RetryCredits` | internal/service/webhook.go:129-211 | from every well-formed state with a FAILED deposit and its account in the right currency, the redelivered webhook can be booked: check and commit can happen, the row ends COMPLETED and the account has the amount, unless it is the system's own |
| `Store.Queries.EndTx` | internal/repository/store.go:30-45 | commits only if body and commit succeed, and otherwise restores every table |
| `Store.Queries.TransitionState` | internal/service/transaction_state.go:48-77 | already there is success without a row; a forbidden move is refused; otherwise status and audit row change together |
| `Acceptance.Predecessors` | internal/service/transaction_state.go:12-46 | for each status, exactly the statuses a transaction may come from |
| `Store.Queries.SelectPayouts` | db/queries/payout.sql:12-24 | distinct existing rows of the status that are not passed over: all of them, or as many as the limit allows |
| `Store.Queries.UpdatePayoutStatus` | db/queries/payout.sql:26-29 | the single statement succeeds as its table function does, or changes nothing |
| `Store.Queries.ReleaseAccountFundsSafe` | db/queries/account.sql:38-41 | releases only if that much is locked, and never fails for lack of it |
| `Store.Queries.DeductLockedFunds` | db/queries/account.sql:43-46 | lowers lock and balance together, refused when the lock would turn negative |
| `Money.ConvertIsFloor` | internal/domain/money.go:46-52 | Convert is exactly the floor of amount times rate, narrowed to 64 bits |
| `Money.SplitQuote` | internal/domain/money.go:46-52 | for any non-negative rate and any n amounts the parts' conversions fall short of the whole's by at most n - 1 micros and never exceed it |
| `Money.SplitConversion` | internal/domain/money.go:46-52 | the same of the values Convert returns, when the whole fits in 64 bits |
| `Money.ConvertMonotoneIff` | internal/domain/money.go:46-52 | for any non-negative rate and any two amounts, Convert keeps their order if and only if the larger quote is ahead by at least what narrowing takes off it; while the larger quote is below 2^64, if and only if it fits in 64 bits or the smaller one does not either |
| `Money.CrossRates` | internal/service/exchange_rate.go:29-62 | the six cross rates as integers over ten to the sixteenth, rounded half away from zero |
| `Money.ConvertFitsOrIsRejected` | internal/service/exchange_rate.go:29-62 | for every pair and every 64-bit amount the conversion is exact or comes out non-positive, which the exchange refuses; up to 7 * 10^18 micros it is exact |
| `Money.RoundTripTheorem` | internal/domain/money.go:46-52 | for every 64-bit amount whose first conversion fits in 64 bits: there and back never gains on four pairs, nor on the other two below 71 428 571 428 571 429 micros, and loses at most 2 micros up to 28 * 10^15 |
| `Money.RoundTripGainsIff` | internal/domain/money.go:46-52 | for every pair and every 64-bit amount whose first conversion fits in 64 bits, exactly when a round trip returns more than was put in: the rates' surplus outweighs a micro and the first truncation, and the result still fits |
| `Money.RoundTripCanGain` | internal/service/exchange_rate.go:29-62 | a hundred billion pounds to dollars and back returns one micro more |

## Left out

- HTTP handlers, routing, problem documents, JWT, rate limits, metrics, logging, configuration: no hard property.
- HMAC verification, SHA-256 and JSON: the request hash is an opaque text and the webhook payload arrives parsed; whether a request body can be read is an input.
- Real time: which rows are recent is an input, TTLs and `ORDER BY created_at` are nondeterministic choices, and a request's deadline is a number of polls.
- Ambiguous commits (an error after the commit took effect) and isolation anomalies: a transaction is atomic. Row locks order the statements of one transaction and appear in the deadlock model; they do not block in the service methods.
- BIGINT overflow of sums in the database: the model's integers are unbounded there, and such an overflow would be a database fault.
- Actor ids, metadata other than what the code compares, destinations, the stored `fx_rate` and the rate returned on replay.
- UUID text: ids are the numbers they encode, so the account-id text comparison in deposit metadata is an equality; trimming and upper-casing of webhook fields is left to parsing.
- `UNIQUE(user_id, currency)`, users, statements, paging and partitioning.
- Deadlock.DeadlockIff: every row lock is exclusive, where the entries' foreign keys and balance updates take weaker modes, and the rows of existing transactions and payouts are not locks of the model; PostgreSQL ends a closed chain by aborting one of its transactions.
- WebhookService.HandleDeposit: a freshly drawn transaction id is taken to be unused when the request starts.
- Money.SplitConversion: limited to totals that fit in 64 bits; beyond them Convert wraps, as Money.ConvertMonotoneIff shows, and Money.SplitQuote has no such limit.
- PayoutWorker.Worker.RecoverStale: which rows are too recent to be stale is an input; recovery of a held payout is a step that is not tame.
- PayoutWorker.Worker.HandlePayoutFailure: the equality with the atomic failure asks that nobody else moves between the fallback's writes; with others in between, what is promised is the worker's own steps and the payout's row.
- PayoutWorker.Worker.ProcessPayouts: "the status due" is promised when the whole history is tame, because a settlement may be refused once other payouts' lost fallback writes have upset the account's lock; what is reported needs only that this payout was not recovered while held.
- IdempotencyStore.IdemStore.WaitForCompletion: no liveness; a key whose holder crashed is never answered.
- Content-type sniffing by the HTTP server: a response without a content type is recorded as application/json whatever the client was sent.
- A store that is not configured at all: such requests are passed through like non-mutating ones.
