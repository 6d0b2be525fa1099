# Offline settlement, transfers and their ledger: a verified model

This project models the money-moving core of the payment backend and proves what it keeps over
every run. `dafny verify dfyconfig.toml` checks all of it.

**The stored state** is a `Book`: balances per account, payments, business-event rows, ledger
entries, ceilings and transfers, each table a sequence whose index is the row id (`Domain`,
`Posting`). A `World` adds the outbox, the processed marks, the published envelopes, and what callers have
read ahead of a transaction and not acted on yet: listed expiry candidates and checked claims.

**The steps** are functions on that state: a claim (`Claims`), the drain of a payer's pending
payments against a ceiling (`Finalize`), the wallet's fund, recover, release, drain and refresh, the
demo mint and registration (`Wallet`), accepting, dispatching and processing online transfers
(`Transfers`). `World` strings them into runs, with a crash allowed between any commit and the mark or
acknowledgement that should follow it, and with any other steps between a read ahead of a transaction
and the transaction. A run is any sequence of steps from the migrated database.

**The services** (`Repository`, `SettlementService`, `TransferService`, `Gossip`, `CanonicalWriter`,
`Velocity`, `PinLock`, `TierCache`, `Reconcile`) are classes and loops over mutable tables, each
method proved to do exactly what its step function says.

**What is proved**, in short:

* Two phases: suspense mirrors everything pending, each pending account what is pending to its
  owner; no guarded debit of a pending account can fail (`Netting`, `SettleKeeps`).
* The greedy allocation in closed form, whatever order the rows are listed in (`Allocation`), and
  everything a finalize leaves behind, or that it leaves nothing (`Finalizing`).
* **A ceiling bound the code does not keep.** Under a live ceiling, lien and settled total should be the
  ceiling's amount, and no ceiling should be settled beyond it. `LienHoldsExactlyWhen` says over exactly
  which runs that invariant holds throughout, as an upper bound and exactly; `CeilingBound` follows. Three
  kinds of step break it, each whenever it occurs (`StepKeepsLienIff`), and for each there is a run:
  * a claim accepted under a ceiling that is not its payer's (`AcceptKeepsLienIff`). The ceiling's id is
    checked only against the payer's own token (backend/internal/service/settlement/service.go:291), the
    bank does not sign it (backend/internal/domain/ceiling.go:47-55), and of the stored row only the
    status is read (service.go:479-497), ahead of the accepting transaction. Two claims of 60 settle 120
    under another user's ceiling of 100 (`CeilingOverSettled`), one finalize does so with nothing settled
    before (`MixedOverSettles`), and a claim overtaken by a drain hangs under a revoked ceiling
    (`OvertakenClaimHangs`);
  * an expiry candidate released after it was revoked (`SweepKeepsLienIff`): the candidates are read
    ahead of the release (backend/internal/service/wallet/service.go:477-482), which checks only what is in
    flight, and the status update is unguarded (backend/db/queries/ceilings.sql:25-26). Without any
    claim, the new ceiling's lien ends empty (`LateReleaseEmptiesLien`). The upper bound survives this;
  * a ceiling in use forced to expire by the operator tool (`ForceKeepsLienIff`), whose comment has the next
    sweep refund it (backend/cmd/opsctl/state.go:19-21); the sweep never lists it (`ForcedStrandsLien`).
  `QueueOverSettlesIff` says exactly when a call settles a ceiling beyond its amount, whichever ceilings its
  queue names (`OverSettlesIff` for a queue that names one), and `PayerLienOverRuns` what does hold over
  every run: a payer's lien plus everything settled for that payer is what the payer put aside and did
  not get back.
* **A stuck state.** The loop starts each call from the full ceiling amount, so once something has
  been settled under a ceiling and what is pending no longer fits, the call fails on the lien
  instead of settling short. `AbortsOverRuns` says exactly when a call aborts after any run,
  `AbortsIffWedged` what that means where the lien invariant holds, `StuckForever` that no later step
  of the modelled system ends it, short of an accepted claim that crosses between this payer and
  another ceiling or the other way round or of an operator's forced expiry, `CrossingEndsIt` that such a
  claim can, and `StuckRun` is an orderly run that gets there.
* Which claims and transfers are accepted, exactly, what each refusal means, and that a retried transfer
  request is answered with the first one ever after (`Acceptance`).
* What the calls answer, read off the tables they leave and never off the step function: the results of a
  finalize and of one that fails (`Results`), a batch's results and whom it enqueues (`Batches`), which
  outbox rows a tick attempts (`TransferService`), every wallet step and the mint (`WalletAnswers`),
  routed blobs (`Gossip`), a PIN's answers (`PinLock`), the log diff (`Diffing`) and the batch receipt
  (`Receipts`).
* Settling early or late makes no difference while lien and ceilings cover what is pending; one finalize
  changes no outcome exactly when they do (`Incremental`). Claims converge
  whatever their order, repetition, carrier or submitting party, exactly when they do not conflict,
  and a resubmission never changes anything (`Convergence`).
* Exactly-once money movement over at-least-once delivery to one consumer at a time, conservation, and the
  nightly check's verdict after any run (`ExactlyOnce`, `Reconcile`). Two consumers that overlap on one
  envelope are never harmless: the processed check runs ahead of the transaction
  (backend/internal/service/transfer/processor.go:160-168), which checks nothing again (`OverlapNeverHarmless`).
* The status machine over runs: one finalization at most per payment (`History`).
* The canonical encoder is inverted by a JSON reader, so it is injective, and it does not depend on
  the order in which a map is ranged over (`JsonText`, `Canonical`, `CanonicalWriter`); its bytes are fixed
  from outside: layout, escapes, and which bytes never occur (`PrintedBytes`, `Numbers`).
* A ceiling in quarantine loses no claim that is in time, and one listed for release takes none any more,
  as long as claims present the ceiling's own expiry (`WalletAnswers`).
* Velocity signals are the upward crossings of the full history, PIN guesses are bounded by elapsed
  lock windows and the bound is reached, a stale tier never exceeds the stored one, and the log diff
  is empty exactly when the logs agree.

**Assumed of the environment.** Every stored transaction is atomic and serial, and each consumer handles
one delivery at a time. Claims are checked and accepted in two steps of a run, or in one (`Submit`) when
nothing comes between; the results on claims alone (`Acceptance`, `Convergence`, `Incremental`) take each
claim as one step. Signatures, key
lookups and hashes appear as their verdicts; a PIN digest is only compared. Clocks, ids and what a
publish attempt turns out to be are parameters.

**Comments in the code.** backend/internal/service/settlement/service.go:624-626 takes one ceiling per
pending list for granted; `QueueSharesCeiling` derives it where the lien invariant holds, and
`QueueMixesCeilings` is a run after which it fails. The comment on a redelivered finalize event
(backend/internal/service/settlement/processor.go:195-198) holds as `FinalizeIdempotent`. The comment
above `FinalizeForPayer` (lines 599-601) says partials settle as funds are consumed; that is so within
one call, and not across calls (`AbortsIffWedged`).

## Model

| member | source | states |
|---|---|---|
| Domain.EdgesLowerRank | backend/internal/domain/transaction.go:63-87 | which edges there are, that each lowers a rank, and that the terminal statuses are exactly those of rank zero, with no way out |
| Posting.ApplyEffect | backend/internal/repository/sqlcgen/accounts.sql.go:50-55 | applied balance moves shift each account by its net legs, create no account and shift the total by credits minus debits |
| Posting.ApplyNonneg | backend/internal/repository/sqlcgen/accounts.sql.go:50-55 | guarded moves drive no account but suspense below zero |
| Guards.ApplyPair | backend/internal/repository/sqlcgen/accounts.sql.go:50-55 | a debit and a credit go through exactly when both accounts exist and the guarded source covers the amount |
| Repository.Repo.DebitAccount | backend/internal/repository/pgrepo/repo.go:162-167 | succeeds exactly when the account exists and covers the amount, and changes that balance only |
| Repository.Repo.ForceDebitAccount | backend/internal/repository/pgrepo/repo.go:172-177 | decrements without a guard |
| Repository.Repo.CreditAccount | backend/internal/repository/pgrepo/repo.go:180-185 | increments an existing account |
| Repository.Repo.MoveBalances | backend/internal/service/settlement/service.go:715-736 | the sequence of debits and credits succeeds exactly when every guard on the way holds, with the balances of the leg function |
| Repository.Repo.PostLedger | backend/internal/repository/pgrepo/repo.go:540-569 | inserts one entry per leg, refusing fewer than two legs or an amount that is not positive |
| Repository.Repo.CreatePayment | backend/internal/repository/pgrepo/repo.go:397-429 | inserts exactly when the checks, the foreign keys and both unique keys allow it |
| Repository.Repo.UpdatePaymentStatus | backend/internal/repository/pgrepo/repo.go:481-498 | overwrites status and settlement data of one row and keeps a submission time once set |
| Repository.Repo.FinalizePairedTransactions | backend/internal/repository/pgrepo/repo.go:971-987 | flips every row of the group and no other |
| Repository.Repo.ListPendingForPayer | backend/internal/repository/sqlcgen/payments.sql.go:1433-1437 | lists exactly the payer's pending rows |
| Repository.Repo.Rollback | backend/internal/repository/pgrepo/repo.go:55-75 | an abandoned transaction leaves every table as it was |
| Repository.Repo.SumTodaySenderTransfers | backend/internal/repository/sqlcgen/transfers.sql.go:490-496 | the day's in-flight and settled total of a sender |
| Repository.Repo.MarkEventProcessed | backend/internal/repository/sqlcgen/processed_events.sql.go:24-29 | the first mark of an event stays |
| AcceptKeeps.AcceptNeverShort | backend/internal/service/settlement/service.go:500-592 | in a reachable book an accept goes through exactly when the row is insertable: no balance can stop it |
| Acceptance.ChecksMean | backend/internal/service/settlement/service.go:276-447 | the checks, in whatever order, pass exactly the claims whose parts bind one another, are well signed and are in time |
| Acceptance.AcceptedExactlyWhen | backend/internal/service/settlement/service.go:267-597 | a bound claim in time is known exactly when its key is stored, and accepted exactly when it is not, its stored ceiling is open and the row fits; otherwise nothing changes |
| Acceptance.ClaimAnswers | backend/internal/service/settlement/service.go:267-597 | every answer to a claim is true: a refusal names the first check that fails, a known payment is reported as stored, a fresh one is stored as claimed, a failure means a missing key, hash or ceiling or a row that does not fit |
| Acceptance.AcceptedClaimLeaves | backend/internal/service/settlement/service.go:500-592 | an accepted claim leaves one pair of pending rows, two legs, and the amount moved from suspense to the payee's pending account |
| Acceptance.LimitsMean | backend/internal/service/transfer/service.go:113-128 | which limit refuses, tier by tier in naira and true arithmetic, with the sum that wraps past 64 bits |
| Acceptance.SpentCounts | backend/internal/repository/sqlcgen/transfers.sql.go:490-496 | a transfer counts towards its sender's day from its acceptance on, unless it fails |
| Acceptance.TransferAcceptedExactlyWhen | backend/internal/service/transfer/service.go:68-169 | a request is accepted exactly when it is in order, new, affordable and not blocked as fraud; in order and not new, it is answered with the stored transfer; else nothing changes |
| Acceptance.TransferRefusals | backend/internal/service/transfer/service.go:68-169 | a refused request fails the check it is refused for and none ahead of it |
| Acceptance.AcceptedTransferLeaves | backend/internal/service/transfer/service.go:169-245 | an accepted request leaves one transfer as asked for, its pair of pending rows and one envelope that names it and is due at once |
| Acceptance.ReferencesOverRuns | backend/internal/service/transfer/service.go:102-110 | over any run no two transfers of a sender share a reference, and an accepted one stays what was asked for |
| Acceptance.RetryReturnsTheSame | backend/internal/service/transfer/service.go:65-110 | a repeated request is answered with the first transfer ever after and changes nothing |
| AcceptKeeps.AcceptKeepsBook | backend/internal/service/settlement/service.go:500-592 | an accepted claim keeps every invariant of the book |
| SettleKeeps.SettleKeepsBook | backend/internal/service/settlement/service.go:673-762 | settling one pending payment, in full or short, keeps every invariant of the book |
| SettleKeeps.PendingCovers | backend/internal/service/settlement/service.go:724-737 | the payee's pending account covers each amount pending to it |
| SettleKeeps.SettleFailsOnlyOnLien | backend/internal/service/settlement/service.go:714-737 | settling a pending payment fails exactly when the lien is short of its share |
| Allocation.GreedyClosedForm | backend/internal/service/settlement/service.go:631-671 | item k settles min(P(k+1), C) - min(P(k), C), with the status, reason and remainder that go with it |
| Allocation.GreedyTotal | backend/internal/service/settlement/service.go:631-671 | altogether min(total, C) is settled and C less that is left |
| Allocation.GreedyShape | backend/internal/service/settlement/service.go:631-671 | full settlements, at most one strict partial, then zeros |
| Allocation.QueueIgnoresListing | backend/internal/service/settlement/service.go:608-614 | the visiting order does not depend on the order the store lists the rows in |
| Draining.DrainCommits | backend/internal/service/settlement/service.go:635-773 | the loop gets through exactly when the lien holds min(T, r) |
| Finalizing.FinalizeCommitsIff | backend/internal/service/settlement/service.go:602-784 | a finalize commits exactly when nothing is pending or the lien holds min(T, C) |
| Finalizing.FinalizeParts | backend/internal/service/settlement/service.go:775-779 | the ceiling is exhausted exactly when min(T, C) used all of it |
| Finalizing.FinalizePays | backend/internal/service/settlement/service.go:635-773 | each pending payment ends with its greedy share and its result, all other payments are as before |
| Finalizing.FinalizeBalances | backend/internal/service/settlement/service.go:695-737 | every balance moves by the sum of what the queue's shares prescribe |
| Finalizing.FinalizeMoves | backend/internal/service/settlement/service.go:695-737 | the payer's lien pays min(T, C), suspense gets T back, no other lien moves, no main account loses |
| Finalizing.FinalizeKeepsBook | backend/internal/service/settlement/service.go:602-784 | a finalize, committed or aborted, keeps every invariant of the book |
| Finalizing.FinalizeIdempotent | backend/internal/service/settlement/processor.go:195-204 | a redelivered finalize finds nothing pending and changes nothing |
| Results.ResultsTell | backend/internal/service/settlement/service.go:635-772 | the results are the payer's pending payments, each once and in sequence order, each saying exactly what the row says that the call leaves; no other row is written |
| Results.ResultsShare | backend/internal/service/settlement/service.go:638-671 | each result's settled amount is its part of the running total of the results below the ceiling, with the status and reason that go with it |
| Results.ResultsArePaid | backend/internal/service/settlement/service.go:695-737 | every balance moves by exactly what the results say was settled and submitted |
| Results.ResultsTotal | backend/internal/service/settlement/processor.go:244-260 | the reported amounts total min(T, C), which is what the payer's lien loses |
| Results.CeilingsAfter | backend/internal/service/settlement/service.go:775-779 | the ceiling in use is exhausted exactly when the pending total reaches it, and no ceiling is written otherwise |
| Results.UndoneTell | backend/internal/service/settlement/service.go:631-784 | results handed back next to an error are a proper beginning of the queue with the parts it would have got, broken off exactly where the lien no longer covers the running total |
| LienKeeps.QueueSharesCeiling | backend/internal/service/settlement/service.go:624-626 | where the lien invariant holds, all of a payer's pending payments share one live ceiling of that payer |
| LienKeeps.FinalizeUnderLien | backend/internal/service/settlement/service.go:631-779 | a finalize commits exactly when nothing was settled under the ceiling before or everything still fits |
| LienKeeps.SettleKeepsLien | backend/internal/service/settlement/service.go:715-737 | a settlement takes from the lien what it adds to the settled total |
| LienKeeps.FinalizeKeepsLien | backend/internal/service/settlement/service.go:602-784 | a finalize keeps the lien invariant, also when it exhausts the ceiling |
| LienKeeps.SubmitKeepsLien | backend/internal/service/settlement/service.go:479-592 | a claim keeps the lien invariant unless it is accepted under a stored ceiling that is not its payer's |
| LienKeeps.AcceptKeepsLienIff | backend/internal/service/settlement/service.go:500-592 | the accepting transaction keeps the lien invariant exactly when the stored ceiling the payment names is its payer's and still live |
| LienKeeps.SubmitKeepsLienIff | backend/internal/service/settlement/service.go:276-592 | a claim accepted in one go keeps the lien invariant exactly when the stored ceiling it names belongs to its payer |
| LienKeeps.FundKeepsLien | backend/internal/service/wallet/service.go:199-316 | funding keeps the lien invariant |
| LienKeeps.RecoverKeepsLien | backend/internal/service/wallet/service.go:412-461 | quarantining a ceiling keeps the lien invariant |
| LienKeeps.ReleaseNeverFails | backend/internal/service/wallet/service.go:548-633 | a live ceiling can always be released, and exactly the lien goes back to main |
| LienKeeps.ReleaseKeepsLien | backend/internal/service/wallet/service.go:548-633 | releasing a live ceiling with nothing in flight succeeds and keeps the lien invariant |
| LienKeeps.ReleaseKeepsLienIff | backend/internal/service/wallet/service.go:548-633 | a release that goes through keeps the upper bound always, and the exact lien exactly when the ceiling is live or has nothing left |
| LienKeeps.SweepKeepsLienIff | backend/internal/service/wallet/service.go:473-529 | the release of a listed candidate keeps the exact lien exactly when the ceiling is still live or has nothing left, and the upper bound always |
| LienKeeps.ForceKeepsLienIff | backend/db/queries/ceilings.sql:37-40 | forcing an active ceiling to expire keeps the lien invariant exactly when its lien is empty and nothing is pending under it |
| LienKeeps.RefreshKeepsLien | backend/internal/service/wallet/service.go:357-400 | draining and refunding in one transaction keeps the lien invariant |
| LienRuns.StepKeepsLienIff | backend/internal/service/settlement/service.go:201-784 | a step breaks the lien invariant exactly when it accepts a claim under a ceiling not its payer's live one, forces a ceiling in use to expire, or, for the exact form, releases a ceiling that is live no more |
| LienRuns.LienHoldsExactlyWhen | backend/internal/service/settlement/service.go:455-592 | over any run the lien invariant, as a bound or exactly, holds throughout exactly when no such step occurs |
| LienRuns.CeilingBound | backend/internal/service/settlement/service.go:631-779 | over exactly those runs: no ceiling is over-settled, a live ceiling's lien is at most, or exactly, its unsettled rest, an exhausted one is settled to the last kobo |
| ForeignScenario.CeilingOverSettled | backend/internal/service/settlement/service.go:479-497 | for any two users a run whose claims all pass and settle 120 under the other's ceiling of 100: without that condition the bound is false |
| StaleScenario.LateReleaseEmptiesLien | backend/internal/service/wallet/service.go:473-529 | for any two users a run without a claim: a ceiling listed as expired is released after a refresh, and the new ceiling's lien ends empty |
| StaleScenario.OvertakenClaimHangs | backend/internal/service/settlement/service.go:479-500 | for any two users: a claim on the payer's own ceiling passes its checks, the wallet is drained, and the claim ends pending under a revoked ceiling, where finalizing aborts |
| StaleScenario.ForcedStrandsLien | backend/db/queries/ceilings.sql:70-80 | for any two users: after a forced expiry the lien stays, no live ceiling explains it, and no listing finds the ceiling again |
| LienAccounting.PayerLienOverRuns | backend/internal/service/settlement/service.go:714-737 | over every run, whichever ceilings the claims name, a payer's lien plus everything settled for the payer is what was funded less what was released; nobody's payments settle more than that |
| OverSettling.FinalizeAddsUnder | backend/internal/service/settlement/service.go:631-745 | a committed finalize adds to each ceiling's settled total the parts of the running total, cut off at the ceiling in use, that belong to the queued payments naming it |
| OverSettling.QueueOverSettlesIff | backend/internal/service/settlement/service.go:631-784 | whichever ceilings the queue names: a finalize settles a ceiling beyond its amount exactly when the lien covers min(T, C) and what the queue pays under that ceiling no longer fits |
| LienAccounting.OverSettlesIff | backend/internal/service/settlement/service.go:631-784 | for a queue that names one ceiling: a finalize settles it beyond its amount exactly when something was settled under it before, the rest no longer fits and the payer's lien nevertheless covers min(T, C) |
| LienRuns.AbortsOverRuns | backend/internal/service/settlement/service.go:602-784 | after any run a finalize aborts exactly when something is pending and the payer's lien is below min(T, C) |
| LienRuns.AbortsIffWedged | backend/internal/service/settlement/service.go:631-720 | where the lien invariant holds, a finalize aborts exactly when something is settled under a live ceiling of the payer and the rest no longer fits |
| Stuck.StuckForever | backend/internal/service/settlement/service.go:631-720 | once wedged, over every further run each pending payment of the payer stays exactly as it is, whatever everybody else claims, as long as no accepted claim crosses between this payer and another ceiling or another payer and this ceiling and no operator forces it to expire |
| Stuck.OwnRunsStayStuck | backend/internal/service/settlement/service.go:631-720 | over every run that keeps the lien bound a wedged payer stays wedged |
| ForeignScenario.CrossingEndsIt | backend/internal/service/settlement/service.go:479-497 | one accepted claim on the stuck payer's ceiling, and the payment settles after all: the condition cannot be dropped |
| StuckScenario.StuckRun | backend/internal/service/settlement/service.go:631-720 | for any two users an orderly run, every claim on its payer's own live ceiling, that ends wedged: ceiling 100, 60 settled, 60 pending |
| ForeignScenario.QueueMixesCeilings | backend/internal/service/settlement/service.go:624-631 | for any two users a run after which the payments pending to be finalized for one payer name two ceilings |
| ForeignScenario.MixedOverSettles | backend/internal/service/settlement/service.go:624-671 | for any two users: with nothing settled under a ceiling of 100 before, one finalize of such a list settles 120 under it |
| Runs.StepKeeps | backend/internal/service/settlement/service.go:201-784 | every step of the system keeps book and pipeline consistent |
| Runs.Reachable | backend/internal/service/transfer/processor.go:150-245 | every run from the migrated database ends in a consistent state |
| Netting.MirrorOverRuns | backend/internal/service/settlement/service.go:571-592 | in every reachable state suspense is the negated sum of everything pending and each pending account what is pending to its owner |
| Netting.OnlyTheLienGuards | backend/internal/service/settlement/service.go:714-737 | in every reachable state the payee's pending account covers each pending amount, and settling one fails exactly when the lien is short of its share |
| Netting.LegsOverRuns | backend/internal/service/settlement/service.go:695-713 | a pending payment's legs net to suspense and pending, a final one's to lien and payee main by the settled amount |
| Netting.PairedRowsOverRuns | backend/internal/service/settlement/service.go:536-762 | the two rows of a payment name its parties, share group, status, settled amount and reason in every reachable state |
| Netting.TransferRowsOverRuns | backend/internal/service/transfer/processor.go:180-245 | the two rows of a transfer are pending, completed with its amount or failed with its reason together, in every reachable state |
| Netting.LedgerBalancedOverRuns | backend/internal/repository/pgrepo/repo.go:534-539 | debits equal credits under every business row in every reachable state |
| Pipeline.TickDelivery | backend/internal/service/transfer/dispatcher.go:109-152 | a tick rewrites no event, takes back no publication, and marks only what was published |
| ExactlyOnce.StepTransfers | backend/internal/service/transfer/processor.go:150-245 | only a delivery of its own envelope changes a transfer, once, from accepted to settled or failed |
| ExactlyOnce.ExactlyOnceMovement | backend/internal/service/transfer/processor.go:150-245 | over every run each settled transfer moved money in exactly one step and every other transfer in none; that step moved exactly the transfer's amount from the sender's main account to the receiver's and touched no other |
| ExactlyOnce.OverlapNeverHarmless | backend/internal/service/transfer/processor.go:180-233 | processing a settled transfer's envelope once more, as an overlapping consumer does, moves the amount again if the sender covers it and else marks the transfer failed |
| ExactlyOnce.OutcomeIsFinal | backend/internal/service/transfer/processor.go:160-168 | a settled or failed transfer never changes again |
| ExactlyOnce.MoneyOverRuns | backend/internal/service/transfer/processor.go:211-233 | balances sum to zero, only suspense and the mint's counterweight go negative, and balance minus ledger is the net of settled transfers |
| ExactlyOnce.DriftShift | backend/internal/service/reconciliation/service.go:329-364 | over any stretch of a run an account's drift shifts by the transfers settled in it |
| ExactlyOnce.CleanWithoutTransfers | backend/internal/service/reconciliation/service.go:329-364 | accounts other than users' main never drift, and none does without settled transfers |
| ExactlyOnce.OutboxDurable | backend/internal/service/transfer/dispatcher.go:109-152 | rows, publications and processed marks are never lost or rewritten |
| ExactlyOnce.CanAlwaysFinish | backend/internal/service/transfer/dispatcher.go:109-152 | from every reachable state one tick and one delivery bring an accepted transfer to an outcome |
| History.StepPays | backend/internal/repository/pgrepo/repo.go:481-498 | each change to a stored payment is the pending stamp of a new row or a declared edge |
| History.PaymentHistory | backend/internal/domain/transaction.go:63-87 | over any run a payment keeps its identity, never leaves a terminal status and changes at most as often as its rank allows |
| History.FinalizedAtMostOnce | backend/internal/service/settlement/service.go:738-742 | a payment changes exactly once after its stamp if it is final, never while it is pending |
| Incremental.SettleSameOutcomeIff | backend/internal/service/settlement/service.go:602-784 | a finalize commits and leaves the eventual outcome alone exactly when the pending total is within the lien and within the ceiling in use |
| Incremental.FinalizesDoNotMatter | backend/internal/service/settlement/service.go:602-784 | while the claims alone are covered by liens and ceilings, a run's outcome is that of its claims, however finalizes are interleaved and whoever's ceilings they name |
| Incremental.InterleavingIrrelevant | backend/internal/service/settlement/service.go:602-784 | two fully finalized runs with the same covered claims agree on all balances and payments |
| Incremental.BatchEqualsIncremental | backend/internal/service/settlement/service.go:602-784 | settling a payer's claims as they come equals submitting all and finalizing once |
| Incremental.CoveredIffFits | backend/internal/service/settlement/service.go:624-631 | where the lien invariant holds, covered means that what is settled and pending under each ceiling totals at most the ceiling |
| Incremental.OwnCeilingsInterleave | backend/internal/service/settlement/service.go:602-784 | for payers on their own ceilings it is enough that the claims fit under their ceilings |
| Convergence.ReceiveGrows | backend/internal/service/settlement/service.go:455-592 | a stream leaves the payments it started with and one for each first-seen acceptable token |
| Convergence.ClaimsConverge | backend/internal/service/settlement/service.go:267-597 | streams that bring the same payments leave the same payments and balances |
| Convergence.SameItemsSameTokens | backend/internal/service/settlement/service.go:297-305 | which party submitted a claim does not matter, only the set of claims |
| Convergence.OrderMattersOnConflict | backend/internal/service/settlement/service.go:455-530 | two acceptable uploads commute exactly when they do not share (payer, sequence) or (payee, nonce) |
| Convergence.ResubmissionChangesNothing | backend/internal/service/settlement/service.go:449-465 | once stored, a (payer, sequence) is never written again by any claim at any later time |
| SettlementService.Service.AcceptTx | backend/internal/service/settlement/service.go:500-592 | the accepting transaction commits as a whole or leaves every table as it was |
| SettlementService.Service.SubmitOne | backend/internal/service/settlement/service.go:267-597 | tables and result are those of the claim step |
| SettlementService.Service.SubmitClaim | backend/internal/service/settlement/service.go:201-265 | the batch is processed up to the first infrastructure error; if none, one finalize event is enqueued per payer left pending, unless one cannot be; the descriptor counts what was refused |
| SettlementService.BatchIsPrefix | backend/internal/service/settlement/service.go:227-245 | a batch leaves exactly what its processed prefix would, claim by claim |
| Batches.BatchTells | backend/internal/service/settlement/service.go:224-258 | every result of a batch agrees with its stored row, the payers to finalize are exactly those with a processed claim whose row is left pending, and the payer of every added payment is one of them |
| Batches.BatchCounts | backend/internal/service/settlement/service.go:232-243 | the batch counts as rejected exactly its refused claims, and its amount is always zero |
| SettlementService.Service.DrainAll | backend/internal/service/settlement/service.go:631-773 | the loop over the remaining ceiling computes the drain, or fails exactly when the drain does |
| SettlementService.Service.FinalizeForPayer | backend/internal/service/settlement/service.go:602-784 | outcome and tables are those of the finalize step; an abort restores the tables but still hands back the results of what it undid |
| TransferService.Service.InitiateTransfer | backend/internal/service/transfer/service.go:68-250 | the accept is idempotent per (sender, reference), writes transfer, rows and envelope together or nothing, and names the first check that refused |
| TransferService.BackoffDelay | backend/internal/service/transfer/dispatcher.go:154-164 | the doubling loop computes min(2^n, 60) seconds |
| TransferService.BackoffBounds | backend/internal/service/transfer/dispatcher.go:154-164 | delays never shrink, lie between a second and a minute and reach the cap exactly from the sixth attempt |
| TransferService.Dispatcher.ClaimBatch | backend/internal/repository/sqlcgen/outbox.sql.go:31-38 | claims the oldest ready rows up to the limit |
| TransferService.ReadyAreClaimable | backend/internal/repository/sqlcgen/outbox.sql.go:31-38 | every claimed row is undispatched and due, none is claimed twice |
| TransferService.ReadyLeavesNone | backend/internal/repository/sqlcgen/outbox.sql.go:31-38 | a ready row is claimed unless the batch is full of older ones, however often it failed before |
| TransferService.TickIsTold | backend/internal/service/transfer/dispatcher.go:115-149 | a tick attempts every claimed row once, reschedules what was not confirmed by the doubled delay, touches no other row and publishes exactly what was stored |
| TransferService.TickAttemptsReady | backend/internal/service/transfer/dispatcher.go:109-152 | with room every ready row is attempted: published unless nothing was stored, marked if confirmed |
| TransferService.FirstMarkStays | backend/internal/repository/sqlcgen/processed_events.sql.go:24-29 | a second mark changes nothing and no mark touches another event |
| TransferService.Dispatcher.DispatchTick | backend/internal/service/transfer/dispatcher.go:109-152 | marks commit together or not at all, not when a store error stops the tick part-way; publications stay either way |
| TransferService.Processor.Process | backend/internal/service/transfer/processor.go:150-245 | a marked event is skipped, a foreign one marked, any other moves the money and marks transfer, rows and event in one step |
| TransferService.FinalizeProcessor.Process | backend/internal/service/settlement/processor.go:158-212 | the drain commits before the mark; an aborted drain leaves no mark |
| TransferService.Consumers.Deliver | backend/internal/service/settlement/processor.go:158-212 | handing a published envelope to the consumer it is for, with a crash anywhere, leaves the tables as the delivery step of a run |
| Gossip.Service.Upload | backend/internal/service/gossip/service.go:229-306 | the tables end as if the routed claims had been received in order, whoever carried them; every blob is answered in its place with the verdict on its claim |
| Gossip.RoutedExactlyWhen | backend/internal/service/gossip/service.go:236-283 | a blob reaches settlement exactly when it is well formed, took at most three hops, could be opened and names somebody to submit for, the named sender before the payee |
| Gossip.BlobAnswers | backend/internal/service/gossip/service.go:236-306 | a blob is answered with the first thing wrong with it, else with its claim's own answer |
| Gossip.RoutedCounts | backend/internal/service/gossip/service.go:284-306 | the number accepted is the number of blobs answered with their claim's own answer |
| Gossip.FundFromTreasury | backend/internal/service/demomint/service.go:94-169 | the mint commits as a whole or leaves the tables as they were |
| WalletKeeps.MintKeepsBook | backend/internal/service/demomint/service.go:94-169 | the mint keeps every invariant of the book |
| WalletKeeps.FundKeepsBook | backend/internal/service/wallet/service.go:199-316 | funding keeps every invariant of the book |
| WalletKeeps.ReleaseKeepsBook | backend/internal/service/wallet/service.go:548-633 | releasing keeps every invariant of the book |
| WalletKeeps.RegisterKeepsBook | backend/internal/repository/pgrepo/repo.go:84-125 | new accounts start at zero and keep every invariant of the book |
| WalletAnswers.FundExactlyWhen | backend/internal/service/wallet/service.go:199-316 | funding goes through exactly with a positive amount, no live ceiling and the money, and leaves a fresh active ceiling, its row, its legs and its move |
| WalletAnswers.RecoverExactlyWhen | backend/internal/service/wallet/service.go:412-461 | recovering needs an active ceiling with nothing in flight, and keeps it until 72 hours and 30 minutes after its expiry or after now, whichever is later |
| WalletAnswers.QuarantineStaysOpen | backend/internal/service/wallet/service.go:432-437 | no claim that is in time by the ceiling's own expiry meets a closed quarantine |
| WalletAnswers.ReleaseExactlyWhen | backend/internal/service/wallet/service.go:548-633 | a release refuses only what the lien does not cover, and returns exactly what is not settled |
| WalletAnswers.MoveToMainExactlyWhen | backend/internal/service/wallet/service.go:337-353 | moving to main needs an active ceiling with nothing in flight and a covered rest, and revokes it |
| WalletAnswers.RefreshLeaves | backend/internal/service/wallet/service.go:357-400 | a refresh leaves one live ceiling of the amount asked for, the active one before it revoked, and money moved between main and lien only |
| WalletAnswers.SweepExactlyWhen | backend/internal/service/wallet/service.go:473-529 | the release of a listed candidate refuses only what is in flight or not covered, and ends it as listed: expired, or revoked out of quarantine |
| WalletAnswers.ListedExactlyWhen | backend/db/queries/ceilings.sql:70-80 | exactly when a ceiling is listed for release, in minutes after its expiry or its quarantine |
| WalletAnswers.ListedTakesNoClaims | backend/internal/service/wallet/service.go:473-482 | once listed, and while its row stays, a ceiling takes no claim any more that presents its own expiry |
| WalletAnswers.ForceExactlyWhen | backend/db/queries/ceilings.sql:37-40 | forcing takes an active ceiling and writes its status only |
| WalletAnswers.MintExactlyWhen | backend/internal/service/demomint/service.go:94-169 | the mint gives out 1 to 500,000 naira that the treasury has, documented by one row and two legs |
| WalletAnswers.RegisterExactlyWhen | backend/internal/repository/pgrepo/repo.go:84-125 | registration takes newcomers only and adds three empty accounts |
| TransferKeeps.ProcessKeepsBook | backend/internal/service/transfer/processor.go:180-245 | processing an accepted transfer keeps every invariant of the book |
| JsonText.StringBack | backend/internal/crypto/canonical.go:52-57 | reading an encoded string yields it with bad bytes replaced, and leaves what follows |
| JsonText.RepairIsIdentity | backend/internal/crypto/canonical.go:52-57 | nothing is replaced exactly in well-formed UTF-8 |
| JsonText.RuneExactlyWhen | backend/internal/crypto/canonical.go:52-57 | bytes count as one rune exactly when they encode a Unicode scalar value |
| PrintedBytes.PrintClean | backend/internal/crypto/canonical.go:52-57 | no printed text holds a control character, an angle bracket, an ampersand or a line or paragraph separator |
| PrintedBytes.RawExactlyWhen | backend/internal/crypto/canonical.go:52-57 | a string is written as it is exactly when it is well formed and free of those, of quotes and of backslashes |
| PrintedBytes.ShortEscapes | backend/internal/crypto/canonical.go:52-57 | the seven short escapes, byte for byte |
| PrintedBytes.HexEscapes | backend/internal/crypto/canonical.go:52-57 | every other escaped ASCII byte is four digits in lower case |
| PrintedBytes.RuneEscapes | backend/internal/crypto/canonical.go:52-57 | bad bytes and the two separators, byte for byte |
| PrintedBytes.ValueLayout | backend/internal/crypto/canonical.go:40-69 | literals, strings and arrays as they are laid out, with single commas and nothing else |
| PrintedBytes.ObjectLayout | backend/internal/crypto/canonical.go:70-90 | an object is its quoted keys in order, each with a colon and its value, with single commas and nothing else |
| PrintedBytes.BeforeMeans | backend/internal/crypto/canonical.go:74-74 | keys are ordered by the first byte in which they differ, a proper prefix first |
| Numbers.NumberExactlyWhen | backend/internal/crypto/canonical.go:50-51 | the number literals are those of section 6 of RFC 8259 |
| Canonical.RoundTrip | backend/internal/crypto/canonical.go:40-95 | reading a printed value returns the value and what followed it |
| Canonical.PrintInjective | backend/internal/crypto/canonical.go:40-95 | different values print differently |
| Canonical.PrintPrefixFree | backend/internal/crypto/canonical.go:40-95 | no printed value but a number is the beginning of another printed value |
| Canonical.SortedKeysAreSorted | backend/internal/crypto/canonical.go:70-75 | an object's keys come out strictly increasing bytewise, each exactly once |
| Canonical.SortedUnique | backend/internal/crypto/canonical.go:70-75 | a sorted listing is unique, so the map's order is gone |
| Canonical.CanonicalFixpoint | backend/internal/crypto/canonical.go:22-38 | canonicalizing any accepted text and doing so again changes neither value nor bytes |
| CanonicalWriter.SortStrings | backend/internal/crypto/canonical.go:74-74 | sorts the key slice in place |
| CanonicalWriter.Buffer.WriteCanonical | backend/internal/crypto/canonical.go:40-95 | appends exactly the canonical text, whatever order maps are ranged over |
| CanonicalWriter.Canonicalize | backend/internal/crypto/canonical.go:22-38 | the bytes are the canonical text and read back as the value |
| Velocity.KeepAfter | backend/internal/service/fraud/detector.go:82-88 | compaction in place keeps exactly the entries after the cutoff, in order |
| Velocity.KeptIsSuffix | backend/internal/service/fraud/detector.go:80-87 | of ordered times the final stretch after the cutoff is kept, and nothing else |
| Velocity.SignalsTell | backend/internal/service/fraud/detector.go:91-113 | every signal names its user, the time and the number of observations in the window, above the threshold |
| Velocity.Detector.ObserveSettled | backend/internal/service/fraud/detector.go:73-114 | window, alert flag and reported signals after one observation |
| Velocity.WindowRefinesHistory | backend/internal/service/fraud/detector.go:73-114 | for nondecreasing times the window is the history's last window and the signals are the upward crossings of the threshold, none without a sink |
| PinLock.PinService.SetPIN | backend/internal/service/userauth/pin.go:55-83 | a valid PIN of a known user replaces the digest, clears counter and lock and revokes every session but the current one |
| PinLock.PinService.VerifyPIN | backend/internal/service/userauth/pin.go:91-124 | result and row after one candidate, for every branch |
| PinLock.VerifyAnswers | backend/internal/service/userauth/pin.go:91-124 | each answer exactly: the right PIN is OK unless a lock is on, four mismatches are bad, the fifth and every later one lock for a quarter of an hour, and what each leaves of counter and lock |
| PinLock.GuessBound | backend/internal/service/userauth/pin.go:91-124 | wrong comparisons by a time are at most four before the first lock, then five and one per elapsed window |
| PinLock.BoundIsReached | backend/internal/service/userauth/pin.go:91-124 | a patient guesser reaches the bound |
| TierCache.LimitsMonotone | backend/internal/service/transfer/limits.go:52-80 | a higher tier never has a lower limit |
| TierCache.CheckMeans | backend/internal/service/transfer/service.go:113-128 | below the top tier the limit check compares the true sum with the limit |
| TierCache.TopTierUnchecked | backend/internal/service/transfer/service.go:113-128 | at the top tier the check passes whatever was spent, by wrap-around |
| TierCache.StaleTierIsSafe | backend/internal/repository/transferrepo/repo.go:75-100 | over every interleaving cached and held tiers rank at most as high as the stored one, and below the top tier a day's total stays within the current limit |
| TierCache.TierRepo.GetSenderKYCTier | backend/internal/repository/transferrepo/repo.go:78-93 | a hit answers from the cache, a miss from the store and fills the cache |
| TierCache.TierRepo.SubmitKYC | backend/internal/repository/kycrepo/repo.go:73-114 | the tier moves only upward and the cached tier is gone afterwards |
| TierCache.PromotedIsHigher | backend/internal/repository/sqlcgen/users.sql.go:589-622 | the stored rank becomes the larger of the two |
| Reconcile.SeqKeyInjective | backend/internal/service/reconciliation/service.go:233-235 | no two (payer, sequence) pairs share a key |
| Reconcile.DiffClientLog | backend/internal/service/reconciliation/service.go:155-231 | the findings of both passes; empty exactly when log and server agree; each unmatched row reported once |
| Reconcile.ResolvesTruly | backend/internal/service/reconciliation/service.go:181-190 | an entry resolves to a stored row with its id, or with its payer and sequence |
| Diffing.ResolvesExactlyWhen | backend/internal/service/reconciliation/service.go:160-190 | with rows known by id and by payer and sequence, an entry resolves to the row it speaks of, by id if that is a row's, else by payer and sequence, and to none exactly when it speaks of none |
| Diffing.DiffSays | backend/internal/service/reconciliation/service.go:155-231 | a finding is reported exactly when it is so of the two row lists: an entry without a row, a row with another amount or status than claimed, a row without an entry |
| Diffing.FindingsInOrder | backend/internal/service/reconciliation/service.go:173-215 | findings come in the order of the log |
| Diffing.EntryInOrder | backend/internal/service/reconciliation/service.go:192-214 | one entry gives at most two findings, the amount before the status |
| Reconcile.NightlyLedgerReconcile | backend/internal/service/reconciliation/service.go:317-388 | flags exactly the accounts that differ from their ledger and the ceilings that are over-settled |
| Reconcile.NightlyAfterRun | backend/internal/service/reconciliation/service.go:317-388 | after any run it flags exactly the accounts with a nonzero net of settled transfers; it flags no ceiling over runs that keep the lien bound |
| Reconcile.NightlyAfterCrossing | backend/internal/service/reconciliation/service.go:346-388 | after two accepted claims on another user's ceiling it flags that ceiling |
| Reconcile.BatchReceipt | backend/internal/service/reconciliation/service.go:240-312 | the batch's totals and times and one result per row; completed exactly when every row is final |
| Receipts.CountsMean | backend/internal/service/reconciliation/service.go:264-273 | for stored rows the counts are numbers of rows, none is rejected, every row is pending or counted, and the amount is all that was settled |
| Receipts.EarliestMeans | backend/internal/service/reconciliation/service.go:274-276 | the submission time is one of the rows', and none is earlier |
| Receipts.LatestMeans | backend/internal/service/reconciliation/service.go:277-279 | the processing time is one of the rows' settlement times, and none is later |
| Receipts.FirstPayeeMeans | backend/internal/service/reconciliation/service.go:259-263 | the receiver is the payee of the first row that names one |

## Left out

- LienRuns.CeilingBound: only over the runs LienRuns.LienHoldsExactlyWhen names, because over the others it is false of the code.
- ExactlyOnce.ExactlyOnceMovement: for a consumer that handles one delivery at a time, because overlapping ones do break it (ExactlyOnce.OverlapNeverHarmless); such overlaps are not steps of a run.
- Machine integers: balances, amounts and sequence numbers are unbounded; the daily-limit addition wraps at 64 bits as in the code.
- Cryptography: signatures, key lookups, sealed boxes, hashes and bcrypt appear as verdicts or as a digest that is only compared.
- Isolation levels: every transaction is one atomic step.
- Accounts no modelled step touches: registration creates five per user, the model the three that move.
- The users and accounts tables behind foreign keys: a user exists when the main account does.
- Fraud scoring, geographic signals, notifications, metrics and logging: no effect on the modelled tables; a fraud verdict is a parameter of the accept.
- Malformed envelopes: the messages of a run are those the dispatcher publishes.
- TransferService.Service.InitiateTransfer: the receiver behind the account number, the sender's tier and the fraud verdict are parameters; a failing lookup is not modelled.
- Velocity.Detector.ObserveSettled: compacts in place within a call, but the backing array is not shared from one call to the next.
- SettlementService.Service.SubmitClaim: the geographic observation after the batch is not modelled.
- WalletAnswers.FundExactlyWhen: the payer's public key, the bank's signing key and the fraud clamp on the amount are not modelled.
- CanonicalWriter.Canonicalize: starts from the decoded value; marshalling a struct and decoding it ahead of the writer are not modelled.
- Canonical.RoundTrip: the reader rejects whitespace between tokens and has no depth limit.
- AutoSettleSweep: it only enqueues finalize events, which a run may contain at any point.
- Incremental.InterleavingIrrelevant: does not compare ceiling statuses, because only a single finalize of the whole can exhaust a ceiling.
