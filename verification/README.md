# Settlement lifecycle: a verified model

A settlement engine takes matches between lend and borrow orders from a Redis stream, settles them
on chain in batches, and writes the outcome back to a Postgres database whose `in_orders` column
reserves each side's funds. This project models that lifecycle and proves what it keeps, whatever
interleaves, fails, crashes or is delivered twice.

| file | what it holds |
|---|---|
| `Matches.dfy`, `Store.dfy` | matches and their shares; the three tables, the SQL statements, the three gated transactions |
| `Ledger.dfy` | every run of creations and gated transactions: locks and fills are conserved, releases happen once |
| `FailurePath.dfy`, `Refinement.dfy` | the ungated failure path: its three transactions, and exactly when they agree with the gated one |
| `Interference.dfy`, `Bystanders.dfy` | that path with other sessions between its transactions: exactly when it conserves |
| `Database.dfy` | the database layer as imperative code over a connection whose queries may throw |
| `RowLocks.dfy`, `Deadlock.dfy`, `Batches.dfy` | the same at statement level: row locks, rollback, serializability, deadlock freedom, and exactly which two transactions can deadlock |
| `Nonce.dfy`, `Stranded.dfy`, `Expiry.dfy`, `SharedManager.dfy`, `NonceCall.dfy`, `Manager.dfy`, `Lease.dfy` | the distributed nonce counter, what breaks it, what a call makes of it, its imperative manager, its lease |
| `Grouping.dfy`, `Trace.dfy`, `ProcessBatch.dfy` | the batch pipeline as imperative code over arbitrary replies |
| `Protocol.dfy` | database, chain and stream together, over every interleaving of calls, sweeper and failure path |
| `Processor.dfy`, `Sweeper.dfy` | the batch processor's ways of failing; the sweeper and how far it gets |
| `Recovery.dfy`, `Accumulator.dfy` | recovery of pending entries and the queue they feed |
| `Uint256.dfy`, `Retry.dfy`, `Options.dfy` | canonical decimal amounts; bounded retry; a value that may be missing, a call that may throw |

## How to read it

- A class (`Connection`, `BatchRun`, `NonceManager`, `BatchAccumulator`, `Consumer`,
  `BatchProcessor`) is the program's own code, statement by statement. Whatever it calls outside
  the process answers from an arbitrary script, and a call that throws may or may not have taken
  effect, so a contract covers each call failing at each point; a process that dies takes no
  further step, which the state machines cover. Each contract also says what must happen when
  nothing fails: a method may only report a failure that a reply brought about.
- A state machine (`Ledger`, `RowLocks`, `Nonce`, `Lease`, `Protocol`) is for what many processes
  do at once. The class methods are tied to it: a transaction of `Connection` is one `Store.Apply`,
  a trace of `BatchRun` is `Justified` event by event (and wherever it is cut, `Trace.CutAnywhere`),
  which makes it a run of `Protocol` (`Protocol.CallIsRun`), and every method of `NonceManager`
  takes steps of `Nonce`.
- Addresses are numbers: comparing lower-cased hex strings is comparing them. Amounts are unbounded
  naturals, as NUMERIC is; the uint256 bound is in `Uint256`.

## What turned out not to hold

Each is a lemma with the exact condition or a concrete run.

- The failure path of `BatchProcessor` has no PENDING gate, and its three transactions commit one by
  one. `Interference.CleanupConservesIff` says for every batch, each choice of which of the three
  commit, and any gated transactions of others between them, exactly when it conserves reservations,
  fills and both; `CleanupConservesExactly` is what that comes to when all three commit. A batch that
  was distinct and PENDING when the path began is not enough: one sweep of it after the unlock
  releases its share twice (`Interference.SweptInBetweenBreaks`), and so does a poison match
  quarantined before its whole batch is cleaned up (`FailurePath.CleanupAfterQuarantineBreaks`).
  `Refinement.CleanupRefinesIff` says for which tables and batches it is the gated path.
- That path acknowledges its entries even if the FAILED marks did not commit:
  `Interference.CleanupLeavesPendingExactly`.
- It can also deadlock, with itself and with a single match: the row order holds within a match, not
  across a batch. `Batches.TwoDeadlockExactly` says exactly which two transactions can, single
  matches and the three kinds of batch alike; `Batches.BatchesCanDeadlock` is a run from the empty
  tables. Single matches, and batches whose rows ascend, cannot, however many and however mixed
  (`Deadlock.DeadlockFree`).
- The nonce counter stays within the chain's pending count only under four assumptions
  (`Nonce.NonceNeverLeavesGap`), and each is needed. If handleFailure itself throws, or the process
  dies, while a nonce is owed, a gap follows if and only if the counter is then ahead of the pending
  count (`Stranded.AbandonGapsExactly`, `CrashGapsExactly`; `ThrowingHandlerLeavesGap` is a run with
  one call on one instance). A lease that expires in use lets one follow if and only if the counter
  is ahead or the call is not spent, that is, has yet to increment the counter or to hear of its
  broadcast, or may still set the counter to the pending count (`Expiry.ExpiryGapsExactly`).
  So do overlapping calls on one instance, which keeps one lock id in a field (`poll` sets its
  in-flight flag only after an await): from every state with a nonce in hand and the counter ahead
  (`SharedManager.OverlapLeavesGap`).
- The sweeper selects the oldest PENDING matches and never moves a ghost-settled one, so as many
  ghosts as its batch size stop it for good: `Sweeper.EventuallySweptExactly`.
- Re-reading the pending list from '0' returns the same entries again, so the loop never sees past
  the first `readCount` of them, whatever its cap (`Recovery.Consumer.ProcessPendingEntries`).
- Quarantining a match whose row is not inserted yet can lose it: `Protocol.EarlyEntryIsLost`, with
  `Protocol.StepLosesExactly` for the exact steps that lose a match.

## Assumptions

- Match ids are unique; a stream payload agrees with its database row. `NoMatchIsLost` alone asks, of
  the one match it is about, that its row is not inserted after its own quarantine.
- `settleMatches` is atomic, a successful receipt is for the batch submitted, and `isSettled` never
  goes back to false.
- The db-writer's match-time insert and increments are one atomic step that waits for row locks.
- Nonces: lock ids are unique, the pending count never falls, and a node says "already known" only of
  a nonce that is taken, but may say "too low" of any. A counter below zero is handed out and
  answered like any other. `releaseLock`'s script and the field it then clears are one step. The
  design's own assumptions are hypotheses of the theorem (`Nonce.Assumed`): one call per manager, no
  failure handler that throws and no process that dies while a nonce is owed, no lease that expires
  in use.
- Deadlock freedom of single matches: each order id is used on one side only.

## Model

| member | source | states |
|---|---|---|
| `Database.SplitTradeFees` | src/settlement/database/lock-release.ts:46-57 | the two trade fees are the maker and taker fee, and the taker's side pays the taker fee |
| `Store.ReleasePair` | src/settlement/database/lock-release.ts:98-140 | two clamped releases in either wallet order lower each row by all that falls on it, also when both fall on one row |
| `Store.ReleasesMean` | src/settlement/database/lock-release.ts:94-140 | whichever wallet goes first, each balance loses the whole share of the match on it, and nothing else changes |
| `Store.RestoresMean` | src/settlement/database/order-failure.ts:247-272 | restoring lend then borrow order is one restoration of what the match filled of each order, also when they are one order |
| `Store.ApplyMeans` | src/settlement/database/lock-release.ts:68-143 | a gated transaction does nothing unless the row is PENDING, and otherwise changes exactly the status, the orders (failures only) and both balances |
| `Store.SharesAddUp` | src/settlement/database/lock-release.ts:94-127 | the two sides of a match reserve the loan, both settlement fees, the maker fee and the taker fee, each once |
| `Store.ReleasesInFields` | src/settlement/database/lock-release.ts:94-140 | by field: the lender's balance loses loan, lender settlement fee and lender trade fee, the borrower's the other two fees, clamped, and no other balance moves |
| `Store.RestoresInFields` | src/settlement/database/order-failure.ts:247-272 | by field: a failure takes the loan off both fills and each settlement fee off its own order, and cancels an order that has nothing left |
| `Ledger.AttemptKeepsLocks` | src/settlement/database/lock-release.ts:78-140 | writeback, quarantine and remediation of a PENDING match keep in_orders equal to base plus the shares of what is still PENDING |
| `Ledger.AttemptKeepsFills` | src/settlement/database/order-failure.ts:247-272 | and keep both filled columns equal to the totals over the matches that have not FAILED |
| `Ledger.CreateKeepsTotals` | src/settlement/database/lock-release.ts:9-12 | the match-time increments add exactly the new match to every total |
| `Ledger.FailureGivesBack` | src/settlement/database/order-failure.ts:247-321 | with no clamp, the lender's in_orders falls by what the lend order's fill and fee fall by and the lender's trade fee, the borrower's by its order's fee and the borrower's trade fee |
| `Ledger.StepKeepsConserved` | src/settlement/database/order-failure.ts:222-325 | every step keeps reservations and fills conserved |
| `Ledger.ReachableConserved` | src/settlement/database/pending-settlement-sweep.ts:142-244 | in every reachable state every in_orders and filled column holds exactly what the matches say it should |
| `Ledger.FailureCancelsExactly` | src/settlement/database/order-failure.ts:247-272 | after a failure an order is CANCELLED with SETTLEMENT_FAILED if and only if no match on it is left that has not FAILED |
| `Ledger.ReleasedExactlyOnce` | src/settlement/database/lock-release.ts:78-92 | over any trace of attempts, retries and duplicates a match releases its locks once if it left PENDING and never otherwise |
| `Ledger.OutcomeIndependent` | src/settlement/database/order-failure.ts:228-245 | two traces that leave the same matches PENDING leave the same in_orders, whoever won and in whatever order |
| `Ledger.FillsDependOnFailures` | src/settlement/database/pending-settlement-sweep.ts:147-191 | the fills depend only on which matches FAILED, not on which transaction failed them |
| `FailurePath.ClampedOnce` | src/settlement/database/order-failure.ts:36-86 | a list of releases leaves GREATEST(0, in_orders - total) on each row, for any starting value |
| `FailurePath.RestoredOnce` | src/settlement/database/order-failure.ts:133-191 | a list of restorations is one restoration of the totals, CANCELLED exactly when the fill is at most the total |
| `FailurePath.StatementsOrderFree` | src/settlement/database/order-failure.ts:27-91 | any permutation of the statements, matches and wallets alike, ends in the same balances and orders |
| `FailurePath.CleanupMeans` | src/settlement/database/order-failure.ts:27-200 | what the three batch transactions do to each table, for every choice of which of them commit |
| `FailurePath.CleanupRefinesQuarantine` | src/settlement/batchProcessor.ts:303-325 | on distinct PENDING matches the three committed transactions equal quarantining each match in turn |
| `FailurePath.CleanupRefinesExactly` | src/settlement/batchProcessor.ts:303-325 | where the lenders have other reservations, that refinement holds if and only if the matches are distinct and PENDING |
| `Refinement.CleanupRefinesIff` | src/settlement/batchProcessor.ts:303-325 | for any batch and any tables, the three committed transactions equal quarantining each match in turn if and only if every row that only an ungated statement reaches already fits |
| `Refinement.QuarantineAllIsCleanup` | src/settlement/database/order-failure.ts:222-325 | quarantining each match in turn is the ungated path over the first copies of the batch's PENDING matches, whatever the batch |
| `Interference.CleanupConservesIff` | src/settlement/batchProcessor.ts:303-325 | for every batch, rows missing or not, whichever of the three transactions commit and whatever gated ones of others come between them, exactly when reservations, fills and fees, and all of them are conserved |
| `FailurePath.RecordingDropsFills` | src/settlement/database/order-failure.ts:101-131 | marking a batch FAILED takes exactly the fills and fees it is due out of every order's total |
| `FailurePath.RestoringDrops` | src/settlement/database/order-failure.ts:139-200 | restoring a batch's orders takes what it is due and its excess off filled quantity and fee, clamped at zero |
| `Interference.CleanupConservesExactly` | src/settlement/batchProcessor.ts:303-325 | where the lenders have other reservations and all three commit, reservations, and also reservations and fills together, are conserved if and only if the matches are distinct, PENDING, and untouched by others between the unlock and the record |
| `Interference.SweptInBetweenBreaks` | src/settlement/batchProcessor.ts:303-312 | one PENDING match swept between the unlock and the record has its share released twice |
| `Bystanders.CleanupAmidAnything` | src/settlement/batchProcessor.ts:303-325 | for distinct PENDING matches the three transactions conserve everything whatever the db-writer and others do between them, short of a gated transaction on one of those matches before the record |
| `FailurePath.CleanupBalance` | src/settlement/database/order-failure.ts:27-91 | the balance the ungated path leaves is short of what is owed by exactly the excess, until the clamp hides it |
| `FailurePath.CleanupNeedsAllThree` | src/settlement/batchProcessor.ts:305-325 | on a non-empty batch it equals the gated path if and only if all three transactions commit |
| `FailurePath.CleanupAfterQuarantineBreaks` | src/settlement/processBatch.ts:335-356 | quarantining a match and then cleaning up its whole batch breaks conservation |
| `Interference.CleanupLeavesPendingExactly` | src/settlement/database/order-failure.ts:101-131 | a match stays PENDING if and only if it was PENDING, nobody else moved it in between, and the recording transaction did not cover it |
| `Database.Connection.Finish` | src/settlement/database/connection.ts:69-86 | a body that returned is committed unless the COMMIT throws, and then only if it landed; a body that threw leaves no trace |
| `Database.Connection.ApplyMatchSettlementWriteback` | src/settlement/database/lock-release.ts:68-143 | the statements of the writeback are the gated step, and it returns whether the row was PENDING |
| `Database.Connection.QuarantineBody` | src/settlement/database/order-failure.ts:226-324 | likewise the statements of the quarantine, with its own copy of the fee split |
| `Database.Connection.RemediateBody` | src/settlement/database/pending-settlement-sweep.ts:145-243 | likewise the statements of the remediation, with its own copy of the fee split |
| `Database.Connection.QuarantineFailedMatch` | src/settlement/database/order-failure.ts:222-325 | atomic, and it returns if and only if no query throws: returning means all of it happened, throwing means all or nothing |
| `Database.Connection.RemediateUnsettledMatch` | src/settlement/database/pending-settlement-sweep.ts:142-244 | atomic, and it returns if and only if no query throws: returning means all of it happened, throwing means all or nothing |
| `Database.Connection.WritebackSettledMatches` | src/settlement/database/lock-release.ts:155-206 | each settled match in its own transaction, failures passed over; the counters are the commits that found the row PENDING or not, and none is lost if and only if no query throws |
| `Database.OnlySettledIdsMove` | src/settlement/database/lock-release.ts:164-178 | however its transactions end, a batch of writebacks moves only settled ids, from PENDING to SETTLED by that transaction |
| `Database.SettledIdsMove` | src/settlement/database/lock-release.ts:164-178 | if none is lost, every settled id that was PENDING is SETTLED by that transaction |
| `Database.WritebacksConserve` | src/settlement/database/lock-release.ts:155-206 | and conserves reservations and fills |
| `Database.Connection.UnlockFailedMatches` | src/settlement/database/order-failure.ts:27-96 | all of the batch's releases commit or none does, and they do if no query throws |
| `Database.Connection.RecordFailedMatches` | src/settlement/database/order-failure.ts:101-131 | all of the batch's FAILED marks commit or none does, with no PENDING gate, and they do if no query throws |
| `Database.Connection.RestoreOrdersForFailedMatches` | src/settlement/database/order-failure.ts:139-200 | all of the batch's order restorations commit or none does, and they do if no query throws |
| `RowLocks.CommitIsAtomic` | src/settlement/database/connection.ts:69-86 | a statement-by-statement transaction under row locks commits exactly what its atomic step does at that moment, whatever ran in between |
| `RowLocks.InterleavingsConserve` | src/settlement/database/lock-release.ts:68-143 | conservation holds in every interleaving of statements, commits and rollbacks |
| `RowLocks.ReachableInv` | src/settlement/database/order-failure.ts:222-325 | open transactions hold disjoint rows and account for every uncommitted change in every reachable state |
| `Deadlock.ClampNeverBites` | src/settlement/database/order-failure.ts:247-321 | no release or restoration of an open gated transaction ever reaches a clamp, on in_orders, filled quantity or fee, at statement level with others open |
| `Deadlock.ProgramsAscend` | src/settlement/database/pending-settlement-sweep.ts:147-240 | each transaction takes match row, lend order, borrow order, then balances by ascending wallet |
| `Deadlock.WaitingAscends` | src/settlement/database/order-failure.ts:228-321 | whoever a transaction waits for, if waiting too, waits for a strictly later row |
| `Deadlock.DeadlockFree` | src/settlement/database/lock-release.ts:78-140 | with any number of open transactions whose rows ascend, single matches or batches, some open one can run its next statement or commit |
| `Deadlock.ReachableDeadlockFree` | src/settlement/database/order-failure.ts:27-200 | and so in every reachable state, whatever mix of single matches, unlock, record and restore batches is open |
| `Deadlock.SingleMatchesDeadlockFree` | src/settlement/database/lock-release.ts:78-140 | and so for any single-match transactions with each order id on one side only |
| `Deadlock.EverythingCanCommit` | src/settlement/database/connection.ts:69-86 | from any such state all open transactions can be run to their commits, with no rollback and nobody waiting |
| `Batches.TwoDeadlockExactly` | src/settlement/database/order-failure.ts:27-200 | two transactions, each a single match or a batch of any of the three kinds, can end up waiting for each other if and only if at some point in each the rows locked so far are disjoint and each next row is one the other has |
| `Batches.SameOrderNeverDeadlocks` | src/settlement/database/order-failure.ts:36-86 | two transactions over the same rows in the same order cannot |
| `Batches.BatchCrossesWriteback` | src/settlement/database/order-failure.ts:36-86 | an unlock of two matches crosses the writeback of one of them |
| `Batches.BatchesCanDeadlock` | src/settlement/database/order-failure.ts:36-86 | from the empty tables, two unlocks over two created matches in opposite orders do, and so do an unlock and a writeback |
| `Nonce.ActionKeepsInv` | src/settlement/nonceManager.ts:111-228 | every command, failure branch and lost reply, and every crash, expiry and abandoned failure that the design allows, keeps mutual exclusion, the marker and the bound on the counter |
| `Nonce.NonceNeverLeavesGap` | src/settlement/nonceManager.ts:111-228 | in a run that keeps the four stated assumptions no nonce handed out exceeds the chain's pending count, and the counter runs ahead by at most one unbroadcast increment |
| `Stranded.AbandonGapsExactly` | src/settlement/nonceManager.ts:186-215 | after handleFailure throws with its nonce owed, a gap is reachable if and only if the counter is ahead of the pending count |
| `Stranded.CrashGapsExactly` | src/settlement/smartContract.ts:833-851 | likewise after a process dies with a nonce owed |
| `Expiry.ExpiryGapsExactly` | src/settlement/nonceManager.ts:246-273 | after a lease expires under the call using it, a gap is reachable if and only if the counter is ahead or the call has yet to increment it, yet to hear of its broadcast, or may still set it to the whole pending count |
| `Expiry.StaleNeverGaps` | src/settlement/nonceManager.ts:165-228 | a spent call that goes on without its lease never lets a gap follow, whatever the others do |
| `Stranded.ThrowingHandlerLeavesGap` | src/settlement/nonceManager.ts:186-215 | one call on one manager, a rejected broadcast and a DECR that throws lead to a nonce that leaves a gap |
| `Nonce.FailingKeepsCounters` | src/settlement/nonceManager.ts:186-215 | every branch of handleFailure keeps the bound, including decrements by a call that holds nothing |
| `Nonce.OneHolder` | src/settlement/nonceManager.ts:246-284 | two calls are never inside the lock at once |
| `SharedManager.OverlapLeavesGap` | src/settlement/nonceManager.ts:75-76 | from every state with a nonce in hand and the counter ahead, two more calls on the same instance lead to a gap, nothing else going wrong |
| `SharedManager.OverlappingCallsCanLeaveGap` | src/settlement/nonceManager.ts:279-284 | and so from an idle start |
| `Manager.NonceManager.AcquireLock` | src/settlement/nonceManager.ts:246-273 | takes the lock or stops without it, within its tries; when every SET answers, at the first try that finds the key free |
| `Manager.NonceManager.AcquireNonce` | src/settlement/nonceManager.ts:111-157 | whatever interleaves and fails, a nonce it returns is at most the pending count; when all answers, only the lock can be refused; undisturbed, it is the counter, or the pending count after a crash or without a counter |
| `Manager.NonceManager.Broadcast` | src/settlement/smartContract.ts:841-851 | the broadcast carries at most the nonce the chain expects at that moment |
| `Manager.NonceManager.Confirm` | src/settlement/smartContract.ts:851-862 | recording, receipt and release end in order or stop where they throw, a command that lands and loses its reply included; when all answers, the lock and its id are gone |
| `Manager.NonceManager.HandleFailure` | src/settlement/nonceManager.ts:186-215 | ends the call from any failure, wherever it throws itself; the invariant stands unless it threw with the nonce still owed. When all its commands answer, the counter is the count just read, unchanged or one less, then the marker is clear, then the lock and its id are gone, whoever comes in between; undisturbed it leaves exactly that |
| `Manager.NonceManager.SettleBatch` | src/settlement/smartContract.ts:833-916 | the whole call ends, never broadcast a nonce beyond the chain's, and keeps the invariant unless its failure handler threw with the nonce owed; a success, or a failure whose handler is answered, keeps neither lock nor id; undisturbed, the counter is one further and everything else clear |
| `NonceCall.WholeCall` | src/settlement/smartContract.ts:833-862 | from a free key to a free key: an undisturbed call takes the next nonce, extends the chain if it was the one expected, and leaves marker and lock clear |
| `Lease.LeaseNeverLapses` | src/settlement/nonceManager.ts:290-312 | a manager whose heartbeats land less than one TTL apart still owns the lease, whatever the others do |
| `Lease.OnlyOwnerMovesKey` | src/settlement/nonceManager.ts:28-47 | no action but the owner's extends or drops a held key, and no owner but the actor loses it |
| `Lease.GoneForGood` | src/settlement/nonceManager.ts:28-33 | an id that left the key never comes back, so a stale holder never regains or drops a successor's lease |
| `Lease.DeadHolderLapses` | src/settlement/nonceManager.ts:246-273 | a holder that stopped acting loses the lease once its expiry passes |
| `Grouping.GroupedTimes` | src/settlement/processBatch.ts:83-94 | grouping by stream loses no entry and repeats none |
| `Grouping.InBatchOrder` | src/settlement/processBatch.ts:83-88 | an entry comes after those of its stream before it, and a stream after those seen before it |
| `Grouping.PicksPartition` | src/settlement/poisonIsolation.ts:131-141 | already-settled, poison and kept entries partition the batch |
| `Grouping.AckOrderIsPermutation` | src/settlement/processBatch.ts:79-103 | the acknowledgement order of a classified batch is a permutation of it |
| `Trace.SettleGate` | src/settlement/processBatch.ts:312-406 | a batch is submitted only if it is not empty and the last whole-array dry-run was of that batch, with that collateral, and clean |
| `Trace.CutAnywhere` | src/settlement/processBatch.ts:204-516 | wherever a call crashes, each effect so far was justified by those before it; an acknowledgement by a quarantine, or by an on-chain sighting and a writeback that was at least tried |
| `ProcessBatch.BatchRun.GroupByStream` | src/settlement/processBatch.ts:83-88 | each stream's entries in batch order, the streams in first-seen order |
| `ProcessBatch.BatchRun.AckAndDelete` | src/settlement/processBatch.ts:79-103 | acknowledges a leading part of the grouped entries, deletes a leading part of those, all of both unless a reply threw |
| `ProcessBatch.BatchRun.FilterAlreadySettledMatches` | src/settlement/smartContract.ts:685-729 | every entry is read, and counts as settled exactly when its own read succeeded and said so |
| `ProcessBatch.BatchRun.ReleaseLocksForAlreadySettled` | src/settlement/processBatch.ts:129-167 | every entry is written back, or its own writeback threw; it never throws itself |
| `ProcessBatch.BatchRun.SimulateSettleBatch` | src/settlement/poisonIsolation.ts:55-84 | an empty batch is clean without a dry-run; any other gets the verdict of its reply |
| `ProcessBatch.BatchRun.SimulateMatchesForPoison` | src/settlement/poisonIsolation.ts:98-159 | poison is what its own probe rejected for good; any flaky probe or re-simulation gives no verdict; clean means the survivors' own dry-run was clean |
| `ProcessBatch.BatchRun.QuarantinePoisonMatches` | src/settlement/processBatch.ts:175-186 | no poison entry is acknowledged before every one of them is quarantined |
| `ProcessBatch.BatchRun.SettleBatch` | src/settlement/processBatch.ts:383-443 | reached only through the settle gate; returning means mined |
| `ProcessBatch.BatchRun.Isolate` | src/settlement/processBatch.ts:312-372 | a flaky dry-run or probe means a retry and nothing quarantined; survivors that still revert are a final failure; otherwise they passed the gate with all poison quarantined, unless quarantining threw |
| `ProcessBatch.BatchRun.ProcessSettlementBatch` | src/settlement/processBatch.ts:204-516 | for every batch and every behaviour of the outside: the trace says what the replies said, effects are justified, acknowledgement is in order, every class and every ending has its reason, one collateral read serves all, and a return means all acknowledged and every writeback tried |
| `ProcessBatch.AllWellReturns` | src/settlement/processBatch.ts:312-516 | if no reply throws and every dry-run and probe is clean, the call returns |
| `ProcessBatch.ReturnAcksEverything` | src/settlement/processBatch.ts:494-497 | a call that returns acknowledged and deleted each entry exactly as often as it was read |
| `ProcessBatch.AckedAndLeft` | src/settlement/processBatch.ts:79-103 | however a call ends, what it acknowledged and what it left make up its batch |
| `Protocol.StepKeepsInv` | src/settlement/processBatch.ts:233-249 | every step of every process keeps SETTLED on chain and what calls have seen true |
| `Protocol.SettlementSound` | src/settlement/database/apply-settlement.ts:340-346 | in every reachable world a SETTLED match is settled on chain, the ungated path, crashes and ghosts included |
| `Protocol.NoMatchIsLost` | src/settlement/processBatch.ts:129-186 | in every run an acknowledged match that is still PENDING is settled on chain, unless its own row arrived after its own quarantine |
| `Protocol.AckedLeavesPending` | src/settlement/processBatch.ts:129-167 | in every run an acknowledged match is PENDING only if its own writeback threw, or its row came after its own quarantine or writeback |
| `Protocol.StepLosesExactly` | src/settlement/processBatch.ts:180-185 | exactly which steps lose a match, the failure path's acknowledgements included: a late row of an acknowledged match that is off chain, or acknowledging one that is PENDING and off chain |
| `Protocol.RecordedMayBeForgotten` | src/settlement/batchProcessor.ts:312-341 | once the failure path has recorded a batch, its matches with a row are never PENDING again, so forgetting their entries loses nothing |
| `Protocol.LateAckWasQuarantined` | src/settlement/processBatch.ts:175-186 | a call acknowledges an off-chain match only after quarantining it |
| `Protocol.CallIsRun` | src/settlement/processBatch.ts:204-516 | every justified trace whose reads told the truth of their moment is what one call leaves in a run, whatever steps of other calls, the sweeper, the failure path, the db-writer and the chain come between its own |
| `Protocol.AckedWasResolved` | src/settlement/processBatch.ts:238-249 | whatever a call acknowledged it had quarantined, or seen on chain and tried to write back |
| `Protocol.StatusIsFinal` | src/settlement/database/order-failure.ts:111-120 | a status out of PENDING changes if and only if the ungated path records that match with another outcome |
| `Protocol.EarlyEntryIsLost` | src/settlement/processBatch.ts:180-185 | without the row first, an entry can be acknowledged and its match be left PENDING and off chain |
| `Processor.BatchProcessor.ReclaimPending` | src/settlement/batchProcessor.ts:382-417 | what reclaim read goes into the queue once each, nothing queued is lost, with steady parsing the loop adds at most readCount, and when nothing throws it reads or drops the whole window |
| `Processor.BatchProcessor.CleanUp` | src/settlement/batchProcessor.ts:303-341 | each of the three transactions is tried whatever became of the others, with other sessions' gated ones between them, then entries are forgotten front to back, a lost reply included; all three commit if no query throws and all entries go if no reply does |
| `Processor.BatchProcessor.ProcessBatch` | src/settlement/batchProcessor.ts:242-375 | the batch leaves the queue; the tables made by the call's own writebacks and quarantines and everyone else's, then cleaned up, others in between again, if the failure is final; failure count and backoff after each way of ending; a return that lost no writeback leaves none of the batch PENDING |
| `Processor.RecordedLeftPending` | src/settlement/processBatch.ts:180-184 | whatever else was committed, each match the call quarantined or wrote back is out of PENDING when it ends |
| `Sweeper.CheckMatchesSettledOnChain` | src/settlement/smartContract.ts:744-774 | the map holds exactly the ids whose read succeeded, with what was read |
| `Sweeper.Sweep` | src/settlement/settlementSweeper.ts:142-225 | only matches read as not settled are remediated, unknown and settled ones are left, each counter counts what it says, and none is lost if and only if no query throws |
| `Sweeper.SweepConserves` | src/settlement/settlementSweeper.ts:168-212 | a sweep conserves reservations and fills whatever others commit between its candidates and however it ends |
| `Sweeper.FaultFree` | src/settlement/settlementSweeper.ts:168-212 | a sweep whose reads tell the truth, that loses nothing and that no one interferes with fails exactly the candidates not on chain |
| `Sweeper.ReachedNext` | src/settlement/database/pending-settlement-sweep.ts:78-105 | the next sweep selects a stuck match if and only if fewer than `limit` older ones are PENDING |
| `Sweeper.EventuallySweptExactly` | src/settlement/settlementSweeper.ts:142-225 | a stuck match is eventually failed if and only if fewer than `limit` older PENDING matches are settled on chain |
| `Accumulator.FirstsMeans` | src/settlement/batchAccumulator.ts:38-50 | an entry is kept exactly when nothing before it has its id |
| `Accumulator.BatchAccumulator.constructor` | src/settlement/batchAccumulator.ts:23-32 | starts empty, with a capacity of five batches unless told otherwise |
| `Accumulator.BatchAccumulator.AddMatches` | src/settlement/batchAccumulator.ts:38-50 | the queue becomes the first `maxCapacity` of the first occurrences of queue plus input, and the seen set stays the queued ids |
| `Accumulator.PiecesAddUp` | src/settlement/batchAccumulator.ts:38-50 | adding in pieces equals adding the concatenation, full or not |
| `Accumulator.NothingTurnedAway` | src/settlement/batchAccumulator.ts:40-42 | short of capacity every id offered is queued |
| `Accumulator.BatchAccumulator.GetBatch` | src/settlement/batchAccumulator.ts:90-96 | hands out the whole queue, without duplicates, and empties it |
| `Accumulator.BatchAccumulator.NeverStuck` | src/settlement/batchAccumulator.ts:60-82 | the queue asks for more or offers a batch, offers one once the interval has passed, and before that only a full one |
| `Recovery.Consumer.ProcessEntry` | src/redis/settlementMatchConsumer.ts:195-231 | a valid entry stays pending, an invalid one is acknowledged only after it was dead-lettered, and it throws only if parsing or a reply does |
| `Recovery.Consumer.ReadOwnPending` | src/redis/settlementMatchConsumer.ts:337-388 | one read from '0': which of the first `readCount` entries stayed, which went, and whether another read follows; all of them are processed unless something throws |
| `Recovery.Consumer.ProcessPendingEntries` | src/redis/settlementMatchConsumer.ts:333-391 | the loop ends, returns fewer than cap plus readCount matches, each still pending unless later found invalid, loses no entry, and with steady parsing never sees past the first readCount; unless something throws it processes all of those and goes on to the cap or the end of the list |
| `Recovery.ReclaimAddsFew` | src/settlement/batchAccumulator.ts:38-50 | however often an entry was re-read, the queue gains it once, and at most readCount of the loop's entries in all |
| `Uint256.NonNegativeIsBijective` | src/schemas/match.ts:56-60 | the accepted fee strings are exactly the printed forms of 0 to 2^256-1, one string per number |
| `Uint256.PositiveIsNonNegativeButZero` | src/schemas/match.ts:40-44 | the accepted amounts are the same without zero |
| `Uint256.PrintedBack` | src/schemas/match.ts:56-60 | parsing a canonical string and printing it gives the string |
| `Uint256.PrintIsCanonical` | src/schemas/match.ts:56-60 | printing a number gives a canonical string that parses to it |
| `Uint256.AcceptedLength` | src/schemas/match.ts:16-30 | canonical strings of up to 77 digits are accepted and none of more than 78 is |
| `Uint256.EachFieldItsOwn` | src/settlement/smartContract.ts:264-273 | each argument of the contract is the number its own field denotes |
| `Uint256.ContractAmountsPrintBack` | src/settlement/smartContract.ts:264-273 | the amounts converted for the contract fit uint256 and print back to the match's own fields |
| `Uint256.ContractAmountsComeFromOneMatch` | src/settlement/smartContract.ts:264-273 | each tuple of contract amounts comes from exactly one accepted tuple of strings |
| `Retry.WhatIsRetried` | src/settlement/database/connection.ts:95-131 | the codes that are retried, the codes that are final, unknown codes retried, and errors without a code final |
| `Retry.BackoffIsMonotone` | src/settlement/helpers.ts:3-5 | backoff never shrinks with the attempt and never exceeds its maximum |
| `Retry.BackoffSaturates` | src/settlement/batchProcessor.ts:361-367 | with a positive base it reaches the maximum and stays there |
| `Retry.CapNeverBites` | src/settlement/database/connection.ts:155-190 | inside the retry loop the delay is always the uncapped one |
| `Retry.ExecuteWithRetry` | src/settlement/database/connection.ts:149-195 | at most maxRetries + 1 runs, every one but the last failed transiently, and the sleeps double from the first |
| `Retry.ExhaustedExactly` | src/settlement/database/connection.ts:149-195 | the operation is exhausted if and only if every run fails transiently, after sleeping retryDelayMs * (2^maxRetries - 1) |

## Left out

- Redis, Postgres, chain, RPC and HTTP clients, logging and timers: steps that may answer, fail or crash.
- `applyOnChainEffect`, stamps and position upserts: their package is not part of this model; `ApplySettlementResult` only knows that they may throw before any writeback.
- Contract internals, event decoding, hashes and ids, error-text matching, config, ABI files, shutdown.
- XTRIM and dead-letter trimming: approximate by design, and able to evict entries whatever their state.
- The second (XCLAIM) loop of `processPendingEntries`: it depends on wall-clock idle time; what it claims is an arbitrary list.
- Single-flight of `poll`: overlapping batches are allowed everywhere except where a lemma says one call per manager.
- `pending_collateral_flags`: an arbitrary map, read once per batch; its de-duplication in the contract encoding is not modelled.
- "FAILED implies not settled on chain": not an invariant of the code, so not claimed.
- Ingest validation other than the amount strings: what parsing an entry says is arbitrary, and may change with time (`maturity` is compared with the clock) unless a contract says it is steady.
- Recovery.Consumer.ProcessPendingEntries: nobody else adds to or claims from this consumer's pending list during the loop, so the list is this consumer's own to change.
- Database.Connection.WritebackSettledMatches: other sessions' commits between its transactions are not shown here; each transaction stands alone, and `RowLocks` and `Protocol` interleave them.
- Processor.BatchProcessor.ProcessBatch: others commit arbitrary gated transactions between the call's own ones and between the three of its failure path; the db-writer in between is in `Bystanders`, another session's ungated failure path in `Protocol` only. Which hash or reason a writeback or quarantine stamps is arbitrary.
- Interference.CleanupConservesIff: what comes between the three transactions is gated; the db-writer's steps there are in `Bystanders.CleanupAmidAnything`, one way.
- Sweeper.EventuallySweptExactly: the chain and the matches past the threshold stay as they are while the sweeps run, and every read and commit succeeds.
- Nonce.NonceNeverLeavesGap: holds of runs that keep `Nonce.Assumed`, as the code has nothing that restores the counter in the others; `Stranded`, `Expiry` and `SharedManager` say what happens there.
- Batches.TwoDeadlockExactly: about two transactions and their own statements; a third transaction or the db-writer in between is left to `Deadlock.DeadlockFree`.
- Protocol.NoMatchIsLost: about the entries that `processSettlementBatch` acknowledges; those of the failure path are in `Protocol.StepLosesExactly` and `RecordedMayBeForgotten`.
- Retry.ExecuteWithRetry: delays are exact integers; JavaScript numbers stop being exact beyond 2^53.
