# Verified model of the fast-transfer solver

The solver fills cross-chain orders with its own funds, settles them in batches for
repayment, relays the settlement messages between chains, refunds expired orders and moves
its funds to where they are needed. It is a set of loops that share one SQL database and act
on several chains. This project models the parts of it where something can go wrong between
the loops, or in the arithmetic, and proves what holds over every input and every run.

`dafny verify dfyconfig.toml` checks all files.

## How it is organised

| files | what they model |
|---|---|
| `Tables`, `Protocol`, `Invariant`, `Preservation`, `Theorems`, `Stretches`, `Witnesses` | The settlement and relay protocol: order settler, relayer, timeout worker, tx verifier, database, mutex, chains and clock as one state machine. Each database call, mutex operation and chain call is one step; steps interleave freely; the process may die and restart at any point. `Witnesses` has runs that show what does not hold, put together from the stretches in `Stretches`. |
| `Store` | The same tables as an object updated in place, and the calls that change several rows. |
| `Batching`, `SettlementBatches` | Grouping rows into batches through maps, for every map iteration order; totals; choosing what to rebatch. |
| `Float53`, `Fees` | 53-bit binary floating point rounded to nearest even, the profit margin computed with it, the fee gate on fills, the relay cost cap. |
| `Rebalancing`, `RebalanceRuns`, `GasGate` | How much a chain needs, who gives it, the transfer tracker, runs of passes against landing transfers, and the gas gate's memory. |
| `OrderQueue`, `QueueRuns` | The deduplicating order queue, as an object and under fine-grained concurrency. |
| `Hex`, `Metadata`, `Quorum` | Hex text, the byte layout of multisig metadata, and collecting a quorum of checkpoints. |
| `LogScan`, `BlockScan` | The concurrent log queries of one scan with their shared error variable, scanning blocks in chunks, and the stored cursor over polling runs. |
| `FillRuns`, `Refunds`, `Fulfillment` | The queue and the fill workers together, refunding expired orders seen through lagging nodes, and the handler's status and timeout of one order. |

Concurrent parts are state machines: a `State`, one predicate per step, an invariant every
step keeps, and theorems over all runs. Code that updates rows or maps in loops is a method
or a class whose `ensures` ties the result to a specification function.

## What is assumed

- Hashes of transactions the solver sends are fresh, and no chain id equals a tx hash.
- A transaction dispatches at most one hyperlane message, and message ids are not reused.
- The two tables are unique in the columns the migrations declare unique.
- The clock does not go backwards; database timestamps have whole seconds.
- One instance of the process runs at a time.
- Block times of the destination chain do not decrease, and its contract takes no fill after
  the timeout.

## What the code does not do

Where the code and its documentation or the obvious claim disagree, the model follows the
code. Each of these is stated by the member named.

- A complete settlement goes back to pending when its batch is cleared
  (`Witnesses.CompleteIsReopened`; exactly when: `Theorems.CompleteEndsExactly`).
- `CancelRelay` returns true for a tx whose delivery has been sent but not been seen yet, so
  two txs of one settlement can both be delivered (`Witnesses.BothTxsAreRelayed`; exactly when:
  `Theorems.RelayedBeforeCancelExactly`). No delivery is sent after the true answer.
- The call that abandons a reverted delivery passes its two keys in the wrong order, so no
  transfer is ever abandoned (`Theorems.NeverAbandoned`, `Theorems.SwappedFindsNothing`).
- Delivery attempts are at least ten minutes apart, not more than ten minutes
  (`Witnesses.TenMinutesIsReached`; exactly when: `Theorems.TenMinutesExactly`).
- A negative relay timeout acts as one that has passed; the configuration's comment says that
  -1 means none. The margin is then not kept (`Witnesses.NegativeTimeoutLosesMargin`; exactly
  when: `Fees.NegativeTimeoutIsExpired`, `Theorems.StoredCapExactly`).
- The reported fee difference wraps around in 64 bits (`Fees.GateReportCanLie`).
- A rebalancing pass reads the balance first and the pending transfers second, and can send
  too much when a transfer lands and is marked in between, although every transfer is
  recorded and none is marked early (`RebalanceRuns.RaceOvershoots`).
- A rebalance transfer that failed counts as a success when its last error text is empty; the
  error kept is the last one, while the comment speaks of the first
  (`Rebalancing.FailureTakenForSuccess`).
- Checkpoints are grouped by root alone, so a quorum can mix messages
  (`Quorum.MixedMessages`).
- A log query whose failure is wiped from the shared error variable by another's success
  drops its blocks without an error. A query that reports its failure before the loop that
  hands the queries out has looked at the group for the last time, which it does once more
  after the last query, makes the whole scan end without orders and without an error, even a
  scan of a single chunk. Either way the cursor moves on and orders are lost
  (`BlockScan.SwallowedIsLost`, `BlockScan.CutShortIsLost`; exactly when:
  `BlockScan.LostExactly`, `BlockScan.AllAnsweredExactly`, `LogScan.OneChunkExactly`).
- A quick start on a chain shorter than the distance to go back wraps around and skips every
  block so far (`BlockScan.QuickStartSkips`).
- An order lost in a reorganisation is marked abandoned and filled all the same, and a slow
  worker can make it be filled twice (`FillRuns.LostOrderIsFilledTwice`; exactly when a filled
  order is such a one: `FillRuns.FilledThoughLostExactly`; twice only when:
  `FillRuns.DoubleFillsAreLate`).

## Model

| member | source | states |
|---|---|---|
| `Theorems.OneLiveTransfer` | ordersettler/ordersettler.go:373-433 | In every reachable state, of all initiate txs a settlement row ever carried at most one has a transfer that is not cancelled, and it is the one the row carries now |
| `Theorems.TxIsReplacedOnlyAfterCancel` | ordersettler/ordersettler.go:404-430 | A row is never deleted and loses its tx only to none, after CancelRelay returned true for that tx and while no live transfer of it exists |
| `Theorems.ClearingAgainChangesNothing` | ordersettler/ordersettler.go:404-430 | A cancelled tx that no row carries any more never comes back in any run, so the clear repeated for other rows of its batch changes nothing |
| `Theorems.ClearEmptiesTheBatch` | db/gen/db/order_settlements.sql.go:13-17 | The clear after a true answer removes the tx from every row, and turns a complete row back to pending exactly when that row carries this tx |
| `Theorems.CompleteEndsExactly` | ordersettler/ordersettler.go:404-430 | In every run a step takes a complete row out of complete if and only if it is a clear for the tx of that row |
| `Witnesses.CompleteIsReopened` | db/gen/db/order_settlements.sql.go:13-17 | A run from the empty database in which a complete row goes back to pending: the other row of its batch, whose answer is still out, is rebatched with a new order an hour after the tx was handed over and sent for delivery, and the clear opens both |
| `Theorems.CancelIsFinal` | hyperlane/relayer_runner.go:202-236 | After CancelRelay returned true for a tx, no later step of the run relays that tx |
| `Theorems.SentIsNotCancelled` | hyperlane/relayer_runner.go:216-233 | A relayer about to send holds a transfer that no cancel has returned true for |
| `Theorems.CancelledIsNotLive` | hyperlane/relayer_runner.go:85-91 | After a cancel that returned true no transfer of the tx is in another status |
| `Theorems.RelaysEndWithCancel` | hyperlane/relayer_runner.go:85-91 | From a true answer on, a tx has been relayed in a later state of the run exactly if it had been at that answer |
| `Theorems.RelayedBeforeCancelExactly` | ordersettler/ordersettler.go:404-430 | A tx a settlement carried and lost was cancelled in some step of the run, and it was ever relayed if and only if it had been before that step, which is exactly when a settlement can have two txs delivered |
| `Witnesses.BothTxsAreRelayed` | hyperlane/relayer_runner.go:202-236 | A run in which CancelRelay returns true for a tx already sent for delivery, the settlement is rebatched, and its new tx is delivered too |
| `Theorems.StatusIsFinal` | hyperlane/relayer_runner.go:57-83 | A transfer row is never deleted, changes nothing but its status, and never changes again once that has left pending |
| `Theorems.StepFrame` | hyperlane/relayer_runner.go:57-83 | No step of any loop moves a transfer out of a final status, forgets a cancelled tx, or changes the tx of a row unless it records or clears one |
| `Theorems.DeliveriesInOrder` | hyperlane/relayer_runner.go:268-300 | All delivery attempts of a transfer but the last are abandoned, any two are at least ten minutes apart, and the most recent one is the last and has no tie |
| `Theorems.TenMinutesExactly` | txverifier/txverifier.go:154-166 | When exactly two consecutive attempts are stamped more than ten minutes apart, given timestamps in whole seconds |
| `Witnesses.TenMinutesIsReached` | txverifier/txverifier.go:154-166 | A run in which two attempts are stamped exactly ten minutes apart |
| `Theorems.RowShape` | ordersettler/ordersettler.go:554-627 | Past pending a row has a tx; a transfer id belongs to an initiated or complete row and names a transfer sent by the row's own tx on its destination |
| `Theorems.SharedTxSharesChains` | ordersettler/ordersettler.go:194-233 | Rows with one initiate tx share source and destination, so batches by hash may read both from their first row |
| `Theorems.RecordNeverOverwrites` | ordersettler/ordersettler.go:494-550 | Every row of a batch being recorded carried no tx, and afterwards carries the batch's |
| `Theorems.NeverAbandoned` | hyperlane/relayer_runner.go:142-165 | No transfer is ever abandoned, in any run |
| `Theorems.SwappedFindsNothing` | hyperlane/relayer_runner.go:150-156 | In every reachable state the lookup with swapped keys, made for any row, finds no row of the table at all |
| `Theorems.RelayWithinCap` | hyperlane/relayer.go:262-302 | Every relay of every run paid a positive quoted fee of at most the larger of the stored cap and the relay cost cap |
| `Theorems.MarginKept` | ordersettler/ordersettler.go:238-269 | A settlement relay sent before its timeout leaves of the batch's profit at least the computed margin on its value, and a batch whose fee cap is not positive is not relayed before the timeout, provided the two clock readings its stored cap was computed with were no further apart than that timeout |
| `Theorems.StoredCapExactly` | hyperlane/relayer_runner.go:380-425 | The stored cap is the one that keeps the margin exactly when the two clock readings around its computation are no further apart than the timeout, or the relay cost cap does not raise it |
| `Witnesses.NegativeTimeoutLosesMargin` | hyperlane/relayer_runner.go:396-419 | A run with a timeout of -1 in which a relay sent at the very time its transfer was created leaves less than the margin |
| `Theorems.TermsAreTheBatch` | ordersettler/ordersettler.go:300-322 | The terms the margin is stated on are the totals of the batch that was handed over and the time between those two clock readings, for the very transfer row that was inserted |
| `Theorems.TermsAreKept` | hyperlane/relayer_runner.go:310-359 | No later step of the run changes the terms of a submitted transfer |
| `Theorems.Reachable` | ordersettler/ordersettler.go:86-115 | The protocol's invariant holds in every state of every run |
| `Preservation.StepKeeps` | hyperlane/relayer_runner.go:57-236 | Every step of settler, relayer, timeout worker, verifier, chains and restart keeps the protocol's invariant |
| `Invariant.OneRowPerTx` | hyperlane/relayer_runner.go:310-378 | Two transfer rows are never sent by the same tx |
| `Store.Database.SetInitiateSettlementTx` | db/gen/db/order_settlements.sql.go:278-283 | Exactly the row with the key gets the tx |
| `Store.Database.ClearInitiateSettlement` | db/gen/db/order_settlements.sql.go:13-17 | Afterwards no row of the destination carries the tx; all other rows are as they were; a null tx clears nothing |
| `Store.Database.GetHyperlaneTransferByMessageSentTx` | db/gen/db/hyperlane_transfers.sql.go:51-77 | Returns a row sent by the tx on the chain, and none only if there is none |
| `Store.Database.InsertHyperlaneTransfer` | db/gen/db/hyperlane_transfers.sql.go:78-87 | Adds the row under a fresh id, or nothing when its message has a row; messages stay unique |
| `Store.Database.SetMessageStatus` | db/gen/db/hyperlane_transfers.sql.go:123-128 | The rows with the message, and no others, get the status |
| `Store.OneMessageOneRow` | db/migrations/000006_hyperlane_transfers.up.sql:17 | The update by message changes one row only |
| `Store.CreatePendingSettlements` | ordersettler/ordersettler.go:117-147 | No row that was there changes, every key found gets a row, and a new row is the first one found for its key; a failed insert ends it with the rows before it kept |
| `Store.CreatingAgainChangesNothing` | ordersettler/ordersettler.go:117-147 | Finding the same fills again changes nothing |
| `Store.LinkBatch` | ordersettler/ordersettler.go:218-230 | Exactly the rows up to the first missing one get the transfer id, and nothing else of any row changes |
| `Store.VerifyOrderSettlement` | ordersettler/ordersettler.go:554-627 | The row ends complete exactly if its tx is known to have succeeded and the payout chain says so, failed exactly if the tx reverted, and pending only if the tx is not known to have succeeded; nothing else changes |
| `Store.UpdateTransferStatusIfPending` | hyperlane/relayer_runner.go:57-83 | The row found gets the status exactly if it was pending, and no other row changes |
| `Store.CancelRelay` | hyperlane/relayer_runner.go:85-91 | True exactly when the row was pending or had been cancelled, which is when it is cancelled afterwards; an error exactly when the tx has no row |
| `Store.SubmitTxToRelay` | hyperlane/relayer_runner.go:310-378 | A tx already submitted changes nothing and returns its row; otherwise a pending row with the cap is added, or id 0 returned on a conflict |
| `Store.RecordBatch` | ordersettler/ordersettler.go:513-547 | One transaction: on success exactly the batch's rows carry the tx, on any failure the table is as before |
| `Store.CancelOne` | ordersettler/ordersettler.go:410-430 | The transfer found is cancelled if it was pending, all rows with its tx are opened again exactly if it is cancelled then, and nothing else changes; nothing at all changes if there is none |
| `Store.CancelSettlementRelays` | ordersettler/ordersettler.go:404-433 | Up to the first due row whose tx has no transfer: exactly the pending transfers of due rows are cancelled, and exactly the settlements that share a due row's tx whose transfer is then cancelled are opened again |
| `Store.CancelPassEffect` | ordersettler/ordersettler.go:404-433 | After a pass a due row's pending transfer is cancelled, no row carries a due tx whose transfer is cancelled, and a due row whose transfer succeeded is as it was |
| `Store.MostRecentTx` | hyperlane/relayer_runner.go:427-435 | An attempt of the list that none is later than, the first one on a tie |
| `Batching.GroupInto` | ordersettler/types/settlements.go:34-38 | The append loop leaves, for every key that occurs and no other, the items with that key in their order |
| `Batching.Collect` | ordersettler/types/settlements.go:40-44 | For every map order: non-empty batches with pairwise distinct keys, each all the items of its key in input order, none left out |
| `Batching.GroupingConserves` | ordersettler/types/settlements.go:21-45 | Any total over the items equals the total over all batches |
| `Batching.GroupingIsAPermutation` | ordersettler/types/settlements.go:21-45 | The batches together are the items with their multiplicities |
| `SettlementBatches.IntoBatchesByChains` | ordersettler/types/settlements.go:21-45 | A grouping of the rows by both chains; multiset, total value and total profit conserved |
| `SettlementBatches.IntoBatchesByHash` | ordersettler/types/settlements.go:51-65 | The same by initiate tx, for exactly the rows that have one |
| `SettlementBatches.BatchTotalsConserved` | ordersettler/types/settlements.go:127-149 | Value and profit of all batches of any grouping add up to those of the rows |
| `SettlementBatches.SumValue` | ordersettler/types/settlements.go:127-137 | The running sum is the total value |
| `SettlementBatches.SumProfit` | ordersettler/types/settlements.go:139-149 | The running sum is the total profit |
| `SettlementBatches.PendingSettlementBatches` | ordersettler/ordersettler.go:359-371 | A grouping by chains of exactly the pending rows without a tx |
| `SettlementBatches.HashBatchesCanBeSubmitted` | ordersettler/ordersettler.go:194-205 | Batches by hash of the initiated rows are what the protocol's submit step starts from |
| `SettlementBatches.ChainBatchesArePlan` | ordersettler/ordersettler.go:152-185 | Batches by chains of the pending rows are what the protocol's settle step starts from, batch by batch the same rows |
| `SettlementBatches.SettlementsToCancel` | ordersettler/ordersettler.go:373-404 | As often as it was read, every row with a transfer for whose destination a row without a tx waits, and no other row |
| `Float53.RoundError` | ordersettler/ordersettler.go:316-318 | Rounding to 53 bits is off by at most a 2^-53 part |
| `Float53.RoundIsRepresentable` | ordersettler/ordersettler.go:316-318 | The result has a 53-bit significand |
| `Float53.RoundIsNearest` | ordersettler/ordersettler.go:316-318 | No number with a 53-bit significand is nearer |
| `Fees.FloatMarginWithinOne` | ordersettler/ordersettler.go:316-319 | The margin from rounded basis points, a rounded quotient and a rounded product, truncated, differs from the exact floor by at most 1, up to 2^51 |
| `Fees.CoveredMargin` | ordersettler/ordersettler.go:316-321 | Profit that covers the exact margin covers the rounded one |
| `Fees.GatedTotals` | orderfulfiller/order_fulfillment_handler/order_fulfillment_handler.go:358-377 | The fees of orders the gate accepted cover the margin on their total |
| `Fees.GatedBatchCap` | ordersettler/ordersettler.go:300-322 | The fee cap of a batch of accepted orders is at least 0, float rounding included, when the minimum fee is no lower than the margin |
| `Fees.GateMatchesReport` | orderfulfiller/order_fulfillment_handler/order_fulfillment_handler.go:358-377 | For every positive amount in: when exactly acceptance and a reported difference of at most 0 agree |
| `Fees.GateReportCanLie` | orderfulfiller/order_fulfillment_handler/order_fulfillment_handler.go:373-376 | A rejected order whose reported difference is negative |
| `Fees.CapNeverDecreases` | hyperlane/relayer_runner.go:380-425 | The effective cap of a relay never gets smaller over time |
| `Fees.NegativeTimeoutIsExpired` | hyperlane/relayer_runner.go:396-399 | A relay is timed out from its very start exactly when its timeout is negative |
| `Rebalancing.PendingBalance` | fundrebalancer/fundrebalancer.go:486-502 | The sum of the pending amounts bound for the chain |
| `Rebalancing.MoveFundsToChain` | fundrebalancer/fundrebalancer.go:217-370 | Without a failure exactly the smaller of the need and all the spare funds of other chains not refused is moved, sources keep their targets, rows equal txs; with a failure at most the last tx has no row and no more than needed was sent |
| `Rebalancing.AnyOrderMovesTheSame` | fundrebalancer/fundrebalancer.go:225-226 | The amount does not depend on the order the chains come in |
| `Rebalancing.UpdateTransferStatus` | fundrebalancer/transfermonitor.go:78-173 | When exactly a row stays pending or is abandoned, and which completed rows fail |
| `Rebalancing.FailureTakenForSuccess` | fundrebalancer/transfermonitor.go:122-133 | A failed transfer counts as a success exactly when its last failed hop has an empty error text |
| `RebalanceRuns.NoOvershoot` | fundrebalancer/fundrebalancer.go:168-211 | In every run, balance and funds in flight exceed the larger of starting value and target by no more than deposits, transfers unmarked too early and transfers raced between the two reads |
| `RebalanceRuns.NeverAboveTarget` | fundrebalancer/fundrebalancer.go:168-211 | Without any of these they never exceed it |
| `RebalanceRuns.LateUpdatesUnderfund` | fundrebalancer/fundrebalancer.go:177-189 | What landed and is still marked pending lowers what a pass sends by its full amount |
| `RebalanceRuns.PassOvershootsExactly` | fundrebalancer/fundrebalancer.go:168-211 | When exactly a pass asks for more than the target leaves room for |
| `RebalanceRuns.RaceOvershoots` | fundrebalancer/fundrebalancer.go:172-194 | A run that overshoots by the raced amount though every transfer is recorded and none is unmarked early |
| `RebalanceRuns.StepKeeps` | fundrebalancer/transfermonitor.go:54-76 | Every step of a pass, the tracker and the chain keeps the accounting invariant |
| `GasGate.MemoryIsFirstFailure` | fundrebalancer/fundrebalancer.go:846-864 | What is remembered for a chain is the time of the earliest check over the limit since the last one within it, and nothing when there is none |
| `GasGate.GasGate.IsGasAcceptable` | fundrebalancer/fundrebalancer.go:841-886 | Accepted exactly when within the limit, or within the cap with more than the timeout since that first failure |
| `OrderQueue.OrderQueue.QueueOrder` | orderfulfiller/orderqueue/orderqueue.go:41-57 | Queued exactly when not in the queue, not within the requeue delay and the channel has room; then last in line |
| `OrderQueue.OrderQueue.PopOrder` | orderfulfiller/orderqueue/orderqueue.go:59-71 | The order waiting longest leaves, and its requeue time is set |
| `OrderQueue.OrderQueue.Cleanup` | orderfulfiller/orderqueue/orderqueue.go:73-89 | Exactly the entries that ran out are dropped, and no answer from then on changes |
| `QueueRuns.MapIsExact` | orderfulfiller/orderqueue/orderqueue.go:41-71 | In every interleaving, whenever the mutex is free the in-queue map is exactly the orders in the channel or in a pop; none is there twice; the channel is within its capacity |
| `QueueRuns.HandoffsApart` | orderfulfiller/orderqueue/orderqueue.go:59-71 | Two hand-offs of one order are at least the requeue delay apart |
| `QueueRuns.CleanupIsInvisible` | orderfulfiller/orderqueue/orderqueue.go:73-89 | Any sequence of steps can be taken without cleanup's deletions, with the same answers |
| `QueueRuns.StepKeeps` | orderfulfiller/orderqueue/orderqueue.go:41-89 | Every step keeps the queue's invariant |
| `Hex.DecodeEncode` | hyperlane/types/types.go:97-109 | Bytes written as hex read back as they were |
| `Hex.EncodeDecode` | hyperlane/types/types.go:97-109 | Readable text has two digits a byte and is, but for case, what its bytes are written as |
| `Hex.FieldEncode` | hyperlane/types/types.go:163 | The same with and without the 0x prefix |
| `Metadata.BigEndianReadsBack` | hyperlane/types/types.go:187-191 | The four bytes of the index give the index |
| `Metadata.AppendAll` | hyperlane/types/types.go:193-206 | The loop succeeds exactly when every signature has 65 bytes, and otherwise reports the first that does not |
| `Metadata.ToMetadata` | hyperlane/types/types.go:152-209 | Succeeds exactly when hook and root have 32 bytes and every signature 65, with the fields in order; each error says which field was the first to fail |
| `Metadata.MetadataReadsBack` | hyperlane/types/types.go:153-159 | 68 bytes and 65 a signature, which parse back to exactly the hook, root, index and signatures |
| `Metadata.MetadataIsInjective` | hyperlane/types/types.go:152-209 | Checkpoints with the same metadata agree in everything it holds |
| `Quorum.CollectQuorum` | hyperlane/relayer.go:181-236 | The loop ends at the shortest prefix of the fetches in which some root has the threshold, with exactly that many, in fetcher order; or at an error before; or at the end |
| `Quorum.CheckpointAtIndex` | hyperlane/relayer.go:174-254 | A result is a quorum for the message; a wrong message means a quorum for another; a failed fetch and too few signatures are reported exactly when an error comes before any quorum, and when there is neither; a threshold of zero takes the first good checkpoint, and without one goes on with the empty one |
| `Quorum.QuorumExcludes` | hyperlane/relayer.go:181-245 | There is one quorum at most, and none together with an earlier error or with too few signatures |
| `Quorum.ReachedIsExclusive` | hyperlane/relayer.go:226-239 | The outcomes exclude each other, so too few signatures are reported exactly when no root gets there |
| `Quorum.CollectedAgree` | hyperlane/relayer.go:195-239 | Every signature handed over is on that root, for the requested index, and has 65 bytes |
| `Quorum.QuorumEncodes` | hyperlane/relayer.go:125-136 | Metadata for a quorum can fail on the length of hook or root only, and has 68 bytes and 65 for each of the threshold |
| `Quorum.MixingExactly` | hyperlane/relayer.go:226-248 | All signatures are for the requested message exactly when the good checkpoints that name it reach the threshold at the very same fetch |
| `Quorum.MixedMessages` | hyperlane/relayer.go:226-248 | For any two different messages: a quorum of two that mixes them, is for the one asked for, and makes metadata with hook, root and signatures of full length |
| `LogScan.OneChunkExactly` | transfermonitor/transfermonitor.go:311-370 | A scan of one chunk that is not shut down ends without its events and without an error exactly when its query reported its failure before the loop had ended; with orders it has that chunk's events |
| `LogScan.NoFailureFindsAll` | transfermonitor/transfermonitor.go:311-370 | A scan without a failed query and a shutdown is neither cut short nor failed, and ends with every query handed out and answered |
| `LogScan.SwallowingIsRun` | transfermonitor/transfermonitor.go:328-343 | Two queries side by side: the first one fails, the second one's success wipes the shared error, and the scan ends without an error |
| `LogScan.CuttingIsRun` | transfermonitor/transfermonitor.go:312-315 | For any number of chunks, one included: a query that reports its failure before the loop has ended makes the scan end without orders and without an error |
| `BlockScan.Chunks` | transfermonitor/transfermonitor.go:306-325 | The loop ends, in 64-bit arithmetic, with the overlapping chunks of the range |
| `BlockScan.ChunksCover` | transfermonitor/transfermonitor.go:317-325 | Each block of the range is in one chunk, or in exactly two when it is a positive multiple of 1000 past the start; no other block is in any |
| `BlockScan.FindTransferIntents` | transfermonitor/transfermonitor.go:297-376 | Orders come out for exactly the blocks in an answered chunk, and only if the loop ended by itself and no query reported an error; cut short exactly when it found the group done, be it after the last query; failed exactly otherwise |
| `BlockScan.AllAnsweredExactly` | transfermonitor/transfermonitor.go:317-325 | Every block of the range is answered for exactly when every query was answered, but for a last one whose single block the one before holds too |
| `BlockScan.NothingMissed` | transfermonitor/transfermonitor.go:107-208 | In every run whose passes answered every block they moved the cursor over, every order from the first such pass's start to the stored cursor is in the table, also when the head moves back |
| `BlockScan.ShortPassesMissNothing` | transfermonitor/transfermonitor.go:107-208 | In every run of passes over at most a thousand blocks that are not shut down in the middle and whose query does not report before the loop has ended, nothing is missed, however often queries fail otherwise |
| `BlockScan.NoFailedQueryMissesNothing` | transfermonitor/transfermonitor.go:107-208 | In every run without a failed log query and without a shutdown during a pass nothing is missed, however long the ranges |
| `BlockScan.LostExactly` | transfermonitor/transfermonitor.go:297-376 | A pass that moves the cursor has a block's orders in the table if and only if they were there before, or the loop that hands the queries out ended by itself and a query that holds the block was answered |
| `BlockScan.SwallowedIsLost` | transfermonitor/transfermonitor.go:328-343 | A run in which no error is reported, every query is handed out, and an order is lost for good |
| `BlockScan.CutShortIsLost` | transfermonitor/transfermonitor.go:312-315 | For a range of any length a pass takes, a single chunk included: a run in which a reported failure cuts the scan short and an order is lost for good |
| `BlockScan.QuickStartExactly` | transfermonitor/transfermonitor.go:127-140 | Where a quick start begins for every latest block, distance back and cursor, and when exactly that is at most the latest block or the cursor |
| `BlockScan.QuickStartSkips` | transfermonitor/transfermonitor.go:134-137 | After the wrap-around: when exactly no block is scanned, and the cursor that is stored all the same |
| `FillRuns.DoubleFillsAreLate` | orderfulfiller/order_fulfillment_handler/order_fulfillment_handler.go:191-226 | An order is filled twice only if the later job got it at least the requeue delay after the earlier one and the earlier one's fill was not recorded when the later one looked |
| `FillRuns.PromptRecordsFillOnce` | orderfulfiller/orderqueue/orderqueue.go:41-71 | A job that records its fill within the delay is the last to fill its order |
| `FillRuns.FillsPass` | orderfulfiller/order_fulfillment_handler/order_fulfillment_handler.go:172-183 | Every order a fill was ever sent for is within the size limits and pays the minimum fee |
| `FillRuns.FilledOrdersCoverTheMargin` | shared/config/config.go:621 | However the orders filled in a run are batched, the fee cap for relaying their settlement is at least 0 |
| `FillRuns.StepKeeps` | orderfulfiller/order_fulfillment_handler/order_fulfillment_handler.go:151-229 | Every step of the queue and of the fill workers keeps the invariant |
| `FillRuns.FilledThoughLostExactly` | orderfulfiller/order_fulfillment_handler/order_fulfillment_handler.go:379-407 | Every fill comes after a confirmation of its order; a filled order has been marked abandoned in the run if and only if some confirmation of it came when it was gone from its chain, which is exactly after a reorganisation |
| `FillRuns.LostOrderIsFilledTwice` | orderfulfiller/order_fulfillment_handler/order_fulfillment_handler.go:390-405 | A run in which an order gone from its chain, and abandoned for it, is filled, and twice |
| `Refunds.NoTimeoutForFilled` | orderfulfiller/orderfulfiller.go:103-131 | An order a timeout was ever sent for is filled at no time of the run, however far behind the nodes asked were |
| `Refunds.StatusIsTrue` | orderfulfiller/order_fulfillment_handler/order_fulfillment_handler.go:76-149 | A stored status is true of the chain: filled is filled, expired or refunded is not filled and never will be |
| `Refunds.OneTimeoutRow` | orderfulfiller/order_fulfillment_handler/order_fulfillment_handler.go:420-434 | No order ever has two timeout rows |
| `Refunds.TooLateIsFinal` | shared/bridges/cctp/cosmos_bridge_client.go:448-478 | A block past the timeout up to which the order was not filled settles that it never is |
| `Fulfillment.UpdateFulfillmentStatus` | orderfulfiller/order_fulfillment_handler/order_fulfillment_handler.go:59-149 | The status returned and stored is what the chain's own block at the answering height says, and pending stores nothing |
| `Fulfillment.InitiateTimeout` | orderfulfiller/order_fulfillment_handler/order_fulfillment_handler.go:409-464 | A timeout is sent exactly when none is recorded and the chain takes it; a recorded one is returned; an order has at most one row; other orders are untouched |

## Left out

- Network, storage and file access, keys, signing, logging, metrics, the command line and configuration lookup errors: their results are parameters or free choices of the model.
- Keccak, secp256k1 recovery and signature verification: two free predicates; nothing is claimed about who signed.
- WebSocket monitoring, the gas monitor, the price oracle and its cache, the generated contract bindings: connection handling or easy members.
- The manual relay and settle commands: they bypass the protocol.
- Liveness: only safety, and that the loops modelled as methods end.
- Text: chain ids, hashes and order ids in the tables are opaque names, and amounts are integers; that a stored amount may fail to parse is not modelled.
- The in-memory set of orders already seen and the threshold for settling a batch: the protocol may create any row and settle any batch, which includes what the code does.
- The rebatch timeout: the protocol may cancel any row the code could consider, at any time; the loop in `Store` takes it as a parameter.
- Retries with back-off when a tx is handed to the relayer: a failed attempt is a step that changes nothing.
- Store.Database.GetHyperlaneTransferByMessageSentTx: which row is returned when several match is left open.
- OrderQueue.OrderQueue.PopOrder: the pop as one uninterrupted call; its separate steps are in `QueueRuns`.
- BlockScan.Chunks: end blocks within 1000 of 2^64, which no stored height reaches, are excluded because the 64-bit sums then wrap around.
- BlockScan.NothingMissed: log queries are taken to answer for the chain that stays, so reorganisations are not modelled.
- Fees.FloatMarginWithinOne: stated for exact margins of at most 2^51, beyond which 53 bits do not hold the margin to within one.
- Theorems.MarginKept: says nothing of a batch whose cap was computed with clock readings further apart than the relay's timeout, for which the property is false, as with a negative timeout.
- FillRuns.DoubleFillsAreLate: stated for one process, as the queue and its delays are lost with it; the balance and confirmation checks may fail at any time.
- Store.VerifyOrderSettlement: the row is taken to be as it was read, the settler being the only writer of settlement rows.
- Rebalancing.MoveFundsToChain: called with a positive need only, as its one caller does.
- Rebalance passes for several destinations at once: `RebalanceRuns` follows one destination; the others appear as spending from it and deposits to it.
