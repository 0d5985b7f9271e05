# Spectraplex: ingestion, ledger and balance history in Dafny

Spectraplex backfills chain events through bounded, resumable connectors, keeps them as raw rows, and
derives Silver records and Gold datasets (wallet ledger, balance history, trade history, PnL summary, CSV
exports) from them. This project models the parts of that pipeline whose correctness spans several
functions or whole runs, and proves what they promise.

- **Balance history** (`BalanceHistory`, `BalanceRuns`, `BalanceRebuild`, `BalanceStore`,
  `BalanceMaterializer`, `BalanceOverlap`). The incremental table: seed row, suffix, merge by (timestamp, id),
  running sum, refusal of legacy rows, upsert by id, failure counters. Main results: the chain invariant over every
  run, confluence and idempotence under any batching, equality with the full rebuild also when deltas are corrected,
  honest completeness, and what any number of overlapping saves leave of the chain.
- **Ingestion** (`TimeWindow`, `HlPaging`, `HlBackfill`, `SolanaHistory`, `EvmScan`, `ConnectorProtocol`,
  `ConnectorProgress`). Hyperliquid time windows, the Solana two-ended cursor, EVM block windows, and the protocol in
  which any number of workers claim jobs, read cursors, fetch, crash, go stale and commit through one transaction.
  Main results: in every interleaving a stored cursor only claims what is stored, and every job that keeps its lease
  stores what it fetched and leaves less to fetch, as long as something is left.
- **Ledger** (`HlLedger`, `EvmValue`, `GoldLedger`, `LedgerTable`, `GoldAmounts`, `GoldRuns`, `GoldTimes`,
  `GoldMaterializer`). The direct parser against the Silver route, exact uint256 decoding and native flows, the
  reconciliation of the Gold ledger with the balance events, what both add up to on the amounts of the payloads, the
  ledger table with its ids and chunked upserts, and the two stored tables over whole runs, block times included.
- **Hyperliquid analytics** (`TradeHistory`, `PnlSummary`). Open/close grouping and per-coin aggregation with
  their conservation laws.
- **Export** (`CsvExport`). Escaping and row writing against a reader for section 2 of RFC 4180.
- `Common` holds sorting, filtering, summation and flattening shared by all of them.

Where the source changes things step by step, the model does too: the balance table and the database are
classes, loops are methods with invariants, and each such method is proved against a specification function
whose own properties are stated as lemmas. Decimals are `real`; every division in scope is by a power of ten.
A UUID v5 is kept as the value it hashes, or as an id that determines it. Providers, failing queries, hash-map
iteration orders and the decimal parser are parameters.

## What the proofs found

- The id of a ledger row hashes less than the id of a balance snapshot: a transfer's has no counterparty, a native
  row's has no token. Two Transfer logs of one token to one wallet, the first with logIndex 1 and the second at
  position 1 without one, share a ledger id: the statement fails and nothing of the batch is stored, while the
  balance events count both (`LedgerTable.TwoLogsAreRefused`). When a chunk of 500 ends between two such rows, the
  second overwrites the first and nothing fails (`OverwrittenAcrossChunks`). `LedgerIdsIff` and `BatchIsReplacedIff`
  give the exact condition on the raw rows.
- The ledger of a raw row is replaced when the row is materialized again, its balance events are only merged: an event
  that the new version no longer has keeps its row. `GoldRuns.LastBalanceIsLedger` states by how much last balance and
  ledger then differ, `RepairLeavesStale` gives a run, and `NothingStale` the case without a difference.
- Materializations of one key whose reads and saves overlap can break the chain of balances: nothing holds a lock
  between them. `BalanceOverlap.OverlapBreaksChain` gives a run, `ChainSurvivesRunIff` the exact condition for any
  number of overlapping saves, and `RepairsIff` when a later materialization repairs the chain.
- `history_exhausted` on a Solana cursor is not always true. A backfill of an empty wallet sets the flag; an
  incremental fetch then inherits it, has no head to stop at, and may be cut off by the limit.
  `SolanaHistory.ExhaustedKeptIff` gives the exact condition, `ExhaustedCanBeFalse` a run, and
  `ConnectorProtocol.StoredFlagIsTrue` shows that wallets with a history are free of it in every interleaving. The flag
  is read together with `before`: in a cursor without `before` it claims nothing, neither while the wallet is empty
  nor after it has got signatures.
- A Hyperliquid event that appears at a millisecond which was already served is never fetched
  (`HlBackfill.LateEventIsLost`), and an EVM reorganization below 12 blocks is not noticed by the scan.
  `ConnectorProtocol.GrowSafeIff`: growth of any kind keeps all claims if and only if no unstored event or transaction
  lies at or before a cursor held by the database or by a worker.
- A Hyperliquid fee charged in another token is booked under that token in the ledger, but subtracted from
  USDC in the balance events. `GoldLedger.FillReconcilesIff`: a fill reconciles if and only if its fee, if any,
  is in USDC; `HypeFeeDoesNotReconcile` is an input.
- The direct parser and the derivation from Silver agree on fills and funding, malformed amounts included, and
  differ exactly on ledger updates that yield an entry: deposits and withdrawals do become Silver transfers, but
  the derivation of Hyperliquid entries does not read those (`HlLedger.ParseTransaction`,
  `DepositHasNoDerivedEntry`).
- The EVM merge removes native transactions already covered by a log, not repeats within the native scan: the
  batch has distinct hashes if and only if that remainder has (`EvmScan.MergeWallet`, `RepeatedNativeIsKept`). The
  worker drops repeats before it commits (`ConnectorProtocol.Deduplicate`).
- Native flows conserve value only when the sender's amounts decode (`EvmValue.OnlyGasLeavesIff`,
  `UndecodableGasCredits`); import validation guarantees that.
- The full rebuild sorts by timestamp alone. It agrees with the incremental table at the end of every
  timestamp; row by row it agrees if and only if both orders have the same deltas place by place
  (`BalanceRebuild.RebuildEqualsIff`, `TiesCanDiffer`).
- Neutralizing formulas is not injective: a text and the same text with an apostrophe typed before it share a
  cell exactly when the former looks like a formula (`CsvExport.ProtectCollidesIff`).
- The comment on the trade history fallback speaks of a non-zero closed PnL; the code takes every fill that
  has one, zero included (adapters/src/hl_analytics.rs:136-139, 243-245). The model follows the code.

## Model

| member | source | states |
|---|---|---|
| `BalanceHistory.AccumulateSums` | adapters/src/dual_write.rs:2529-2546 | Every rebuilt balance is the seed plus the sum of all deltas up to and including its own |
| `BalanceHistory.ReplacedRowsAreInSuffix` | adapters/src/dual_write.rs:2497-2523 | A stored row with an incoming id always lies in the reloaded suffix and is superseded by an incoming event of its timestamp |
| `BalanceHistory.NextTableKeepsChain` | adapters/src/dual_write.rs:2348-2547 | A recomputation leaves the table strictly ordered with every row that has a delta equal to its predecessor's balance plus that delta, the rows before the first event included |
| `BalanceHistory.NextTableShapes` | adapters/src/dual_write.rs:2497-2547 | After a recomputation the table records exactly the incoming events and the stored rows they do not replace |
| `BalanceHistory.ShapesDetermineTable` | adapters/src/dual_write.rs:2525-2546 | Two ordered, chained tables that record the same ids, timestamps and deltas are equal, balances included |
| `BalanceRuns.RefusedIff` | adapters/src/dual_write.rs:2469-2495 | A key is refused if and only if a stored row at or after its first incoming event is outside the batch and has no delta |
| `BalanceRuns.StepKeepsSound` | adapters/src/dual_write.rs:2348-2547 | Every materialization, refused or not, keeps order, chain and agreement of rows with event ids |
| `BalanceRuns.RunKeepsSound` | adapters/src/dual_write.rs:2210-2586 | The chain invariant holds after any sequence of materializations |
| `BalanceRuns.RunShapes` | adapters/src/dual_write.rs:2210-2586 | After any run the table records exactly the accepted events plus the initial rows none of them replaces |
| `BalanceRuns.Confluence` | adapters/src/dual_write.rs:2336-2361 | Two runs that accept the same events end in the same table, however these were split, ordered and replayed |
| `BalanceRuns.ArrivalOrderIsIrrelevant` | adapters/src/dual_write.rs:2336-2361 | When no batch is refused, any split, arrival order and replays of the same delivered events end in the same table, legacy rows or not |
| `BalanceRuns.ReplayIsIdempotent` | adapters/src/dual_write.rs:2497-2546 | Replaying a batch whose events were accepted before leaves the table as it is |
| `BalanceRuns.FreshTableAcceptsAll` | adapters/src/dual_write.rs:2469-2495 | Without legacy rows no batch is ever refused: the accepted events are the delivered ones |
| `BalanceRuns.EqualsFullRebuild` | adapters/src/dual_write.rs:2210-2586 | From an empty table, any batching yields the delivered events in replay order, each with the sum of all deltas up to it |
| `BalanceRuns.EqualsLatest` | adapters/src/dual_write.rs:2497-2546 | The same when a redelivered event corrects its delta: any batching yields the latest version of every event, in replay order with running sums |
| `BalanceRebuild.RunningBalance` | adapters/src/ledger_derivation.rs:849-866 | The loop over one key yields, for each entry, the sum of the amounts so far |
| `BalanceRebuild.DeriveBalanceHistory` | adapters/src/ledger_derivation.rs:832-871 | One snapshot per entry: the snapshots of every key that occurs, each once, sorted by timestamp |
| `BalanceRebuild.RebuildAgrees` | adapters/src/ledger_derivation.rs:828-871 | However the entries were batched, incremental table and rebuild have the same timestamps and the same balance at the end of each |
| `BalanceRebuild.RebuildEqualsIff` | adapters/src/ledger_derivation.rs:846-867 | Table and rebuild agree row by row if and only if the entries of the key, sorted by time and sorted by (time, id), have the same deltas place by place |
| `BalanceRebuild.TiesCanDiffer` | adapters/src/ledger_derivation.rs:847-851 | Two entries of one timestamp listed against their ids make the two pass through different balances |
| `BalanceStore.UpsertAllContents` | adapters/src/v2_repo.rs:3676-3709 | After the upserts the table holds exactly the snapshots and the rows whose ids they do not name, one row per id |
| `BalanceStore.SurvivesIff` | adapters/src/dual_write.rs:2497-2583 | A stored row of a recomputed key keeps its value if and only if it lies before the key's first incoming event |
| `BalanceStore.SavedTable` | adapters/src/dual_write.rs:2549-2583 | Upserting the snapshots of all keys at once leaves each key with the table its own recomputation predicts, and skipped or unlisted keys untouched |
| `BalanceMaterializer.PartialIff` | adapters/src/dual_write.rs:97-152 | A network is Partial if and only if it has an event whose own key was skipped, or an event at all while the shared save failed |
| `BalanceMaterializer.CompleteMeansStored` | adapters/src/dual_write.rs:136-152 | If the status of a network is Complete, each of its events was accepted and stored with its delta |
| `BalanceMaterializer.CarriedEvents` | adapters/src/dual_write.rs:2510-2523 | The suffix loop replays, in order, the stored rows that the batch does not replace |
| `BalanceMaterializer.RunningSum` | adapters/src/dual_write.rs:2529-2546 | The balance loop writes the running sums that the chain invariant speaks of |
| `BalanceMaterializer.CountUnsaved` | adapters/src/dual_write.rs:2566-2582 | A failed save adds, per network, the number of its unsaved snapshots |
| `BalanceMaterializer.BalanceHistoryTable.SeedBefore` | adapters/src/v2_repo.rs:4312-4339 | The seed is the balance of the latest row strictly before the order, zero without one |
| `BalanceMaterializer.BalanceHistoryTable.AtOrAfter` | adapters/src/v2_repo.rs:4341-4367 | The suffix is every row of the key at or after the order, in replay order |
| `BalanceMaterializer.BalanceHistoryTable.Recompute` | adapters/src/dual_write.rs:2373-2546 | One key gives its recomputed rows, or nothing when a query failed or the suffix cannot be replayed |
| `BalanceMaterializer.BalanceHistoryTable.Save` | adapters/src/v2_repo.rs:3676-3709 | The save is atomic: all snapshots upserted, or the table unchanged |
| `BalanceMaterializer.BalanceHistoryTable.Plan` | adapters/src/dual_write.rs:2363-2547 | Before the save: the snapshots of all accepted keys, and per network the number of events in skipped keys |
| `BalanceMaterializer.BalanceHistoryTable.Materialize` | adapters/src/dual_write.rs:2324-2583 | Every key's table becomes its recomputed one, or stays when its queries failed, it was refused or the save failed; the counters are exact |
| `BalanceOverlap.LateSave` | adapters/src/dual_write.rs:2549-2583 | When other saves come between its reads and its save, every row is left as its last writer computed it |
| `BalanceOverlap.ChainSurvivesIff` | adapters/src/dual_write.rs:2363-2583 | After one late save over any table, right or wrong, the chain holds if and only if for every rewritten row the error of its seed equals the deltas its writer had not seen, and for every kept row its own error equals the new deltas before it |
| `BalanceOverlap.OffAfterSave` | adapters/src/dual_write.rs:2497-2583 | By how much each balance is off after a late save: for a rewritten row what the seed was off less the unseen deltas, for a kept row what it was off less the new deltas before it |
| `BalanceOverlap.RepairsIff` | adapters/src/dual_write.rs:2363-2583 | A materialization that nothing interrupts leaves the chain right if and only if no balance before its first event is off |
| `BalanceOverlap.ChainSurvivesRunIff` | adapters/src/dual_write.rs:2363-2583 | After any number of overlapping materializations, each reading after any earlier save, the chain holds if and only if the drift of every delivered event, computed from batches, reads and deltas alone, is zero |
| `BalanceOverlap.OverlapBreaksChain` | adapters/src/dual_write.rs:2363-2583 | Two materializations of an empty key, five and then three at a later time, that both read before either saves, store balances five and three |
| `TimeWindow.CutWindow` | adapters/src/hyperliquid.rs:474-492 | An error exactly when a saturated page holds one timestamp; otherwise a non-empty prefix of whole timestamps that drops the last one of a saturated page and cuts at the limit, never inside a timestamp |
| `TimeWindow.BoundedTimeWindow` | adapters/src/hyperliquid.rs:462-493 | The same after rejecting pages with an invalid time and dropping events before the start |
| `HlPaging.WindowHasNoGaps` | adapters/src/hyperliquid.rs:462-493 | With a faithful page, a window is exactly the events of [start, its last time], ties included; an empty window means nothing is left |
| `HlPaging.StuckIffCrowded` | adapters/src/hyperliquid.rs:477-487 | A window fails to advance if and only if the earliest remaining timestamp holds at least as many events as the cap |
| `HlPaging.WindowAdvances` | adapters/src/hyperliquid.rs:506-508 | A non-empty window moves the resume point strictly, to one past its last time |
| `HlPaging.WindowsConcatenate` | adapters/src/hyperliquid.rs:331-386 | Successive windows hold exactly the events between the first and the last cursor, each once |
| `HlPaging.WindowsSorted` | adapters/src/hyperliquid.rs:331-386 | Their concatenation is in time order |
| `HlPaging.WindowsDrain` | adapters/src/hyperliquid.rs:331-386 | A fixed history is drained by at most as many windows as it has events left |
| `HlBackfill.BackfillNeverFails` | adapters/src/hyperliquid.rs:312-406 | If no timestamp of a stream holds as many events as its cap, no stream of a backfill fails, whatever the cursor |
| `HlBackfill.BackfillsDrain` | adapters/src/hyperliquid.rs:312-406 | Repeated backfills of a fixed history leave nothing of a stream after as many runs as it has events left, and bring exactly what was missing |
| `HlBackfill.Drain` | adapters/src/hyperliquid.rs:312-406 | Repeating wallet backfills until one brings nothing ends, without a failure, after at most one run more than there are events left, with all three streams empty and exactly the missing events brought |
| `HlBackfill.Append` | adapters/src/hyperliquid.rs:370-385 | The inner loop adds the stream's events in order, moves its cursor to the last of them and leaves the other streams alone |
| `HlBackfill.Stream` | adapters/src/hyperliquid.rs:336-385 | One stream fails exactly when its provider or its page does, and otherwise contributes its own window and cursor |
| `HlBackfill.WalletBackfill` | adapters/src/hyperliquid.rs:312-406 | The batch fails if and only if the limit is out of range or some stream fails; otherwise all three streams advance independently |
| `HlBackfill.WindowKeepsCovered` | adapters/src/hyperliquid.rs:336-385 | A window cut from a page that was faithful at its own moment leaves every event up to the new cursor in the stored rows plus the window |
| `HlBackfill.BackfillKeepsCovered` | adapters/src/hyperliquid.rs:312-406 | With the three requests answered at three moments, the new cursors have their past events in the stored rows plus the batch, provided that what appeared since is later than they are |
| `HlBackfill.LateEventIsLost` | adapters/src/hyperliquid.rs:506-508 | An event that appears at or before the cursor is in no later window of the stream |
| `HlBackfill.LateEventCanBeLost` | adapters/src/hyperliquid.rs:506-508 | A second event of a millisecond that was already served is one |
| `SolanaHistory.TrackStep` | adapters/src/solana_history.rs:31-52 | A page of a truthful provider is never rejected, and every accepted page extends the collected prefix of the segment, to all of it when the page is short |
| `SolanaHistory.Collect` | adapters/src/solana_history.rs:29-56 | Any provider is asked at most once per thousand of the limit; a truthful one yields a prefix of the segment, all of it once a page is short |
| `SolanaHistory.Signatures` | adapters/src/solana_history.rs:12-70 | At most one probe more; for a truthful provider exactly the first min(limit, length) signatures of the segment, exhausted only if that is all of it, overflow rejected when asked to |
| `SolanaHistory.Records` | adapters/src/solana_history.rs:112-145 | One record per signature, or an error if any transaction cannot be fetched or has no block time |
| `SolanaHistory.Fetch` | adapters/src/solana_history.rs:71-170 | For a truthful provider, succeeds exactly when the limit is in range, an incremental fetch has no more new signatures than it, and every transaction listed has a block time; it brings the first signatures missing, up to the limit, and the cursor they lead to; for any provider, a backfill sets the flag exactly if it brings fewer than its limit, and an incremental fetch leaves it |
| `SolanaHistory.FetchKeepsCovered` | adapters/src/solana_history.rs:146-170 | After a fetch in either mode the interval from head to before is contiguous in the history and fully stored |
| `SolanaHistory.BackfillsExhaustIff` | adapters/src/solana_history.rs:71-170 | Backfills of a fixed history, whatever their limits, bring what was left in order and once; the flag is set at the end if and only if the limits add up to more than was left, and then before is the oldest signature |
| `SolanaHistory.BackfillsNeeded` | adapters/src/solana_history.rs:71-170 | With one limit throughout, exactly one run more than the limit goes into what was left sets the flag, and no earlier one |
| `SolanaHistory.ExhaustedKeptIff` | adapters/src/solana_history.rs:162-170 | A fetch keeps the exhausted flag true if and only if it is not an incremental one that inherits the flag without a head and is cut off by the limit |
| `SolanaHistory.ExhaustedOverRuns` | adapters/src/solana_history.rs:81-170 | Over any run of backfills and incremental fetches against a growing history that was not empty, exhausted means that before is the oldest signature |
| `SolanaHistory.ExhaustedCanBeFalse` | adapters/src/solana_history.rs:162-170 | A backfill of an empty wallet followed by a limited incremental fetch leaves the flag false |
| `EvmScan.ScanIsContiguous` | adapters/src/evm.rs:196-243 | Whatever heads are reported, the blocks scanned by any number of runs form one interval from the start block to the checkpoint, each block once |
| `EvmScan.FirstWindow` | adapters/src/evm.rs:71-73 | Without checkpoint and start block the first window is the limit of blocks that ends twelve below the reported head, or all blocks up to there |
| `EvmScan.ScansReach` | adapters/src/evm.rs:196-243 | Under one reported head any number of runs arrive exactly where their limits add up to, and at the twelfth block below the head once these cover the way |
| `EvmScan.VisitInChunks` | adapters/src/evm.rs:288-312 | The log loop visits each block of the range exactly once, in order |
| `EvmScan.VisitNative` | adapters/src/evm.rs:440-546 | So does the native scan with its inner loop over blocks |
| `EvmScan.LogRecords` | adapters/src/evm.rs:687-760 | One row per transaction hash that occurs in the logs, none repeated |
| `EvmScan.MergeWallet` | adapters/src/evm.rs:782-806 | The batch is the union of log and native hashes, distinct if and only if the uncovered native ones are |
| `EvmScan.RepeatedNativeIsKept` | adapters/src/evm.rs:789-806 | A native scan that reports one transaction twice leaves it twice in the batch |
| `EvmScan.WalletBackfill` | adapters/src/evm.rs:765-806 | The batch names exactly the transactions that touch the wallet in some block of the window, and repeats none if the native scan does not |
| `EvmScan.FetchKeepsCovered` | adapters/src/evm.rs:234-243 | The new checkpoint has every transaction from the start block up to it in the stored rows plus the batch, and lies below the reach of a reorganization |
| `ConnectorProtocol.Database.CommitConnectorBatch` | adapters/src/workbench_repo.rs:81-123 | With the lease, each field holds what it held plus the records, their links and matches, the queued materialization and the completed run, and the proposed checkpoint replaces the stored one; without it nothing changes |
| `ConnectorProtocol.Deduplicate` | api/src/worker.rs:405-409 | The committed rows are the fetched ones, each once |
| `ConnectorProtocol.FetchKeepsSound` | api/src/worker.rs:338-440 | For each connector, a fetch from a cursor whose claims are stored proposes a checkpoint whose claims are in the stored rows plus its batch |
| `ConnectorProtocol.PageKeepsSound` | adapters/src/hyperliquid.rs:331-386 | Each Hyperliquid request, answered while the history grows between them, keeps the claims of the cursor under way |
| `ConnectorProtocol.CommitKeepsSafe` | adapters/src/workbench_repo.rs:81-123 | A commit, fresh, stale or without the lease, keeps every claim of the stored checkpoint and of every other worker |
| `ConnectorProtocol.StepKeepsSafe` | api/src/worker.rs:338-440 | So does every claim, cursor read, request, fetch, crash and lease loss, and growth of the provider history: Hyperliquid events later than every cursor held, Solana signatures at the head, EVM reorganizations above 12 blocks |
| `ConnectorProtocol.GrowSafeIff` | adapters/src/workbench_repo.rs:81-123 | Provider growth of any kind, late Hyperliquid events and deep reorganizations included, keeps all claims if and only if nothing unstored lies at or before a cursor held by the database or a worker |
| `ConnectorProtocol.RunKeepsSafe` | adapters/src/workbench_repo.rs:81-123 | At the end of every interleaving all claims are stored, and every run that brought a wallet row is queued |
| `ConnectorProtocol.StoredCursorIsHonest` | adapters/src/workbench_repo.rs:81-123 | In every interleaving each Hyperliquid event at or before a stored stream cursor has a raw row, a target match and a queued materialization of a run that brought it |
| `ConnectorProtocol.EveryBatchIsQueued` | adapters/src/workbench_repo.rs:81-123 | In every interleaving each run that brought a wallet a row is itself queued for materialization, with the row stored and matched |
| `ConnectorProtocol.SolanaIntervalIsStored` | adapters/src/workbench_repo.rs:81-123 | In every interleaving the stored Solana cursor bounds one contiguous, fully stored stretch of the history |
| `ConnectorProtocol.StoredFlagIsTrue` | adapters/src/workbench_repo.rs:81-123 | In every interleaving, stale commits included, history_exhausted in the stored cursor of a wallet that had a history from the start means that before is the oldest signature |
| `ConnectorProtocol.EvmIntervalIsStored` | adapters/src/workbench_repo.rs:81-123 | In every interleaving, with reorganizations above 12 blocks, each transaction from the start block to the stored block has a raw row |
| `ConnectorProgress.LeaseIsLastClaim` | adapters/src/v2_repo.rs:4966-5046 | In every interleaving the lease of a job is with the worker that claimed it last, unless the job was released since |
| `ConnectorProgress.CommitTakesEffectIff` | adapters/src/workbench_repo.rs:89-123 | In every interleaving a commit stores rows, links, queue, run and checkpoint if and only if nobody else claimed the job after its worker and it was not released; any other leaves the database alone |
| `ConnectorProgress.JobStores` | api/src/worker.rs:338-440 | Whatever other workers do meanwhile, a job that keeps its lease from claim to commit stores its rows and the checkpoint that its fetch proposed from the one it read |
| `ConnectorProgress.HlJobAdvances` | adapters/src/hyperliquid.rs:312-406 | A Hyperliquid job that keeps its lease stores cursors that leave strictly fewer events of the history it fetched than those it read, unless none were left |
| `ConnectorProgress.BackfillJobAdvances` | api/src/worker.rs:338-440 | A wallet backfill, as its contract describes it, is a job that can run from claim to commit; with events left the stored cursors then leave strictly fewer |
| `ConnectorProgress.SolJobAdvances` | adapters/src/solana_history.rs:71-170 | A Solana backfill job takes its limit from what was left and stores the flag exactly if that was less; an incremental job stores the newest signature as head |
| `ConnectorProgress.EvmJobAdvances` | adapters/src/evm.rs:196-243 | An EVM job scans on from the checkpoint it read by as many blocks as its limit, but not past the twelfth below the reported head; with nothing to scan the checkpoint stays |
| `HlLedger.DeriveFromFills` | adapters/src/ledger_derivation.rs:171-245 | All fills' lines in order under one running offset |
| `HlLedger.DeriveFromFunding` | adapters/src/ledger_derivation.rs:247-282 | All payments' lines in order under one running offset |
| `HlLedger.DeriveAll` | adapters/src/ledger_derivation.rs:288-345 | Fill lines, then funding lines, numbered from zero |
| `HlLedger.ParseFill` | adapters/src/hyperliquid_parser.rs:24-118 | The direct parser gives the entries, ids included, that the Silver route derives from the same fill, malformed amounts included; the first is the size bought or sold at size times price |
| `HlLedger.ParseFunding` | adapters/src/hyperliquid_parser.rs:120-146 | The same for funding: one entry in USDC, income exactly if the amount is positive |
| `HlLedger.ParseTransaction` | adapters/src/hyperliquid_parser.rs:9-22 | Fails exactly on payloads that do not decode; ledger updates leave the signed amount of their text; agrees with the Silver route if and only if the payload is not a ledger update that yields an entry |
| `HlLedger.DepositHasNoDerivedEntry` | adapters/src/hyperliquid_parser.rs:148-222 | A deposit of one has an entry on the direct route and none on the derived one |
| `EvmValue.HexToDecimal` | adapters/src/evm_parser.rs:197-216 | Succeeds exactly on at most 64 hex digits and returns their base-16 value, below 2^256 |
| `EvmValue.HexRoundTrip` | adapters/src/evm_parser.rs:197-216 | Decoding inverts writing a number with a given number of hex digits |
| `EvmValue.Uint256Decodes` | adapters/src/evm_parser.rs:197-216 | Every uint256 written with its 0x prefix decodes to itself |
| `EvmValue.NativeFlows` | adapters/src/evm_parser.rs:217-248 | Fails exactly when an amount the wallet needs does not decode; otherwise the signed value of a successful, non-self transfer and the sender's gas, zero amounts dropped, in sum exactly the wei of the payload over 10^18 |
| `EvmValue.NamesIff` | adapters/src/evm_parser.rs:217-248 | Addresses name the wallet if and only if they agree letter by letter up to ASCII case |
| `EvmValue.ValidAmountIff` | adapters/src/lib.rs:56-111 | An amount passes validation if and only if it is absent or a prefixed uint256 with at least one digit |
| `EvmValue.FlowsConserve` | adapters/src/evm_parser.rs:217-248 | Over any case-distinct wallets, what is booked sums to what sender and receiver among them book: gas and value out, value in, nothing for a party whose amounts do not decode |
| `EvmValue.OnlyGasLeavesIff` | adapters/src/evm_parser.rs:217-248 | With sender and receiver among the wallets only the gas fee leaves if and only if the amounts of the sender decode, or there was no fee and no value for somebody else |
| `EvmValue.OnlyGasLeaves` | adapters/src/lib.rs:56-111 | For validated payloads only the gas fee leaves, also for failed and self sends |
| `EvmValue.UndecodableGasCredits` | adapters/src/evm_parser.rs:236-246 | Without validation, gas that does not decode books nothing for the sender and still credits the receiver |
| `GoldLedger.FillReconcilesIff` | adapters/src/hyperliquid_parser.rs:334-427 | A valid fill's settlement rows equal its balance delta under every key if and only if its fee is absent, zero or in USDC |
| `GoldLedger.HypeFeeDoesNotReconcile` | adapters/src/hyperliquid_parser.rs:334-427 | A fee of one HYPE is booked under HYPE and moves nothing under it |
| `GoldLedger.LedgerReconciles` | adapters/src/dual_write.rs:1876-2169 | For every batch of validated rows, wallet, network and asset, the non-trade ledger amounts sum to the balance-event deltas |
| `GoldLedger.NativeTotals` | adapters/src/dual_write.rs:1350-1460 | Over any batch, what extraction and booking make of native deltas, fills and funding sums to what the extracted deltas move |
| `GoldLedger.Materialize` | adapters/src/dual_write.rs:1830-2322 | Both outputs of a materialization, empty without a wallet, and reconciled under every key when the rows are validated; `GoldAmounts` says what they add up to |
| `GoldAmounts.LedgerIsPayloads` | adapters/src/dual_write.rs:1350-2169 | The ledger of any batch, by kind of row and for every network and asset, read off the payloads: received less sent, deposits less withdrawals, native balances and value, fees and gas, sizes bought less sold, realized PnL, funding |
| `GoldAmounts.BookedIsGained` | adapters/src/dual_write.rs:1830-2322 | For validated rows the ledger books, and the balance events move, exactly those amounts: transfers, deposits, native balances, value, PnL and funding less withdrawals, fees and gas |
| `GoldAmounts.UsdcIsGained` | adapters/src/hyperliquid_parser.rs:249-427 | For validated Hyperliquid rows both are deposits less absolute withdrawals plus closed PnL less USDC fees plus funding |
| `GoldAmounts.DirectIsBooked` | adapters/src/hyperliquid_parser.rs:9-222 | For every Hyperliquid payload that decodes, malformed amounts and foreign fees included, the entries of the direct parser and the rows of the Gold ledger book the same cash under every asset |
| `GoldAmounts.RowsAreNamed` | adapters/src/dual_write.rs:2020-2124 | The ids of Hyperliquid rows hash the raw row, the coin and the trade number, zero without one, or the time of the payment, each saturated to i64 |
| `LedgerTable.WriteChunks` | adapters/src/v2_repo.rs:3634-3667 | The loop writes chunk by chunk by id, and gives up at the first chunk that names an id twice |
| `LedgerTable.WriteFailsIff` | adapters/src/v2_repo.rs:3634-3667 | The write fails if and only if two rows of one chunk of 500 share an id; otherwise every row was upserted in order |
| `LedgerTable.ReplaceKeepsAllIff` | adapters/src/v2_repo.rs:3610-3668 | The replacement stores all new rows beside those of other inputs if and only if their ids are distinct |
| `LedgerTable.OverwrittenAcrossChunks` | adapters/src/v2_repo.rs:3634-3664 | Two rows of one id on both sides of a chunk boundary: no failure, one row, with the amount of the second |
| `LedgerTable.LedgerIdsIff` | adapters/src/dual_write.rs:1876-2169 | The ledger ids of a batch are distinct if and only if, in each raw row, the booked transfers of one side have distinct (token, index) and the booked native deltas distinct accounts |
| `LedgerTable.BatchIsReplacedIff` | adapters/src/dual_write.rs:2168-2190 | A batch is stored whole, whatever was stored before, if and only if its raw rows meet that condition |
| `LedgerTable.TwoLogsAreRefused` | adapters/src/dual_write.rs:1899-1932 | Transfers of five and seven of one token and index to one wallet share an id: nothing is stored, and the balance events move twelve |
| `LedgerTable.StoredLedgerBooks` | adapters/src/v2_repo.rs:3610-3668 | Over any run of replacements with distinct ids, replays and changed raw rows included, the stored ledger books what the latest delivery of every raw row does |
| `GoldRuns.EventKeysIff` | adapters/src/dual_write.rs:2221-2322 | The events of a batch are hashed from different keys if and only if those of each of its raw rows are |
| `GoldRuns.WorldIsConsistent` | adapters/src/dual_write.rs:2221-2230 | Ids hashed from asset, timestamp, transaction hash and source fix key and timestamp of their event over all versions of all raw rows, unless the hash collides |
| `GoldRuns.BatchIsReady` | adapters/src/dual_write.rs:2221-2322 | Every further batch, with changed versions of raw rows too, meets what a materialization assumes of ids |
| `GoldRuns.LastBalanceIsLedger` | adapters/src/dual_write.rs:1830-2586 | End to end: after any run from empty tables, in any batching, with replays and changed raw rows, the last stored balance of every (network, asset) is the sum of its stored non-trade ledger amounts plus the deltas of the delivered events that the latest versions no longer have |
| `GoldRuns.NothingStale` | adapters/src/dual_write.rs:1830-2586 | While raw rows do not change there are no such events, so that balance and ledger are equal |
| `GoldRuns.RepairLeavesStale` | adapters/src/dual_write.rs:2168-2190 | A transfer of five that a second materialization no longer extracts leaves an empty ledger and a stale five |
| `GoldTimes.RunIsTimed` | adapters/src/dual_write.rs:2221-2546 | After any run every row of a key carries the block time and delta of an event of a delivered raw row, its balance is the sum of the stored deltas that are earlier or tied with an id at or below its own, and every event of a latest version has its row |
| `GoldTimes.LastBalanceIsGained` | adapters/src/dual_write.rs:1830-2586 | The last balance on the payloads: what the latest versions of all raw rows gained, plus the stale deltas |
| `GoldMaterializer.GoldTables.ReplaceLedger` | adapters/src/v2_repo.rs:3610-3668 | One transaction: the replaced table, or the table as it was |
| `GoldMaterializer.GoldTables.BookRows` | adapters/src/dual_write.rs:2168-2190 | The ledger is as the run predicts also when the write fails, which it does exactly when a chunk repeats an id |
| `GoldMaterializer.GoldTables.MaterializeGold` | adapters/src/dual_write.rs:1830-2586 | One materialization replaces the ledger rows of its inputs, or leaves them all when a chunk repeats an id, merges the balance events in either case, and keeps that law and the block times for every key |
| `TradeHistory.GroupsAreSequences` | adapters/src/hl_analytics.rs:165-241 | Every trade is made of opens followed by the one close that ends it |
| `TradeHistory.GroupsPartition` | adapters/src/hl_analytics.rs:165-241 | The trades' fills and the leftover opens are, in order, exactly the open and close fills: none used twice, none lost |
| `TradeHistory.TradeTotals` | adapters/src/hl_analytics.rs:173-239 | Fees and fill counts of the trades are those of the fills they use |
| `TradeHistory.RealizedIsClosed` | adapters/src/hl_analytics.rs:165-241 | Realized PnL over all trades is the closed PnL of the close fills |
| `TradeHistory.CoinConservation` | adapters/src/hl_analytics.rs:155-241 | For a coin with direction info: counts, fees and PnL conserved together with the leftover opens, and no trade closes before it opens |
| `TradeHistory.CoinByText` | adapters/src/hl_analytics.rs:155-269 | On the direction texts: a trade is fills that mention Open, ended by one that mentions Close and not Open; leftovers mention Open; realized PnL is that of the fills that mention Close and not Open; without any text each fill with a closed PnL is a trade |
| `TradeHistory.GroupOpensAndCloses` | adapters/src/hl_analytics.rs:165-241 | The open/close loop builds one trade per group |
| `TradeHistory.StandaloneTrades` | adapters/src/hl_analytics.rs:242-268 | The fallback loop builds one trade per fill with a closed PnL |
| `TradeHistory.GroupByCoin` | adapters/src/hl_analytics.rs:147-151 | The map holds exactly the coins of the fills, each with its fills in order |
| `TradeHistory.BuildTradeHistory` | adapters/src/hl_analytics.rs:140-273 | The history is the trades of all coins, sorted by closing time and none lost; each is read off the fills that the texts of their directions put together, from first side and time to fees and size |
| `TradeHistory.CoinAccounts` | adapters/src/hl_analytics.rs:155-269 | Every fill of a coin is used by exactly one trade or by none, with and without direction info |
| `TradeHistory.HistoryAccounts` | adapters/src/hl_analytics.rs:140-273 | Over the whole history used and unused fills together are the input |
| `TradeHistory.HistoryTotals` | adapters/src/hl_analytics.rs:140-273 | Fees and fill counts over the history are those of the fills its trades use |
| `TradeHistory.HistoryIdsDistinct` | adapters/src/hl_analytics.rs:126-132 | Trades of any coins have distinct deterministic ids when the fills have |
| `PnlSummary.Aggregate` | adapters/src/hl_analytics.rs:42-80 | The map loops hold exactly the coins of fills and funding, each with its totals |
| `PnlSummary.SortedRows` | adapters/src/hl_analytics.rs:82-123 | One row per map entry, strictly sorted by coin, whatever order the map yields |
| `PnlSummary.ComputePnlSummary` | adapters/src/hl_analytics.rs:24-124 | One row per coin, strictly sorted; each column, the trade count included, is read off the fills and payments of that coin |
| `PnlSummary.SummaryIgnoresOrder` | adapters/src/hl_analytics.rs:24-124 | Permuting fills and funding leaves the summary equal |
| `PnlSummary.NetsAddUp` | adapters/src/hl_analytics.rs:44-96 | Net PnL over all rows is all closed PnL plus all funding minus all fees |
| `PnlSummary.ColumnsAddUp` | adapters/src/hl_analytics.rs:42-96 | Closed PnL, funding, fees and trade counts each add up over the rows to their total over all fills and payments |
| `PnlSummary.BeforeIff` | adapters/src/hl_analytics.rs:122-122 | The order of the rows is the lexicographic order of the coin names |
| `PnlSummary.CountsAddUp` | adapters/src/hl_analytics.rs:44-54 | Fill counts over all rows sum to the number of fills |
| `CsvExport.ProtectCollidesIff` | api/src/export_csv.rs:30-38 | Two texts share a cell if and only if one is the formula-like other with an apostrophe before it |
| `CsvExport.FormulaLikeIff` | api/src/export_csv.rs:28-38 | A text is neutralized if and only if =, +, - or @ is its first character after any white space, or it starts with a tab, CR or LF |
| `CsvExport.ScanCell` | api/src/export_csv.rs:39-43 | The reader takes back any emitted cell, quoted or not, whatever follows |
| `CsvExport.RoundTrip` | api/src/export_csv.rs:274-318 | A written file is read back as its header and one record per row |
| `CsvExport.WriteFile` | api/src/export_csv.rs:50-81 | Every file has the header's width in every row, printed values unchanged and texts equal or with one apostrophe, none a formula |
| `CsvExport.ExportWalletLedger` | api/src/export_csv.rs:274-318 | The wallet ledger file is readable that way, with each attribute under the column of its name |

## Left out

- RPC, REST, WebSocket and gRPC clients, retries, rate limiting, chain-id checks and trace fetching: providers are parameters with a contract on what they return.
- SQL text and connection handling: tables are sequences and sets with the order, upsert and transaction semantics of the statements.
- JSON decoding: models start from typed fields, with a missing or undecodable value as its own case.
- Clock values, `created_at`, dataset version ids, logging, and the counts of written records.
- `v2_write_transactions` deduplication, `resolve_effective_network`, symbol and decimal tables, chain and network name maps: single branches or easy folds.
- `build_trader_analytics`, market analytics, forensics summaries, protocol analytics and the tax CSV columns: folds and branches without a law across functions.
- `weighted_avg_price` (the entry price of a trade), `avg_trade_size` and `win_rate`: rounding divisions.
- Saturation of `i64` fill, win and loss counters: counters are unbounded.
- BalanceMaterializer.BalanceHistoryTable.Materialize: one materialization from its reads to its save; what other saves in between do is in `BalanceOverlap`. It assumes that ids within one batch are distinct and fix key and timestamp, which `GoldRuns.BatchIsReady` derives for ids that do not collide.
- BalanceOverlap.ChainSurvivesIff: for one key whose rows all have a delta; legacy rows, and corrected deltas of an old id, are not part of the overlap.
- BalanceOverlap.ChainSurvivesRunIff: likewise, from an empty table and without failing saves.
- BalanceRuns.Confluence: also assumes that an id fixes its delta, so that a redelivered event is the same event. A corrected delta under an old id replaces the old one, and then the order of the batches matters; `BalanceRuns.EqualsLatest` says what is stored.
- GoldAmounts.LedgerIsPayloads: for a wallet that does not normalize like the word external, the outside party of deposits and withdrawals.
- ConnectorProgress.HlJobAdvances: the history stands still between the read of the cursor and the fetch; `ConnectorProtocol.PageKeepsSound` covers growth in between.
- GoldRuns.LastBalanceIsLedger: assumes that hashes of different keys differ, that a raw row keeps its network, that amounts decode and Hyperliquid fees are in USDC, that no query or save fails, and that within a raw row events are hashed from different keys and ledger rows have distinct ids. Gold is fed the extracted records, not the saved Silver rows (adapters/src/dual_write.rs:1613-1622), so the unique keys of the Silver tables do not ensure the last two.
- LedgerTable.StoredLedgerBooks: for batches with distinct ledger ids, the condition of `LedgerTable.BatchIsReplacedIff`; and for one wallet spelled one way, since the delete compares the wallet as text and the ids hash it normalized.
- ConnectorProtocol.StepKeepsSafe: Hyperliquid events appear after every cursor that the database or a worker holds, and confirmed blocks with 12 on top of them do not change; `ConnectorProtocol.GrowSafeIff` says exactly what happens otherwise. `detect_reorg` is not modelled.
- EvmScan.VisitInChunks: works on unbounded block numbers, so an overflow of the chunk end beyond 2^64 is not modelled.
- EvmScan.LogRecords: models the hashes of the emitted rows, not the enrichment of their metadata.
- GoldLedger.LedgerReconciles: EVM token and Solana parsers appear as the transfers and deltas they extract; the law covers what happens after extraction.
- CsvExport.ExportWalletLedger: numbers, ids and dates come already printed, as strings without separators, quotes or line breaks.
- Hyperliquid, Solana and EVM market, contract and topic backfills: the wallet backfills carry the cursors modelled here.
