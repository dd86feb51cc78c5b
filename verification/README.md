# Verified model of midnight-indexer

midnight-indexer follows a Midnight node, stores blocks, transactions and ledger states, scans
transactions for wallets, and serves the result through a GraphQL API. This project models the parts
of it whose correctness depends on whole runs, crashes and interleavings, and proves what those parts
are for.

- **Chain indexing** (`ChainIndexer*.dfy`, `LedgerArena.dfy`, `LedgerStates.dfy`,
  `SystemParameters.dfy`). The block loop is a protocol over two databases with one step per durable
  or in-memory action, so that a crash can fall between any two. The theorems hold at every point of
  every run, for any number of crashes, any retention per restart and any blocks the node sends. The
  program's own methods (`ChainIndexerRun.dfy`) return the protocol steps they perform, so the
  theorems apply to them. Root-count repair and its graph walk are modelled as they are written.
- **Block source** (`BlockSource.dfy`). Catching up by height and by hash, the live tail with
  re-subscription, and the parent-hash filter, tied to the protocol's receiving of blocks.
- **Wallet indexing** (`WalletIndexer.dfy`, `WalletGate.dfy`). The backward and forward scan, split
  into begin, query and commit and interleaved with new transactions and reconnecting clients; and
  the shared counter that lets workers skip.
- **Subscription quotas** (`TokenBuckets.dfy`, `SubscriptionQuotas.dfy`). The token bucket over reals
  and the per-connection counter at the grain of its atomic operations.
- **Ledger state cache** (`LedgerStateCaching.dfy`). Double-checked locking with a downgrade, three
  kinds of requests sharing one cached state, while the chain grows.
- **Derived tables and figures** (`UnshieldedUtxos.dfy`, `DustRegistrations.dfy`,
  `NullifierScan.dfy`, `DustCapacity.dfy`, `SpoEpochs.dfy`).

`dafny verify dfyconfig.toml` checks the project.

## Where code and intent part

The model follows the code. Where a promise does not hold of it, a lemma gives an input and another
says exactly when it does hold.

- The API documentation (`docs/api/v4/api-documentation.md:593`) and `ConnectOptions` call the start
  index of `connect` inclusive. A new wallet's row starts with first and last indexed identifier both
  equal to the start index, so that transaction is never scanned. `WalletIndexer.ExactnessIff`: the
  promise is kept in all runs exactly when the first connect names an index that is not beyond the
  newest transaction and whose transaction is not a relevant one. Connecting without a start index
  is always exact (`DefaultStartIsExact`).
- A nullifier prefix ending in byte 255 selects only the nullifier equal to it, and the empty prefix
  selects nothing. `NullifierScan.ExactIff` gives the condition for nullifiers of any fixed length.
- Expected blocks take their remainder from the epoch's duration, expected slots from its slots.
  `SpoEpochs.BlocksAddUpIff` says when the expected blocks of a whole committee add up to the slots.
- A stored epoch number always carries the interval of the number before it
  (`SpoEpochs.IntervalIsThatOfThePredecessor`).
- A worker can skip a wallet although there is work if a block event does not arrive
  (`WalletGate.MissingEventHidesWork`). `WalletGate.HidesNothingIff`: no work is hidden exactly when no
  event has arrived since the start or no announcement above the counter is outstanding, whether lost,
  late or being handled; `WalletGate.RightIff` says the same of deciding rightly for every wallet.
- An update for the dust generations tree can differ from what the tip would give at that moment;
  `LedgerStateCaching.AlwaysAsTipIff`: in all runs every served update is the tip's exactly for the
  trees that are only appended to.
- One transaction that cannot be decoded can keep a wallet from ever catching up
  (`WalletIndexer.UndecodableBlocks`), and the error ends the indexing loop of all wallets.
  `WalletIndexer.CanCatchUpIff`: from any moment of any run whose first connect was at most one beyond
  the newest transaction, the wallet can still catch up exactly when every transaction it has yet to
  scan can be decoded. With a start index further ahead a transaction can slip in behind a backward
  scan that found nothing (`SlipsBehindScan`); `AlwaysBlocksIff` shows that this is the exact boundary.
- When the node reports an epoch older than the newest stored one, every poll stores one more epoch
  that has not begun (`SpoEpochs.LaggingNodeRunsAhead`). `SpoEpochs.NotAheadIff`: storage is not ahead
  of a report exactly when it was not ahead of it before.

## Assumptions

They are preconditions or record fields in the model, not axioms.

- The ledger library is deterministic, and a stored state's key determines its content
  (`LedgerStates.ContentAddressed`). Its transitions are otherwise arbitrary functions that may fail.
- A block hash commits to the block's height and parent.
- The ledger database flushes in one transaction, caches unpersists until the next flush, and its
  garbage collector deletes only nodes that no stored root reaches.
- Row identifiers grow in insertion order, as there is one writer.
- A collapsed Merkle tree update depends only on the leaves in its range. Zswap and dust commitment
  leaves are never rewritten.
- Nodes of a cached ledger state may be collected while it is cached, as it is loaded lazily; reading
  it then fails (`FailServe`), and nothing is promised about when.
- Block events arrive in any order, repeatedly or never, but carry identifiers that were announced.
- For `UnshieldedUtxos.ListedValueIsConserved` only: spends are listed with the token and value they
  were created with, which the program does not check. `ValueIsConserved` does not need it.
- Times at which a session's bucket is asked do not decrease, as the clock is read under its lock.

## Model

| member | source | states |
|---|---|---|
| ChainIndexerTheorems.CrashTransparency | chain-indexer/src/application.rs:69-305 | At every point of every run, with crashes anywhere, the stored blocks are one parent-linked chain from genesis and their rows are those of an uninterrupted run; an idle process holds the ledger state and parent timestamp such a run would hold |
| ChainIndexerTheorems.CrashTransparencyOfLedger | chain-indexer/src/application.rs:410-655 | The same for every ledger library with content-addressed keys, with translation, genesis handling and root checks spelled out |
| ChainIndexerTheorems.RootSafety | chain-indexer/src/application.rs:121-181 | No root count goes negative, the refusal to resume is unreachable, every window entry has a root count of its own, and between blocks the window ends at the newest stored block |
| ChainIndexerTheorems.RootConservation | chain-indexer/src/application.rs:229-261 | Under a fixed retention the window is exactly the newest keys, and root counts exceed it by at most one per crash, so without crashes they match it |
| ChainIndexerTheorems.FreshSnapshotsAreLoadable | indexer-standalone/src/main.rs:92-109 | If every restart used a retention above the maximum snapshot age, a block at most that far below the tip has its root count and its whole graph on disk at every point of every run |
| ChainIndexerTheorems.AgedSnapshotsAreGarbage | chain-indexer/src/application.rs:254-261 | The bound is tight: an older block whose root no newer block shares has no root count left |
| ChainIndexerTheorems.SeedsWithoutRepairIff | chain-indexer/src/application.rs:129-168 | After a flushed run without crashes under any retention, the counts pay for the window seeded under any other without repair if and only if no root of the old window is named more often by the new one |
| ChainIndexerTheorems.SeedingWithoutRepairUnderCounts | chain-indexer/src/application.rs:129-168 | In particular not when two newest blocks share a root and the retention goes from one to two |
| ChainIndexerUnrepaired.UnrepairedRestartPanics | chain-indexer/src/application.rs:143-157 | A run without a crash after which seeding with a larger retention and without repair leads to an aborted process |
| ChainIndexerUnrepaired.UnderCountedPanics | chain-indexer/src/application.rs:254-261 | In general: a window naming a root twice with one count left, then two blocks with other roots, and the next flush fails |
| ChainIndexerTheorems.StoredLogReconstructs | indexer-api/src/infra/storage/system_parameters.rs:26-72 | However often the indexer crashed, the newest stored parameter at or below a height is the last value the node reported up to it |
| ChainIndexerTheorems.StoredLogHasNoRepeats | chain-indexer/src/application.rs:657-733 | Neither parameter table ever holds two equal neighbouring values |
| ChainIndexerTheorems.ChangesAreLogged | chain-indexer/src/application.rs:678-732 | Each stored change was decided against the log as it stood before that block |
| ChainIndexerSafety.RunKeepsInv | chain-indexer/src/application.rs:69-305 | The invariant behind the theorems holds in every state of every run |
| ChainIndexerSafety.PersistKeepsInv | indexer-common/src/domain/ledger/ledger_state.rs:350-396 | Persisting before saving keeps every claim paid for |
| ChainIndexerSafety.SaveKeepsInv | chain-indexer/src/infra/storage.rs:67-93 | Storing the row brings disk and memory in step and keeps the newest row rooted |
| ChainIndexerSafety.UnpersistKeepsInv | chain-indexer/src/application.rs:254-261 | The front of the window always has a root count to give back at the next flush |
| ChainIndexerSafety.SeedComesUp | chain-indexer/src/application.rs:129-181 | After any crash a restart finds the newest block's root, can load it and resumes there |
| ChainIndexerSafety.ReloadIsInStep | chain-indexer/src/application.rs:95-181 | Reloading state and parent timestamp from the newest row gives exactly what an uninterrupted run holds |
| ChainIndexerRetention.RunKeeps | chain-indexer/src/application.rs:121-181 | The newest stored blocks stay covered by the window and the root counts in every run |
| ChainIndexerRetention.RunSurplus | chain-indexer/src/application.rs:229-261 | Root counts exceed what they pay for by at most one per crash so far |
| ChainIndexer.LedgersAreWellFormed | indexer-common/src/domain/ledger/ledger_state.rs:249-290 | Every content-addressed ledger meets what the chain protocol asks of it |
| ChainIndexerRun.Restart | chain-indexer/src/application.rs:121-181 | Repairing and seeding after any crash performs protocol steps and comes up ready for the next block |
| ChainIndexerRun.IndexBlock | chain-indexer/src/application.rs:229-278 | One turn of the loop on the first buffered block performs protocol steps: a refused block ends the process, any other adds exactly its row, the window is trimmed, and a gc pass runs if enabled |
| ChainIndexerRun.ReceiveBlock | chain-indexer/src/application.rs:220-225 | A block from the stream is buffered if it continues the chain and skipped otherwise |
| ChainIndexerRun.FilteredBlocksAreReceived | chain-indexer/src/application.rs:307-351 | Everything the parent-hash filter passes on is received by the protocol, block by block, none refused |
| ChainIndexerRun.TrimWindow | chain-indexer/src/application.rs:254-261 | Trimming ends within the retention, as protocol steps, without a negative count |
| ChainIndexerRun.StoreBlock | chain-indexer/src/application.rs:576-596 | Persist, save and push in this order; if the flush would make a count negative, nothing is stored |
| ChainIndexerRun.LeadsExtendsRun | chain-indexer/src/application.rs:229-261 | What the methods perform extends runs of the protocol, so its theorems apply |
| ChainIndexerRun.SeedWindow | chain-indexer/src/application.rs:157-167 | Keys whose roots are gone are dropped from the window, the others kept in order |
| ChainIndexerRun.MainDb.GetNewestLedgerStateKeys | chain-indexer/src/infra/storage.rs:144-169 | The newest keys, oldest first |
| ChainIndexerRun.LedgerDb.Persist | indexer-common/src/infra/ledger_db/v1_1.rs:143-178 | Nodes, the new root count and all cached unpersists reach disk as one change, or nothing does because a count would become negative |
| ChainIndexerRun.LedgerDb.Unpersist | indexer-common/src/domain/ledger/ledger_state.rs:398-409 | An unpersist is cached, whether or not there is a count to give back |
| ChainIndexerRun.LedgerDb.Gc | indexer-common/src/domain/ledger/ledger_state.rs:497-502 | A gc pass deletes only nodes that no stored root reaches |
| ChainIndexerRun.LedgerDb.RepairRootCounts | indexer-common/src/domain/ledger/ledger_state.rs:442-468 | Stored root counts are repaired from the window |
| LedgerArena.DagIsComplete | indexer-common/src/domain/ledger/ledger_state.rs:2475-2508 | The walk answers yes exactly when every node reachable from the root is stored |
| LedgerArena.WindowRootCounts | indexer-common/src/domain/ledger/ledger_state.rs:2417-2428 | A root is wanted as often as the window names it |
| LedgerArena.RaiseRootCounts | indexer-common/src/domain/ledger/ledger_state.rs:2430-2473 | Each count is raised to what the window wants unless the root was culled and its graph has holes, none is lowered, and the report counts exactly what was raised, culled and stray |
| LedgerArena.RepairCoversWindow | indexer-common/src/domain/ledger/ledger_state.rs:442-468 | After a repair every remaining root can pay for all its window entries, and a sufficient database is unchanged |
| LedgerArena.RepairKeepsIntact | indexer-common/src/domain/ledger/ledger_state.rs:2430-2473 | A repair never makes a root of a graph with holes |
| LedgerArena.RepairIdempotent | indexer-common/src/domain/ledger/ledger_state.rs:442-462 | Repairing twice is repairing once |
| LedgerArena.GcKeepsIntact | indexer-common/src/domain/ledger/ledger_state.rs:497-502 | A gc pass keeps every rooted graph complete |
| LedgerStates.ApplyTransactions | chain-indexer/src/domain/ledger_state.rs:111-175 | The loop with its first-regular flag checks only the first regular transaction of a non-genesis block two slots ahead of the parent, adds every transaction's cost to the fullness counter, and fails as soon as one fails |
| LedgerStates.LoadUndoesPersist | indexer-common/src/domain/ledger/ledger_state.rs:249-290 | A state that a block led to survives a trip through the ledger database, fullness counter included |
| SystemParameters.LogReconstructsReports | chain-indexer/src/infra/storage.rs:210-248 | The change-only log loses nothing: newest entry at or below a height equals the last report up to it |
| SystemParameters.LogIsExactWhenAlwaysReported | chain-indexer/src/application.rs:678-732 | Where the node reports a value, the log holds exactly that value |
| SystemParameters.LogHasNoRepeats | chain-indexer/src/application.rs:678-732 | No two neighbouring log entries are equal |
| BlockSource.FetchByHeight | chain-indexer/src/infra/subxt_node.rs:421-459 | Blocks fetched by height are linked to each other and to the stored block; it stops at the first that is missing or does not fit |
| BlockSource.WalkBack | chain-indexer/src/infra/subxt_node.rs:461-476 | The walk terminates by height and returns the path from the stop hash or genesis up to the first block, or names a missing ancestor |
| BlockSource.CatchUp | chain-indexer/src/infra/subxt_node.rs:420-485 | Catch-up yields the part by height followed by the part by hash, and exactly the part by height if it fails |
| BlockSource.CatchUpLinks | chain-indexer/src/infra/subxt_node.rs:434-476 | Whatever heights resolve to, the result is linked exactly when the walk met the forward part |
| BlockSource.CatchUpIsExact | chain-indexer/src/infra/subxt_node.rs:420-485 | On the canonical chain, from any stored block and for any tip, exactly the following blocks up to the tip come out, in order, even if heights near the tip resolve wrongly |
| BlockSource.Follow | chain-indexer/src/infra/subxt_node.rs:487-525 | Across re-subscriptions the live tail yields exactly the blocks higher than everything received before, until the stream ends, breaks or a block's details are missing |
| BlockSource.FinalizedBlocks | chain-indexer/src/infra/subxt_node.rs:387-527 | One stream yields nothing exactly if it ends or breaks before any block above the stored one; otherwise the catch-up to the first such block followed by the live tail, or exactly what was yielded before a failure; an error is its last item |
| BlockSource.DeliveredHeightsRise | chain-indexer/src/infra/subxt_node.rs:146-178 | Yielded heights strictly increase |
| BlockSource.TakeLinked | chain-indexer/src/application.rs:316-345 | One pass lets through the longest part of a stream that continues the stored chain |
| BlockSource.NodeBlocks | chain-indexer/src/application.rs:307-351 | Over arbitrary streams the blocks passed on form one parent-linked chain, each stream opened at the newest accepted block |
| BlockSource.LinkedBlocksAreConsecutive | chain-indexer/src/application.rs:307-308 | Linked blocks have neither gaps nor duplicates in height |
| BlockSource.LinkedStreamPasses | chain-indexer/src/application.rs:316-345 | A stream that is already linked passes entirely |
| BlockSource.Resume | chain-indexer/src/application.rs:307-351 | Catch-up and filter together deliver the rest of the canonical chain exactly once and in order |
| WalletIndexer.RunKeepsInv | wallet-indexer/src/application.rs:207-351 | Whatever interleaves with the scan, saved transactions are relevant, distinct and inside the indexed interval, and below the tip nothing but the first start index is missing from it |
| WalletIndexer.CommitAddsNewIds | wallet-indexer/src/infra/storage.rs:163-261 | A commit never inserts a relevant transaction that is already there |
| WalletIndexer.StartIsNeverIndexed | indexer-api/src/infra/storage/wallet.rs:24-72 | The start index of the first connect is never saved, in any run |
| WalletIndexer.ExactButForStart | wallet-indexer/src/application.rs:207-351 | First connecting at or below the tip, the indexed interval holds exactly the relevant transactions except the one at the start index |
| WalletIndexer.ExactnessIff | indexer-api/src/infra/storage/wallet.rs:24-72 | All runs are exact if and only if the start index is not beyond the tip and its transaction is not relevant |
| WalletIndexer.InexactWhenRelevant | docs/api/v4/api-documentation.md:593 | A relevant transaction at the start index is missed |
| WalletIndexer.InexactWhenAhead | docs/api/v4/api-documentation.md:593 | A start index beyond the tip misses the transaction that arrives there |
| WalletIndexer.DefaultStartIsExact | indexer-api/src/infra/storage/wallet.rs:35-38 | Connecting without a start index is exact in all runs |
| WalletIndexer.CaughtUpIsAll | wallet-indexer/src/application.rs:207-351 | A caught-up, exact wallet holds every relevant transaction from its wanted start index on and nothing else |
| WalletIndexer.ScanMakesProgress | wallet-indexer/src/application.rs:226-351 | Every undisturbed scan reduces the work left; a caught-up wallet is left alone |
| WalletIndexer.ScansCatchUp | wallet-indexer/src/application.rs:226-351 | For every batch size, as many scans as are pending, each of decodable transactions, suffice to catch up |
| WalletIndexer.ScansFindAll | wallet-indexer/src/application.rs:207-351 | From any idle moment of any exact run, that many scans leave exactly the rows one unbatched pass over all transactions would find, each once |
| WalletIndexer.CanCatchUpIff | wallet-indexer/src/application.rs:207-351 | From any moment of any run first connected at most one beyond the tip, some continuation catches up if and only if every transaction yet to be scanned can be decoded |
| WalletIndexer.AlwaysBlocksIff | wallet-indexer/src/application.rs:315-330 | An undecodable transaction yet to be scanned blocks catching up in all continuations of all runs if and only if the first connect is at most one beyond the tip |
| WalletIndexer.SlipsBehindScan | wallet-indexer/src/application.rs:229-292 | For every start index further ahead, a run in which an undecodable transaction is passed over |
| WalletIndexer.UndecodableBlocks | wallet-indexer/src/application.rs:315-330 | A wallet that one undecodable transaction keeps from ever catching up |
| WalletIndexer.ScansCanCatchUpIff | wallet-indexer/src/application.rs:226-351 | For every batch size, undisturbed scans can catch up if and only if every transaction yet to be scanned can be decoded |
| WalletIndexer.CaughtUpWasDecodable | wallet-indexer/src/application.rs:246-257 | Undisturbed scans do not get past an undecodable transaction |
| WalletIndexer.GetTransactions | wallet-indexer/src/infra/storage.rs:108-132 | The lowest regular transactions from an identifier on, up to the limit, ascending |
| WalletIndexer.GetTransactionsInRange | wallet-indexer/src/infra/storage.rs:134-161 | The highest regular transactions of a range, up to the limit, descending |
| WalletIndexer.WalletStore.ConnectWallet | indexer-api/src/infra/storage/wallet.rs:40-61 | Reconnecting can only lower the wanted start index |
| WalletIndexer.WalletStore.IndexWallet | wallet-indexer/src/application.rs:207-351 | A scan leaves no trace or is a begin, a query and a commit; it publishes exactly when it saved something |
| WalletIndexer.WalletStore.IndexBackward | wallet-indexer/src/application.rs:226-292 | The backward half moves the first indexed identifier down or fails on an undecodable transaction without a trace |
| WalletIndexer.WalletStore.IndexForward | wallet-indexer/src/application.rs:294-350 | The forward half moves the last indexed identifier up, finds nothing, or fails without a trace |
| WalletGate.SaveTransactions | chain-indexer/src/infra/storage.rs:394-442 | The announced identifier is that of the last regular transaction of the block, if any |
| WalletGate.AnnouncedIsHighest | chain-indexer/src/infra/storage.rs:394-442 | It is the highest of its block and above everything stored before |
| WalletGate.CounterNeverFalls | wallet-indexer/src/application.rs:63-97 | Whatever order events arrive in and however often, the shared counter never decreases once set, until the process starts afresh |
| WalletGate.OpensIff | wallet-indexer/src/application.rs:294-295 | The counter is the highest identifier received: a worker goes ahead exactly when no event has arrived yet or one announces something newer |
| WalletGate.StoreKeepsHighest | wallet-indexer/src/application.rs:77-86 | The guard of the store keeps the counter the highest identifier received, for any order of arrival |
| WalletGate.RightIff | wallet-indexer/src/application.rs:63-97 | Once an event has arrived, every worker goes ahead exactly when its scan would find something, if and only if no announcement above the counter is outstanding |
| WalletGate.HidesNothingIff | wallet-indexer/src/application.rs:63-97 | At every point of every history, no worker skips pending work if and only if no event has arrived since the start or no announcement above the counter is outstanding |
| WalletGate.MissingEventHidesWork | wallet-indexer/src/application.rs:74-89 | A history in which an event that did not arrive makes a worker skip pending work |
| TokenBuckets.AdmittedIff | indexer-api/src/infra/api/quota.rs:146-183 | An attempt is admitted if and only if, counting it, every window ending with it stays within N plus N a minute of its length |
| TokenBuckets.RateBound | indexer-api/src/infra/api/quota.rs:146-183 | In every interval of time at most N plus N a minute of its length are admitted |
| TokenBuckets.RejectionsLeaveNoTrace | indexer-api/src/infra/api/quota.rs:172-182 | Removing all rejected attempts changes no other decision, past or future |
| TokenBuckets.RefillTwice | indexer-api/src/infra/api/quota.rs:172-175 | Refilling in two goes is refilling once, under the cap |
| TokenBuckets.TokenBucket.TryTakeAt | indexer-api/src/infra/api/quota.rs:172-182 | The object behaves as the bucket the results above are about |
| SubscriptionQuotas.RunKeeps | indexer-api/src/infra/api/quota.rs:78-135 | Under every interleaving each counter equals its counted attempts, in flight, refused or guarded, and never exceeds the limit |
| SubscriptionQuotas.GuardsWithinLimit | indexer-api/src/infra/api/quota.rs:82-97 | A connection never has more guards than the limit |
| SubscriptionQuotas.NeverUnderflows | indexer-api/src/infra/api/quota.rs:106-135 | No decrement meets a counter at zero |
| SubscriptionQuotas.OverflowIffFull | indexer-api/src/infra/api/quota.rs:87-97 | With nothing undecided, an attempt is turned away exactly when all places hold guards |
| SubscriptionQuotas.SessionsWithinRate | indexer-api/src/infra/api/quota.rs:98-113 | However connections interleave, each session stays within its rate in every interval |
| SubscriptionQuotas.AskKeeps | indexer-api/src/infra/api/quota.rs:99-106 | A session's decision depends on its own earlier requests alone |
| SubscriptionQuotas.Registry.TryAcquire | indexer-api/src/infra/api/quota.rs:82-120 | A refusal gives back what it counted and takes no token, a grant counts one, and both are atomic steps of the protocol |
| SubscriptionQuotas.LeadsExtendsRun | indexer-api/src/infra/api/quota.rs:78-135 | What the object performs extends runs of the protocol |
| SubscriptionQuotas.Registry.Release | indexer-api/src/infra/api/quota.rs:130-135 | Dropping a guard is one step that frees one place on its connection |
| LedgerStateCaching.RunKeeps | indexer-api/src/domain/ledger_state.rs:26-177 | The lock and cache invariants hold under every interleaving of the three kinds of requests with a growing chain |
| LedgerStateCaching.NeverPanics | indexer-api/src/domain/ledger_state.rs:72-76 | The ledger state a request expects after loading is always there |
| LedgerStateCaching.CacheNeverGoesBack | indexer-api/src/domain/ledger_state.rs:54-70 | The cached state never moves to an earlier block |
| LedgerStateCaching.ServedAgreesWithTip | indexer-api/src/domain/ledger_state.rs:29-79 | Every update served for an append-only tree is the one the tip would give |
| LedgerStateCaching.KnownRangesAreServed | indexer-api/src/domain/ledger_state.rs:130-177 | A range stored when the request began is answered unless loading or reading fails, for append-only trees exactly as the tip would |
| LedgerStateCaching.GenerationsComeFromThePast | indexer-api/src/domain/ledger_state.rs:81-128 | An update for the generations tree comes from some stored state |
| LedgerStateCaching.GenerationsMayBeOutdated | indexer-api/src/domain/ledger_state.rs:81-128 | For every range, a run in which one request loads, the chain grows with a rewritten leaf, and the next request is served the old leaf from the cache |
| LedgerStateCaching.AlwaysAsTipIff | indexer-api/src/domain/ledger_state.rs:26-177 | In all runs every update served for a tree is the tip's if and only if the tree is one that is only appended to |
| LedgerStateCaching.LedgerStateCache.MakeCollapsedUpdate | indexer-api/src/domain/ledger_state.rs:29-79 | Loads exactly when the cached state does not know the range, answers as the tip would for append-only trees, leaves the cache alone if nothing is stored or loading fails, and performs steps of the protocol in every case |
| LedgerStateCaching.LeadsExtendsRun | indexer-api/src/domain/ledger_state.rs:29-79 | What it performs extends runs of the protocol |
| UnshieldedUtxos.AffectedIff | chain-indexer/src/infra/storage.rs:667-756 | A spend touches as many rows as it lists if and only if each is present, unspent and listed once |
| UnshieldedUtxos.UtxoTable.SaveSpent | chain-indexer/src/infra/storage.rs:667-756 | Unspent rows with a listed key are marked, and the row count check accepts exactly the spends that are present, unspent and listed once |
| UnshieldedUtxos.UtxoTable.SaveCreated | chain-indexer/src/infra/storage.rs:612-665 | Inserts all unless a key exists already, and then nothing |
| UnshieldedUtxos.UtxoTable.SaveBlock | chain-indexer/src/infra/storage.rs:67-93 | A block is saved whole or leaves the table as it was |
| UnshieldedUtxos.SpendingIsNeverOverwritten | chain-indexer/src/infra/storage.rs:667-756 | Rows only ever change from unspent to spent, once |
| UnshieldedUtxos.UnspentIsCreatedMinusSpent | chain-indexer/src/infra/storage.rs:612-756 | The unspent rows are the created UTXOs minus the spent ones; nothing is created or spent twice |
| UnshieldedUtxos.ValueIsConserved | chain-indexer/src/infra/storage.rs:612-756 | Per token, created value is the value the spent UTXOs were created with plus the unspent value, whatever the spends list |
| UnshieldedUtxos.ListedValueIsConserved | chain-indexer/src/infra/storage.rs:612-756 | If spends are listed as created, created value is listed spent value plus unspent value |
| UnshieldedUtxos.FailedBlocksLeaveNoTrace | chain-indexer/src/infra/storage.rs:67-93 | Any run of accepted and failed blocks is one run of the accepted transactions |
| DustRegistrations.RegistrationTable.SaveEvents | chain-indexer/src/infra/storage.rs:1140-1249 | The statements for a block's events fold them into the table in order |
| DustRegistrations.TableMeansEvents | chain-indexer/src/infra/storage.rs:1140-1249 | A key has a row exactly if it was ever registered; validity, times and block come from its last registration or deregistration, the pointer from the last mapping event since the row exists |
| DustRegistrations.StoredTableMeansEvents | chain-indexer/src/infra/storage.rs:1140-1249 | The same over any run of blocks saved one after the other |
| DustRegistrations.ValidIffNotRemoved | chain-indexer/src/infra/storage.rs:1147-1200 | A row is valid exactly while it is not marked removed, and exactly if the last status event was a registration |
| DustRegistrations.EventsCommute | chain-indexer/src/infra/storage.rs:1140-1249 | Events on different keys commute |
| DustRegistrations.RowDependsOnOwnEvents | chain-indexer/src/infra/storage.rs:1140-1249 | A row depends on its own key's events only |
| NullifierScan.RangeIsPrefix | indexer-api/src/infra/storage/shielded_nullifiers.rs:39-47 | For a non-empty prefix whose last byte is below 255 the range holds exactly the strings starting with it |
| NullifierScan.RangeOfLast255 | indexer-api/src/infra/storage/shielded_nullifiers.rs:39-47 | For a prefix ending in 255 the range holds only the prefix itself |
| NullifierScan.ExactIff | indexer-api/src/infra/storage/dust_generations.rs:359-368 | For nullifiers of any fixed length, range and prefix agree if and only if the prefix is not empty and ends below 255 or is as long as the nullifiers |
| NullifierScan.FetchPage | indexer-api/src/infra/storage/shielded_nullifiers.rs:51-74 | The first matching rows after the cursor in identifier order, up to the limit |
| NullifierScan.ScanPrefix | indexer-api/src/infra/storage/shielded_nullifiers.rs:49-89 | For every batch size and while rows are added, the cursor loop ends and delivers exactly the matching rows of the table as last seen, once each, in order |
| NullifierScan.Scan | indexer-api/src/infra/storage/dust_generations.rs:348-413 | Prefixes are served in turn, each with its matching rows |
| NullifierScan.ListingIsUnique | indexer-api/src/infra/storage/shielded_nullifiers.rs:49-89 | The batch size does not matter to the result |
| NullifierScan.ListsByPrefix | indexer-api/src/infra/storage/shielded_nullifiers.rs:38-92 | Under the condition above, the rows delivered are those in the block range whose nullifier starts with the prefix |
| DustCapacity.Aggregate | indexer-api/src/infra/storage/dust_generations.rs:95-118 | Each of the four saturated figures is the true sum, clipped once at the 128-bit maximum |
| DustCapacity.CurrentWithinMax | indexer-api/src/infra/storage/dust_generations.rs:104-118 | Current capacity never exceeds maximum capacity |
| DustCapacity.CurrentNeverFalls | indexer-common/src/domain.rs:141-153 | As time advances current capacity never falls and the other figures stay |
| DustCapacity.SingleStatus | indexer-api/src/infra/storage/dust.rs:60-118 | The single-status path gives the figures of the newest generation, and agrees with the aggregate on all four when there is at most one |
| SpoEpochs.SlotsAddUp | spo-indexer/src/application.rs:373-402 | Expected slots sum exactly to the slots of the epoch and differ by at most one |
| SpoEpochs.CommitteeToMembership | spo-indexer/src/application.rs:373-402 | One row per member in order, with epoch, position and normalised keys, and slots that sum to those of the epoch |
| SpoEpochs.BlocksTotal | spo-indexer/src/application.rs:165-190 | What the expected blocks of a whole committee add up to |
| SpoEpochs.BlocksAddUpIff | spo-indexer/src/application.rs:365-371 | They add up to the slots if and only if duration and slots leave the same remainder |
| SpoEpochs.BlocksNeedNotAddUp | spo-indexer/src/application.rs:165-190 | A committee for which one block too many is expected |
| SpoEpochs.NextEpochIs | spo-indexer/src/application.rs:404-428 | The next epoch has the next number and the interval of the number before |
| SpoEpochs.FirstEpochNumIs | spo-indexer/src/infra/spo_client.rs:248-256 | Counting starts at the epoch of the first block, or one earlier if that block is right at its start |
| SpoEpochs.EpochsAreConsecutive | spo-indexer/src/application.rs:404-428 | Over every run stored epochs have consecutive numbers and full intervals |
| SpoEpochs.IntervalsAbut | spo-indexer/src/application.rs:404-428 | Each stored interval starts where the one before ends |
| SpoEpochs.IntervalIsThatOfThePredecessor | spo-indexer/src/application.rs:420-425 | No stored epoch carries the interval the node gives its number |
| SpoEpochs.NeverAhead | spo-indexer/src/application.rs:416-419 | With a node that is never behind, storage never gets ahead of it |
| SpoEpochs.NotAheadIff | spo-indexer/src/application.rs:404-428 | After one more report the newest number is at most that report if and only if it was before |
| SpoEpochs.LaggingNodeRunsAhead | spo-indexer/src/application.rs:413-426 | While the node reports an older epoch, every poll stores one more future number |

## Left out

- Ledger internals, transaction decoding, serialization and the translation between ledger versions: functions that may fail.
- Node RPC, metadata decoding, HTTP clients, message brokers, GraphQL resolvers and routing: I/O and library plumbing.
- The algorithm of the garbage collector: any collector that deletes only garbage stands for it.
- LedgerStateCaching.LedgerStateCache.MakeCollapsedUpdate: one caller that finds the lock free; the interleavings of many callers are those of the protocol whose steps it performs.
- UnshieldedUtxos.ListedValueIsConserved: assumes that spends are listed with the value they were created with; `ValueIsConserved` is the statement without it.
- Metrics, logging, tracing, sleeps and retry delays.
- BlockSource.FinalizedBlocks: does not model the branch in which the first received block is the stored one, because the filter passes only greater heights and hashes commit to heights.
- Contract actions, ledger events, unshielded balances of contracts and bridge tables: straight inserts.
- Several wallets at once: a wallet's scan touches only its own rows, so `WalletIndexer` follows any one wallet.
- Session handling, wallet activity and its expiry: they decide when a wallet is scanned, not what is saved.
- Conversion of a start index that does not fit 64 signed bits: an error before anything is stored.
- TokenBuckets.TokenBucket.TryTakeAt: uses reals, so floating-point rounding is not modelled.
- DustCapacity.Aggregate: milliseconds wrap in 64 bits as in release builds; a build with overflow checks would stop instead.
- The contents of a collapsed Merkle tree update: the leaves of its range stand for it.
- Paged dust generation entries, contract event and transaction streams: the cursor loop is the one proved for nullifiers.
- Stake snapshots, pool metadata and registrations of the stake-pool indexer: copying of fetched data.
- Expected blocks of committee members that produced none are not stored; `SpoEpochs` speaks of the whole committee.
