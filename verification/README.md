# Ledger replication and pull protocol of the Manta indexer, in Dafny

The indexer keeps a local copy of a full node's ledger (receivers in 256 Merkle shards, and a list of senders) and
serves it to wallets. This project models the four parts that make this work and proves that they fit together.

| file | what it models |
|---|---|
| `Types.dfy` | ledger items, checkpoints, responses; encoding and its inverse |
| `Keys.dfy` | the bit-packed 64-bit cache keys, over strings of 64 bits |
| `Lru.dfy`, `ShardedLru.dfy` | the bounded cache and its sharded variant |
| `Rows.dfy`, `Db.dfy` | the three tables as bags of rows; the statements; reading a window through a cache |
| `Coherence.dfy` | when the cache tells the truth about a ledger |
| `Partition.dfy`, `Greedy.dfy` | grouping by shard and moving cursors; greedy batching in closed form |
| `Effects.dfy` | what pulling does to the contents of the cache |
| `Pull.dfy` | the pull server over fixed tables (the class `Indexer`) |
| `Client.dfy` | clients that drain the server over fixed tables |
| `Commit.dfy`, `FullNode.dfy` | one transaction; an append-only node, and the course of a sync run that its answers determine |
| `Refresh.dfy`, `Sync.dfy` | what the cache refresh achieves; the sync job |
| `Serving.dfy`, `Quiet.dfy`, `Order.dfy`, `System.dfy` | all of it as a step system, and its invariant |
| `Runs.dfy`, `Rounds.dfy` | what holds in every run; a round of the sync job, and a write-back, as runs |
| `History.dfy`, `Reads.dfy` | to which actions of a run its requests, its totals, its opening and its reads go back |
| `Sessions.dfy`, `Liveness.dfy`, `Gap.dfy` | client sessions while the ledger grows; requests finish; a run that loses a sender |

There are two views of the pull code. `Pull.Indexer` has the source's own loops over tables that do not change while a
call runs, and gives exact answers (which items, how many, which flag). `Serving.Process` is the same code cut at every
point where the source awaits something shared, so that commits, cache refreshes, evictions and other requests can fall
between the existence gate, the cache read, the database read, the write-back and the end check. `System.Action` lists
all steps, including failures and crashes at any point; `Runs.Exec` runs any list of them. The two views meet in
`Runs.QuietPullsArePlain`: a request answers exactly as `Pull.Indexer` does over the tables it began with, unless
something is committed while it is in progress. The sync writer has two views as well, the loops of `Sync` and the steps
of `System.Writer`, and they meet in `Rounds.RoundIsRun`.

`System.State.replica` and `Pull.Indexer.replica` are history variables: the ledger that the committed tables are meant
to hold. `Db.Holds` says that they do, each index exactly once, although no schema rule enforces it. `seen` and `look`
of a request are history too: what its reads of cache and tables saw, which `Reads.ReadsTookPlace` ties to the run.

Main results:

- In every run, whatever the interleaving: the tables are a dense prefix of the node's ledger (`Runs.TablesAreDense`),
  every cache entry is a committed row (`Runs.CacheIsCommitted`), the in-memory cursor is the row count
  (`Runs.CursorIsCount`), every finished pull delivered exactly the items between its cursors (`Runs.PullsAreExact`),
  and a restart resumes the same run (`Runs.RestartResumes`).
- In every run a client session, across restarts of the indexer too, has every receiver between its first and its last
  cursor exactly once (`Sessions.SessionsAreExact`), a client that counts for itself has every sender of its span
  exactly once as long as no window wraps (`Sessions.CountingSessionsAreExact`), and no request is ever stuck
  (`Liveness.PullsCanFinish`).
- A pull is greedy and exact (`Pull.Indexer.PullReceivers`, `Greedy.Conservation`), its flag means precisely that the
  limit falls strictly inside a shard (`Client.FlagExact`), and a client that follows the cursor stops in time with
  everything, except in exactly one characterised case (`Client.Drain`).
- In every run a request answers the call that started it (`History.RequestsAreServed`) with the total of the latest
  commit (`History.TotalIsCommitted`), in the order of its reads (`Runs.PullsAreOrdered`, `Reads.OrderedQueries`), and
  the service is not open before the first sync has finished, unless it is shut down (`History.GateWaits`).
- A sync run over a finite ledger terminates with the node's ledger in the tables; it is the run that the node's answers
  determine, it fails exactly when something fails, and with room everything it fetched is in the cache
  (`Sync.SyncShardsFromFullNode`, `Sync.StartSyncLedgerJob`).
- The packed keys are injective on their fields (`Keys.KeyValues`, `Keys.KeysCollide`), and the sharded cache is
  indistinguishable from key-by-key use (`ShardedLru.ShardThreadSafeLru.Batch`).

Promises that the code does not keep, with the exact condition:

- "More receivers" is not reported when the limit ends a shard exactly and later shards still have items
  (`Client.FlagExact`, witness `Client.ExactFitStops`). A whole session loses receivers if and only if some number of
  calls that fetches every sender ends a shard exactly (`Client.CompleteIff`).
- Items of one shard are not always delivered in ledger order. With rows in ascending order and items that differ from
  each other, they are if and only if no missed row precedes a cached one (`Pull.PullOrder`, witness
  `Pull.DisorderHappens`); the first half holds of whole answers (`Pull.AnswerOrder`) and in every run
  (`Reads.OrderedQueries`).
- The server's cursor is promised as the next request's cursor when the answer says continue, and only then
  (src/types.rs:88-91). The sender cursor moves by the full amount even after a short batch, and an answer can say
  continue after a short batch when something is committed between the database read and the end check; nothing else
  can cause this (`Runs.ShortAndMore`). In every run, a client that follows the cursor has all senders that its windows
  span if and only if every batch it got was full or reached the end of the ledger (`Sessions.SessionsAreExact`);
  `Gap.SendersAreLost` builds a run in which a client that was told to continue loses one.
- `INSERT OR REPLACE INTO shards` never replaces (`Db.InsertShardDuplicates`); the tables stay dense if and only if the
  in-memory cursor was that of the tables on every shard of the batch (`Commit.CommitExact`).
- A sender window is read right from every truthful cache if and only if it does not wrap around the 48-bit field of
  the keys onto an existing sender (`Coherence.AliasExact`); otherwise a pull can deliver a sender for an index at which
  there is none (`Coherence.AliasedWindow`).

Assumptions about the surroundings: the node's ledger is append-only and answers with the next items of each shard in
order from the requested cursor, as many as it likes (so the limits, which the request passes in swapped order, do not
matter); there is one writer; a transaction is atomic; decoding undoes encoding; the shard of a UTXO is a function of
the UTXO; shard sizes plus one batch stay below 2^48. A crash is a crash of the process: with `PRAGMA synchronous = OFF`
(src/db.rs:56-63) a crash of the operating system may lose committed transactions, which the model does not allow.

## Model

| member | source | states |
|---|---|---|
| `Keys.KeyValues` | src/indexer/cache.rs:29-54 | for every 64-bit shard and index, the masked shifts compute 2^60 + (shard mod 2^12) * 2^48 + (index mod 2^48), and 2^61 + (index mod 2^48) |
| `Keys.KeysCollide` | src/indexer/cache.rs:41-54 | two keys are equal exactly when their fields are; receivers and senders never share a key |
| `Lru.ReadKeepsContents` | src/indexer/cache.rs:150-151 | a look-up answers from the contents and leaves them alone, whatever it does to recency |
| `Lru.WriteContents` | src/indexer/cache.rs:186-188 | an insertion binds its key; the least recently used entry goes exactly when a new key meets a full cache, and nothing else does |
| `Lru.LookUpProtects` | src/indexer/cache.rs:150-151 | after a look-up of a key that is there, one insertion of a new key into a full cache of capacity two or more does not evict it |
| `Lru.ReadsRefine` | src/indexer/cache.rs:147-153 | a batch of look-ups on the bounded cache answers like a map |
| `Lru.WritesRefine` | src/indexer/cache.rs:184-189 | after a batch of insertions the bounded cache holds exactly the most recently used entries, as many as fit, each key once; on the map that is some storing and evicting |
| `Lru.WritesKeepAll` | src/indexer/cache.rs:184-189 | nothing is evicted as long as everything fits: the map is the old one overwritten by the batch in order |
| `ShardedLru.ShardThreadSafeLru.Batch` | src/indexer/cache.rs:63-96 | grouped processing in any hash-map order leaves every sub-cache (contents, recency, evictions) and every answer as key-by-key processing in input order does, repeated keys included |
| `ShardedLru.ShardThreadSafeLru.GroupByHome` | src/indexer/cache.rs:67-74 | the groups are the accesses of each sub-cache, in order, with their positions |
| `ShardedLru.OneByOneGroups` | src/indexer/cache.rs:75-80 | key by key, a sub-cache sees just its own group |
| `ShardedLru.OneByOneAnswer` | src/indexer/cache.rs:77-79 | an answer depends only on the earlier accesses of the same sub-cache |
| `ShardedLru.KeysStayHome` | src/indexer/cache.rs:84-96 | every key lives only in the sub-cache that its value selects, and once |
| `Rows.DenseExactlyOnce` | src/db.rs:209-227 | a dense bag has as many rows as items, each index below that exactly once and no other |
| `Rows.ReadThrough` | src/indexer/pull.rs:115-146 | for any cache contents whatsoever and any row order, hits followed by the rows of the misses are, as a bag, what cache and table together show index by index |
| `Rows.OverlayWindow` | src/indexer/pull.rs:115-146 | when the cache agrees with the table, that is the window, in order |
| `Rows.ReadThroughIsRangeQuery` | src/db.rs:100-114 | reading through the cache delivers what the plain range query delivers |
| `Rows.LedgerOrder` | src/indexer/pull.rs:121-146 | with ascending rows the delivered values are the window in order if no missed row precedes a cached one, and, for values that differ, only then |
| `Pull.PullOrder` | src/indexer/pull.rs:121-146 | the same for the receivers that one shard's pull delivers |
| `Pull.DisorderHappens` | src/indexer/pull.rs:121-146 | a ledger and a truthful cache for which the second of two items is delivered first |
| `Db.InsertShardDuplicates` | src/db.rs:141-159 | inserting an index of a shard adds a row even if the index exists |
| `Db.InsertNullifierReplaces` | src/db.rs:161-179 | inserting a nullifier index leaves exactly the new row with it, and the rows of the other indices alone |
| `Db.CountIsCursor` | src/db.rs:209-227 | for tables that hold a ledger, the counts are the cursor just past it, and an index exists exactly below the cursor |
| `Db.Connection.GetLatestCheckPoint` | src/db.rs:209-227 | one count per shard and one for the nullifiers |
| `Coherence.CoherentGrows` | src/indexer/sync.rs:163-164 | a truthful cache stays truthful when the ledger grows |
| `Coherence.PutEvictCoherent` | src/indexer/cache.rs:165-182 | storing truthful entries and evicting anything keeps a cache truthful |
| `Coherence.ReceiverWindowAgrees` | src/indexer/cache.rs:128-137 | what a truthful cache answers for a window of a shard is what the shard holds there |
| `Coherence.SenderWindowAgrees` | src/indexer/cache.rs:139-145 | the same for senders, for a window that does not wrap onto an existing sender |
| `Coherence.AliasedWindow` | src/indexer/cache.rs:49-54 | when the window does wrap, some truthful cache makes a pull see more senders than the window holds |
| `Coherence.AliasExact` | src/indexer/cache.rs:49-54 | every truthful cache shows the window right if and only if it does not wrap onto an existing sender |
| `Coherence.ReceiverWritesTruthful` | src/indexer/pull.rs:132-146 | rows read back from the tables become cache entries, each under its own key, and all of them truthful |
| `Coherence.SenderWritesTruthful` | src/indexer/pull.rs:184-197 | the same for nullifier rows |
| `Partition.ReconstructShards` | src/indexer/sync.rs:64-89 | each group is the subsequence of receivers with that tree index, empty groups are absent, and there is an error exactly when some UTXO cannot be placed |
| `Partition.GroupLensSum` | src/indexer/sync.rs:75-87 | the groups' lengths add up to the input's |
| `Partition.IncreasingCheckpoint` | src/indexer/sync.rs:305-314 | each cursor moves by its group's length, in any hash-map order |
| `Partition.AdvanceSum` | src/indexer/sync.rs:303-314 | all cursors together move by the number of receivers |
| `Partition.CalculateNextCheckpoint` | src/indexer/pull.rs:32-47 | visited shards are overwritten from the previous checkpoint, the sender cursor is increased |
| `Partition.RecalculatedIsAdvance` | src/indexer/pull.rs:32-47 | it equals `increasing_checkpoint` if and only if the two checkpoints agree on every shard of the batch |
| `Greedy.Conservation` | src/indexer/pull.rs:67-91 | the cursors together move by min(limit, everything left) |
| `Greedy.LoopTake` | src/indexer/pull.rs:75-88 | one visited shard moves cursors, batch length and flag from the closed form below it to the closed form including it |
| `Greedy.LoopDone` | src/indexer/pull.rs:85-91 | leaving the loop early or at the end yields the closed form of the whole pull |
| `Greedy.NextCompose` | src/indexer/pull.rs:57-92 | two pulls in a row move the cursors like one pull with the sum of the limits |
| `Greedy.InsideCompose` | src/indexer/pull.rs:80-91 | the second pull's flag is that of the sum, seen from the first cursor |
| `Pull.Indexer.GetBatchLru` | src/indexer/cache.rs:147-153 | answers every key from the contents, which stay the same |
| `Pull.Indexer.PutBatchLru` | src/indexer/cache.rs:184-189 | applies the insertions in order and keeps the cache truthful; with room every key of the batch is there afterwards and none is lost |
| `Pull.Indexer.PullReceiversForShard` | src/indexer/pull.rs:102-154 | for every window and any cache contents appends the cached items in index order and then the missed rows in the order of the query, all of this shard; never fewer than are stored in the window, never more than one per index, and exactly the shard's items in [start, start + amount) unless the window wraps onto an existing item; reports more exactly when an item exists past the window; with room everything stored in the window is in the cache afterwards |
| `Pull.Indexer.FetchReceivers` | src/indexer/pull.rs:132-149 | what is decoded are the rows of the query, and with room each row read back is in the cache under its key afterwards, and nothing was lost |
| `Pull.Indexer.FetchSenders` | src/indexer/pull.rs:178-197 | the same for nullifier rows |
| `Pull.Indexer.VisitShard` | src/indexer/pull.rs:67-89 | one turn of the loop (gate, the shard's own pull, new cursor, early exit) stays within the limit and in shard order, appends the shard's items in the order of its read and remembers that read, and, unless a window wraps, moves cursors, batch, flag and exit condition from the closed form for the shards before to the one including this shard |
| `Pull.Indexer.PullReceivers` | src/indexer/pull.rs:57-92 | stays within the limit, lower shards first; each shard's receivers, in order, encode to the cached answers of its window followed by the rows of its query; unless a window wraps onto an existing item, delivers exactly min(limit, everything left), for each shard exactly the items between old and new cursor, with the flag set exactly when the limit falls strictly inside a shard (or is zero with items left); with room all of it is in the cache afterwards |
| `Pull.Indexer.PullSenders` | src/indexer/pull.rs:161-207 | for every window delivers, hits first and then the rows in the order of the query, what cache and table together show; never fewer than are stored in the window, never more than one per index, and exactly the senders in [start, min(start + amount, size)) unless the window wraps onto an existing sender; more exactly when start + amount is below the size; cursor start + amount; with room the window is in the cache afterwards |
| `Pull.Indexer.PullLedgerDiff` | src/indexer/pull.rs:213-238 | combines the three for every checkpoint and every limit, order and cache included, and fails exactly when there is no total row |
| `Pull.Indexer.PullLedgerDiffImpl` | src/indexer/mod.rs:95-112 | the same with both limits clamped to 4096: never more than the caller wants or than 4096 of each kind |
| `Pull.AnswerOrder` | src/indexer/pull.rs:81-83 | with ascending rows and no missed row before a cached one, the receivers of a shard in a whole answer are the ledger's items between old and new cursor, in the ledger's order |
| `Pull.RecomputedCursor` | src/indexer/pull.rs:83-84 | the server's new receiver cursor is what a client gets by counting |
| `Client.FlagExact` | src/indexer/pull.rs:80-91 | for a positive limit the flag is set if and only if more is left than the limit and the limit does not end a shard exactly |
| `Client.ExactFitStops` | src/indexer/pull.rs:85-87 | a concrete exact fit: items are left and the flag says stop |
| `Client.CompleteIff` | src/indexer/pull.rs:213-238 | a session that stopped misses receivers if and only if some number of calls that covers every sender ends a shard exactly |
| `Client.DeliveredJoin` | src/indexer/pull.rs:67-91 | consecutive batches deliver consecutive windows of every shard, without gap or repeat |
| `Client.Drain` | tests/integration-tests/src/stress-test.ts:114-130 | on fixed tables the client stops within max(1, ceil(R/maxR), ceil(S/maxS)) calls, has no receiver twice, every receiver whenever its last batch was short, every receiver if and only if no exact fit stops it early, and, unless its windows wrap onto an existing sender, every sender once |
| `Client.CursorsAgree` | src/indexer/pull.rs:202-237 | the client's recomputed cursor agrees with the server's on all shards, and on senders exactly when the sender batch was full; the batch has between min(amount, senders left) and amount senders |
| `Client.DrainByCounting` | src/indexer/sync.rs:362-399 | the loop that recomputes its cursor keeps its two checkpoints equal and has the same session as one that follows the server's cursor |
| `Client.PullLedgerDiffFromSqlite` | src/indexer/sync.rs:362-399 | from the origin, with both limits at 15360, the drain collects the whole ledger in the same sense |
| `Client.ChainSenders` | src/indexer/pull.rs:161-207 | k calls of `pull_senders`, each from the cursor of the one before, deliver over a fixed table the senders in [s, min(s + k * a, N)) once each, unless that window wraps |
| `Commit.ExtendedIsPrefix` | src/indexer/sync.rs:110-117 | what is fetched at the end of a prefix of the node's ledger makes a longer prefix |
| `Commit.CommittedRows` | src/indexer/sync.rs:123-139 | after the transaction each shard has its old rows and then its group at consecutive indices from the in-memory cursor |
| `Commit.CommitExtends` | src/indexer/sync.rs:119-161 | a batch committed at the cursor of the tables extends the ledger that they hold, each index exactly once |
| `Commit.CommitExact` | src/indexer/sync.rs:123-161 | the tables hold the longer ledger if and only if the in-memory cursor was that of the tables on every shard of the batch |
| `Commit.OrderDoesNotMatter` | src/indexer/sync.rs:123-139 | the tables are the same bags for any two hash-map orders |
| `Sync.InsertReceivers` | src/indexer/sync.rs:123-139 | each group goes in once, at consecutive indices from its shard's cursor, in some listing of the hash map |
| `Sync.CommitBatch` | src/indexer/sync.rs:119-161 | one transaction: nothing happens, or the tables hold the longer ledger; the index at which senders go in is the sender cursor |
| `Sync.RefreshCache` | src/indexer/sync.rs:163-182 | the cache takes exactly the batch's entries, shard by shard and then the senders, and stays truthful; with room each receiver of the batch is found under its shard and index afterwards, each sender under its index, and nothing was lost |
| `Refresh.RefreshCaches` | src/indexer/sync.rs:163-182 | the same for the bounded cache as a value |
| `Refresh.WarmThrough` | src/indexer/sync.rs:109-202 | over several rounds too: with room for all that was added to the ledger, all of it is in the cache |
| `Sync.SynchronizeLedger` | src/indexer/sync.rs:48-62 | limits up to 4096 go out as given and larger ones as 4096, the sender limit first; a failed request is an error |
| `Sync.SyncRound` | src/indexer/sync.rs:109-202 | fails exactly when the node does not answer, a UTXO cannot be placed or the transaction fails, and then tables and cache are untouched; otherwise tables, total, cache and cursor all move by the batch, with room the batch is in the cache, and the cursor equals the row counts again |
| `Sync.RoundProgress` | src/indexer/sync.rs:198-202 | a round that says continue adds an item; one that says stop has the node's whole ledger |
| `Sync.SyncShardsFromFullNode` | src/indexer/sync.rs:98-206 | terminates over a finite ledger; the tables hold a prefix of the node's ledger that extends the old one, all of it after success; the run is the one that the node's answers determine round by round, it ends with success exactly at the first stop and with an error exactly at the first failure; the start-up flag is set exactly on success; with room everything fetched is in the cache |
| `Sync.StartSyncLedgerJob` | src/indexer/sync.rs:221-260 | each run starts where the one before ended and ends as the node's answers determine; the errors are the runs that ended in a failure, of which there is none if nothing fails; then, if a stop leaves nothing behind, the tables hold the node's whole ledger; the start-up flag is set exactly when a run has succeeded; with room everything fetched is in the cache |
| `Serving.PullGrows` | src/indexer/pull.rs:109-153 | what a request relies on and has achieved survives commits between its steps |
| `Serving.QueryAnswer` | src/indexer/pull.rs:115-143 | the answer for a shard is that of the tables at the database step, with hits that were read earlier |
| `Serving.SendersRead` | src/indexer/pull.rs:164-197 | the sender batch is that of the tables at the database step, likewise |
| `Serving.StepKeepsPull` | src/indexer/pull.rs:67-238 | every step of a request keeps its batch exact and the cache truthful, and can only fail for want of a total |
| `Serving.StepKeepsCover` | src/indexer/pull.rs:67-207 | a request never falls behind what was committed when it began: a short batch is complete up to that, a clear receiver flag means that the visited shards are, and a clear sender flag that the new cursor is past it |
| `Quiet.QuietStep` | src/indexer/pull.rs:67-238 | while the tables hold the same ledger, every step keeps a request on the path of the plain pull: loop variables, segment, flags and senders are those of the closed form |
| `Order.StepKeepsOrder` | src/indexer/pull.rs:81-83 | whatever happened between the steps, every step keeps each shard's receivers, and the senders, in the order of the read: the cached items of the window, then the rows for what the cache missed; and every row read is up for write-back |
| `System.CommitData` | src/indexer/sync.rs:123-161 | a commit in any state that satisfies the invariant keeps tables, cache and node consistent |
| `System.StepKeepsInv` | src/indexer/sync.rs:98-206 | every action of node, writer, cache, service and requests keeps the system invariant |
| `Runs.EveryRun` | src/indexer/sync.rs:98-260 | the invariant holds after every list of actions |
| `Rounds.RoundIsRun` | src/indexer/sync.rs:109-202 | a round of the sync job that goes through, with the tables, the bounded cache and the hash-map orders of `Sync.SyncRound`, is the run fetch, commit, one cache step per group, senders, advance |
| `Rounds.WriteBackIsStep` | src/indexer/pull.rs:132-149 | the bounded cache's way of taking a write-back is a step of the system, after which, with room, every receiver row the request read from its shard is in the cache |
| `Rounds.WriteSendersIsStep` | src/indexer/pull.rs:184-197 | the same for senders |
| `Runs.RunsOnlyAppend` | src/indexer/sync.rs:119-161 | committed items never change or go away, crashes of the process included |
| `Runs.TablesAreDense` | src/indexer/sync.rs:104-161 | in every run each index of each shard, and of the nullifiers, is in the tables exactly once with the node's item |
| `Runs.CacheIsCommitted` | src/indexer/sync.rs:163-182 | in every run each cache entry is the committed row that its key names |
| `Runs.CursorIsCount` | src/indexer/sync.rs:142-185 | in every run the in-memory cursor is the row count until the commit, so senders are inserted where they were asked from |
| `Runs.RestartResumes` | src/indexer/sync.rs:228-257 | after a failure or crash at any point the next request asks for exactly what follows the committed prefix; a crash leaves tables, node and sent answers, and no cache, start-up flag or open service |
| `Runs.TotalIsThere` | src/service.rs:123-126 | in every run in which the service opened because the first sync finished, the totals table has exactly one row, that of the last committed batch, and no pull fails (when it opens: `History.GateWaits`) |
| `Runs.PullsAreExact` | src/indexer/pull.rs:67-238 | in every run each finished pull, answered before a crash or after it, delivered exactly the node's items between old and new cursor; a short batch has everything committed when the pull began; a set flag means that an item follows; a clear one that nothing committed when the pull began is left in the visited shards, or past the sender cursor (whose call it answers: `History.RequestsAreServed`) |
| `Runs.PullsAreOrdered` | src/indexer/pull.rs:81-83 | in every run each finished pull delivered each shard's receivers, and its senders, in the order of its reads, which is the ledger's if the rows came in order and no missed row precedes a cached one |
| `Runs.QuietPullsArePlain` | src/indexer/pull.rs:213-238 | in every run a finished pull has exactly the greedy batch, flag, cursor and senders of a pull over the tables it began with, whatever the cache did meanwhile, unless a commit falls between its first and its last step |
| `Runs.ShortAndMore` | src/indexer/pull.rs:199-206 | in every run a short sender batch together with a set sender flag takes a commit while the pull is in progress |
| `History.RequestsAreAskedFor` | src/indexer/mod.rs:95-112 | in every run each request stems from a call of that run, with the caller's cursor and the caller's own two limits, each capped at 4096, over what was committed then |
| `History.RequestsAreServed` | src/indexer/mod.rs:95-112 | so a finished request has at most as many receivers and senders as the caller wanted, and as 4096, from the caller's cursor on |
| `History.FlagSaysSynced` | src/indexer/sync.rs:198-202 | in every run the start-up flag is set if and only if a run of the sync job has ended with a stop since the last crash |
| `History.GateWaits` | src/service.rs:123-126 | in every run the open service was opened after such an end, since the last crash, or by a shutdown while there was none |
| `History.OpenMeansTotal` | src/service.rs:123-126 | in every run without a shutdown, the service is never open without a total, and no pull fails |
| `History.TotalIsCommitted` | src/indexer/pull.rs:225 | in every run a finished request has the total of the latest commit before its last step; one that failed took that step before anything was committed |
| `History.AdvanceAfterRefresh` | src/indexer/sync.rs:163-202 | in every run the job advances, or ends its run, only after every group of the batch and its senders have gone into the cache since that batch was committed |
| `Reads.ReadsTookPlace` | src/indexer/pull.rs:115-135 | in every run what a request remembers of a read is what one of its steps got from the cache and a later one from the tables, for what the cache missed |
| `Reads.OrderedQueries` | src/indexer/pull.rs:121-146 | in every run, if the queries of a request return their rows in order, its answer is in the ledger's order, shard by shard and for senders, unless a row was missed below a cached one |
| `Sessions.SessionsAreExact` | src/indexer/pull.rs:57-238 | in every run, restarts included, a client that follows the server's cursor has exactly the receivers from its first to its last cursor, each once, however the ledger grew; and, when no window wraps onto an existing sender, all senders that its windows span if and only if every sender batch was full or reached the end of the ledger |
| `Sessions.OneBatch` | src/indexer/pull.rs:202-206 | a sender batch never has more than its window holds now, and has all of it exactly when it is full or at the end |
| `Sessions.CountingSessionsAreExact` | src/indexer/pull.rs:32-47 | in every run a client that counts what it received has every receiver and, when no window wraps onto an existing sender, every sender of its span exactly once; a short sender batch brings it to the end of what was committed |
| `Sessions.StoppedSessions` | src/indexer/pull.rs:226-227 | in every run, when the last answer says stop, its cursors are past every sender, and past every receiver of the shards it visited, that were committed when the last request began |
| `Gap.SendersAreLost` | src/indexer/pull.rs:199-206 | a run of the whole system in which a client that goes on from the server's cursor, as the answer told it to, misses the second of three senders: two are committed between the database read and the end check of its first request |
| `Liveness.PullsCanFinish` | src/indexer/pull.rs:57-238 | from every state of every run in which there is a total, a request finishes by its own steps alone, with a bound on their number and nothing else changed |

## Left out

- Relaying of other RPC calls and subscriptions, monitoring, command line, configuration and client construction: thin wrapping with easy facts only.
- SQLite, connection pools, pragmas and migrations: tables are values, a transaction is atomic, and reads do not fail. The source reports a failing existence check as "not there", which would make a pull skip a shard.
- SCALE encoding, base64 and JSON: `Types.Blob` makes encoding and decoding inverse by construction, and keeps the two columns of a row as one content. The item hash is not modelled; the shard is a field of the UTXO.
- Integer widths: indices and counts are unbounded; the nullifier count read as 32 bits, the overflow of start + amount, and casts to signed 64 bits are not modelled. The 48-bit field of the cache keys is.
- Timing, sleeps, log lines, the retry delay, and the `refresh_cache = false` mode inside `System` (it is in `Sync.SyncRound`).
- `append_nullifier`, `put_sender`, `get_receiver`, `get_sender`, `lru_size`: unused or single-key helpers.
- The node's own pull code: a node may answer with any number of items, but what it answers must be the next items of its ledger.
- Client.PullLedgerDiffFromSqlite: console output and timing are not modelled.
- Sync.SyncShardsFromFullNode: termination is proved for a ledger that stays below some bound and for a node that never says continue with an empty answer; the source would go on forever otherwise.
- Sync.StartSyncLedgerJob: the number of runs until shutdown is a parameter; the pause between runs is not modelled.
