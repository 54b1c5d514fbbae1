# blaze: a verified model

blaze keeps, for every tenant, which graph nodes are connected. Edges arrive as
events seen by everyone or by listed scopes. A component is named by its lowest
node id. One global disjoint-set forest holds the edges everybody sees; sparse
per-scope overlays, keyed on global roots, hold the rest; a registry says which
scopes to notify when a global root is absorbed. What is applied sits in a
memtable over a stack of immutable runs, is folded out into new runs, and the runs
are merged behind the back of ingest. A flush thread publishes snapshots of the
stack together with data files and a stream position, from which a worker that
went down starts again.

This project models that system in Dafny 4.11 and proves what it promises. The
parts that update state in place are classes and methods with loops; the
concurrent and crash-prone parts are step systems; the rest is functions and
lemmas.

| area | modules |
|---|---|
| components and parent forests | `Graph`, `ParentForest`, `DisjointSets`, `DsuRaces` |
| the scoped forest over runs | `Layers`, `ScopedView`, `ForestState`, `Folds`, `Memtables`, `Forest`, `Events`, `Hydration` |
| listing components | `Walks`, `Memberships` |
| merging and streaming runs | `Compaction`, `Streaming`, `Registries`, `Merges`, `Tiering` |
| bytes | `Varints`, `Blocked`, `BlockedReader`, `Filters`, `Blobs`, `BlobWriters`, `Snapshots`, `CompactedBlobs`, `Lookups`, `Sampler` |
| positions, ingest and commits | `Streams`, `Ingest`, `RunLists`, `Protocol`, `Recovery`, `ExactlyOnce`, `RunSets`, `LostMerges`, `Catalogs`, `Leaders`, `Retention` |
| shared helpers | `Types`, `Sorting` |

Main results:

- A query on the live forest answers the lowest id of the component the scope
  sees, and after any history of applies, queries, folds and base swaps the answer
  is the one an all-heap forest would give (`Forest.ScopedForest.ScopeRootOf`,
  `Events.FoldsInvisible`).
- Lookups racing one writer are linearizable and wait-free
  (`DsuRaces.Linearizable`, `DsuRaces.WaitFree`).
- Merging any stretch of the stack is invisible to every lookup of both tiers
  (`Layers.SpliceInvisible`, `Folds.SpliceEquivalent`, `Compaction.CompactRange`).
- Streaming a forest into blobs and encoding its collected snapshot write the same
  bytes (`Snapshots.BothPaths`).
- A background merge of a whole stack writes the run that folding the stack out would,
  in every reachable state (`Merges.WholeMerge`), and the same bytes
  (`CompactedBlobs.BothCompactors`).
- A worker that has caught up answers for the whole log, however often it crashed
  (`Recovery.CaughtUpAnswers`), and every row is committed exactly once
  (`ExactlyOnce.RecordsOnce`, `ExactlyOnce.CommittedRows`).
- Which published run sets read back, commit by commit (`RunSets.FoldReadsIff`,
  `RunSets.MergeReadsIff`), and runs that end where no worker can start
  (`LostMerges.LostMergeRun`).

A predicate of the form `forall u: Unfold :: P(..., u)` says `P`; it only keeps the
verifier from unfolding `P` where nobody asks.

## Findings

Four things the code does that its documentation does not promise.

| where | what happens | stated by |
|---|---|---|
| src/storage/flush.rs:922, src/storage/flush.rs:933 | A merge whose commit succeeds with the answer lost, or whose file cannot be opened after it, leaves the worker one commit behind. The next delta it commits skips a sequence, and every reader refuses that snapshot's run set. The set reads again once a merge covers every gap or a self-contained fold replaces the stack; a worker that goes down before that cannot start again. | `LostMerges.LostMergeRun`, `RunSets.LostMergeGap`, `RunSets.FoldReadsIff`, `RunSets.MergeReadsIff` |
| src/storage/base.rs:493-495 | A run with no shared pairs has no shared member index, though it was written with the option on. Folding out a memtable of overlay links alone therefore silences `members` for every component of the stack. | `Memberships.FoldIndexedIff`, `Memberships.Silenced` |
| src/storage/catalog.rs:364-378 | Probing forward from a cached sequence trusts that sequences are dense, which expiry undoes. A process whose next sequence was expired stops there: it asks for an object that is gone, or takes an older snapshot for the newest. It reads the newest exactly when every sequence after the cached one is still present. | `Retention.Overtaken`, `Catalogs.Latest`, `Retention.SweptLatest` |
| src/storage/filter.rs:184-205, src/storage/filter.rs:158 | A filter blob of eight bytes that counts no block is accepted, and the first probe takes a remainder by zero. A well-framed blob can be probed exactly when its count is above zero. | `Filters.NoBlocks`, `Filters.ProbeBlob` |

## Model

| member | source | states |
|---|---|---|
| DisjointSets.Dsu.Find | src/core/dsu.rs:140-155 | Path halving returns the class's root and changes no node's root. |
| DisjointSets.Dsu.FindRo | src/core/dsu.rs:161-174 | The read-only walk returns the same root; the shortcut a long walk leaves changes no root. |
| DisjointSets.Dsu.Union | src/core/dsu.rs:179-190 | Exactly the arguments' classes are joined, the lower root surviving; the merge reported, if any, is that link, and the child index stays the inverse of the merge edges. |
| DisjointSets.Dsu.Hydrate | src/core/dsu.rs:223-235 | Loading resolved pairs adds exactly their links, to the parents and to the child index. |
| DsuRaces.CallStepKeeps | src/core/dsu.rs:140-174 | Whatever a lookup read, however long ago, is still in its argument's class after any access of its own, and no access splits or joins classes. |
| DsuRaces.Invariant | src/core/dsu.rs:131-190 | In every interleaving of one writer and any lookups, roots are component minima of the unions that took effect, and lookups carry only members of their class. |
| DsuRaces.Linearizable | src/core/dsu.rs:140-174 | Every finished lookup returned its argument's root as it was at some moment between call and return. |
| DsuRaces.WaitFree | src/core/dsu.rs:140-174 | A lookup returns after at most `3 * arg + 2` accesses of its own, however others are scheduled. |
| DsuRaces.LookupsOnlyCompress | src/core/dsu.rs:140-174 | Lookups change neither classes, merge edges nor the child index. |
| DsuRaces.UnionsJoin | src/core/dsu.rs:179-190 | A union takes effect in one step, joining exactly its arguments' classes. |
| DsuRaces.IndexComplete | src/core/dsu.rs:131-136 | Between unions the child index is the inverse of the merge edges, whatever lookups compressed. |
| Layers.Resolve | src/storage/layered.rs:131-155 | One forward probe per layer finds the root of the flattened stack, or that the node has no parent. |
| Layers.SpliceInvisible | src/storage/layered.rs:99-114 | Replacing a stretch by its merge keeps the stack layered, its keys and every root. |
| ScopedView.ViewRootIsMin | src/core/scoped.rs:558-567 | The shared root resolved through the overlay is the lowest id of the component of global and scoped edges together. |
| ScopedView.OverlayFixup | src/core/scoped.rs:499-538 | Joining absorbed and surviving root in an overlay restores its exactness after a global merge. |
| ForestState.GlobalAppliedInv | src/core/scoped.rs:499-538 | A global edge whose merge notifies just the registered scopes keeps every scope exact, the others untouched. |
| ForestState.ScopedAppliedInv | src/core/scoped.rs:540-553 | A scoped edge keeps every scope exact and registers both ends' roots. |
| ForestState.ScopeRootIsMin | src/core/scoped.rs:558-567 | In every valid tier each answer is the component minimum. |
| Forest.ScopedForest.SharedRoot | src/core/scoped.rs:451-470 | Base and memtable composed give the node's root in the merged forest. |
| Forest.ScopedForest.OverlayRoot | src/core/scoped.rs:474-497 | The same for an overlay. |
| Forest.ScopedForest.ScopeRootOf | src/core/scoped.rs:558-567 | The answer is the lowest id of the node's component as the scope sees it, and asking only compresses paths. |
| Forest.ScopedForest.ApplyGlobal | src/core/scoped.rs:499-538 | The forest becomes valid for one more global edge, by the step the history lemmas speak of. |
| Forest.ScopedForest.ApplyScoped | src/core/scoped.rs:540-553 | The forest becomes valid for the edge in each listed scope, one such step after another. |
| Forest.ScopedForest.AdoptFold | src/core/scoped.rs:724-738 | Adopting what was streamed and dropping the memtable keeps the forest valid for the same edges, full or delta. |
| Forest.ScopedForest.SwapBase | src/core/scoped.rs:800-807 | A base that resolves alike may be swapped in under a live memtable. |
| Folds.FoldInv | src/core/scoped.rs:763-781 | A run holding what the memtable contributes, or everything composed, serves in its place; every live overlay element stays recorded. |
| Folds.SwapInv | src/core/scoped.rs:800-807 | Equivalent runs keep every invariant of the tier above. |
| Folds.SpliceEquivalent | src/storage/layered.rs:89-114 | A run compacting any stretch is equivalent in its place: roots of both tiers, layering and registry. |
| Events.Normalize | src/core/types.rs:30-42 | No scopes or the global one means everybody; otherwise the scopes, sorted without repeats. |
| Events.SameEventsSameAnswers | src/core/scoped.rs:435-441 | Two forests that hold the same events cannot be told apart by any query. |
| Events.FoldsInvisible | src/core/scoped.rs:724-807 | Any history of applies, queries, folds and swaps answers as an all-heap forest with the same events, in any order: the component minimum. |
| Events.LayeringKept | src/core/scoped.rs:451-497 | In every reachable state memtable keys are no base keys, and no stored parent has a parent further down. |
| Events.RegistryComplete | src/core/scoped.rs:499-538 | In every reachable state the live shared root of every overlay element is registered for its scope and shares its overlay class. |
| Events.ApplyEvent | src/core/scoped.rs:435-441 | The live forest takes one event by the step of the step system, and holds exactly its edges besides. |
| Hydration.HydratedInv | src/core/scoped.rs:944-969 | A heap forest holding all the runs hold is as good as the runs. |
| Hydration.Hydrate | src/storage/flush.rs:1293-1323 | Hydrating every committed run, oldest first, gives a valid forest for exactly the edges they hold. |
| Walks.Walk.Admit | src/core/scoped.rs:236-246 | Nodes are admitted once, up to the cap; the walk is truncated only when one more is seen on a full answer. |
| Walks.Fetch | src/storage/layered.rs:179-208 | The children of a node across runs and memtable, each once, or as many as asked for. |
| Walks.Walk.Expand | src/core/scoped.rs:281-310 | A walk that is not truncated finds exactly what lies below its seeds, fetching at most `2 * cap + 1` children. |
| Memberships.MembersOf | src/core/scoped.rs:597-652 | Without repeats, the node's component as the scope sees it if it fits the cap, else exactly `cap` of it marked truncated; no answer exactly when the memtable or a run is unindexed. |
| Memberships.FoldIndexedIff | src/storage/base.rs:493-495 | A fold leaves the stack indexed exactly when it wrote a shared pair and, for a delta, the stack was indexed. |
| Memberships.ScopedFoldSilences | src/core/scoped.rs:763-781 | On any forest whose memtable holds overlay links alone, the listing before the fold is the component, the fold adds one run and changes no edge, and afterwards the stack is unindexed and no listing answers. |
| Memberships.Silenced | src/storage/layered.rs:171-173 | A forest that reaches this from nothing: one shared edge, a fold, one scoped edge, a fold. It is returned, valid for just these edges and unindexed. |
| Compaction.MergeTables | src/storage/layered.rs:276-305 | The k-way merge yields every key of the stack once, ascending, fully resolved. |
| Compaction.VisitEntries | src/storage/compact.rs:381-402 | The k-way merge of registry runs yields exactly their entries, in order. |
| Compaction.MovedRoots | src/storage/compact.rs:299-308 | Exactly the nodes keyed above the first layer. |
| Compaction.MovedExactly | src/storage/compact.rs:299-308 | For a recorded root, being among them is the same as having a parent at all. |
| Compaction.CompactRegistry | src/storage/compact.rs:324-376 | Sorted, deduplicated, and exactly the entries re-rooted as they resolve now, though only moved ones are looked up. |
| Compaction.CompactLayers | src/storage/compact.rs:118-158 | A stack's files compact into the tables and registry of one run that resolves as they do, scopes left with nothing dropped. |
| Compaction.CompactRange | src/storage/layered.rs:89-114 | Compacting any stretch and splicing the result back changes no answer. |
| Registries.FoldKeepsExact | src/core/scoped.rs:905-925 | Each run's registry entries, followed to the roots of now, are the live roots of its own overlay pairs' ends; a fold, full or delta, keeps it so for every run of the stack. |
| Registries.MergeKeepsExact | src/storage/compact.rs:324-376 | Re-rooting the entries of any stretch keeps it so for the merged run and for the others. |
| Registries.CompactsIffFolds | src/storage/compact.rs:1-10 | A run is what merging the whole stack writes exactly when it is what folding it out self-contained writes, registry included. |
| Merges.Invariant | src/storage/flush.rs:828-974 | In every run of the protocol, whatever is lost or crashes, every stack served from or published has such registries. |
| Merges.WholeMerge | src/storage/flush.rs:828-974 | So a background merge of everything the worker serves from is the foreground fold of it, in every reachable state. |
| CompactedBlobs.CompactFiles | src/storage/compact.rs:99-232 | The blobs of a merge: tables by ascending scope, registry, filters over the keys read back, member index with its filters, all fixed by the merged run. |
| CompactedBlobs.MergedBlobs | src/storage/compact.rs:99-232 | For a whole stack that list is the one a full stream of the stack is written as. |
| CompactedBlobs.BothCompactors | src/storage/compact.rs:1-10 | Merging a forest's files in the background and streaming the forest itself write the same blobs, byte for byte. |
| Streaming.MergeJoin | src/core/scoped.rs:837-858 | Base and memtable keys, each once, ascending. |
| Streaming.EmitShared | src/core/scoped.rs:898-903 | Each key that is not a root, with its root, ascending. |
| Streaming.EmitOverlay | src/core/scoped.rs:905-925 | The same for an overlay, registering the scope on exactly the live shared roots of the pairs' ends. |
| Streaming.Stream | src/core/scoped.rs:812-896 | Every key of the fold once and resolved, scopes ascending, registry entries complete; the forest is only compressed. |
| Streaming.StreamFolds | src/core/scoped.rs:724-781 | The streamed lists are the file of the run the fold must write. |
| Streaming.FoldOut | src/storage/flush.rs:1008-1161 | Fold out full or delta and serve from the file: the forest is valid for the same edges with an empty memtable, its runs encoded by the files. |
| Tiering.LowestStretch | src/storage/tier.rs:83-103 | The oldest stretch of the lowest level among those long enough. |
| Tiering.PickMerge | src/storage/tier.rs:54-74 | A full level first; past the run limit any two of one level. |
| Tiering.RunKeeps | src/storage/tier.rs:54-103 | In every run of the policy levels do not rise up the stack, a level-`L` run covers `2^L` folds, and no fold is lost. |
| Tiering.MergeWork | src/storage/tier.rs:54-74 | However merges are picked and adopted, at most `F * log2 F` folds are rewritten. |
| Tiering.FullLevelWork | src/storage/tier.rs:54-74 | Taking only full levels of `T`, runs hold exactly `T^L` folds and at most `F * log_T F` are rewritten. |
| Tiering.RestingDepth | src/storage/tier.rs:54-74 | When that policy rests, the stack is at most `(T - 1)(1 + log_T F)` deep. |
| Tiering.CeilingDepth | src/storage/tier.rs:54-74 | Past the run limit it rests only at `1 + log2 F` or less. |
| Varints.PutVarint | src/storage/registry.rs:63-69 | Appends the LEB128 form. |
| Varints.GetVarint | src/storage/registry.rs:73-86 | Reads as LEB128 is defined, refusing truncated and over-long input. |
| Varints.VarintRoundTrip | src/storage/registry.rs:63-86 | Every 64-bit value reads back as written, wherever it stands. |
| Varints.WordRoundTrip | src/storage/registry.rs:236-262 | Fixed-width little-endian words read back. |
| Blocked.EncodeRecord | src/storage/registry.rs:179-209 | A count, then each value as its distance from the one before. |
| Blocked.BlockedWriter.Push | src/storage/registry.rs:149-173 | The records pushed are grouped by key, exact repeats dropped where asked. |
| Blocked.BlockedWriter.CloseRecord | src/storage/members.rs:184-215 | A record joins the open block if that stays within the size, else it starts the next; none is split or lost. |
| Blocked.BlockedWriter.Finish | src/storage/registry.rs:236-262 | The payload is that of the greedy packing of the records, and nothing for no records. |
| Blocked.EncodeEntries | src/storage/codec.rs:229-238 | The bytes written are a function of the entries. |
| Blocked.PackFits | src/storage/members.rs:184-227 | Every block is within its size or holds one record. |
| BlockedReader.Parse | src/storage/registry.rs:291-340 | Accepted framing is sane whatever the bytes; what a writer left is always accepted, with its offsets and first keys. |
| BlockedReader.AllEntries | src/storage/registry.rs:443-476 | Iterating a written payload yields its entries in order. |
| BlockedReader.ValuesOf | src/storage/members.rs:359-419 | Decoding the one block that can hold a key yields exactly its values, or the first `limit`. |
| BlockedReader.BlocksSize | src/storage/members.rs:243-273 | A payload's blocks take at most 42 bytes an entry. |
| BlockedReader.RoundTrip | src/storage/registry.rs:236-476 | Write, parse, iterate: the input without its repeats. |
| BlockedReader.LookUpWritten | src/storage/members.rs:243-419 | Write, parse, look up: exactly the key's values among the input, or the first `cap`. |
| Filters.Build | src/storage/filter.rs:127-140 | Every key built over is reported, for any hash, hint and size; the blocks are a function of the keys. |
| Filters.BuildWith | src/storage/filter.rs:113-123 | No filter exactly when the bits are zero. |
| Filters.MayContain | src/storage/filter.rs:144-168 | True exactly when all the key's bits are set; a filter without blocks faults instead. |
| Filters.EncodeFilter | src/storage/filter.rs:172-182 | Magic, block count and words, little-endian. |
| Filters.DecodeFilter | src/storage/filter.rs:184-205 | Accepted exactly when magic and length are right, yielding the words read. |
| Filters.DecodeEncoded | src/storage/filter.rs:172-205 | An encoded filter decodes to itself. |
| Filters.ProbeBlob | src/storage/filter.rs:144-205 | Decode a blob and probe it: refused exactly when ill-framed, a fault exactly when it counts no block, otherwise the answer of the words it holds. |
| Filters.NoBlocks | src/storage/filter.rs:184-205 | Eight bytes that are accepted and count no block. |
| Blobs.WriteTable | src/storage/compact.rs:82-93 | A count and the pairs, the count filled in last. |
| Blobs.DecodePairs | src/storage/codec.rs:190-206 | Accepted exactly when the length is what the header says; a written table comes back. |
| Blobs.TablePairs | src/storage/codec.rs:401-414 | Walking a written table yields its pairs. |
| Blobs.EncodeRegistry | src/storage/codec.rs:229-238 | Either layout, nothing for no entries. |
| Blobs.InvertedHas | src/storage/codec.rs:157-176 | A table by parent lists under each node exactly the other nodes the table maps to it. |
| Blobs.EncodeMembers | src/storage/codec.rs:157-176 | The member index and distinct parents of the table its payload encodes. |
| BlobWriters.RegistryFromSnapshot | src/storage/codec.rs:211-225 | Both ends of every overlay pair, by the snapshot's own shared table, sorted and deduplicated. |
| BlobWriters.AddMembers | src/storage/codec.rs:108-136 | Member indexes of every table among the blobs, then the filters of their parents. |
| BlobWriters.SnapshotToBlobs | src/storage/codec.rs:261-368 | The blobs of a snapshot: sorted tables, registry, filters, member index. |
| BlobWriters.BlobWriter.SharedPair | src/storage/codec.rs:534-538 | The table under way gains one pair. |
| BlobWriters.BlobWriter.ScopeEnd | src/storage/codec.rs:552-564 | A scope with pairs becomes the next table blob; an empty one none. |
| BlobWriters.BlobWriter.Finish | src/storage/codec.rs:446-530 | The blobs of exactly what was streamed, though filters and member index are read back from the payloads. |
| Snapshots.Collect | src/core/scoped.rs:320-350 | The snapshot of a stream, scopes without pairs dropped. |
| Snapshots.StreamUnique | src/core/scoped.rs:837-896 | Streaming twice puts out the same but for empty scopes. |
| Snapshots.RegistriesAgree | src/storage/codec.rs:211-225 | The registry derived from a collected stream is the one the stream emitted. |
| Snapshots.CompactToBlobs | src/storage/codec.rs:574-578 | The blobs of a stream of the forest as it stands. |
| Snapshots.BothPaths | src/storage/codec.rs:570-578 | For every valid forest, hash and option set, the streamed blobs are those of a full stream of the forest, the encoded snapshot is that stream collected, sorted and encoded, and the two lists are equal byte for byte. |
| Snapshots.BlobsToSnapshot | src/storage/codec.rs:582-603 | Tables decode to the snapshot they were written from; other kinds are passed over. |
| Snapshots.SnapshotRoundTrip | src/storage/codec.rs:261-603 | A snapshot comes back from its blobs with its tables sorted. |
| Lookups.BuildIndex | src/storage/base.rs:63-72 | The first key of every block, or no index for a table of one. |
| Lookups.NarrowExact | src/storage/base.rs:77-84 | The block returned holds the key if any does. |
| Lookups.NarrowLowerBound | src/storage/base.rs:90-94 | The range returned holds the first key at or above the one wanted. |
| Lookups.Lookup | src/storage/base.rs:142-157 | The answer of a scan of the whole stored table. |
| Lookups.FilteredLookup | src/storage/base.rs:1014-1032 | The filter never changes the answer. |
| Lookups.ScopesFor | src/storage/base.rs:255-276 | All scopes of a root in table order, also past the narrowed range. |
| Lookups.IndexedScopes | src/storage/base.rs:220-276 | Index a registry and look a root up through the index: its scopes. |
| Sampler.Pass | src/storage/base.rs:724-761 | One forward pass over a sliding window reads every sample of every table, in order. |
| Sampler.BuildIndexes | src/storage/base.rs:693-773 | Each table gets the leader of each of its blocks. |
| Sampler.StoredLookup | src/storage/base.rs:693-773 | Index a file's tables in one pass, decode its filter, look a key up: the answer of a scan. |
| Sampler.TableStored | src/storage/base.rs:109-127 | A table blob standing in a file is what the lookup reads. |
| Streams.Merge | src/core/stream.rs:71-75 | The partition-wise maximum. |
| Streams.DominatesEverywhere | src/core/stream.rs:82-84 | Dominance is offset-wise in every partition, mentioned or not. |
| Streams.MergedIsJoin | src/core/stream.rs:71-84 | Merging is the least upper bound. |
| Ingest.EdgeBuffer.Append | src/ingest/buffer.rs:90-112 | The active segment gains the record and its rows, one for each scope that sees it. |
| Ingest.EdgeBuffer.SealActive | src/ingest/buffer.rs:117-173 | The active rows become the newest sealed segment with their own extent. |
| Ingest.EdgeBuffer.DropCommitted | src/ingest/buffer.rs:190-195 | Exactly the segments the position does not dominate are kept. |
| Ingest.Pipeline.ApplyBatch | src/ingest/pipeline.rs:104-139 | Records already applied are skipped, so what is applied and buffered is exactly what lies beyond the position; a record out of order stops the batch there. |
| Protocol.CommitPosition | src/storage/flush.rs:555-576 | A commit's position is the one before it merged with the extent of every segment. |
| Protocol.ReachedGet | src/storage/flush.rs:567-576 | In each partition that is the last of what was committed and what the segments hold. |
| Recovery.Invariant | src/storage/flush.rs:467-699 | In every run of ingest, ticks, folds, merges, commits lost or failed, crashes and restarts, the forest serves exactly the records applied and every snapshot those it contains. |
| Recovery.CommittedState | src/storage/flush.rs:1185-1246 | Committed runs hold every record at or below their position, and only records once applied. |
| Recovery.CaughtUpAnswers | src/storage/flush.rs:1293-1323 | A worker that has consumed the log answers every query for the whole log, whatever happened on the way. |
| ExactlyOnce.RecordsOnce | src/storage/flush.rs:467-699 | Every record at or below the committed position is in the data files once, every other never. |
| ExactlyOnce.CommittedRows | src/ingest/buffer.rs:90-112 | Row by row: one for each covered record and scope that sees it, and none besides. |
| Catalogs.Scan | src/storage/catalog.rs:404-419 | The highest sequence of any catalog, or zero. |
| Catalogs.Latest | src/storage/catalog.rs:364-378 | Probing from a cached sequence answers the newest exactly when nothing after it is missing; a cold look always does, and so does any look at a dense catalog. |
| Catalogs.AfterExpiry | src/storage/catalog.rs:364-378 | With only a newest stretch left, a process whose next sequence is gone asks for a missing object, and every other reads the newest. |
| Leaders.CommittedForGood | src/storage/catalog.rs:423-439 | With any number of committers a sequence, once committed, says the same for good. |
| Leaders.PositionsAdvance | src/storage/catalog.rs:214-235 | Sequences are dense and positions never go back. |
| Leaders.CommittedSaved | src/storage/flush.rs:467-699 | No record at or below a committed position is missing from the data files. |
| Leaders.ConsumedKept | src/ingest/buffer.rs:190-195 | What any worker has consumed it still holds, or it is saved. |
| RunLists.AcceptedIffPartition | src/storage/catalog.rs:266-314 | Listed runs are accepted exactly when their spans partition some range ending at the snapshot. |
| RunLists.RisingRead | src/storage/catalog.rs:266-314 | Runs in order are read as they stand, or refused for a gap. |
| RunSets.Invariant | src/storage/flush.rs:186-236 | In every run, with outcomes lost or not, published stacks are in order and end at their own sequence. |
| RunSets.PublishedReads | src/storage/catalog.rs:266-314 | A published set reads as written exactly when no sequence is missing between its runs. |
| RunSets.FoldReadsIff | src/storage/flush.rs:1008-1161 | A fold's set reads exactly when the stack before it was empty, not fully committed, or contiguous up to the newest snapshot. |
| RunSets.MergeReadsIff | src/storage/flush.rs:828-974 | A merge's set reads exactly when every gap lies inside what it merged. |
| RunSets.LostMergeGap | src/storage/flush.rs:922-940 | From any reachable state, a lost merge outcome followed by a committed delta gives a snapshot every reader refuses. |
| RunSets.PublishedAccepted | src/storage/flush.rs:359-379 | Where no merge outcome is lost, every published set reads as written. |
| RunSets.StartEnabled | src/storage/flush.rs:1260-1289 | Then a worker that went down can always start from its newest snapshot. |
| LostMerges.StuckIff | src/storage/flush.rs:1260-1289 | With no worker up, nothing can happen exactly when the newest snapshot's run set does not read. |
| LostMerges.LossStrands | src/storage/flush.rs:922-940 | Any run in which a merge's outcome could be lost with a delta to commit next goes on to a state no event can leave. |
| LostMerges.LostMergeRun | src/storage/flush.rs:922-940 | There are such runs, from the empty catalog, for a stack of any height and a merge of any stretch of it. |
| Retention.Bucket.Collect | src/storage/retention.rs:104-243 | The sweep keeps the newest, those inside the window and what they reach, and deletes exactly what is unreachable and past its grace. |
| Retention.NewestKept | src/storage/retention.rs:104-243 | The newest snapshot and those inside the window stay. |
| Retention.RetainedReadable | src/storage/retention.rs:104-243 | Reading a retained snapshot fetches and downloads just what it did before the sweep. |
| Retention.SweptLatest | src/storage/retention.rs:104-243 | After a sweep, probing from a cached sequence reads the newest exactly when every later one was retained or inside its grace. |
| Retention.Overtaken | src/storage/catalog.rs:364-378 | Three snapshots past window and grace, one to keep: whoever last saw the first then asks for a missing object. |
| Retention.SecondSweepIdle | src/storage/retention.rs:104-243 | A second sweep at the same time finds nothing to do. |

## Left out

- Services around the core (HTTP and gRPC front ends, leases, configuration, metrics, logging) and operating-system effects (mapping, page-cache advice, atomic rename).
- Parquet and the Puffin container: a file is its list of blobs, a data file its records. Rows inside a segment are a multiset; their sort order is not modelled.
- Clocks, object stores and the log are parameters or steps. Deletions that fail and metadata that cannot be read are not modelled in the sweep.
- Node ids are unbounded except where bytes need 64 bits: `Snapshots.BothPaths` asks that every id a tier keys is below 2^64, which the id type guarantees.
- BlockedReader.RoundTrip: asks for 64-bit entries, `50 * entries + 24 < 2^64`, and a block size or a number of entries below 2^32, past which the format's own fields overflow.
- BlockedReader.LookUpWritten: asks for the same bounds, for the same reason.
- Filters.DecodeEncoded: asks for fewer than 2^32 blocks, since the count is written as 32 bits. The hash is any function, so false-positive rates are not spoken of.
- Sampler.StoredLookup: asks the same of the filter.
- Walks.Walk.Expand: the overflow of `cap + 1` at the largest `usize` is not modelled.
- Forest.ScopedForest.ApplyGlobal: what a query sees in the middle of a global merge is not claimed; queries run between applies. Races inside one disjoint-set forest are `DsuRaces`.
- Recovery.CaughtUpAnswers: speaks of one committing worker at a time.
- ExactlyOnce.RecordsOnce: speaks of one committing worker at a time; several may write a row twice, and `Leaders` proves what holds for them.
- Recovery.Invariant: merges may be planned on any stretch; which one the policy picks is `Tiering`, and levels are only there. A run file is a number, not a path.
- Tiering.RunKeeps: speaks of fewer than 2^255 folds, past which the level byte saturates.
- CompactedBlobs.CompactFiles: the threads that merge overlays are one loop over the scopes. Its statistics are not modelled.
- CompactedBlobs.BothCompactors: asks that the stack's registries are exact, which `Merges.Invariant` proves of every stack a worker builds.
- The registry rebuilt in memory for files that carry none, and the member index over the flat layout's repeated keys on the read side.
- Scopes of one emission are written pairs first and registry entries after; the code interleaves them, and the two go to separate buffers.
