# Verified models of the gitcode-mcp cache protocols

This project models the protocols of `internal/cache` and three neighbours in Dafny, and proves what they keep over
whole runs. Verify with `dafny verify dfyconfig.toml`.

Tables are maps (or sets) keyed by their primary keys. A SQL statement is a function from the tables to the new tables,
or to an error; foreign-key cascades, partial unique indexes and triggers are written out in it. A store method is a
method of a class that runs the statements in the order and with the loops of the code, and rolls back on the first
failure; its contract ties the final tables to the statement functions, and the lemmas are about those functions. A run
is a sequence of transactions by any number of callers, each carrying whatever arguments it likes. Hashes (SHA-256,
chunk fingerprints), `julianday` and the clock are parameters. What the operations require and leave is stated a second
time without these functions, column by column and as far as possible as an if and only if, in `RepositoryDocsPrune`,
`RecordsLasting`, `SyncPublished`, `SyncCommitted`, `SyncCommittedRows`, `WriteSettlementPublished`, the modules called
`Outcomes`, and the second half of `McpBootstrap`.

| files | component |
| ------------------------------------------------------------ | ------------------------------------------------------- |
| `RepositoryDocs*.dfy` | repository-document revision sets: staging, publication, snapshots, retention, garbage collection |
| `Records*.dfy` | record tables, content generation and coverage, chunk replacement, the store's transactions |
| `Sync*.dfy` | sync batches and the exactness of their replay |
| `WriteSettlement*.dfy` | audit claims, transitions, staging and settlement of write graphs, idempotency lookups |
| `IssueParentRepair*.dfy` | merging placeholder issues into canonical ones |
| `SourceAliases.dfy` | batched alias hydration |
| `EventLog.dfy` | bounded event log, cursors and followers |
| `MigrateCache*.dfy` | cache migration, recovery intent and receipt across crashes |
| `McpBootstrap.dfy` | store lease and close protocol of the MCP transport |
| `Text.dfy`, `Collections.dfy`, `Wrappers.dfy` | strings, ORDER BY, small facts about collections |

Where the code falls short of what its comments promise, the model follows the code:

- The comment at `internal/cache/records.go:178` claims idempotence for every batch. A committed batch replays exactly if
  and only if its own run left every graph's source and chunks in place, with the hashes that the graph gives them, and
  left nothing that a graph which replaces its chunks would trim (`SyncBatchReplay.ReplayIsExact`). A batch that gives one
  record or chunk key two different hashes cannot meet that. In any other batch two things break it. A keep list that
  leaves out a child of the batch deletes the child (`SyncCoverage.ChildIsLostExactly` says exactly when). And a piece
  without an id, in a graph that replaces its chunks, is wanted as "" but stored under its fingerprint, so that each
  replay deletes it with its embeddings and stores it again (`SyncUnnamedPiece.UnnamedPieceBreaksReplay`). If no chunk key
  of the batch was another source's before, that is the whole condition: the replay is exact if and only if the graphs
  survived and no replacing graph has a piece whose key it does not want with its hash, which can be checked on the batch
  alone (`SyncOwnership.OwnedBatchReplay`). A key that another source already holds stays that source's and is not trimmed
  (`SyncOwnership.OwnBatchReplay`).
- A rerun of the migration over a recovery intent that an earlier run left behind can leave the coordinator stopped and
  still write a receipt (`MigrateCache.StaleIntentStrands`); `MigrateCache.SoundnessIsExact` gives the exact condition
  on the intent. A pending intent can never be completed if and only if nothing is left to migrate and the intent holds
  no evidence (`MigrateCache.LostEvidenceIsFinal`); a crash between the migration's commit and the rewriting of the
  intent gets there (`MigrateCache.CrashAfterCommit`).
- Retention lists the revision sets before its transaction opens, so a publication in between can be deleted although a
  current listing would have kept it (`RepositoryDocsRetention.StaleListingDropsFreshPublication`, and from the empty
  store `RepositoryDocsRuns.FreshPublicationIsPruned`). Without a byte ceiling a set survives if and only if the listing
  that was read does not mark it (`RepositoryDocsRetention.SurvivesUnlessMarked`).
- An empty stored payload hash is replayed for every payload (`WriteSettlementSafety.EmptyHashBindsNothing`). A failed
  generation is reclaimed at most once if and only if claims are not created with that very generation
  (`WriteSettlementSafety.FreshnessIsExact`), as claims without a time are (`WriteSettlementSafety.ZeroTimesCollide`). A
  caller that names succeeded as the status it replaces lets a receipt be settled twice
  (`WriteSettlementSafety.NamingSucceededReopens`).
- Two sources share a hydration key if and only if one repository id extends the other by a NUL and a piece that the
  other source's id starts with (`SourceAliases.NulConfusesKeys`).
- An event stream without a cursor misses dropped events silently (`EventLog.ZeroCursorMissesSilently`).

## Model

| member | source | states |
|---|---|---|
| RepositoryDocsRuns.ReadySetsAreCovered | internal/cache/repository_docs.go:182-453 | in every reachable state each ready set has exactly its eligible chunks as members and its excluded files as exclusions, embedded + reused = eligible, nothing failed or missing, and each member chunk has a vector of its namespace of 4 × dimensions bytes with a matching hash; no foreign key dangles |
| RepositoryDocsRuns.RunKeeps | internal/cache/repository_docs.go:182-453 | foreign keys and coverage of ready sets survive any interleaving of staging, publication, deletion, collection and pruning |
| RepositoryDocsRuns.StepIsGood | internal/cache/repository_docs.go:781-938 | one transaction of any kind keeps every surviving ready set covered and its visible rows unchanged |
| RepositoryDocsRuns.ReadyViewIsStable | internal/cache/repository_docs.go:513-596 | a ready set that is not deleted shows the same membership, chunks and vectors after any run |
| RepositoryDocsRuns.RepeatableSnapshots | internal/cache/repository_docs.go:688-744 | two loads of a ready set with no deletion of it in between return the same ordered candidates, one per eligible chunk, each with a non-empty sound vector |
| RepositoryDocsRuns.SnapshotFollowsView | internal/cache/repository_docs.go:688-712 | the ORDER BY of a snapshot is determined by the set's visible rows |
| RepositoryDocsOutcomes.SnapshotIsExact | internal/cache/repository_docs.go:688-744 | a snapshot is the row of a ready set of the namespace and, by path, ordinal and chunk, every member once whose chunk is there, with its membership columns, the ranges, lines and digests of its chunk, and its vector in the namespace or none |
| RepositoryDocsOutcomes.UpsertSetIsExact | internal/cache/repository_docs.go:182-214 | a revision set is written if and only if no required column is empty, it is not written as ready or partial, and the stored one is not ready; every column ends as given, except a first creation time and the default processing policy |
| RepositoryDocsOutcomes.RulesAreExact | internal/cache/repository_docs.go:388-453 | publication is accepted if and only if the member and exclusion rows are as many as claimed, the counters fit, and for a ready set every member has a vector of its namespace with float32, four bytes a dimension and its own digest |
| RepositoryDocsOutcomes.PublishIsExact | internal/cache/repository_docs.go:315-353 | publication with membership succeeds if and only if the rows are distinct, belong to the set and name stored chunks, the set is not ready yet, and with that membership it meets the rules; then exactly these rows are its members and its row is as given |
| RepositoryDocsOutcomes.PublishStagedIsExact | internal/cache/repository_docs.go:355-386 | publication of what is staged succeeds if and only if the set exists, is not ready, and what is staged meets the rules; only its row changes |
| RepositoryDocsOutcomes.ReplaceMembershipIsExact | internal/cache/repository_docs.go:293-313 | membership is replaced if and only if the set is being built and the rows are distinct, belong to it and name stored chunks; the set then has exactly these rows and the others what they had |
| RepositoryDocsOutcomes.UpsertMembershipIsExact | internal/cache/repository_docs.go:513-549 | one row is written if and only if it is complete, its set is being built, and its chunk is stored or the row is already there |
| RepositoryDocsOutcomes.ReplaceExclusionsIsExact | internal/cache/repository_docs.go:551-573 | exclusions are replaced if and only if the set is being built and the rows are distinct, belong to it and have a path, a reason and an authority; the set then has exactly these rows |
| RepositoryDocsOutcomes.UpsertExclusionIsExact | internal/cache/repository_docs.go:575-596 | one exclusion is written if and only if it is complete and its set is being built |
| RepositoryDocsOutcomes.UpsertChunkIsExact | internal/cache/repository_docs.go:265-291 | a stored chunk accepts only the same range, lines, digests and policy, and then only its update time moves |
| RepositoryDocsOutcomes.UpsertVectorIsExact | internal/cache/repository_docs.go:635-663 | a vector is stored once, under its own digest if it comes without one; afterwards only an equal one is accepted |
| RepositoryDocsInvariant.ExposeKeeps | internal/cache/repository_docs.go:388-453 | a set only becomes ready through a validation that establishes its coverage |
| RepositoryDocsInvariant.PublishKeeps | internal/cache/repository_docs.go:315-353 | publication with membership covers the published set and leaves every other ready set alone |
| RepositoryDocsInvariant.PublishStagedKeeps | internal/cache/repository_docs.go:355-386 | so does publication of what was staged |
| RepositoryDocsInvariant.UpsertVectorKeeps | internal/cache/repository_docs.go:635-663 | a stored vector is never replaced by another one |
| RepositoryDocsInvariant.UpsertChunkKeeps | internal/cache/repository_docs.go:265-291 | a stored chunk keeps its slice, so coverage and views stay |
| RepositoryDocsInvariant.ReplaceMembershipKeeps | internal/cache/repository_docs.go:293-313 | staging membership touches building sets only |
| RepositoryDocsInvariant.UpsertMembershipKeeps | internal/cache/repository_docs.go:513-549 | a single membership row can only be added to a building set |
| RepositoryDocsInvariant.ReplaceExclusionsKeeps | internal/cache/repository_docs.go:551-573 | staging exclusions touches building sets only |
| RepositoryDocsInvariant.UpsertExclusionKeeps | internal/cache/repository_docs.go:575-596 | a single exclusion row can only be added to a building set |
| RepositoryDocsInvariant.SweepKeeps | internal/cache/repository_docs.go:781-802 | collecting unreferenced rows takes nothing a ready set shows |
| RepositoryDocsInvariant.DeleteSetKeeps | internal/cache/repository_docs.go:746-752 | deleting one set leaves the others' views as they were |
| RepositoryDocsRetention.RetainedIsReachability | internal/cache/repository_docs.go:867-905 | after dropping sets and sweeping, the repository's chunks and vectors are exactly those a surviving membership references |
| RepositoryDocsRetention.IncrementalSweepIsOneSweep | internal/cache/repository_docs.go:907-933 | deleting one more set and sweeping again equals one mark and sweep of all deletions |
| RepositoryDocsRetention.ChunkSweepTakesNoVector | internal/cache/repository_docs.go:781-802 | after the vector sweep the chunk sweep cascades to no vector, so the vector count is complete |
| RepositoryDocsRetention.ChunksFirstWouldHideVectors | internal/cache/repository_docs.go:867-905 | in the other order the vector statement would find nothing to count |
| RepositoryDocsRetention.EvictionIsMinimal | internal/cache/repository_docs.go:907-933 | eviction removes an oldest-first initial run of the victims and stops at the first fit: with any fewer evictions the ceiling is exceeded |
| RepositoryDocsStore.BytesWithout | internal/cache/repository_docs.go:907-915 | the byte total of the vectors is the sum of their lengths: leaving one out takes its length off |
| RepositoryDocsRetention.FirstFitIsUnique | internal/cache/repository_docs.go:907-933 | that stopping point is the only one |
| RepositoryDocsRetention.VictimsAreExactly | internal/cache/repository_docs.go:907-916 | the victims are the present listed sets that are neither protected nor building |
| RepositoryDocsRetention.BytePressure | internal/cache/repository_docs.go:907-933 | on return the bytes fit, or every listed set still present is protected or was listed as building |
| RepositoryDocsRetention.PrunedSets | internal/cache/repository_docs.go:804-938 | the surviving sets are exactly those neither marked nor evicted |
| RepositoryDocsRetention.RetentionSafety | internal/cache/repository_docs.go:818-866 | never deleted: caller-protected sets, the newest ready committed set of a listed identity, listed building sets before the terminal cutoff, sets not listed |
| RepositoryDocsRetention.RetentionBound | internal/cache/repository_docs.go:843-866 | an unprotected counted survivor under a positive limit has at most limit − 1 newer counted sets of its identity, and is past no cutoff |
| RepositoryDocsRetention.NewestReadySetSurvives | internal/cache/repository_docs.go:814-842 | with the listing taken in the same state, the ready committed set of an identity with the greatest update text (of equal ones the one with the least id) survives |
| RepositoryDocsPrune.ListingIsNewestFirst | internal/cache/repository_docs.go:225-263 | a listing has every set of the repository once; an earlier entry never has the lesser update text, and equal ones go by id |
| RepositoryDocsPrune.MarkedIsOutlived | internal/cache/repository_docs.go:814-866 | with a current listing the pass marks exactly the outlived sets, told by the tables alone: countable, neither named by the caller nor the newest ready set of their identity, and abandoned, past their age, or with as many newer counted sets of their identity as the policy keeps |
| RepositoryDocsPrune.PruneIsExact | internal/cache/repository_docs.go:804-906 | with a current listing and no byte ceiling a set is removed if and only if it is outlived |
| RepositoryDocsPrune.OldestGoesFirst | internal/cache/repository_docs.go:907-938 | under a byte ceiling outlived sets go, and beyond them only sets that are neither named, nor newest ready of their identity, nor being built, never a newer one before an older one |
| RepositoryDocsRetention.SurvivesUnlessMarked | internal/cache/repository_docs.go:843-906 | without a byte ceiling a set that exists when the transaction opens survives if and only if the listing, however old, does not mark it |
| RepositoryDocsRetention.StaleListingDropsFreshPublication | internal/cache/repository_docs.go:814-867 | a set listed as partial and past the terminal cutoff, and then published by either publication as the newest ready committed set of its identity, is deleted by a prune that goes by that listing; by a current listing it would be kept |
| RepositoryDocsRuns.FreshPublicationIsPruned | internal/cache/repository_docs.go:355-386 | such a race can be run from the empty store: stage, publish as partial, list, publish as ready, prune |
| RepositoryDocsRetention.CollectProtected | internal/cache/repository_docs.go:818-842 | the pass collects exactly the trimmed caller ids and the first ready committed set of each identity |
| RepositoryDocsRetention.MarkForDeletion | internal/cache/repository_docs.go:843-866 | the pass with one running count per identity marks exactly the sets past a cutoff or beyond their limit |
| RepositoryDocsStore.WalkPrunes | internal/cache/repository_docs.go:907-933 | the eviction loop, sweeping after each deletion, leaves exactly the pruned tables |
| RepositoryDocsStore.CountersCompose | internal/cache/repository_docs.go:917-933 | counters added up over the loop are the true differences between the first and the last state |
| RepositoryDocsStore.Store.PruneRevisionSets | internal/cache/repository_docs.go:804-938 | prune leaves the specified tables, and its counters are the numbers of the repository's sets, chunks and vectors that were there before and are not after |
| RepositoryDocsStore.Store.EvictForBytes | internal/cache/repository_docs.go:907-933 | the loop follows the specified walk and keeps the counters true |
| RepositoryDocsStore.Store.DeleteUnreferenced | internal/cache/repository_docs.go:781-802 | removes exactly the unreferenced vectors and chunks and returns both counts |
| RepositoryDocsStore.Store.PublishRevisionSet | internal/cache/repository_docs.go:315-353 | publishes with membership or leaves the tables as they were |
| RepositoryDocsStore.Store.PublishStagedRevisionSet | internal/cache/repository_docs.go:355-386 | publishes what is staged or leaves the tables as they were |
| RepositoryDocsStore.Store.ValidatePublication | internal/cache/repository_docs.go:388-453 | reports the first violated publication rule, in the code's order |
| RepositoryDocsStore.Store.ReplaceDocMembership | internal/cache/repository_docs.go:293-313 | replaces a building set's membership or leaves the tables as they were |
| RepositoryDocsStore.Store.UpsertDocMembership | internal/cache/repository_docs.go:513-534 | adds or replaces one membership row of a building set |
| RepositoryDocsStore.Store.ReplaceDocExclusions | internal/cache/repository_docs.go:551-573 | replaces a building set's exclusions or leaves the tables as they were |
| RepositoryDocsStore.Store.UpsertDocExclusion | internal/cache/repository_docs.go:575-596 | adds or replaces one exclusion row of a building set |
| RepositoryDocsStore.Store.UpsertDocVector | internal/cache/repository_docs.go:635-663 | stores a new vector, accepts an equal one, refuses a different one |
| RepositoryDocsStore.Store.UpsertDocChunk | internal/cache/repository_docs.go:265-291 | stores a new chunk, refreshes an equal slice, refuses a different one |
| RepositoryDocsStore.Store.UpsertRevisionSet | internal/cache/repository_docs.go:182-214 | writes a set that is not ready, never as ready or partial |
| RepositoryDocsStore.Store.LoadSearchSnapshot | internal/cache/repository_docs.go:714-744 | returns the ready set with its ordered candidates, or the error |
| RepositoryDocsStore.Store.ListRevisionSets | internal/cache/repository_docs.go:225-263 | returns every set of the repository in listing order, which `RepositoryDocsPrune.ListingIsNewestFirst` shows to be newest first |
| RecordsContent.ExecAllKeepsReferences | internal/cache/schema.go:236-298 | no transaction leaves a dangling foreign key |
| RecordsCoverage.GenerationStampsContent | internal/cache/schema.go:980-1017 | in a run of any transactions, placeholder repairs and coverage writes the generation never falls, and two states with the same one hold the same source and chunk ids and hashes |
| RecordsCoverage.FreshCoverageMeansUnchanged | internal/rag/indexer.go:344-349 | a coverage row that shows the current generation means that in no state since its writer read that generation the content was different |
| RecordsContent.ExecStamps | internal/cache/schema.go:980-1017 | a statement that inserts, deletes or rehashes a source or chunk raises the generation; none lowers it |
| RecordsContent.ChangedBackIsNewGeneration | internal/cache/schema.go:987-993 | equal content does not imply equal generation |
| RecordsOutcomes.PutSourceIsExact | internal/cache/store.go:178-198 | a source is refused only for an unknown repository or a provenance that is not live or fixture; it ends with every column given, keeps its creation time, and moves its repository's generation by one if it is new or rehashed |
| RecordsOutcomes.PutRecordIsExact | internal/cache/records.go:393-413 | a record is refused if and only if its repository is unknown or another record holds the remote identity that it would end with; it ends with every column given, but keeps its creation time and, against a projection, a provider's identity |
| RecordsOutcomes.PutChunkIsExact | internal/cache/accessors.go:424-455 | a chunk is refused if and only if its source is missing or another chunk is the same slice; it ends with every column given, in the place where it was |
| RecordsOutcomes.TrimChunksIsExact | internal/cache/store.go:128-161 | trimming takes exactly the source's chunks whose id is not wanted with the hash they have, and the embeddings of these |
| RecordsOutcomes.DeleteNodesIsExact | internal/cache/schema.go:236-298 | deleting nodes takes exactly their rows and the comments, confirmations, aliases, links, chunks and embeddings that refer to them |
| RecordsOutcomes.DropStaleChildrenIsExact | internal/cache/child_sources.go:22-68 | reconciling takes exactly the sources of the kind with a parent link to the parent that are not kept |
| RecordsOutcomes.DropLiveIsExact | internal/cache/records.go:774-843 | a live reset takes exactly the repository's remote and live records and live sources |
| RecordsLasting.LastWriteStands | internal/cache/records.go:181-235 | after any statements a row that is still there shows the columns of the last statement that wrote its key |
| RecordsLasting.FirstWriteDates | internal/cache/records.go:181-235 | and the creation time, or the place of a chunk, that it had before or else the first such statement gave it |
| RecordsLasting.LastSpeakerStands | internal/cache/records.go:393-413 | the last provider that wrote a record names it, whatever projections follow |
| RecordsChunks.ReplacementIsExact | internal/cache/store.go:75-90 | for any pieces, with or without ids: a replacement leaves exactly the retained chunks with their sources and the pieces under their own id or fingerprint, with the hash of the last and the source of the first piece of a key; an embedding survives if and only if its chunk is another source's or is wanted under its stored id and hash |
| RecordsChunks.NamedReplacement | internal/cache/store.go:75-90 | if the pieces are the source's own and carry ids, it owns exactly the replacement chunks that no other source owned, with the replacement's hashes |
| RecordsChunks.UnnamedReplacement | internal/cache/store.go:128-161 | replacing a stored piece by itself deletes its embeddings and raises the generation if its key is not wanted with its hash |
| RecordsStore.ChunksOneByOne | internal/cache/store.go:155-159 | deleting chunks one at a time, with cascade and trigger, equals deleting them at once |
| RecordsStore.NodesOneByOne | internal/cache/child_sources.go:54-66 | deleting nodes one at a time, with all cascades and triggers, equals deleting them at once |
| RecordsStore.SqlStore.ReconcileSourceChunks | internal/cache/store.go:128-161 | deletes exactly the source's chunks whose id or hash is not wanted |
| RecordsStore.SqlStore.ReconcileChildSources | internal/cache/child_sources.go:22-68 | deletes exactly the children of the kind under the parent that are not kept |
| RecordsStore.SqlStore.UpsertSyncGraph | internal/cache/records.go:237-365 | executes the graph's statements in order, stopping at the first failure; on success all its rows are in the tables with the columns it gave |
| RecordsStore.SqlStore.CommitSyncBatch | internal/cache/records.go:181-235 | commits all statements of the batch or none; on success every named node that is left shows the batch's columns, and no other one changed |
| RecordsStore.SqlStore.ResetLive | internal/cache/records.go:774-843 | removes exactly the provider records, live sources and frontiers of an existing repository |
| SyncBatch.ClockIsIrrelevant | internal/cache/records.go:181-235 | with explicit times a batch executes the same statements whenever it runs |
| SyncReplay.HeldStep | internal/cache/records.go:237-365 | until children are reconciled, a compatible statement disturbs what an earlier one wrote only by trimming its chunk |
| SyncReplay.KeptStep | internal/cache/records.go:214-233 | reconciling children and writing checkpoints undoes nothing but what it deletes |
| SyncReplay.BatchSettles | internal/cache/records.go:181-235 | after a committed batch every statement has nothing left to do, unless what it wrote was deleted or what it trimmed was stored again |
| SyncRows.RowsAgain | internal/cache/records.go:237-265 | publishing again over what a committed batch left changes no source, search row or record whose node is still there, however often the batch writes one and with whatever contents |
| SyncBatchReplay.ChunksStand | internal/cache/accessors.go:424-455 | nor any chunk, if all are still there with the hashes given and nothing is to be trimmed |
| SyncBatchReplay.StandingRun | internal/cache/schema.go:980-1017 | then no statement moves a generation, deletes an embedding or changes a hash |
| SyncIdempotence.ReplayKeepsLoose | internal/cache/records.go:415-435 | nor any identity, comment, revision or comment sync, although the batch may write one row several times and cascades may have removed some |
| SyncIdempotence.CommentsFollow | internal/cache/records.go:415-428 | a run's effect on a comment is one clear-and-put that keeps the creation time |
| SyncIdempotence.ApplyTwice | internal/cache/records.go:197-213 | that effect is idempotent |
| SyncBatchReplay.ReplayIsExact | internal/cache/records.go:178-235 | for every batch: committed again, at the same time or with explicit times, it leaves every table, the generation and the embeddings unchanged if and only if its first run left each graph's source and chunks in place with the hashes that the graph gives them, and nothing that a replacing graph would trim; otherwise the generation moves |
| SyncBatchReplay.ReplayIsHarmless | internal/cache/records.go:178-235 | then a replay, committed or rolled back, changes nothing |
| SyncBatchReplay.ReplayStatements | internal/cache/records.go:178-235 | the same for any sequence of publishing and closing statements |
| SyncBatchReplay.FallenGrows | internal/cache/schema.go:980-1017 | writing a source or chunk that is missing or has another hash, or trimming a stale chunk, raises the generation, whatever comes after |
| SyncBatchReplay.WellFormedStands | internal/cache/records.go:181-235 | with one graph a record and one row a chunk key, whatever survived the first run has the graph's hash, so that survival alone decides |
| SyncTrimming.StaleAreUnwanted | internal/cache/store.go:128-161 | what a replay would trim is exactly the graph's own stored pieces whose key is not wanted with their hash |
| SyncTrimming.UnwantedMeansUnnamed | internal/cache/accessors.go:424-427 | a key is unwanted if and only if the piece has no id and no piece of the graph was given its fingerprint as an id |
| SyncOwnership.OwnBatchReplay | internal/cache/records.go:178-235 | for a batch of own pieces the replay is exact if and only if the graphs survived and no replacing graph stored a piece for its own source under an unwanted key |
| SyncOwnership.OwnedBatchReplay | internal/cache/records.go:178-235 | if no chunk key of the batch was another source's before, the replay is exact if and only if the graphs survived and the replacing graphs want the keys of all their pieces, a condition on the batch alone |
| SyncTrimming.ReplayLosesEmbeddings | internal/cache/store.go:128-161 | from any state a batch that commits over its own stored piece with an unwanted key deletes the piece's embeddings and raises the generation |
| SyncUnnamedPiece.UnnamedPieceBreaksReplay | internal/cache/records.go:178-235 | a batch of one record with one piece without an id commits, survives itself, and once the chunk is embedded commits again with the embedding gone and a higher generation |
| SyncCoverage.CoveredBatchReplays | internal/cache/child_sources.go:22-68 | if the keep lists cover every child that carries or is given the parent link, and chunk keys in use belong to the same source, the batch survives itself and replays exactly if and only if its replacing graphs want the keys of all their pieces |
| SyncCoverage.ChildIsLostExactly | internal/cache/child_sources.go:22-68 | a committed batch deletes the node of one of its graphs if and only if some reconciliation that does not keep it finds its parent link with the parent still there |
| SyncCoverage.UncoveredChildIsLost | internal/cache/child_sources.go:22-68 | so a graph that brings a parent link and is not kept by a reconciliation, whichever of the batch's, does not survive if its parent lasts until then |
| SyncPublished.PublishedGraphIsShown | internal/cache/records.go:237-365 | a published graph leaves, over whatever was there, its source (kind, path, title, body, status, labels, hash, live or fixture, update time), search row and record with every column it gave and the creation times that were there, a provider's identity against a projection, of equal keys the last comment, identity, revision and chunk with their defaults, its links, exactly the untrimmed other chunks, and every other row of these tables unchanged |
| SyncCommitted.CommittedNode | internal/cache/records.go:181-265 | a node that a committed batch names and leaves carries every column of the last graph for it, the creation time it had or the first graph's, and the identity of the last provider |
| SyncCommitted.UnnamedNode | internal/cache/records.go:181-235 | a node that no graph names is unchanged, unless it is gone |
| SyncCommitted.CommittedCheckpoints | internal/cache/records.go:214-233 | frontier, maintenance and receipt rows end column by column as handed in, with the defaults for their times, and every child of a reconciled kind and parent is a kept one |
| SyncCommittedRows.CommittedReplacement | internal/cache/records.go:202-213 | a record whose comments a batch replaces has exactly the ids of its last replacement, with the last comment's columns and the first one's time |
| SyncCommittedRows.CommittedClearing | internal/cache/records.go:197-201 | a record whose comments are cleared and not replaced has none |
| SyncCommittedRows.CommittedChunk | internal/cache/records.go:237-365 | a chunk that is still there shows the last piece of its key |
| SyncCommittedRows.CommittedSync | internal/cache/issue_comment_sync.go:22-36 | a node's comment sync shows the last one handed in, column by column |
| SyncStored.CommittedBatchIsClosed | internal/cache/records.go:214-233 | a committed batch leaves its frontier, maintenance and receipt rows, and no unkept child of any reconciled kind and parent |
| SyncStored.ReplacedCommentsAreExact | internal/cache/records.go:202-213 | replacing a record's comments leaves exactly the given comment ids |
| WriteSettlementGraphs.ProjectionsKeepProviderIdentity | internal/cache/records.go:393-413 | through any statements a provider record keeps its creation time, provenance and remote identity, unless it is deleted or a provider record is written over it |
| WriteSettlementGraphs.KeysStayUnique | internal/cache/schema.go:427 | in every run a non-empty idempotency key names at most one receipt of a repository |
| WriteSettlementSafety.SucceededIsFinal | internal/cache/records.go:540-561 | a succeeded receipt never changes again if no caller names succeeded as the status it replaces |
| WriteSettlementSafety.PublishedAtMostOnce | internal/cache/write_settlement.go:36-76 | over every interleaving of such callers a receipt is settled at most once, never after success, and stays succeeded |
| WriteSettlementSafety.SettlementIsAtomic | internal/cache/write_settlement.go:40-76 | a settlement that wins found the receipt as observed, moves it from pending to succeeded in exactly nine columns, changes no other receipt and executes the graph's statements; a stale or failing one changes nothing |
| WriteSettlementOutcomes.ClaimIsExact | internal/cache/records.go:501-538 | a claim wins if and only if there is no receipt, or the failed one of the expected generation for the same payload, and no other receipt holds the key; the row then has every column given |
| WriteSettlementOutcomes.TransitionIsExact | internal/cache/records.go:543-561 | a transition wins if and only if generation and status are the expected ones and no other receipt holds the key; every column is as given but the generation, which stays |
| WriteSettlementOutcomes.StageIsExact | internal/cache/write_settlement.go:12-34 | staging wins if and only if generation, status, payload and metadata are as observed; the receipt then has the pending row's operation, command, mode, record, remote type, remote id, status, message and metadata, and its former key, payload hash and generation |
| WriteSettlementOutcomes.SettleIsExact | internal/cache/write_settlement.go:40-76 | a settlement is an error if and only if it is not one receipt going from pending to succeeded for the graph's record, or it owns the receipt and a statement of the graph fails; otherwise it wins if and only if the receipt is as observed |
| WriteSettlementOutcomes.LookupIsExact | internal/audit/audit.go:57-84 | a lookup knows nothing exactly of a blank key or one without a receipt; else another payload than the bound one is a conflict, and the status alone decides between replay, partial, retry, in progress, unsafe and none |
| WriteSettlementOutcomes.RetryIsClaimable | internal/audit/audit.go:76-77 | a lookup that says retry hands its caller a claim that wins exactly if the receipt was bound to that payload |
| WriteSettlementOutcomes.OnlyRetryIsClaimable | internal/cache/records.go:529 | any other verdict on a receipt hands it a claim that loses |
| WriteSettlementPublished.PublishedRecordGraphIsShown | internal/cache/records.go:24-164 | a published record graph leaves every column of its record, related records, confirmations, comments, identities and revisions, of equal keys the last, and of the link kinds it replaces exactly its own links; everything else in these tables is unchanged |
| WriteSettlementPublished.SettledGraphIsShown | internal/cache/write_settlement.go:67-75 | so does the graph of a settlement that wins |
| WriteSettlementSafety.LateSettlerLoses | internal/cache/write_settlement.go:36-76 | after a settlement every later settler of the key loses, whatever it observed |
| WriteSettlementSafety.RestagedOwnerLoses | internal/cache/write_settlement.go:9-34 | staging other metadata takes settlement away from whoever observed the row before |
| WriteSettlementSafety.NamingSucceededReopens | internal/cache/records.go:543-561 | settle, name succeeded, settle again: both settlements of the receipt publish, wherever the graph's statements succeed twice |
| WriteSettlementSafety.RowStep | internal/cache/records.go:497-561 | the only four ways in which a receipt changes |
| WriteSettlementSafety.WritesLeaveReceipts | internal/cache/records.go:24-164 | publishing a graph touches no receipt |
| WriteSettlementSafety.ReclaimedAtMostOnce | internal/cache/records.go:497-538 | with fresh creation times a failed generation is reclaimed by at most one caller |
| WriteSettlementSafety.InsertedAtMostOnce | internal/cache/records.go:497-538 | over every interleaving at most one first claim of a key wins, none once the row exists, and the row stays |
| WriteSettlementSafety.UnexpectingClaim | internal/cache/records.go:497-538 | a claim that expects no failure leaves an existing receipt alone and otherwise inserts its row |
| WriteSettlementSafety.FreshnessIsExact | internal/cache/records.go:502-511 | a failed generation is reclaimed at most once in every run of callers that claim with one entry if and only if that entry is not created with that generation |
| WriteSettlementSafety.ZeroTimesCollide | internal/cache/records.go:502-511 | claims without a time reclaim one generation twice |
| WriteSettlementSafety.PayloadIsBound | internal/cache/records.go:513-529 | claims, stages and settlements never change a receipt's payload hash |
| WriteSettlementSafety.OneRow | internal/audit/audit.go:53-55 | with ids derived from trimmed keys a key names one row |
| WriteSettlementSafety.ReplayOnlyForBoundPayload | internal/audit/audit.go:57-84 | a lookup reports a replay exactly for the payload that was bound first, and only once it succeeded |
| WriteSettlementSafety.EmptyHashBindsNothing | internal/audit/audit.go:67-73 | a succeeded receipt without a hash is replayed for every payload |
| WriteSettlementStore.AuditStore.ClaimAuditEventGeneration | internal/cache/records.go:501-538 | inserts, takes over the expected failed generation, or leaves the tables alone |
| WriteSettlementStore.AuditStore.TransitionAuditEventGeneration | internal/cache/records.go:543-561 | updates only the row of the expected generation and status |
| WriteSettlementStore.AuditStore.StageWriteGraphGeneration | internal/cache/write_settlement.go:12-34 | stages only over the exact observed row, and then carries the pending row's nine columns into it |
| WriteSettlementStore.AuditStore.SettleWriteGraphGeneration | internal/cache/write_settlement.go:40-76 | receipt and graph together, or neither: a winner leaves the complete row's nine columns in the receipt and the graph's columns in the tables |
| WriteSettlementStore.AuditStore.UpsertRecordGraph | internal/cache/records.go:24-164 | executes the record graph's statements in order, stopping at the first failure; on success all its rows are in the tables with the columns it gave |
| IssueParentRepairResult.OneCanonical | internal/cache/issue_parent_repair.go:20-33 | a placeholder has one canonical issue |
| IssueParentRepairResult.CanonicalIsNoPlaceholder | internal/cache/issue_parent_repair.go:20-58 | no canonical issue is itself a placeholder |
| IssueParentRepairResult.RepairedLinks | internal/cache/issue_parent_repair.go:109-123 | after the merges, in any order, the links are the image under placeholder → canonical without the placeholders' self-links |
| IssueParentRepairResult.MergeOrderIsIrrelevant | internal/cache/issue_parent_repair.go:82-87 | links, records, sources and identities do not depend on the merge order |
| IssueParentRepairResult.RepairedNodes | internal/cache/issue_parent_repair.go:161-164 | exactly the placeholders, their sources and aliases are gone |
| IssueParentRepairResult.SecondRepairFindsNothing | internal/cache/issue_parent_repair.go:14-92 | a second repair finds no placeholder |
| IssueParentRepairResult.RepairedAudit | internal/cache/issue_parent_repair.go:124-126 | every audit row is kept and renamed by the substitution |
| IssueParentRepairResult.RepairedConfirmations | internal/cache/issue_parent_repair.go:127-129 | every cache confirmation is kept and renamed, none lost to the cascade |
| IssueParentRepairResult.RepairKeepsReferences | internal/cache/issue_parent_repair.go:94-165 | a repair keeps every foreign key |
| IssueParentRepairResult.RepairStampsContent | internal/cache/issue_parent_repair.go:161-164 | the deletions of a repair move the content generation |
| IssueParentRepairComments.RepairedComments | internal/cache/issue_parent_repair.go:95-106 | each canonical issue ends with exactly the union of its own and its placeholders' comment ids, each row one contributor's |
| IssueParentRepairComments.RepairKeepsLatest | internal/cache/issue_parent_repair.go:99-106 | by the database's comparison no version of a comment is later than the one kept |
| IssueParentRepairComments.KeptIsGreatest | internal/cache/issue_parent_repair.go:99-106 | the kept version carries the greatest update time of all versions if and only if its time parses or none does |
| IssueParentRepairComments.UndatedCommentStays | internal/cache/issue_parent_repair.go:106 | a comment whose time does not parse is never replaced |
| IssueParentRepairComments.ExpectedCountsCover | internal/cache/issue_parent_repair.go:130-150 | each canonical issue has a queue entry that expects at least its merged comments and at least what it expected before |
| IssueParentRepairOutcomes.RepairedQueue | internal/cache/issue_parent_repair.go:130-150 | after a repair each canonical issue waits in the queue: pending, without error or delay, with the number, remote id, revision and update time of its record, its least provider alias or else the provider id it had, its former attempts, and the greater of its former expected count and its number of comments |
| IssueParentRepairOutcomes.OtherQueueEntries | internal/cache/issue_parent_repair.go:151-153 | the placeholders leave the queue, and every issue that is neither keeps its entry |
| IssueParentRepairOutcomes.RepairedPieces | internal/cache/issue_parent_repair.go:154-165 | exactly the placeholders' search rows, revisions, chunks and embeddings are gone |
| IssueParentRepairOutcomes.PlaceholdersAreExact | internal/cache/issue_parent_repair.go:20-58 | the placeholders are exactly the issues named after a provider id that is an alias of another issue, and that are empty and generic without aliases, or copies of it under that one alias; that other issue is the canonical one |
| IssueParentRepairStore.StatementsMerge | internal/cache/issue_parent_repair.go:94-165 | the statements of one merge, cascades included, add up to the specified merge |
| IssueParentRepairStore.RepairStore.MergePlaceholder | internal/cache/issue_parent_repair.go:94-165 | one merge leaves exactly the specified tables, and the canonical issue waiting in the queue |
| IssueParentRepairStore.RepairStore.RepairIssueProviderPlaceholders | internal/cache/issue_parent_repair.go:14-92 | merges exactly the placeholders in id order, returns their canonicals, and leaves each of them waiting in the queue |
| SourceAliases.BatchHoldsLookups | internal/cache/store.go:291-306 | a batch query holds every source's own ordered lookup |
| SourceAliases.KeysAreDistinct | internal/cache/store.go:268-275 | keys joined with NUL identify sources if repository ids hold no NUL |
| SourceAliases.NulConfusesKeys | internal/cache/store.go:269 | for all pairs: two sources share a key if and only if the repository id of one extends the other's by a NUL and a piece that begins the other source's id |
| SourceAliases.LookupIsUnique | internal/cache/accessors.go:257-264 | the lookup of one source is determined by its rows |
| SourceAliases.LookupIsExact | internal/cache/accessors.go:257-264 | a lookup has every identity of the source once and no other, ascending by alias type and then alias |
| SourceAliases.GetIdentityMapScoped | internal/cache/accessors.go:257-264 | the lookup of one source enumerates its identities in order |
| SourceAliases.GroupByRepo | internal/cache/store.go:266-275 | groups the listed sources by repository without duplicates |
| SourceAliases.HydrateRepo | internal/cache/store.go:278-307 | batches of bounded size give every source of a repository its lookup |
| SourceAliases.AttachSourceAliases | internal/cache/store.go:264-313 | every listed source gets exactly what its own lookup returns, for any mix of repositories, duplicates and lengths |
| EventLog.CursorRoundTrip | internal/adminhttp/observation.go:632-647 | a cursor decodes to the sequence number it encodes |
| EventLog.CursorIsBigEndian | internal/adminhttp/observation.go:632-636 | a cursor has eleven letters of the URL-safe alphabet, which spell the 64-bit number highest bits first with two zero bits at the end |
| EventLog.EventLog.Append | internal/adminhttp/observation.go:491-507 | appends with the next number, retains the contiguous last events, closes the channel every earlier replay returned |
| EventLog.EventLog.Replay | internal/adminhttp/observation.go:509-523 | returns every retained event after the cursor, or that the cursor expired, and the open channel of the current length |
| EventLog.EventsAfter | internal/adminhttp/observation.go:516-520 | the loop selects exactly the suffix after the cursor |
| EventLog.PollIsExact | internal/adminhttp/observation.go:509-523 | a positive cursor expires exactly when it is ahead of the log or an event after it was dropped; otherwise the poll catches up |
| EventLog.FollowerMissesNothing | internal/adminhttp/observation.go:861-886 | whatever is published between its polls, a follower with a positive cursor has received every event up to its cursor once and in order |
| EventLog.ZeroCursorMissesSilently | internal/adminhttp/observation.go:509-523 | without a cursor the stream never expires, and misses events exactly if the log overflowed |
| EventLog.ServeRound | internal/adminhttp/observation.go:861-875 | one round of the stream's loop is one poll |
| MigrateCache.RunIsSafe | internal/cli/cli.go:5278-5433 | every state of a run that meets no unsound stale intent is safe, whichever step fails and wherever the run is cut off |
| MigrateCacheOutcomes.RunIsEffects | internal/cli/cli.go:5278-5433 | a run consists of ten kinds of effects only, each with its condition: among them, the schema moves only from an older one that the binary knows, to its own, while no coordinator runs; a receipt is written only from an intent with evidence and after a service to be restored runs; an unconfirmed run, or one over an intent of another schema, does nothing |
| MigrateCacheOutcomes.SuccessfulRun | internal/cli/cli.go:5278-5433 | a run in which every step succeeds leaves the new schema, a running coordinator, a receipt and no intent |
| MigrateCacheOutcomes.FailedRun | internal/cli/cli.go:5328-5342 | one whose migration fails leaves the old schema, a running coordinator and neither intent nor new receipt |
| MigrateCache.HistoryIsSafe | internal/cli/cli.go:4984-5026 | across crashes, failures and reruns, each by any binary, a quiesced coordinator has been started again or its intent is on disk, and a receipt exists only after a committed migration with verified backup and preserved identity |
| MigrateCache.SoundnessIsExact | internal/cli/cli.go:5304-5398 | a stale intent is sound if and only if no rerun over it, by any binary, can strand the coordinator |
| MigrateCache.StaleIntentStrands | internal/cli/cli.go:5304-5431 | an ordinary history reaches such an intent and leaves the coordinator stopped with a receipt |
| MigrateCache.LostEvidenceIsFinal | internal/cli/cli.go:5343-5399 | a pending intent can never lead to a receipt, whatever is tried with whichever binaries, if and only if nothing is left to migrate and the intent holds no evidence; then it is never given up either |
| MigrateCache.CrashAfterCommit | internal/cli/cli.go:5328-5352 | a crash right after the commit leaves a verified migration that no later attempt can issue a receipt for |
| MigrateCacheCommand.Command.Execute | internal/cli/cli.go:5278-5433 | one run has exactly the specified effects in the specified order |
| MigrateCacheCommand.CacheFile.MigrateWithConfirm | internal/cache/migrate.go:54-176 | commits all pending steps with a backup of the old version and a preserved identity, or changes nothing |
| MigrateCacheCommand.ApplyPending | internal/cache/migrate.go:131-157 | applies exactly the versions above the stored one, in order, and fails if one of them fails |
| MigrateCacheCommand.PendingIsSuffix | internal/cache/migrate.go:131-157 | of increasing versions the pending ones are those from the first above the stored one on |
| McpBootstrap.LeasesKeepTheStoreOpen | cmd/gitcode-mcp/mcp_bootstrap.go:84-150 | in every interleaving an unreleased handler has an open store, and the store is closed at most once |
| McpBootstrap.HandlerKeepsTheStoreOpen | cmd/gitcode-mcp/mcp_bootstrap.go:47-58 | told by the steps alone: after a tool call that finds the transport open and gets a handler, and any steps without that handler's release, the store is open, none was closed, and the group is not empty |
| McpBootstrap.OutstandingIsHeld | cmd/gitcode-mcp/mcp_bootstrap.go:146-148 | the handlers that hold a lease are exactly those handed out by a step and not released since |
| McpBootstrap.OpenedWhenNeeded | cmd/gitcode-mcp/mcp_bootstrap.go:84-150 | the store is opened once, if and only if some call before closing got as far as needing it |
| McpBootstrap.ReleasedHandlersLetClose | cmd/gitcode-mcp/mcp_bootstrap.go:47-58 | once every handler handed out was released a waiting closer gets through, and the store, if one was opened, has been closed exactly once |
| McpBootstrap.ClosedOnlyWhenReleased | cmd/gitcode-mcp/mcp_bootstrap.go:47-58 | the step that closes the store finds every handler released |
| McpBootstrap.NothingAfterClosing | cmd/gitcode-mcp/mcp_bootstrap.go:84-96 | once closing has begun no handler is handed out and no store opened |
| McpBootstrap.NoLeaseWhileWaiting | cmd/gitcode-mcp/mcp_bootstrap.go:47-51 | the wait group grows only before any closer waits |
| McpBootstrap.ReleasedStoreCloses | cmd/gitcode-mcp/mcp_bootstrap.go:47-58 | a closer gets through once every handler is released, and the store is closed then |
| McpBootstrap.Bootstrap.ForTool | cmd/gitcode-mcp/mcp_bootstrap.go:84-150 | hands out a handler with a lease, opening the store if needed, or none; a handler adds itself to the outstanding ones and one to the group |
| McpBootstrap.Bootstrap.ReleaseTool | cmd/gitcode-mcp/mcp_bootstrap.go:146-148 | a lease is returned once, however often its release is called |
| McpBootstrap.Bootstrap.CloseStore | cmd/gitcode-mcp/mcp_bootstrap.go:52-57 | closes the store if it is open |

## Left out

- RepositoryDocsStore.Store.ListRevisionSets: without the filters and the limit of the listing; a prune lists the whole repository.
- RecordsStore.SqlStore.UpsertSyncGraph: without the graph's pull-request review rows and sync events.
- RecordsStore.SqlStore.ResetLive: without the pull-request review tables that a reset clears.
- WriteSettlementStore.AuditStore.UpsertRecordGraph: without review rows, sync events, the audit trail and snapshots of the graph; settlement refuses graphs with an audit trail.
- SyncBatchReplay.ReplayIsExact: a batch that leaves times to the clock is replayed at the same time; at a later one its sync, maintenance and receipt rows carry the later time.
- SyncOwnership.OwnedBatchReplay: is about pieces that name their graph's own repository and source, or none; `SyncBatchReplay.ReplayIsExact` covers the others.
- RecordsCoverage.FreshCoverageMeansUnchanged: a coverage row's references to its repository and namespace are not modelled, and its writers are taken to record a generation that they read.
- RepositoryDocsRetention.RetentionSafety: speaks of the sets as listed, because the code lists them before its transaction; `StaleListingDropsFreshPublication` shows the difference.
- MigrateCache.HistoryIsSafe: holds for histories in which no run quiesces the coordinator under an unsound intent of an earlier run; `SoundnessIsExact` shows that the condition is exact.
- WriteSettlementSafety.PublishedAtMostOnce: holds for callers that do not name succeeded as the status they replace; `NamingSucceededReopens` shows that it fails otherwise.
- EventLog.FollowerMissesNothing: is about positive cursors; `ZeroCursorMissesSilently` says what happens without one.
- SQL text, row scanning, JSON columns, WAL, pragmas and file locks: transactions are atomic and serializable.
- Unconditional audit writers (`RecordAuditEvent`, `ClaimAuditEvent`) and the audit rows inside a record graph: they bypass the protocol; settlement refuses graphs with audit rows.
- Pull-request review tables, sync events, sync status, conflicts, snapshots and RAG run rows: more upserts and cascades of the same shapes.
- Full-text matching, scoring and snippets; of the search index only the row per source is kept.
- Namespace columns other than dimensions and dtype, and their unique index; a namespace row is compared at publication only.
- Times that the code takes from the clock when the caller leaves them out are parameters; stored times are the texts that the statements compare, so two texts of one instant in different zones differ as they do in the store. `content_changed_at` is not modelled.
- Provenance, comment-sync status, maintenance lane and audit status range over the names the code uses; other texts, which CHECK constraints or comparisons would reject, are not representable.
- The JSON texts that metadata is compared as: equal maps are taken for equal texts, and an absent map for an empty one.
- 64-bit overflow of counters, generations and event sequence numbers.
- Retention identities are tuples; the code joins their parts with NUL, which differs only for parts that contain NUL.
- Deletion of repositories and its cascade.
- The order of rows inserted by one replacement of membership or exclusions.
- The update of a child row re-checks its foreign key in the model; under the proved foreign keys this never fails.
- `UpsertSourceGraph` as a method: its chunk replacement is `RecordsChunks.ReplacementIsExact`.
- The bodies of schema migrations: a step is an arbitrary function that may fail or change the cache identity.
- Phase names and messages of the migration command, its result rendering, and the service manager behind quiesce, install and start.
- Timers, keep-alives, sessions and headers of the event stream; event payloads are opaque.
- Credential resolution and diagnostics of the MCP bootstrap: they decide only whether a call is turned away.
- CLI flags, HTTP handlers, web assets and capability catalogs.
