# RVX: snapshot replication and its surrounding algorithms, in Dafny

RVX collects immutable state snapshots from running programs. A *producer* inside each program numbers
the snapshots it captures, keeps a bounded buffer of them and serves cursor pages; the *engine* pulls
pages, commits them to a SQLite store with a durable cursor per (source, session), indexes numeric
fields for charts, and answers queries. Around this core stand a step tracker that feeds the producer,
a scrape scheduler, a grouped ingestion worker, a trace exporter with an external sort, and an alert
dispatcher. This project models those parts and proves what they promise.

| files | part of the system |
|---|---|
| `ProducerLog`, `Producer` | the producer as an append-only log with evictions, and the class that refines it with a deque, byte counters and a pinned latest entry |
| `Protocol`, `StateTree`, `Text`, `Json` | wire records, validation, byte lengths, JSON values and RFC 6901 pointers |
| `StoreTables`, `Store`, `Recovery` | snapshot tables, page ingestion, cursor coverage, durability answers, opening and head rebuild |
| `PullProtocol` | producers, network and store as one transition system; whole-run theorems; draining |
| `Discovery`, `ChartIndex`, `Indexer`, `Query`, `Sampling` | the bounded chart index and the queries answered from it |
| `TrackerHistory`, `Tracker`, `TrackerRuns` | bounded merged history, the tracker's prepare–capture–install transactions, and what any sequence of calls amounts to |
| `Ingestion` | grouping, group commit and acknowledgments |
| `Diff`, `Paging`, `TraceCodec`, `TraceSort` | state diff, keyset pagination, record codec, external merge sort |
| `Sources`, `Scheduler` | run and source states, and the scrape loop over them |
| `AlertDelivery`, `RateLimit` | delivery accounting and the token bucket |

Conventions. Objects the program updates in place are classes whose methods are proved against
specification functions; the theorems are lemmas about those functions. SQLite transactions and
savepoints are copies that are kept or discarded, so a failed transaction leaves the tables as they
were. Storage ids are row positions plus one. A value that depends on code outside the model is a
parameter or a free field: clock readings, network loss, whether a commit or a metadata write fails,
queue readiness, the alert engine's step and tick functions, and all serialized sizes (`Body.encoded`,
`Body.accounted`, `Row.bytes`, the `size` functions), about which nothing beyond what is compared with
a limit is used. A JSON number carries its text and the finite double its reader would get, with no
assumption about how the two relate. Of the tracker's accumulation of span timings only one thing is
assumed: it adds or replaces entries and removes none.

Two promises do not hold of the code; each has its exact condition:

- A page served by a producer that has released its history is refused by the store unless the cursor
  was already at the end (`PullProtocol.LockedPageAccepted` is an equivalence); `PullProtocol.ReleasedPageRefused` gives, for any
  capturable snapshot, the four-step run that ends in such a refusal, and `PullProtocol.RefusedExample`
  one without any precondition.
- The opening code rebuilds heads only when the index is started anew or no head table existed, and
  nothing on disk remembers that a rebuild is still owed. An opening that stops after the new index
  exists, or between the two rebuild statements, therefore leaves heads that no later opening repairs.
  `Recovery.StoppedHeads` gives the exact condition for every stop of every database,
  `Recovery.StoppedRunHeads` for any number of stopped openings in a row, and three lemmas give
  databases that end with wrong heads: one without a head table, one upgraded from index version 2,
  and one stopped between the statements.

## Model

| member | source | states |
|---|---|---|
| `ProducerLog.RoomFitsEmpty` | rust/rvx-snapshots/src/lib.rs:206-228 | the batch pre-check guarantees that each member fits once the buffer is empty, so eviction never spins |
| `ProducerLog.AppendKeepsBudget` | rust/rvx-snapshots/src/lib.rs:216-238 | after every capture the buffered bytes plus the pinned latest observation stay within `max_bytes` and the count within `max_snapshots` |
| `ProducerLog.EvictionNeeded` | rust/rvx-snapshots/src/lib.rs:219-227 | whenever a capture evicts, one entry more would have broken the count limit or, with the pinned observation charged for events, the byte limit |
| `ProducerLog.RoomyBatchEvictsNothing` | rust/rvx-snapshots/src/lib.rs:216-237 | a batch that fits beside everything retained evicts nothing |
| `ProducerLog.BudgetMeans` | rust/rvx-snapshots/src/lib.rs:405-422 | retained entries plus the evicted latest observation stay within both limits, written out |
| `ProducerLog.AllRoomMeans` | rust/rvx-snapshots/src/lib.rs:206-215 | the running pre-check demands exactly that each event fits together with the observation that is latest before it |
| `ProducerLog.AppendValid` | rust/rvx-snapshots/src/lib.rs:216-238 | capturing keeps the whole producer invariant (budgets, contiguous retained range, every captured snapshot valid under its assigned sequence) |
| `ProducerLog.AdmittedFits` | rust/rvx-snapshots/src/lib.rs:304-347 | the greedy byte cut keeps the page's snapshots within the page budget |
| `ProducerLog.PageMaximal` | rust/rvx-snapshots/src/lib.rs:327-347 | a page ends before the end of the log only at its limit or where the next snapshot would break the byte budget |
| `Producer.CaptureValid` | rust/rvx-snapshots/src/lib.rs:143-245 | a capturable batch leaves a valid producer |
| `Producer.CapturableMeans` | rust/rvx-snapshots/src/lib.rs:143-215 | a batch is accepted exactly when every member is valid, within its byte and sequence limits, and has room |
| `Producer.SnapshotProducer.Evict` | rust/rvx-snapshots/src/lib.rs:219-227 | the loop ends, and evicts exactly the least number of front entries that makes the new one fit |
| `Producer.SnapshotProducer.Store` | rust/rvx-snapshots/src/lib.rs:216-238 | buffer, byte counter, drop counter and pinned latest implement one append of the abstract log |
| `Producer.SnapshotProducer.CaptureBatch` | rust/rvx-snapshots/src/lib.rs:143-245 | all or nothing: accepted exactly when every member is within the limits, then all appended in order under consecutive sequences, and nothing is evicted when everything fits; otherwise nothing changes; which error is which |
| `Producer.SnapshotProducer.SelectHistory` | rust/rvx-snapshots/src/lib.rs:304-347 | the page of the retained log after a cursor with its reported loss, as long as limit and byte budget allow |
| `Producer.SnapshotProducer.Latest` | rust/rvx-snapshots/src/lib.rs:258-267 | the last captured non-event, even after its entry was evicted, until release |
| `Producer.SnapshotProducer.ReadStats` | rust/rvx-snapshots/src/lib.rs:350-362 | usage within both limits; dropped + buffered = next sequence until release |
| `Producer.SnapshotProducer.Seal` | rust/rvx-snapshots/src/lib.rs:363-369 | sealing stops captures and changes nothing captured |
| `Producer.SnapshotProducer.SealAndReleaseHistory` | rust/rvx-snapshots/src/lib.rs:370-383 | releasing empties the buffer; what was captured stays what it was |
| `StateTree.ValidateState` | rust/rvx-core/src/snapshots.rs:287-346 | the explicit-stack walk accepts exactly the states within the node limit whose every node is supported at its depth |
| `Protocol.ValidatePage` | rust/rvx-core/src/snapshots.rs:349-398 | one pass with the previous sequence in hand accepts exactly the pages whose sequences run by one from not below `oldest` up to `next` |
| `Json.EscapeRoundTrip` | rust/rvx-engine/src/chart_index.rs:213-268 | unescaping an escaped key gives the key back (sections 3 and 4 of RFC 6901) |
| `Json.UnescapeRoundTrip` | rust/rvx-core/src/snapshots.rs:400-418 | every legal reference token is the escape of the key it denotes |
| `Json.LookupMember` | rust/rvx-engine/src/chart_index.rs:213-268 | the escaped key selects exactly that member in a pointer lookup |
| `Store.CheckContinuity` | rust/rvx-engine/src/snapshot_store.rs:216-231 | a page with news must start at the cursor or at the reported loss, one without may not advance; which refusal is which |
| `Store.IngestPage` | rust/rvx-engine/src/snapshot_store.rs:197-284 | rejected exactly when page, descriptor, session, run, attempt, role or identifiers do not agree; accepted pages contradict nothing stored and are stored whole under their run and source, with exactly the specified rows, gap, cursor, head and index effect |
| `StoreTables.IngestedValid` | rust/rvx-engine/src/snapshot_store.rs:216-283 | any accepted page, whoever sent it, keeps unique rows and cursor coverage, whatever state heads and chart index are in |
| `StoreTables.AcceptedIsStored` | rust/rvx-engine/src/snapshot_store.rs:233-269 | after an accepted page every one of its snapshots is stored for its run and source exactly as sent, and none conflicted with a stored one |
| `StoreTables.IngestedDerived` | rust/rvx-engine/src/snapshot_store.rs:255-283 | a page keeps a correct chart index correct, and leaves a reporter's head right exactly when it was right or the page stores an observation of that reporter |
| `Store.RunValid` | rust/rvx-engine/src/snapshot_store.rs:197-284 | coverage holds after every sequence of submissions: below a cursor stored or in a gap and never both, at or above it nothing |
| `Store.RunDerived` | rust/rvx-engine/src/snapshot_store.rs:255-283 | after any submissions a correct chart index is still correct, and a head left wrong by an interrupted opening is mended exactly by the reporter's next stored observation |
| `Store.ExactlyOneGap` | rust/rvx-engine/src/snapshot_store.rs:216-231 | a missing sequence lies in only one recorded gap and is not stored |
| `Store.SnapshotStore.IngestBatch` | rust/rvx-engine/src/snapshot_store.rs:167-195 | grouped pages have the effect of one-by-one ingestion with failed pages as no-ops |
| `Store.SnapshotStore.PersistedCursor` | rust/rvx-engine/src/snapshot_store.rs:112-142 | `complete` for n if and only if all of 0..n-1 are stored; gap flag if and only if one is missing in a gap |
| `PullProtocol.PageHonest` | rust/rvx-snapshots/src/lib.rs:304-347 | a served page passes validation and holds exactly the captured range it claims |
| `PullProtocol.PageProgress` | rust/rvx-snapshots/src/lib.rs:327-347 | while data remains, an unreleased producer never serves an empty page, whatever the byte cut |
| `PullProtocol.PageWhole` | rust/rvx-snapshots/src/lib.rs:304-383 | a page omits what the cursor still needs exactly when history was released with data outstanding |
| `PullProtocol.StepSound` | rust/rvx-engine/src/lib.rs:424-467 | every step (start, capture, seal, release, pull, lose, commit) keeps the system invariant |
| `PullProtocol.RunSound` | rust/rvx-engine/src/lib.rs:424-467 | the invariant holds after every run of any interleaving |
| `PullProtocol.EndToEndSafety` | rust/rvx-engine/src/snapshot_store.rs:197-284 | in every run each stored (source, session, k) is the k-th snapshot that session captured |
| `PullProtocol.StoredUnderItsRun` | rust/rvx-engine/src/snapshot_store.rs:205-213 | in every run each stored snapshot lies under the run its session announced |
| `PullProtocol.MismatchStoresNothing` | rust/rvx-engine/src/snapshot_store.rs:205-213 | a page of another session than the descriptor, or a descriptor of another registration, is never accepted and stores nothing |
| `PullProtocol.LockedPageAccepted` | rust/rvx-engine/src/lib.rs:424-467 | a page pulled at the stored cursor and held under the source lock is accepted exactly when its producer had not released history or had nothing left |
| `PullProtocol.ReleasedPageRefused` | rust/rvx-snapshots/src/lib.rs:370-383 | refusal happens: for any capturable snapshot, start, capture, release and pull lead to a page the store rejects |
| `PullProtocol.RefusedExample` | rust/rvx-engine/src/snapshot_store.rs:220-231 | a concrete such run, whose page identifies itself correctly and is still rejected |
| `PullProtocol.GapsAreLosses` | rust/rvx-engine/src/snapshot_store.rs:216-231 | in every run a recorded gap covers only snapshots its producer evicted, and everything else below a cursor is stored |
| `PullProtocol.NothingEvictedNothingLost` | rust/rvx-engine/src/snapshot_store.rs:112-142 | in every run a session that never evicted is stored without holes up to its cursor |
| `PullProtocol.ReachableTrusted` | rust/rvx-engine/src/lib.rs:424-467 | in every reachable world the store agrees with each producer, so any of them can be drained |
| `PullProtocol.DrainStep` | rust/rvx-engine/src/snapshot_store.rs:220-231 | pull and commit strictly advances the cursor and keeps losslessness exactly as it was |
| `PullProtocol.Drain` | rust/rvx-engine/src/snapshot_store.rs:112-142 | draining a sealed, unreleased producer ends at the final cursor, complete exactly when nothing was evicted before it was pulled |
| `Recovery.HeadsAreNewest` | rust/rvx-engine/src/snapshot_store.rs:255-264 | incremental heads are the highest-id non-event snapshots, present exactly for reporters with one |
| `Recovery.RebuiltHeadsAreHeads` | rust/rvx-engine/src/snapshot_store.rs:84-94 | the rebuild statements turn any plausible head table into the incremental heads |
| `Recovery.Open` | rust/rvx-engine/src/snapshot_store.rs:30-103 | opening completes the index from wherever a rebuild stopped, and rebuilds heads under the code's condition |
| `Recovery.StoppedOpenable` | rust/rvx-engine/src/chart_index.rs:30-106 | wherever an opening stops, the next one can take up what is on disk |
| `Recovery.StoppedHeads` | rust/rvx-engine/src/snapshot_store.rs:62-94 | for every database and every stop (before or after the tables, while indexing, between DELETE and INSERT, at the end) the next opening has the right heads if and only if the stop was harmless: the stored heads, or the newest snapshots filled in for them, were already right, or a rebuild was still due |
| `Recovery.StoppedRunHeads` | rust/rvx-engine/src/snapshot_store.rs:62-94 | the same equivalence after any sequence of stopped openings, decided by the first stop that left a head table and a current index |
| `Recovery.InterruptedHeadIsEvent` | rust/rvx-engine/src/snapshot_store.rs:76-94 | a database without head table whose head then stays an event |
| `Recovery.UpgradeHeadIsEvent` | rust/rvx-engine/src/snapshot_store.rs:84-94 | a database with head table and index version 2 whose event head survives the interrupted upgrade |
| `Recovery.DeletedHeadIsMissing` | rust/rvx-engine/src/snapshot_store.rs:87-93 | a database stopped between DELETE and INSERT whose reporter loses its head |
| `Discovery.DiscoverComplete` | rust/rvx-engine/src/chart_index.rs:213-268 | every finite number is discovered or lies under a recorded exclusion, despite node, depth, object-size and path caps |
| `Discovery.DiscoverSound` | rust/rvx-engine/src/chart_index.rs:213-268 | every discovered path is a valid pointer to a finite number |
| `Discovery.ModestFullyDiscovered` | rust/rvx-engine/src/chart_index.rs:213-268 | a state without arrays and within the node, field, width and path caps is discovered without a single exclusion |
| `Discovery.Walker.Visit` | rust/rvx-engine/src/chart_index.rs:213-268 | the walk with shared node counter and truncation flag computes the specified discovery |
| `ChartIndex.AdmitKeeps` | rust/rvx-engine/src/chart_index.rs:134-150 | admission under the field cap keeps known fields, dates new ones, and excludes the rest |
| `ChartIndex.UnadmittedIsExcluded` | rust/rvx-engine/src/chart_index.rs:108-211 | a number the index does not admit is covered by the stored exclusions, even when they collapse to the root |
| `ChartIndex.OldObservationTells` | rust/rvx-engine/src/chart_index.rs:108-211 | later snapshots never change what the index says about an earlier one |
| `ChartIndex.BuildFaithful` | rust/rvx-engine/src/chart_index.rs:108-268 | over every table, the index records exactly the raw number for every indexed pointer and marks every missed number as excluded |
| `ChartIndex.ModestIndexed` | rust/rvx-engine/src/chart_index.rs:108-211 | a snapshot within all caps is indexed completely: nothing is excluded and every finite number has a field |
| `Indexer.ChartTables.InsertSnapshot` | rust/rvx-engine/src/chart_index.rs:108-211 | the insertion loops compute the specified index step |
| `Indexer.ChartTables.Rebuild` | rust/rvx-engine/src/chart_index.rs:68-106 | for any restart point and chunk boundaries, the rebuild ends with the index of incremental insertion |
| `Indexer.ChartTables.RebuildChunk` | rust/rvx-engine/src/chart_index.rs:68-106 | a chunk stays within 64 rows and, beyond its first row, one page of bytes; it is never empty while rows remain and stops early only at the byte limit |
| `Query.Project` | rust/rvx-engine/src/snapshot_store.rs:669-716 | one field: refused exactly when some selected observation skipped its subtree and predates its first indexing, otherwise plotted truthfully or without numeric observations |
| `Query.QueryPage` | rust/rvx-engine/src/snapshot_store.rs:657-724 | when it succeeds no field is unsettled, every value equals the pointer lookup in that stored state (null exactly when there is none), skipped series hide nothing and the answer is within the point and byte budgets; every refusal has its cause: exact request errors, an unsettled field, or truthful series that exceed a budget |
| `Sampling.SamplePositions` | rust/rvx-engine/src/snapshot_store.rs:793-825 | exactly `count` strictly increasing positions ending at the last; each is the evenly spread one rounded down, or was moved to the last missing observation before its right neighbour, and only because a line would have hidden it; no missing observation between adjacent numeric ones |
| `Diff.ChangesApart` | rust/rvx-engine/src/snapshot_store.rs:827-892 | change paths are pairwise distinct and none is a prefix of another |
| `Diff.ChangesTrue` | rust/rvx-engine/src/snapshot_store.rs:827-892 | each change reports the values found by pointer lookup before and after, and they differ |
| `Diff.NoChangesEqual` | rust/rvx-engine/src/snapshot_store.rs:827-892 | an empty change list means equal states |
| `Diff.ChangesDetermine` | rust/rvx-engine/src/snapshot_store.rs:827-892 | before plus the untruncated changes determine after |
| `Diff.ChangesComplete` | rust/rvx-engine/src/snapshot_store.rs:827-892 | wherever a lookup differs, a change at, above or below that pointer is reported |
| `Diff.TakePrefix` | rust/rvx-engine/src/snapshot_store.rs:827-892 | the budgeted list is a prefix of the full one, and truncated exactly when something is missing |
| `Diff.TakeMaximal` | rust/rvx-engine/src/snapshot_store.rs:827-892 | the list stops only at a thousand changes or where the next change would break the page budget |
| `Diff.Differ.Walk` | rust/rvx-engine/src/snapshot_store.rs:827-892 | the recursive walk with its byte counter reports exactly the budgeted prefix of the changes |
| `Diff.Compare` | rust/rvx-engine/src/snapshot_store.rs:726-766 | the answer is a prefix of the full difference and says truthfully whether it is all of it |
| `Paging.FillPage` | rust/rvx-engine/src/snapshot_store.rs:404-430 | the page is a nonempty prefix within the budget, cut only at the limit or where the next row would overflow; `more` tells exactly whether rows are left, and only an oversized first row fails |
| `Paging.DescendingMembers` | rust/rvx-engine/src/artifact_index.rs:203-217 | the query answer holds exactly the matching rows below the composite cursor |
| `Paging.DescendingFalls` | rust/rvx-engine/src/artifact_index.rs:203-217 | and holds them with strictly falling lexicographic keys |
| `Paging.ContinueBehind` | rust/rvx-engine/src/artifact_index.rs:203-252 | restarting at the last returned key continues exactly behind it |
| `Paging.InsertsInvisible` | rust/rvx-engine/src/snapshot_store.rs:373-402 | rows inserted later are never seen below a cursor |
| `Paging.Traverse` | rust/rvx-cli/src/trace.rs:58-77 | following the cursor to the end returns every row matching at the first page exactly once, newest first, despite inserts and byte cuts; the client's progress check never fires |
| `TrackerHistory.Merge` | rust/rvx-tracker/src/snapshot.rs:54-99 | refused exactly when the merged record is oversized; else patch or append, then evict from the front only while over budget; the newest entry survives and bytes are the sum of the entries |
| `TrackerHistory.PatchedMeans` | rust/rvx-tracker/src/snapshot.rs:54-85 | a commit of a retained step joins the earlier record: later time, overlaid metrics, alerts and spans appended |
| `Tracker.MergeMonotone` | rust/rvx-tracker/src/lib.rs:423-467 | under the monotonic policy the retained steps are the largest committed ones, in increasing order, each with its step's overlay, and evicted + retained counts the distinct committed steps |
| `Tracker.CommitKeeps` | rust/rvx-tracker/src/lib.rs:423-467 | one commit keeps the tracker invariant: summary is the right-biased overlay of all commits, the newest entry is retained |
| `Tracker.PrepareCommit` | rust/rvx-tracker/src/lib.rs:423-467 | closing the open step succeeds exactly when the step cursor can advance, the record fits the history and the state its budgets; then the prepared state, record, alerts and commit |
| `Tracker.PrepareEvent` | rust/rvx-tracker/src/lib.rs:469-495 | an event adds one record and one to the commit counter, and changes no history or summary |
| `Tracker.SelectStep` | rust/rvx-tracker/src/lib.rs:401-421 | keep, commit first or refuse, decided by policy; fails exactly when the step left behind cannot be committed |
| `Tracker.DecisionMeans` | rust/rvx-tracker/src/state.rs:50-76 | which steps each policy takes, and that leaving an open step for another commits it first, with its own metrics |
| `Tracker.PrepareLog` | rust/rvx-tracker/src/lib.rs:156-168 | when a log call can be prepared, and what it prepares: commits, records, alerts and the next state |
| `Tracker.Tracker.Install` | rust/rvx-tracker/src/lib.rs:371-399 | succeeds exactly when the state is within its budgets and the producer takes the records; capture and install happen together or not at all; alerts are queued only after the install |
| `Tracker.Tracker.Log` | rust/rvx-tracker/src/lib.rs:144-169 | exactly when a call succeeds and when its step is taken; refused or rejected calls change nothing; accepted ones commit an open step left behind first, then the target if asked to, and write exactly the specified records, alerts and state, with commits in lockstep with the producer's next sequence |
| `Tracker.Tracker.RecordSpan` | rust/rvx-tracker/src/lib.rs:178-202 | exactly when it succeeds; a span joins the target step, writing only an open step left behind |
| `Tracker.Tracker.Flush` | rust/rvx-tracker/src/lib.rs:171-176 | exactly when it succeeds; commits exactly the open step |
| `Tracker.Tracker.TickAlerts` | rust/rvx-tracker/src/lib.rs:256-268 | exactly when it succeeds; writes one event for raised alerts and nothing otherwise; committed steps, summary and history stay |
| `Tracker.Tracker.Finish` | rust/rvx-tracker/src/lib.rs:298-317 | exactly when it succeeds; commits the open step, writes the final event, seals; a second call changes nothing |
| `TrackerRuns.RunLaw` | rust/rvx-tracker/src/lib.rs:144-203 | over any calls: per step, what was logged equals what was committed overlaid with what is open; records are a numbered journal of exactly the commits, each with the summary so far; every span is written once, in order, or still open |
| `TrackerRuns.SameChoices` | rust/rvx-tracker/src/state.rs:38-76 | the law's choice of step, acceptance and commit is the tracker's |
| `Ingestion.AcceptedIsDurable` | rust/rvx-engine/src/snapshot_store.rs:233-269 | accepting a page makes all of it durable, repeated part included |
| `Ingestion.RetryChangesNothing` | rust/rvx-engine/src/ingestion.rs:132-202 | retrying a committed page, after any other submissions, is accepted and changes nothing |
| `Ingestion.Submit` | rust/rvx-engine/src/ingestion.rs:59-100 | only pages within the byte budget of a group are let in, unanswered pages never hold more than two groups' bytes, and no admissible page waits on an empty queue |
| `Ingestion.Collect` | rust/rvx-engine/src/ingestion.rs:104-130 | groups stay within page, byte and (beyond their first page) record budgets, lose or reorder nothing, and put off only a page that would exceed a budget |
| `Ingestion.Ingestor.Write` | rust/rvx-engine/src/ingestion.rs:132-211 | Ok, with the number of new snapshots, is replied exactly to the acceptable pages of a group whose snapshots and metadata were both committed, and such a page is durable; the repository is updated for exactly the accepted pages, in order |
| `Ingestion.Ingestor.Run` | rust/rvx-engine/src/ingestion.rs:104-202 | groups concatenate to the arrivals, the store is the one-by-one effect of the committed groups, every group is answered exactly as above in the state before it, every Ok stays durable |
| `TraceCodec.RecordRoundTrip` | rust/rvx-cli/src/trace.rs:154-187 | reading undoes writing, whatever follows in the stream |
| `TraceCodec.ReadRoundTrip` | rust/rvx-cli/src/trace.rs:163-187 | whatever is read is a valid record whose written form is the bytes read |
| `TraceCodec.OrderIsNumeric` | rust/rvx-cli/src/trace.rs:146-152 | the order on bit patterns is the order of the numbers they denote, with negative zero before positive zero |
| `TraceCodec.ReadRun` | rust/rvx-cli/src/trace.rs:163-187 | a run is read back record by record and ends exactly where it ends |
| `TraceSort.SortSorts` | rust/rvx-cli/src/trace.rs:242-258 | the in-memory sort of a chunk is a sorted permutation |
| `TraceSort.SortedUnique` | rust/rvx-cli/src/trace.rs:146-153 | with arrival ordinals there is one sorted arrangement, so external and in-memory sort agree |
| `TraceSort.Merge` | rust/rvx-cli/src/trace.rs:298-321 | the k-way merge of run files writes the sorted arrangement of all their records |
| `TraceSort.SortedTrace.Push` | rust/rvx-cli/src/trace.rs:212-236 | rejects exactly oversized or non-finite events, and the in-memory chunk is below its limit after every push |
| `TraceSort.SortedTrace.FlushRun` | rust/rvx-cli/src/trace.rs:242-258 | spooling the chunk keeps every pushed event and empties the chunk |
| `TraceSort.SortedTrace.MergePass` | rust/rvx-cli/src/trace.rs:260-280 | a pass keeps the events and strictly reduces the number of runs |
| `TraceSort.SortedTrace.WriteTrace` | rust/rvx-cli/src/trace.rs:260-296 | the written events are the pushed ones, each once, in order of the numbers their timestamps denote, equal timestamps in order of arrival |
| `Sources.UpdateOnward` | rust/rvx-engine/src/repository.rs:366-446 | no update deletes a row, moves an endpoint, revives a retired source or reopens a finished run |
| `Sources.TransitionsAdvance` | rust/rvx-engine/src/repository.rs:746-772 | a transition is valid exactly when nothing changes or the stage rises |
| `Sources.BatchAnswers` | rust/rvx-engine/src/repository.rs:582-634 | after a batch each live source named in it is active with the session of its last descriptor and its run has started; every other row stays |
| `Sources.BatchDescribes` | rust/rvx-engine/src/repository.rs:609-622 | the last descriptor of each source named is stored, the others stay |
| `Sources.RunEndsForGood` | rust/rvx-engine/src/repository.rs:387-399 | after any later updates an ended run keeps its status and each of its sources the final state the ending gave it |
| `Sources.UpdateOnePerEndpoint` | rust/rvx-engine/src/repository.rs:412-434 | no update gives a run the same endpoint twice |
| `Sources.Repository.EnsureRun` | rust/rvx-engine/src/repository.rs:296-345 | a configured run is created once; naming it again answers with the stored run, or conflicts exactly when its identity differs, changing nothing |
| `Sources.Repository.UpdateRunStatus` | rust/rvx-engine/src/repository.rs:366-410 | succeeds exactly on valid transitions; refusals change nothing |
| `Sources.Repository.UpdateSourceState` | rust/rvx-engine/src/repository.rs:543-580 | succeeds exactly on valid transitions; refusals change nothing |
| `Sources.Repository.RegisterSource` | rust/rvx-engine/src/repository.rs:412-446 | answers with the stored row for the run's endpoint: the given source if it is new, otherwise the old row with attempt, role, node, rank, interval and timeout refreshed, never identity, state or progress |
| `Sources.Repository.UpdateSourceSuccessBatch` | rust/rvx-engine/src/repository.rs:582-634 | the loop applies the guarded source, descriptor and run updates in order in one transaction, and nothing goes backwards |
| `Sources.Repository.UpdateSourceFailure` | rust/rvx-engine/src/repository.rs:636-647 | exactly a source that is neither retired nor of a finished run becomes stale with the error; every other row, all runs and descriptors stay |
| `Scheduler.Scraper.RefreshSchedule` | rust/rvx-engine/src/lib.rs:599-630 | the refresh loop performs the specified plan update; a failed listing changes nothing |
| `Scheduler.Scraper.LaunchDue` | rust/rvx-engine/src/lib.rs:528-567 | the launch loop performs the specified pops |
| `Scheduler.Scraper.Join` | rust/rvx-engine/src/lib.rs:519-526 | the source leaves the tasks and becomes one heap entry due 1 ms or one interval later; no other source moves and none gains or loses a place |
| `Scheduler.RefreshExact` | rust/rvx-engine/src/lib.rs:599-630 | after a refresh the known sources are exactly the scrapable ones as registered |
| `Scheduler.LaunchKeeps` | rust/rvx-engine/src/lib.rs:528-567 | launching keeps the plan consistent and stops only at the limit or when nothing is due |
| `Scheduler.LaunchEarliestFirst` | rust/rvx-engine/src/lib.rs:528-534 | no entry left behind comes before an entry taken, by due time and then id |
| `Text.LessMeans` | rust/rvx-engine/src/lib.rs:522-527 | the order that breaks ties between ids is dictionary order |
| `Scheduler.RescrapedWhenDue` | rust/rvx-engine/src/lib.rs:590-597 | after a page with data a source is launched again from 1 ms on, after any other scrape from one interval on, unless the limit is used up |
| `Scheduler.NewSourceLaunched` | rust/rvx-engine/src/lib.rs:599-630 | a scrapable source found by a refresh is launched from then on, unless the limit is used up |
| `Scheduler.StepSound` | rust/rvx-engine/src/lib.rs:505-612 | registry updates, reading a listing, applying it later, joins and launches all keep the plan consistent with the listing applied last |
| `Scheduler.ExactlyOnePlace` | rust/rvx-engine/src/lib.rs:505-630 | in every run, updates between reading and applying a listing included, each known source is in the heap or in flight exactly once, and in flight never exceeds the limit |
| `Scheduler.NeverReenters` | rust/rvx-engine/src/lib.rs:599-630 | in every run a source that an applied listing dropped for draining, ended or lost is never known or launched again and, once out, stays out |
| `Scheduler.RetiredLeavesForGood` | rust/rvx-engine/src/lib.rs:605-630 | once the registry retires a source, the first listing read after that and applied takes it out for good |
| `AlertDelivery.StepAccounted` | rust/rvx-alert-http/src/lib.rs:91-126 | every atomic step keeps all counters equal to what the messages say, and returning bytes never underflows |
| `AlertDelivery.Conservation` | rust/rvx-alert-http/src/lib.rs:91-126 | in every interleaving accepted = completed + dropped + pending and no channel exceeds its byte limit |
| `AlertDelivery.OfferMeans` | rust/rvx-alert-http/src/lib.rs:261-294 | a message is refused exactly when the channel is closed or its bytes would exceed the limit |
| `AlertDelivery.FlushMeans` | rust/rvx-alert-http/src/lib.rs:297-308 | the flush condition holds exactly when every accepted alert was delivered or suppressed |
| `AlertDelivery.QuietChannels` | rust/rvx-alert-http/src/lib.rs:119-126 | when all message objects are gone, every channel budget is free again |
| `AlertDelivery.Dispatcher.Send` | rust/rvx-alert-http/src/lib.rs:253-296 | per accepting channel one message: refused when closed or over budget, dropped when the queue is full, otherwise live |
| `AlertDelivery.Dispatcher.FinishPending` | rust/rvx-alert-http/src/lib.rs:113-118 | finishing settles a live message and keeps its bytes reserved |
| `AlertDelivery.Dispatcher.DropPending` | rust/rvx-alert-http/src/lib.rs:119-126 | dropping returns the bytes and counts an unfinished message as dropped |
| `AlertDelivery.Flush` | rust/rvx-alert-http/src/lib.rs:297-308 | waits through wake-ups until nothing is pending or the deadline has passed; true exactly when every alert accepted by then completed without failure or drop |
| `RateLimit.Worker` | rust/rvx-alert-http/src/lib.rs:347-382 | the bucket loop grants at the specified times; rate 0 grants at once |
| `RateLimit.GrantPays` | rust/rvx-alert-http/src/lib.rs:368-382 | each message pays one token out of what the bucket held and earned, and never leaves more than rate - 1 |
| `RateLimit.RateBound` | rust/rvx-alert-http/src/lib.rs:368-382 | in any window of T seconds at most rate + T * rate / 60 messages are granted |
| `RateLimit.BurstAtOnce` | rust/rvx-alert-http/src/lib.rs:347-382 | a fresh worker lets a burst of `rate` messages through at once and delays the next by one token's time |
| `RateLimit.FullAgain` | rust/rvx-alert-http/src/lib.rs:368-372 | a minute without messages fills the bucket |
| `RateLimit.DelayBound` | rust/rvx-alert-http/src/lib.rs:368-382 | the limit delays a message by at most one token's time plus the sleep's overrun |
| `RateLimit.SpacedNeverWaits` | rust/rvx-alert-http/src/lib.rs:368-382 | messages one token's time apart are never delayed |

## Left out

- HTTP routing, streaming and timeouts, the Python bindings and SDK, authentication, UI documents, configuration, CLI commands and the web front end: I/O, policy or field-by-field checks.
- SQLite, WAL and fsync: a transaction is atomic, ids grow by one, and nothing is lost after a commit.
- JSON text itself: lengths and double values are free fields, as said above; the final response-size checks of queries and the envelope text of the exported trace are not modelled.
- Session identifiers are fresh: starting a producer never reuses the session of an earlier one.
- Capture takes its lock twice (validation, then assignment); the model treats one capture as one step.
- Query scan budgets, axis selection and ranges, `latest` pages and the artifact tables: the query starts from the selected observations of each reporter in plotting order.
- Chart naming, grouping, units, catalog and default selection: keyword tables.
- The alert engine, its rules and the expression language: two opaque functions of the tracker's environment. Manual alerts and artifact records use `PrepareEvent` like `TickAlerts` and have no methods of their own; alert-rule changes are not modelled.
- Trace run file names, deletion of merged files, and I/O errors: a run file is its bytes. The merge heap is one slot per reader.
- Task panics and shutdown of the scrape loop, and the per-page effect of a scrape task on the registry: any registry update may happen between any two scheduler steps. A refresh reads the clock once.
- Registration ids are taken to be fresh unless the run and endpoint are already registered; sources are never deleted, so a descriptor always has its source.
- Alert queue order and capacity: a full queue is one of the outcomes of a send. HTTP retries, deduplication and payloads are not modelled; rate limiting is over real numbers, so floating-point rounding is not captured.
- Indexer.ChartTables.InsertSnapshot: the axis tables, the truncated flag and the per-run summary written in the same transaction are left out, because they only feed axis selection and the catalog, which are not modelled.
- Query.QueryPage: the rows to answer from are an input, because the axis and range filters that select and sort them are not modelled; nor is the check of the final response's serialized length.
- Sources.Repository.EnsureRun: name checks, trimming and the project and experiment rows are left out, because they are field-by-field; the identity a run must keep is one value.
