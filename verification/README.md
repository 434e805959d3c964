# Vector Transfer: a verified model

Vector Transfer moves records page by page from a source to a sink, keeps durable
checkpoints in a hash-chained journal, and runs each job in a hosted engine or on a
customer worker under a lease. This project models the job, checkpoint and lease
protocol and the connector algorithms with real invariants, and proves what every run
of them keeps. `dafny verify dfyconfig.toml` checks everything.

## How the model is laid out

| part | files |
|---|---|
| rows and pages | `Records`, `Jobs`: the record, page and job-row types, page validation, and the row written by each critical section |
| the engine | `Transfer` is a state machine of one job: any number of executors, the sink, operators, shutdown, crashes, rows that become visible late. `Execute` is `execute`, `retry` and `finish` as loops, each proved to be a run of that machine. `TransferSafety`, `TransferExact`, `TransferBound`, `TransferWindow`, `TransferCounts` and `TransferStates` are what its runs keep; `TransferHosted` derives one executor at a time from the guards of the code and states the results for hosted runs; `TransferCauses` says why executors retry, give up, restart and end; `TransferOverlap` holds the runs that break them; `Destinations` puts any number of jobs side by side |
| the store | `Journal` (lines, hash chain, crash at any byte), `JobStore` (the store as a class whose memory agrees with its file), `ControlTable` (the whole table over all its critical sections), `StoreHistory` (any sequence of calls and reopenings of a store is a history of that table) |
| the worker | `Protocol` joins a control plane row and a worker store by a channel that loses, delays and repeats; `ProtocolSafety`, `ProtocolProgress`, `ProtocolLeases`, `ProtocolTimer`, `ProtocolEarly` are what its runs keep, `ProtocolOrders` that a cancel and a resume reach the worker |
| connectors | `MemoryDB`, `Milvus`, `Chroma`, `Redis` (with `Base64`), `Chunks`, `Faiss` |
| helpers | `Basics`, `Decimals`, `Orders`, `Listings`, `FiniteSets` |

Every mutex-held section is one atomic step, and so is every connector call. A sink call
that fails, or an executor that dies, may leave any part of its page in the sink, at any
later time (the action `Landing`). A failed journal write is a crash of its process: the
store refuses everything after it, and the entry in flight is on disk or not. Theorems quantify over whole runs: all interleavings of
crashes, retries, cancels, resumes, lost and repeated messages.

## What the proofs found

* Two executors of one job. The checkpoint update (control/engine.go:283) and the `Get`
  that decides whether to stop (control/engine.go:306) are separate critical sections. A
  cancel before the first and a resume with a claim between them leave two executors
  running. `TransferOverlap.OverlapMiscounts` is such a run: a succeeded job whose record
  count is twice its scan, against docs/architecture.md:61.
  - Prefix safety (`TransferSafety.PrefixSafety`) holds in all runs, overlapping or not.
  - `TransferExact.RunExactIff` says when the counters survive any overlap: if and only if
    every checkpoint lands on the record count its executor had read. The code does not
    compare the two.
  - `TransferHosted.NoOverlap` proves that a job has one executor at a time in every run
    without a resume between a checkpoint and the look after it. The code can see to that
    by deciding on the state the checkpoint wrote (`TransferHosted.LookingAtOnce`), or keep
    the counters by comparing the record count; an operator cannot tell where an executor
    stands. `TransferHosted` states exact counters, bounded work, the state diagram and the
    finality of succeeded for those runs.
* Two jobs on one destination. `Claim` takes a destination to be in use while a row is
  active (control/store.go:301-305). A job canceled and resumed around a checkpoint has a
  queued row while its executor sends a page, so a second job on that destination can be
  claimed and send beside it: `Destinations.TwoSenders`, against docs/architecture.md:57.
  `Destinations.OneJobAtWork` proves that this is all: without such a resume no two jobs
  with the same destination have executors at work.
* The state diagram of docs/architecture.md:25-40. Even with one executor, a cancel and a
  resume around a checkpoint let it take a queued job straight to succeeded
  (`TransferOverlap.QueuedSucceeds`). `TransferStates.DiagramIff` gives the exact
  condition; `TransferHosted.DiagramHolds` has no exception.
* A lease dropped by its own holder. The report loop can read the worker's row before
  the executor's first update (worker/worker.go:354 and 381); the row is still queued, or
  waiting for a restart, and `ReportWorker` then clears the lease
  (control/worker_jobs.go:165) while the executor starts. The loop waits for its five
  second ticker while the executor has not returned (worker/worker.go:365-377), so the
  first update has to be that late. `ProtocolTimer.QueuedReportDropsLease` reaches this
  from every fresh job; `ProtocolEarly.WorkingHoldsLease` proves that while an executor is
  at work inside its timer, such an early report is the only way in which its lease can
  be gone.
* A null reserved field. `writeChroma` decodes a JSON null document or URI into an empty
  string, so it reads back as `""`, where docs/provider-catalog.md:65-70 calls null values
  unsupported. `Chroma.WriteReadRoundTrip` is an if-and-only-if.
* The prior FAISS generation. The publisher keeps the two most recently modified
  generations; after a crash that left a new or half-deleted directory behind, one of the
  two is not the generation CURRENT named before (`Faiss.PriorLost`), so a reader that had
  resolved CURRENT loses it, against adapters/faiss/README.md:57-58. `Faiss.PriorKept`
  gives the exact condition.

## Assumptions

JSON text of an entry has no raw newline and decodes to the entry, and the entry digest is
injective and never empty (`Journal.GoodCodec`). JSON text of a Redis position can be
decoded (`Redis.GoodText`). Sources are stable and keep the Source contract
(`Records.ContractPage`); `MemoryDB.ReadKeepsContract` shows a connector that does. Time is
monotone, lease ids are fresh, and one process uses a data directory at a time. `TransferHosted`
assumes no operator resume between a checkpoint and the look after it, and says what follows.

## Model

| member | source | states |
|---|---|---|
| `Records.Validate` | connector/connector.go:95-120 | no fault exactly when ids are distinct and nonempty, dimensions right, values finite and metadata valid; otherwise the first offending record and the reason that holds of it |
| `TransferSafety.PrefixSafety` | control/engine.go:202-313 | in every run, however executors overlap: the pages before the durable position are acknowledged and their rows in the sink, no initial id is lost, and a changed row belongs to a page whose predecessors were all acknowledged |
| `TransferSafety.SucceededDelivers` | control/engine.go:283-300 | whenever the durable row says succeeded, the sink is its initial content overridden by the whole scan, nothing else |
| `TransferSafety.StepSafe` | control/engine.go:193-363 | the safety invariant is kept by every step of executors, operators, sink, crash and recovery, and acknowledgements are never lost |
| `TransferHosted.NoOverlap` | control/engine.go:283-312 | in every hosted run without a resume between a checkpoint and the look after it, execution is handed out only when no executor of the job is left |
| `TransferHosted.LookingAtOnce` | control/engine.go:283-312 | taking the stop decision on the state the checkpoint wrote excludes such a resume |
| `TransferHosted.CheckpointExactness` | control/engine.go:202-313 | in those runs each durable row stands for one k: k pages acknowledged, records and batches count exactly them, exhausted iff k is the last, the sink differs from its start only on ids of the first k+1 pages, and an active row has an executor |
| `TransferExact.RunExactIff` | control/engine.go:202-313 | in every run, however executors overlap: the row is exact in every state so far if and only if every checkpoint so far was written onto the record count its executor had read |
| `TransferExact.CheckpointExactIff` | control/engine.go:283-300 | the step of that theorem: a checkpoint from an exact snapshot keeps the row exact if and only if the stored record count is still the snapshot's |
| `TransferOverlap.OverlapMiscounts` | control/engine.go:283-312 | a run of cancel, resume and claim between the checkpoint and the look at the state, which ends succeeded with twice the records of the scan |
| `TransferOverlap.WitnessExists` | control/engine.go:283-312 | a contract-abiding scan and a fresh job to which that run applies |
| `TransferOverlap.QueuedSucceeds` | control/engine.go:283-312 | a run with a single claim in which the executor takes a job that was canceled and resumed from queued to succeeded |
| `TransferOverlap.InactiveSends` | control/engine.go:283-312 | on the way, its row is queued while the executor is sending a page |
| `Destinations.OneJobAtWork` | control/store.go:295-325 | in every run of any number of hosted jobs without an early resume, no two jobs with the same destination have executors at work, and no two send at once |
| `Destinations.TwoSenders` | control/store.go:301-305 | a run with one early resume in which two jobs send to the same destination at once |
| `Destinations.TwoJobsExist` | control/store.go:301-305 | two fresh jobs to which that run applies |
| `TransferHosted.DiagramHolds` | docs/architecture.md:25-40 | in every hosted run without an early resume each change of state is an arrow of the documented diagram |
| `TransferStates.DiagramIff` | docs/architecture.md:25-40 | in every hosted run with one executor at a time a step follows the diagram if and only if it does not end the execution of a job that is neither running nor being canceled |
| `TransferHosted.SucceededIsFinal` | docs/architecture.md:25-40 | in every hosted run without an early resume the row of a succeeded job never changes again and nothing executes it |
| `TransferHosted.BoundedSends` | control/engine.go:316-347 | in any stretch of such a run, begun in a running process and without crash, shutdown or resume inside it, no page is sent more than MaxAttempts * (max(0, MaxRestarts) + 1) times |
| `TransferHosted.BoundedSteps` | control/engine.go:202-272 | in such a stretch executors take at most as many steps as the budget of pages, restarts and attempts left at its start, whatever came before |
| `TransferBound.InitialWork` | control/engine.go:202-347 | that budget of a new job as a number of its page count, attempts and restart limit |
| `TransferBound.OrderlyWork` | control/engine.go:193-347 | every executor step, claim or start strictly lowers the budget, and no other step raises it |
| `TransferWindow.RunShape` | control/engine.go:256-258 | in every run with one executor at a time attempts and restarts stay within their limits, through crashes and shutdowns |
| `Execute.Host.Execute` | control/engine.go:193-314 | the loop of execute, which writes its rows and takes its branches itself, with any environment steps between its critical sections, is a run of the engine machine from an entered executor to a returned one |
| `Execute.Host.Retry` | control/engine.go:316-347 | by the answers of its connector calls: at most MaxAttempts of them, at least one; all but the last are temporary failures; a permanent failure ends it at once as permanent; a temporary one is returned as temporary exactly after the last attempt; otherwise it was interrupted by a shutdown or a cancel |
| `Execute.Host.GiveUp` | control/engine.go:241-272 | an error of the read, the page checks or the write ends the execution as queued after a shutdown, canceled after a cancel, waiting for a restart after a temporary failure with restarts left, and failed otherwise; the row it writes is spelled out |
| `Execute.Host.Round` | control/engine.go:202-219 | the loop head ends the execution as canceled, queued, succeeded or failed on a cancel, a shutdown, an exhausted source or refused access, in this order, with the row spelled out |
| `Execute.Host.Finish` | control/engine.go:349-363 | from some reached state exactly the finished row is written, and the executor is gone |
| `Execute.Host.WriteCheckpoint` | control/engine.go:283-303 | from some reached state exactly the checkpoint row is written, and the executor has returned after a last page |
| `Execute.Host.Schedule` | control/engine.go:256-270 | from some reached state exactly the restart row is written, and the executor is gone |
| `Journal.CrashRefinement` | control/store.go:139-201 | a crash that leaves any prefix of the line being appended reopens to exactly the acknowledged chain, or that plus the one entry when its newline is on disk |
| `Journal.AppendRefinement` | control/store.go:171-201 | the same for every accepted journal whatever the layout of its lines |
| `Journal.ReplayText` | control/store.go:139-169 | printing a chain and replaying it, with any unfinished line after it, gives the same entries, table and length |
| `Journal.HashDeterminesHistory` | control/store.go:132-166 | two chains with the same final hash are the same sequence of entries |
| `Journal.SameHashSameHistory` | control/store.go:139-169 | two files accepted by replay with the same final hash hold the same entries and the same jobs |
| `Journal.AcceptedIsChain` | control/store.go:160-165 | whatever replay accepts is one hash chain, one entry per complete line, and the table is its fold |
| `Journal.AcceptedIff` | control/store.go:139-165 | replay accepts a file exactly when each complete line decodes and each entry has the next number, the hash of the one before it, its own digest and its own job |
| `Journal.LastRowCounts` | control/store.go:163-163 | the table of an accepted file holds the last row written for each job and no other job |
| `Journal.AppendedEntry` | control/store.go:182-190 | a complete line adds its entry to those read back and changes none of the earlier ones |
| `Journal.SequenceNumbers` | control/store.go:171-182 | sequence numbers of a chain are exactly the consecutive numbers after its start |
| `Journal.EventsResume` | control/store.go:327-359 | in every journal that replay accepts, a reader that continues after the last sequence number it has seen gets exactly the events it has not seen |
| `Journal.FilteredIff` | control/store.go:342-358 | the events read for a job are exactly those of its entries after the given number |
| `JobStore.Store.Load` | control/store.go:139-169 | the replay loop succeeds exactly on files with an intact chain, rebuilds their table, cuts off only an unfinished last line, and leaves a refused file alone |
| `JobStore.Store.Append` | control/store.go:171-201 | on success one row, one sequence number and exactly one journal entry more, whose event agrees with the row, with the file still replaying to memory; on failure the store is poisoned with that row and memory unchanged |
| `JobStore.Store.Update` | control/store.go:259-273 | writes what the closure decides, nothing when it refuses or the job is unknown |
| `JobStore.Store.Action` | control/engine.go:108-143 | the new rows of cancel and resume field by field, a resume of a worker job in the next generation without its lease; when exactly each conflicts; one audit entry; nothing on an error |
| `JobStore.Store.Create` | control/store.go:206-236 | a used key returns the job made with it when specification and both fingerprints agree and conflicts when one differs; otherwise exactly one new queued row, spelled out |
| `JobStore.Store.Claim` | control/store.go:295-325 | the oldest hosted job that is queued or past its restart time, on a destination no active job uses, becomes running, field by field; none only when there is none |
| `JobStore.Store.Recover` | control/store.go:275-293 | on success every running hosted row is queued and every canceling one canceled, nothing else of them changes, and every other row is kept; on failure each row is either so or as before, and the store is poisoned |
| `JobStore.RequeuedEligible` | docs/architecture.md:42-45 | after Recover a hosted job that was running can be claimed at any time, if and only if no active worker job uses its destination |
| `JobStore.Store.ClaimWorker` | control/worker_jobs.go:44-91 | no assignment while the worker holds a live lease; otherwise its oldest open job, leased for 60 seconds or failed by policy, with the row and the assignment spelled out, which tells of a cancel exactly when one is pending |
| `JobStore.PickWorker` | control/worker_jobs.go:51-66 | whether the worker holds a live lease, and otherwise its oldest open job, none exactly when there is none |
| `JobStore.Store.ReportWorker` | control/worker_jobs.go:92-171 | when exactly a report is taken, and the row it leaves field by field; a pending cancel outlives every report: an active one keeps it, any other makes the job canceled |
| `JobStore.Store.PrepareWorkerJob` | control/worker_jobs.go:175-207 | a later generation is queued again with its restarts restored, the same one returned as it is, a new job admitted; a conflict on another configuration or an older generation, a missing checkpoint on lost progress |
| `JobStore.Store.Events` | control/store.go:327-359 | the first events of the job after a sequence number, in journal order |
| `JobStore.ReadEvents` | control/store.go:342-358 | the scan stops at the limit or at the end of the complete lines and returns exactly that prefix |
| `JobStore.PickHosted` | control/store.go:306-313 | the oldest eligible job, none exactly when there is none |
| `JobStore.BusyResources` | control/store.go:301-305 | exactly the destinations of active jobs, worker jobs included |
| `JobStore.Reopen` | control/store.go:100-130 | after a crash at any moment a new process holds the acknowledged state, or that with the single row in flight |
| `StoreHistory.Serve` | control/store.go:100-366 | whatever every allowed move of the table keeps holds of every store from an empty journal on, through any calls, write failures, crashes and reopenings |
| `StoreHistory.ServeSound` | control/store.go:295-325 | so the invariants of `HistorySound` hold of every such store |
| `ControlTable.HistorySound` | control/store.go:295-325 | in every history of the table: no two hosted jobs with one destination are active, each worker has at most one live lease, a worker job holds a lease iff it is active, a waiting row has a due time, no key names two jobs |
| `ControlTable.Activations` | control/store.go:314-324 | only a claim makes a hosted row active, and only a grant gives a worker row a live lease |
| `ControlTable.CountersNeverDrop` | control/worker_jobs.go:131-143 | records, batches and generation of a job never go down over any stretch of a history |
| `ControlTable.NeverStuck` | control/worker_jobs.go:159-164 | after some time every waiting hosted job with an idle destination is eligible and every unfinished worker job can be claimed |
| `ControlTable.CancelSurvives` | control/worker_jobs.go:137-158 | in every history a cancel request stands until the job is canceled, whatever claims, reports, restarts and recoveries come, unless the worker policy drops the job |
| `ControlTable.GenerationCountsResumes` | control/engine.go:127-133 | over any stretch of a history the generation of a worker job grows by the number of its resumes and that of a hosted job not at all |
| `ControlTable.OverUntilResume` | control/worker_jobs.go:128-130 | a worker job that is over keeps its whole row until a resume, a succeeded one for good |
| `ControlTable.WaitsForRestart` | control/store.go:308-308 | a waiting job keeps its whole row until its restart time, unless an operator or a leftover executor writes it |
| `ProtocolProgress.EndToEnd` | control/worker_jobs.go:121-171 | over both stores, whatever is lost, repeated or crashes: a control plane row that says succeeded means every page acknowledged, the destination complete, and the totals of the scan shown |
| `ProtocolProgress.NeverOutruns` | control/worker_jobs.go:125-149 | control plane records, batches and checkpoint flag never exceed the worker's durable ones, the worker's generation never exceeds the control plane's, and shown counters never go down |
| `ProtocolProgress.RefusedOnlyByConfiguration` | control/worker_jobs.go:180-201 | an assignment is refused if and only if the worker has the job under different fingerprints; never for a missing checkpoint or an old generation |
| `ProtocolProgress.WorkerRowExact` | control/worker_jobs.go:211-226 | in every run of the protocol one k explains the worker's own durable row: pages acknowledged, counters, exhausted iff the last, succeeded only then, the sink changed only on ids of the first k+1 pages, an active row has an executor; and there is at most one |
| `ProtocolLeases.FencedReports` | control/worker_jobs.go:125-130 | every report the control plane accepts carries the lease of the job's latest grant and a sequence number above the last one |
| `ProtocolLeases.LeaseIffActive` | control/worker_jobs.go:151-168 | the control plane row is active exactly while it holds a lease |
| `ProtocolLeases.ExpiredStaysExpired` | control/worker_jobs.go:83-85 | a lease that has run out is never live again |
| `ProtocolLeases.GrantedKept` | control/worker_jobs.go:56-63 | while a lease has time left nothing takes the job away except a report under that lease |
| `ProtocolTimer.TimerWithinLease` | worker/worker.go:347-411 | with requests answered within 20 seconds of the grant or report and the timer armed within 5 seconds of the answer: while the 35 second timer permits execution the 60 second lease is live and outlasts it, over any number of renewals, if and only if no report under it gave the job back |
| `ProtocolEarly.WorkingHoldsLease` | worker/worker.go:353-411 | while an executor is at work inside its timer, its lease is live if and only if no report that gave the job back was taken before that executor's first update |
| `ProtocolTimer.QueuedReportDropsLease` | worker/worker.go:351-411 | from every fresh job, a run whose first report waits for the ticker, in which the worker executes inside its timer while the control plane has dropped the lease and may grant the job again |
| `ProtocolOrders.GrantsTellCancel` | control/worker_jobs.go:40-42 | a grant goes to an open job, lasts 60 seconds, carries the generation of the row, and tells of a cancel exactly when one is pending, which it keeps |
| `ProtocolOrders.CancelSurvives` | control/worker_jobs.go:137-158 | the same history law for cancel requests in every run of the protocol |
| `ProtocolOrders.CanceledNeverRuns` | worker/worker.go:339-360 | while the worker holds an assignment that tells of a cancel, no executor of the job is at work |
| `ProtocolOrders.CancelReachesExecutor` | worker/worker.go:394-408 | once a report of a running executor was taken under a pending cancel, its answer, whenever it arrives, makes the worker tell its executor to stop |
| `ProtocolOrders.GenerationCountsResumes` | control/engine.go:127-133 | the generation of the job counts its resumes |
| `ProtocolOrders.WorkerBehind` | control/worker_jobs.go:180-196 | after a resume the generation on the worker stays strictly below until an assignment granted after it is admitted |
| `ProtocolOrders.ResumeTakesEffect` | control/worker_jobs.go:180-196 | the first assignment granted after a resume that the worker admits puts its row back to queued with its restarts restored, whatever it was, and the worker launches an executor unless the assignment tells of a cancel |
| `ProtocolOrders.ReportTellsRow` | worker/worker.go:381-393 | a progress report repeats the row of the worker under the lease in hand with the next number, and its delay ends within a second after the restart time |
| `ProtocolOrders.SuccessReported` | control/worker_jobs.go:121-171 | the report of a succeeded worker row, once taken, makes the control plane row succeeded with the totals of the scan |
| `ProtocolOrders.RefusalTold` | worker/worker.go:323-338 | a refused assignment is reported as failed with its reason and leaves the worker as it was |
| `ProtocolOrders.TimerRuns` | worker/worker.go:347-411 | the execution timer runs 35 seconds from arming and, after each answer in time, from the sending of the report |
| `MemoryDB.DB.constructor` | examples/custom/memorydb/memorydb.go:26-32 | of the records with one id the last one counts, and no other id is there |
| `MemoryDB.DB.Records` | examples/custom/memorydb/memorydb.go:83-95 | every record of the table once, sorted by id |
| `MemoryDB.DB.Read` | examples/custom/memorydb/memorydb.go:36-65 | the records of the sorted table from the offset of the cursor on, as many as there are up to the limit, and the next cursor or the end; or an error for a bad limit, cursor or offset |
| `MemoryDB.DB.Upsert` | examples/custom/memorydb/memorydb.go:67-80 | canceled anywhere, exactly the first records are written; acknowledged iff all are |
| `MemoryDB.ReadKeepsContract` | connector/connector.go:35-42 | every successful read is the contract's page, within the limit, done exactly at the end, and its cursor is new and readable again |
| `MemoryDB.CursorRoundTrip` | examples/custom/memorydb/memorydb.go:60-63 | the text of a cursor decodes to its offset |
| `MemoryDB.PagesAreTable` | examples/custom/memorydb/memorydb.go:52-64 | for every page size the pages concatenate to the sorted table |
| `MemoryDB.MemoryRunIsRun` | connector/connector.go:35-42 | an engine run whose reads return what Read returns at the job's own cursor and batch size, with nothing assumed of the pages, is a run over a contract-abiding source |
| `MemoryDB.MemoryScanValid` | connector/connector.go:24-42 | the pages of a table are a valid scan for every page size |
| `MemoryDB.MemoryTransfer` | control/engine.go:202-313 | such a run that reaches succeeded leaves the destination equal to its old table overridden by the source table |
| `MemoryDB.CanceledUpsert` | connector/connector.go:47-53 | a canceled Upsert of this connector is a part of the page that lands and then the engine's failure |
| `MemoryDB.DatabaseTransfer` | examples/custom/memorydb/memorydb.go:36-95 | the same with both ends concrete: reads are Read's pages, writes are Upsert's outcomes, canceled anywhere |
| `Listings.ListingUnique` | examples/custom/memorydb/memorydb.go:93-93 | a table has exactly one sorted listing, so reads are stable |
| `Orders.LessIff` | examples/custom/memorydb/memorydb.go:93-93 | ids are ordered by their first difference, a prefix first |
| `Milvus.MidpointExact` | connector/additional_rest.go:237-237 | the wrapping unsigned midpoint is the true one, between low and high, over the whole int64 range |
| `Milvus.ReadMilvus` | connector/additional_rest.go:212-264 | whatever subset the server returns, the page is all keys of a range from the cursor, ascending and within the limit; the next cursor follows the range; at most 65 queries |
| `Milvus.PageFits` | connector/additional_rest.go:233-239 | the range alone, chosen by halving, makes every page of a cursor fit the limit |
| `Milvus.Narrow` | connector/additional_rest.go:221-239 | the loop stops at the first halved range that fits, with every matching key in hand, within 65 queries |
| `Milvus.ReadAll` | connector/additional_rest.go:212-264 | following Next from the empty cursor ends, with every stored key listed once, ascending, the extreme keys included, whatever the server returns at each read |
| `Milvus.FullScan` | connector/additional_rest.go:212-264 | every finished scan lists the collection |
| `Milvus.ScanFrom` | connector/additional_rest.go:212-264 | the same from any cursor: a restart loses and repeats nothing |
| `Milvus.ListsUnique` | connector/additional_rest.go:256-260 | a page does not depend on the server's choices |
| `Chroma.Write` | connector/additional_rest.go:350-431 | succeeds exactly when no other key is null or starts with chroma:, _chroma_document and _chroma_uri are text, no stored document or URI would stay behind and the server answers; then each row holds the text of _chroma_document as its document, of _chroma_uri as its URI, every other key as metadata, and every other id is untouched; a local refusal changes nothing; a lost answer leaves rows either replaced or as before |
| `Chroma.ClearStale` | connector/additional_rest.go:388-430 | nulls exactly the stored keys the record lacks, and refuses exactly when a stored document or URI is absent from the record |
| `Chroma.Prepare` | connector/additional_rest.go:355-382 | accepts exactly records without null or internal keys and with textual reserved fields |
| `Chroma.MergeReplaces` | connector/additional_rest.go:408-412 | the update sent to a merging server leaves exactly the record's metadata |
| `Chroma.WriteReadRoundTrip` | connector/additional_rest.go:327-348 | a written record reads back as itself if and only if no reserved field is a JSON null |
| `Chroma.Read` | connector/additional_rest.go:305-349 | the rows from the offset on, each with its metadata, its document under _chroma_document and its URI under _chroma_uri, done iff fewer than the limit; an error only on a bad cursor or a row with a reserved key |
| `Chroma.ReadAll` | connector/additional_rest.go:305-349 | following Next ends, with every row read once, or at a row that cannot be read |
| `Chroma.ScanReadsRest` | connector/additional_rest.go:323-326 | a finished scan from any cursor reads every row after it once, also when the count is a multiple of the limit |
| `Chroma.WrittenAreRead` | connector/additional_rest.go:305-431 | a full scan after a successful write contains every record written |
| `Redis.Read` | connector/additional_native.go:204-269 | the records of the next keys of the batch, each once, and a cursor that decodes to what is left; fails only on a bad limit or cursor, an unreadable key or an oversized cursor |
| `Redis.ReadAll` | connector/additional_native.go:204-269 | following Next ends, with exactly the keys of every SCAN batch emitted, or at a page that cannot be read |
| `Redis.ScanLosesNothing` | connector/additional_native.go:214-263 | from any cursor, a finished scan emits exactly the keys pending there and the keys of the SCAN batches still to come |
| `Redis.ReadAdvances` | connector/additional_native.go:258-263 | every read that is not the last uses up a SCAN call or part of a batch |
| `Redis.CursorAdvances` | connector/additional_native.go:258-263 | such a read never returns the cursor it was given |
| `Redis.ResumeCompletes` | connector/additional_native.go:208-213 | a fresh client that resumes from any cursor of a scan completes a scan of the same source |
| `Base64.EncodeRoundTrip` | connector/additional_rest.go:433-443 | unpadded base64url (RFC 4648, sections 3.2 and 5) decodes to the bytes encoded |
| `Base64.Alphabet` | connector/additional_rest.go:433-436 | the URL and filename safe alphabet of RFC 4648, section 5, by ASCII codes, and decoding of a character is its inverse |
| `Base64.SplitBits` | connector/additional_rest.go:433-436 | sextets are the bits of the bytes, highest first, zero bits added at the end |
| `Base64.EncodeGroups` | connector/additional_rest.go:433-436 | three bytes after three bytes become four characters after four, without padding |
| `Base64.CursorAccepted` | connector/additional_rest.go:437-443 | a cursor short enough to be handed out is accepted back |
| `Chunks.SendChunks` | connector/http.go:103-127 | acknowledged chunks are nonempty, within both limits, each the largest or half of one that does not fit, and a prefix of the input; all of it on success; the failing request or the oversized record otherwise |
| `Chunks.SendToWilling` | connector/http.go:103-127 | when sends succeed and size grows with records, the write succeeds if and only if every single record fits |
| `Faiss.Store.Publish` | adapters/faiss/server.py:52-81 | cut off at any step, CURRENT names a complete generation, unchanged until the rename and in agreement with the table after it; completed, the two newest generations remain |
| `Faiss.Store.Open` | adapters/faiss/server.py:33-50 | a start on any left-over state refuses another dimension and otherwise publishes a generation in agreement with the table |
| `Faiss.Store.Upsert` | adapters/faiss/server.py:89-110 | refused exactly on an unacceptable batch, changing nothing; acknowledged only with table and CURRENT both updated; a crash leaves the table old or new and CURRENT complete |
| `Faiss.Store.Import` | adapters/faiss/server.py:112-120 | refused exactly on a dimension or count mismatch, an unreadable sidecar line or unacceptable rows; otherwise one upsert of the paired rows |
| `Faiss.Store.Prune` | adapters/faiss/server.py:76-81 | deletes oldest first, the files that are there and then the directory, cut off anywhere, and never touches the generation CURRENT names |
| `Faiss.Check` | adapters/faiss/server.py:90-105 | rows exactly for batches with unused nonempty ids, right dimension, finite values, and object metadata without NaN or infinite numbers |
| `Faiss.ImportRebuilds` | adapters/faiss/server.py:112-120 | importing the published files of a table into an empty store rebuilds that table |
| `Faiss.Copy` | adapters/faiss/server.py:112-120 | for any store with an up to date CURRENT: the import into an empty store of its dimension is accepted, and acknowledged only with the same table |
| `Faiss.InsertedSound` | adapters/faiss/server.py:107-108 | acknowledged rows are always fit for a later import, which every store keeps |
| `Faiss.PriorKept` | adapters/faiss/server.py:76-78 | the generation CURRENT named before a publish survives it if and only if it was the most recently modified one |
| `Faiss.PriorLost` | adapters/faiss/server.py:76-78 | a crash after the new directory was made, and a restart, delete it |
| `TransferCounts.CountersTellHistory` | control/engine.go:251-262 | bookkeeping: runs, retries and restarts count the actions that raise them, in every run |
| `TransferCauses.RunPast` | control/engine.go:193-347 | in every run each executor stands where it does for a reason in the past: every attempt goes back to a look with access granted and to temporary failures of all earlier attempts, every write to an accepted page, every checkpoint to an acknowledgement, every give-up to used-up attempts or a permanent error, every finish to what was seen |
| `TransferCauses.RetriedOnlyTemporary` | control/engine.go:333-335 | an executor stands at a temporary give-up only if all MaxAttempts calls of the operation failed temporarily, and makes call a only after a-1 temporary failures |
| `TransferCauses.FailureTaken` | control/engine.go:333-335 | a permanent failure ends the operation, a temporary one exactly at the last attempt |
| `TransferCauses.PermanentEnds` | control/engine.go:333-335 | after a permanent failure the executor makes no connector call and schedules no restart while its process lives |
| `TransferCauses.RestartDelays` | docs/architecture.md:51-54 | 30 seconds, doubled per restart, 16 minutes at most |
| `TransferCauses.ClaimWaits` | control/engine.go:256-270 | in every run a job waits for a restart only because an operation used up its attempts on temporary failures with restarts left, and is claimed no sooner than the delay of that restart later |
| `TransferCauses.DecidedFailure` | control/engine.go:241-272 | in every hosted run without an early resume an execution ends as failed only for refused access, a permanent failure, a refused page, or used-up attempts with no restart left |
| `TransferCauses.DiagramLabels` | docs/architecture.md:25-45 | in those runs every action moves the state exactly along its own arrows: a restart of the process requeues a running job and cancels one being canceled with the rest of the row kept, claims start due jobs, operators cancel and resume, and executors end executions for the reason the arrow names or for refused access |

## Left out

- HTTP handlers, sign-in, connection secrets, enrollment, provider wire formats, the web UI and the CLI: plumbing around the modelled calls.
- Integer widths other than the Milvus keys: counters, sequence numbers and generations are unbounded.
- UpdatedAt, the event timestamp, actor and message: they decide nothing; error texts are `Jobs.Note` values.
- Clock readings: one reading per critical section, where the code reads twice within one.
- Random jitter and goroutine scheduling: any delay and any interleaving.
- JSON, SHA-256 and float formats: abstract values under the assumptions above; `json.Marshal` failures are not modelled.
- Map iteration order: any order, and where two faults apply either may be reported first.
- `connection`, `authorized` and `Worker.Connections`: a flag that may change between steps.
- `Engine.Submit` validation, `validAssignment` and manifest checks: range checks before the modelled calls.
- worker.Client.execute and Run: modelled as the steps of `Protocol`, not as loops; any early return is the step `Quit`.
- Cursor texts the connectors never write themselves (a plus sign, blanks, JSON with other spacing, line breaks inside base64) are refused by the model and may be accepted by the code.
- Malformed provider answers (wrong lengths, unexpected ids, error codes) of Milvus, Chroma and Redis: errors that end the call before anything is written.
- Milvus duplicate primary keys: the server is a set of keys, so that error cannot occur.
- Redis SCAN answers are a function of the cursor: a stable dataset; batches may have any size and repeat keys.
- FAISS index search, file formats and fsync ordering: a file is absent, torn or complete, the rename is atomic, the index is unlinked before the sidecar, and directories are ordered by modification without ties.
- `StoreHistory.Serve`: calls of the control plane's store; the worker's own store, with PrepareWorkerJob and RunJob, is in `Protocol`.
- Protocol: models one worker job; several jobs of one worker meet in `ControlTable`.
- `Base64.Decode`: drops left-over bits as the decoder does, but does not skip line breaks.
