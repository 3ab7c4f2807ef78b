# Azums job queue: a verified model

Azums is a durable job queue with interchangeable backends. Producers enqueue jobs, workers lease batches of due jobs,
open an attempt per job, run a handler, and then complete, retry or dead-letter the job; a reaper takes expired leases
back. This project models that machine and proves what holds in every reachable state and over every run:

* `Ordering`, `Model`, `Store`: sorting, the records, and the job table as a state machine without any index.
* `Locality`, `Invariants`, `Runs`: every operation acts on each job by one of nine guarded moves; the table invariant;
  runs under a clock that never goes back.
* `Leases`, `Fencing`, `Attempts`, `Heartbeat`, `Lifecycle`, `Lineage`, `Discipline`: what runs guarantee, and runs that
  keep the worker's rules.
* `Effects`: what each operation does to the records, on their fields.
* `Index`, `MemoryBackend`, `SqliteLease`, `Pagination`: the in-memory backend with its ordered index as a class whose
  methods refine the index-free table, the SQLite scan it must match, and cursor pagination.
* `Backoff`, `Batches`, `Fates`, `Worker`: retry arithmetic in 64 bits, and the worker loop: its termination measure, what
  becomes of each job, and its steps as runs of the kind the fencing and retry results assume.
* `RedisKeys`, `RedisStore`, `RedisPartition`, `RedisLease`, `RedisRuns`, `RedisEffects`, `RedisBackend`: the list
  protocol of the Redis backend and where each id is.
* `EventLog`, `Streams`: event logs with consumer groups, numbered by a counter (Redis) or by length (memory).
* `StormControl`: the Postgres lease with its in-flight and rate gates.

Conventions: the current time and freshly generated ids are arguments, ids are natural numbers, instants are integers in
nanoseconds, payloads and names are opaque strings. Each backend operation is atomic. Where a hash map is iterated, the
order is arbitrary. The handler of the worker loop is an arbitrary function of job and attempt number, which is any
behaviour since no number is issued twice; retry delays and the clock are arbitrary values.

Where the code and its intent part ways, the code is modelled and the exact condition is proved:

* the in-memory log numbers a new event by the length of the log, so events published after a prune can be lost
  (`LengthNumbersIffQuiet`, `PrunedLogLosesEvent`, `LostEvent`);
* cancelling a queued Redis job leaves its id in the queue list, and the next lease runs the job
  (`CancelKeepsUnlessQueued`, `CancelledJobRuns`, `PartitionAlways`);
* a Redis queue name with a colon sends reaped ids to the wrong list (`QueueRoundTrip`, `ColonStrandsJob`);
* a timeout ends its batch early; the later jobs stay running with open attempts, yet `run_until_empty` counts them as
  processed (`ProcessBatch`, `ReachesAllIff`, `LeftRunningIffAbandoned`, `RunUntilEmpty`);
* the 64th attempt's backoff factor lands on the sign bit (`ExponentialUnlessSixtyFour`, `SixtyFourthAttempt`,
  `NextDelaySeconds`);
* the backends take lifecycle edges that `legal_successors` does not list (`LifecycleRefinement`, `OperationalEdgesTaken`);
* a negative batch size leases nothing from memory and everything from SQLite (`IndexMatchesScan`);
* `max_in_flight` can be passed by one batch (`InFlightBound`, `BoundIsReached`).

## Model

| member | source | states |
|---|---|---|
| `Model.BeforeIsStrictTotal` | crates/azums-core/src/backend/memory.rs:52-61 | the order of queue entries is irreflexive, transitive and total |
| `Locality.ChosenIsDue` | crates/azums-core/src/backend/memory.rs:244-306 | whatever a lease takes was queued in that queue, due, and not past its deadline |
| `Effects.BeforeByFields` | crates/azums-core/src/backend/memory.rs:52-61 | of two entries the one whose job has the higher priority, else the earlier run time, else the earlier creation, else the smaller id comes first |
| `Effects.LeaseInOrder` | crates/azums-core/src/backend/memory.rs:244-306 | leasing any beginning of the ranking takes the rows in that order, passes none over, and changes no other row but to dead-letter the late ones |
| `Effects.CancelEffect` | crates/azums-core/src/backend/memory.rs:685-749 | what cancelling does to the job, to each attempt and to nothing else |
| `Effects.ReapEffect` | crates/azums-core/src/backend/memory.rs:310-355 | what reaping does to each job and each attempt, and to nothing else |
| `Locality.LocalMove` | crates/azums-core/src/backend/memory.rs:151-879 | every operation, however many rows it scans, changes each live job by a single local move, and only succeeded jobs leave the table |
| `Locality.MoveIsGuarded` | crates/azums-core/src/backend/memory.rs:233-749 | each move happens only to a record in the status and at the time its operation demands |
| `Locality.MoveCause` | crates/azums-core/src/backend/memory.rs:233-749 | a lease ends or starts only by the operation that names it, asked for by the worker entitled to it |
| `Locality.ArchiveStays` | crates/azums-core/src/backend/memory.rs:608-631 | an archived record stays archived and unchanged whatever is done next |
| `Locality.AttemptStep` | crates/azums-core/src/backend/memory.rs:310-661 | an attempt keeps its identity, is never touched once closed, and disappears only when its job is archived |
| `Locality.CountStep` | crates/azums-core/src/backend/memory.rs:357-405 | the attempt counter of a job goes up by one per attempt opened and never otherwise changes |
| `Invariants.InvKept` | crates/azums-core/src/backend/memory.rs:151-879 | every operation keeps: disjoint keyed tables, lease fields set exactly while running, distinct attempt numbers within the count, unique live idempotency keys, older retrievable parents |
| `Runs.NothingLostTerminalFinal` | crates/azums-core/src/backend/memory.rs:151-879 | over any stretch of a run a job stays retrievable from exactly one table with the same identity, and a terminal record is frozen |
| `Runs.ReturnedIdIsKnown` | crates/azums-core/src/backend/memory.rs:151-879 | an id returned by enqueue or replay is retrievable in every later state |
| `Leases.Tenure` | crates/azums-core/src/backend/memory.rs:667-683 | while nothing ends a lease the job runs for the same worker until the latest expiry granted |
| `Leases.LeaseExclusivity` | crates/azums-core/src/backend/memory.rs:233-355 | between two leases of a job the first ended by its holder's retry or by a reap no earlier than its latest expiry |
| `Leases.LeasesNeverOverlap` | crates/azums-core/src/backend/memory.rs:233-355 | unless the holder gave the job back, a lease has expired when the next begins |
| `Leases.LeasedAgain` | crates/azums-core/src/backend/memory.rs:233-355 | there are runs in which a job is leased, reaped and leased again by the same worker |
| `Fencing.ReapFencesAttempts` | crates/azums-core/src/backend/memory.rs:310-355 | after a reap, completing, retrying or dead-lettering under an old attempt changes nothing, ever, whoever asks |
| `Fencing.OneCurrentAttempt` | crates/azums/src/quickstart.rs:676-688 | if attempts are opened once per lease, each job has at most one open attempt in every state and it belongs to the current holder and lease |
| `Fencing.NewLeaseFencesOldAttempts` | crates/azums-core/src/backend/memory.rs:407-606 | once a job is leased again, even by the same worker, no attempt opened before can finish it |
| `Fencing.SecondAttemptOutlivesLease` | crates/azums-core/src/backend/memory.rs:357-405 | the discipline is needed: a second attempt of one lease can finish the job under the next lease, and every lease large enough takes the job if it is due and in time |
| `Fencing.OldAttemptCompletes` | crates/azums-core/src/backend/memory.rs:357-485 | a whole run in which an attempt opened before the current lease, by another worker, completes the job |
| `Fencing.SecondAttemptIsAccepted` | crates/azums-core/src/backend/memory.rs:357-405 | the backend itself does not refuse a second attempt under one lease |
| `Attempts.NumbersAreConsecutive` | crates/azums-core/src/backend/memory.rs:357-405 | the numbers on the attempt records opened for a job over a run are exactly 1 to its count, in order, whatever history is pruned |
| `Attempts.RetryBudget` | crates/azums/src/quickstart.rs:826-872 | with retries only below the limit, a job is rescheduled at most max_attempts - 1 times over any run, with any reaps in between |
| `Heartbeat.HeartbeatSafety` | crates/azums/src/quickstart.rs:708-719 | with a lease of two seconds or more and calls on schedule, no reap at any time requeues the job or closes its attempt |
| `Heartbeat.BeatExtends` | crates/azums-core/src/backend/memory.rs:667-683 | a heartbeat call takes effect if its sender holds the job, and nothing else extends a lease |
| `Heartbeat.LeaseFollowsBeats` | crates/azums-core/src/backend/memory.rs:667-683 | while the lease lasts it runs out exactly the lease time after the last heartbeat call |
| `Heartbeat.OneSecondLeaseIsReaped` | crates/azums/src/quickstart.rs:708-719 | with a one-second lease a reap one interval after a beat requeues the job |
| `Lifecycle.LifecycleRefinement` | crates/azums-core/src/model.rs:709-757 | every step of every run moves the derived state along a legal edge or one of the operational edges, each with its cause |
| `Lifecycle.EdgesByName` | crates/azums-core/src/model.rs:709-718 | the edges, legal and operational, by name, and no others |
| `Lifecycle.FromPersisted` | crates/azums-core/src/model.rs:737-757 | which status, time and history each phase stands for, both ways |
| `Lifecycle.OperationalEdgesTaken` | crates/azums-core/src/model.rs:737-757 | cancelling a queued job, a deadline found by a lease, a reap and a retry that is already due do take those edges |
| `Lifecycle.ScheduledNeverReentered` | crates/azums-core/src/model.rs:737-757 | a job that has left Scheduled never comes back to it |
| `Lifecycle.ClockEdge` | crates/azums-core/src/model.rs:737-757 | time passing alone only turns Scheduled and RetryWait into Queued |
| `Lineage.RepeatedEnqueueReturnsSameJob` | crates/azums-core/src/backend/memory.rs:157-165 | enqueuing again under a key returns the same job and changes nothing, until that job is archived |
| `Lineage.LineageIsAcyclic` | crates/azums-core/src/backend/memory.rs:825-879 | no path along replay links meets a job twice |
| `Lineage.LineageForest` | crates/azums-core/src/backend/memory.rs:825-879 | in every reachable state links lead from any job through retrievable jobs to an enqueued one |
| `Lineage.RecurrenceDoesNotDrift` | crates/azums-core/src/backend/memory.rs:417-482 | the k-th occurrence of a recurring job that is never retried has run time and deadline exactly k intervals after the first |
| `Index.EnterQueue` | crates/azums-core/src/backend/memory.rs:191-196 | inserting the entry of a job that becomes queued keeps the index ordered and equal to the queued jobs |
| `Index.LeaveQueue` | crates/azums-core/src/backend/memory.rs:244-306 | removing the entry of a job that stops being queued keeps that agreement |
| `Index.OffQueue` | crates/azums-core/src/backend/memory.rs:556-606 | changes to jobs that are not queued leave the agreement intact |
| `MemoryBackend.IndexScanIsTableScan` | crates/azums-core/src/backend/memory.rs:272-281 | filtering the ordered index gives the same sequence as scanning and sorting the whole table |
| `MemoryBackend.MemoryBackend.Enqueue` | crates/azums-core/src/backend/memory.rs:151-201 | adds one queued job with every field as given, or returns the live holder of the key and changes nothing; index and invariant kept |
| `MemoryBackend.MemoryBackend.SweepDeadlines` | crates/azums-core/src/backend/memory.rs:244-270 | dead-letters exactly the due jobs of the queue past their deadline and takes them off the index |
| `MemoryBackend.MemoryBackend.Lease` | crates/azums-core/src/backend/memory.rs:233-308 | on the fields: rows of higher priority, earlier run time, earlier creation, smaller id come first, none that is eligible is passed over unless the batch is full, each returned row is leased to the worker until now plus the lease time, the late ones of the queue are dead-lettered, and nothing else changes; index and invariant kept |
| `MemoryBackend.MemoryBackend.ReapExpiredLocks` | crates/azums-core/src/backend/memory.rs:310-355 | requeues exactly the running jobs whose lease has run out by now, fails exactly their open attempts as LEASE_EXPIRED, changes nothing else and reports their number |
| `MemoryBackend.MemoryBackend.StartAttemptsBatch` | crates/azums-core/src/backend/memory.rs:357-405 | if the worker holds every id, each gets a running attempt of the worker begun now, with the number reported; otherwise the first id not held decides the error, and the attempts opened before it stay |
| `MemoryBackend.MemoryBackend.MarkSucceeded` | crates/azums-core/src/backend/memory.rs:407-485 | for the holder and a running attempt of the job, and only then: both are completed field by field and a recurring job is queued again one interval later; otherwise an error and no change |
| `MemoryBackend.MemoryBackend.RescheduleForRetry` | crates/azums-core/src/backend/memory.rs:501-554 | for the holder and a running attempt of the job, and only then: the job is queued for the given time without lease fields and the attempt failed with the given code and message; otherwise an error and no change |
| `MemoryBackend.MemoryBackend.MarkDlq` | crates/azums-core/src/backend/memory.rs:556-606 | the same, with the job dead-lettered for the given reason |
| `MemoryBackend.MemoryBackend.ArchiveSucceeded` | crates/azums-core/src/backend/memory.rs:608-631 | moves up to limit records that succeeded and were last changed before the cutoff, unchanged, and leaves one only when the limit is met |
| `MemoryBackend.MemoryBackend.DeleteHistory` | crates/azums-core/src/backend/memory.rs:633-661 | deletes up to limit attempts begun before the cutoff of jobs archived and last changed before it, and leaves one only when the limit is met |
| `MemoryBackend.MemoryBackend.ExtendLease` | crates/azums-core/src/backend/memory.rs:667-683 | moves the expiry for the holder of a running job and reports whether it did |
| `MemoryBackend.MemoryBackend.CancelJob` | crates/azums-core/src/backend/memory.rs:685-749 | cancels a queued job, or a running one for its holder together with its running attempt of the highest number; otherwise the right error and no change |
| `MemoryBackend.MemoryBackend.GetJob` | crates/azums-core/src/backend/memory.rs:751-759 | finds a record in the live table, else in the archive |
| `MemoryBackend.MemoryBackend.ReplayJob` | crates/azums-core/src/backend/memory.rs:825-879 | queues a copy of a live or archived job, linked to it, with the queue and time given or its own queue and now |
| `MemoryBackend.MemoryBackend.Clear` | crates/azums-core/src/backend/memory.rs:97-106 | empties every table and leaves a valid backend |
| `MemoryBackend.FinishCheck` | crates/azums-core/src/backend/memory.rs:440-459 | which check fails first: the job is unknown, not held, the attempt unknown, or not a running one of the job |
| `MemoryBackend.CancelCheck` | crates/azums-core/src/backend/memory.rs:685-749 | which check fails: the job is unknown, running and no worker named, running and held by another, or terminal |
| `SqliteLease.SqliteJobs.Lease` | crates/azums/src/backend/sqlite.rs:447-534 | on the fields the same order, leases and dead-letters as the indexed lease; a negative batch size leaves no eligible row |
| `SqliteLease.IndexMatchesScan` | crates/azums/src/backend/sqlite.rs:458-506 | the indexed lease and the scan choose the same jobs if and only if the batch size is not negative or nothing is due |
| `Pagination.ListJobs` | crates/azums-core/src/backend/memory.rs:761-823 | the rows answer the filters and lie beyond a whole cursor, run from the latest created to the earliest and by falling id, say what the records say, and leave out a wanted job only if the page is full and the job older |
| `Pagination.CursorResumes` | crates/azums-core/src/backend/memory.rs:806-819 | what lies past the cursor of a row is exactly what follows that row |
| `Pagination.ListEverything` | crates/azums-core/src/backend/memory.rs:761-823 | following cursors terminates and the pages concatenate to all wanted jobs, newest first, each once, for any limit |
| `Backoff.NextDelaySeconds` | crates/azums/src/jobs/retry.rs:197-220 | for a positive base, a cap of nought or more and any draw: away from attempt 64 the delay is in 0..max, within the jitter fraction of min(base * 2^(n-1), max), and exactly that without jitter; at attempt 64 there is none with jitter and nought without; a negative cap gives none |
| `Backoff.ExponentialUnlessSixtyFour` | crates/azums/src/jobs/retry.rs:197-212 | the delay equals min(base * 2^(n-1), max) if and only if n is not 64, where it is the least 64-bit integer |
| `Backoff.NeverShrinks` | crates/azums/src/jobs/retry.rs:197-212 | away from attempt 64 the delay never shrinks |
| `Backoff.JitterWithinCap` | crates/azums/src/jobs/retry.rs:214-219 | away from attempt 64 a draw exists and every draw gives a delay in 0..max within the jitter fraction |
| `Backoff.SixtyFourthAttempt` | crates/azums/src/jobs/retry.rs:214-219 | at attempt 64 the jitter range is empty unless jitter is off, and then the retry is immediate |
| `Backoff.DlqReason` | crates/azums/src/jobs/retry.rs:121-130 | only retryable classes end as MAX_ATTEMPTS_EXCEEDED |
| `Backoff.CodesThatEndAJob` | crates/azums/src/jobs/retry.rs:70-130 | the seven error codes that may not be retried and the dead-letter reason of each; any other code may, and ends as MAX_ATTEMPTS_EXCEEDED |
| `Batches.BatchStarts` | crates/azums/src/quickstart.rs:676-688 | for a batch the worker holds, opening attempts succeeds for every job, one new attempt each |
| `Worker.QuickstartFlow.HandleFailure` | crates/azums/src/quickstart.rs:826-872 | by the code alone: the job is requeued, due the given delay from now, if and only if the attempt number is below the limit and the code is not one of the seven that end a job; else dead-lettered, with the reason of its code; nothing else changes |
| `Worker.QuickstartFlow.Settle` | crates/azums/src/quickstart.rs:727-822 | settles exactly this job as its outcome asks: done is succeeded, a panic is dead-lettered as PANIC, a failure or timeout is requeued for the given delay exactly if its class and number allow and else dead-lettered with the reason of its class; the attempt is closed accordingly |
| `Worker.QuickstartFlow.OpenAttempts` | crates/azums/src/quickstart.rs:676-688 | each job of the batch is mapped to its own new open attempt and number |
| `Worker.QuickstartFlow.ProcessBatch` | crates/azums/src/quickstart.rs:676-824 | settles the batch in order, each job by its outcome; a timeout ends the batch and nothing else does, so all jobs are reached exactly if none before the last times out; the later ones are left running, held, and with open attempts |
| `Batches.ReachesAllIff` | crates/azums/src/quickstart.rs:729-750 | a batch is processed to its end if and only if no job before the last times out |
| `Batches.StopIsUnique` | crates/azums/src/quickstart.rs:729-750 | how far a batch gets is determined by the outcomes |
| `Batches.WorkShrinks` | crates/azums/src/quickstart.rs:648-674 | every leased batch strictly lowers the sum over queued jobs of remaining attempts plus one |
| `Batches.NothingDue` | crates/azums/src/quickstart.rs:664-666 | an empty batch means that no job of the queue is due |
| `Worker.QuickstartFlow.RunUntilEmpty` | crates/azums/src/quickstart.rs:648-674 | for any handler, as a function of job and attempt number, and any delays: terminates, leaves nothing due, loses no job; every job is as its last attempt left it, or untouched, or caught by its deadline; the jobs newly left running are exactly those after a timeout in their batch, leased for the worker's lease time; batches hold 1 to 32 jobs; the number returned is that of attempts opened; the run that led here is continued, with one attempt per lease and retries only below the limit if it had them |
| `Fates.FatesRound` | crates/azums/src/quickstart.rs:676-824 | one leased and processed batch gives every job of the table its fate: settled by its last outcome, left behind by a timeout, expired, or untouched |
| `Fates.LeftRunningIffAbandoned` | crates/azums/src/quickstart.rs:729-750 | the jobs newly running are exactly those that come after a timeout in their batch, and a job that was running before is as it was |
| `Fates.NoTimeoutNoneAbandoned` | crates/azums/src/quickstart.rs:729-750 | if no job of the queue has a timeout then none is left running |
| `Worker.QuickstartFlow.HandlerOutcomes` | crates/azums/src/quickstart.rs:691-700 | the outcomes of a batch are the handler's on the numbers the attempts are about to get |
| `Worker.RecurrenceRefillsQueue` | crates/azums-core/src/backend/memory.rs:417-482 | completing a recurring job puts one due at once in the queue exactly when the next run time has come, so recurrence must be excluded |
| `Discipline.TraceStep` | crates/azums/src/quickstart.rs:676-872 | a run stays orderly under any step that opens an attempt only where none was opened since the lease and retries only below the limit |
| `Discipline.TraceLease` | crates/azums/src/quickstart.rs:648-674 | a lease leaves every job it takes without an attempt since |
| `Discipline.TracedIsSafe` | crates/azums/src/quickstart.rs:676-872 | in an orderly run each job has at most one open attempt, its holder's, and has been rescheduled fewer times than its limit |
| `Batches.TraceStarts` | crates/azums/src/quickstart.rs:676-688 | the attempts opened for a batch continue an orderly run as an orderly run |
| `Batches.TraceSettle` | crates/azums/src/quickstart.rs:727-872 | so does the settling of a job |
| `RedisKeys.SplitAtColon` | crates/azums-redis/src/backend.rs:266-270 | splitting at colons peels off a colon-free first part |
| `RedisKeys.QueueRoundTrip` | crates/azums-redis/src/backend.rs:266-271 | the reaper recovers the queue from a processing key if and only if the queue name has no colon |
| `RedisKeys.KeyInjective` | crates/azums-redis/src/backend.rs:187-187 | colon-free queues and any workers have distinct processing lists |
| `RedisPartition.AddKeeps` | crates/azums-redis/src/backend.rs:84-138 | appending a new queued job keeps every id in exactly its own list |
| `RedisPartition.LeaseKeeps` | crates/azums-redis/src/backend.rs:194-240 | moving the head of a queue to its worker's list and marking it running keeps that |
| `RedisPartition.ExpireKeeps` | crates/azums-redis/src/backend.rs:218-228 | dead-lettering a late head keeps that |
| `RedisPartition.PutBackChangesNothing` | crates/azums-redis/src/backend.rs:212-217 | a head that is not due ends where it was: every list and record as before |
| `RedisPartition.ReleaseKeeps` | crates/azums-redis/src/backend.rs:383-387 | a settled job leaves its list and is in no other |
| `RedisPartition.RequeueKeeps` | crates/azums-redis/src/backend.rs:448-455 | a job given back is once in its queue and in no processing list |
| `RedisLease.LeaseTakesPrefix` | crates/azums-redis/src/backend.rs:191-243 | in any state, whatever the lists hold and the queue is called, the loop takes exactly an initial segment, ending at the batch size or at the first job not due, which stays at the head; the rest keeps its order; the result is the known jobs of the segment that are not late, in order, every known one is leased or dead-lettered, and the worker's list gains all ids but the late ones |
| `RedisLease.LoopKeepsPartition` | crates/azums-redis/src/backend.rs:191-243 | from a state in which every id is in its place the loop leads to such a state, and the ids taken are appended to the worker's list in order |
| `RedisLease.HandledTwice` | crates/azums-redis/src/backend.rs:212-239 | meeting the same id again in one loop makes no difference to its record |
| `RedisLease.CutIsDue` | crates/azums-redis/src/backend.rs:194-217 | no job in that segment is not yet due |
| `RedisRuns.ReapTakesBackLapsed` | crates/azums-redis/src/backend.rs:259-303 | reaping requeues exactly the lapsed running jobs of the lists visited, in any order, and keeps every id in its place |
| `RedisRuns.ColonStrandsJob` | crates/azums-redis/src/backend.rs:266-290 | a reaped id lands in the list where its job waits if and only if the queue name has no colon |
| `RedisRuns.EnqueueKeeps` | crates/azums-redis/src/backend.rs:84-138 | enqueuing, with or without a claimed key, keeps every id in its place |
| `RedisRuns.SucceedKeeps` | crates/azums-redis/src/backend.rs:336-401 | completing a job, with its next occurrence if it recurs, keeps every id in its place |
| `RedisRuns.SettleKeeps` | crates/azums-redis/src/backend.rs:416-501 | retry, dead-letter, extend and start keep every id in its place |
| `RedisRuns.ReplayKeeps` | crates/azums-redis/src/backend.rs:656-709 | replaying keeps every id in its place |
| `RedisRuns.CancelKeepsUnlessQueued` | crates/azums-redis/src/backend.rs:551-594 | cancelling keeps every id exactly in its place if and only if the job is not queued; if it is, its id is left behind in its queue and all else is in its place |
| `RedisRuns.CancelledJobRuns` | crates/azums-redis/src/backend.rs:551-594 | a queued job that is cancelled runs at the next lease all the same |
| `RedisRuns.PartitionAlways` | crates/azums-redis/src/backend.rs:84-709 | over every run with colon-free queues: a queued id is once in its queue and nowhere else, a running id once in its holder's list; a terminal id is nowhere if no queued job is cancelled, and otherwise the id of a cancelled job is at most once, in its own queue |
| `RedisRuns.TerminalIsFinalAlways` | crates/azums-redis/src/backend.rs:84-709 | over every run with colon-free queues every job stays retrievable and a succeeded or dead record never changes, nor does a cancelled one if no queued job is cancelled |
| `RedisRuns.RepeatedEnqueueReturnsFirst` | crates/azums-redis/src/backend.rs:90-98 | over every run with colon-free queues, enqueuing again under a key returns the first job's id and changes nothing, for good |
| `RedisBackend.NumbersFollowCounts` | crates/azums-redis/src/backend.rs:305-334 | attempts are numbered on from the job's count without gaps or repeats, however often a batch names the job |
| `RedisBackend.ReapedCountIsDrop` | crates/azums-redis/src/backend.rs:259-303 | the number a reap reports is the number of jobs that stop running |
| `RedisBackend.ReapAppends` | crates/azums-redis/src/backend.rs:273-299 | the ids taken back go to the end of the queue in the order of the processing list |
| `RedisBackend.RedisBackend.Enqueue` | crates/azums-redis/src/backend.rs:84-138 | the command sequence adds the job with every field as given at the end of its queue and claims its key, or returns the id that claimed the key and changes nothing |
| `RedisBackend.RedisBackend.LeaseJobsBatch` | crates/azums-redis/src/backend.rs:178-244 | the pop loop, of 1 to 100 turns, takes a beginning of the queue up to the first job not due, and returns those that are known and in time, each leased until now plus the lease time |
| `RedisBackend.RedisBackend.TakeHead` | crates/azums-redis/src/backend.rs:194-240 | one turn moves, puts back, dead-letters or leases the head as specified |
| `RedisBackend.RedisBackend.ReapExpiredLocks` | crates/azums-redis/src/backend.rs:259-303 | the nested loops over lists and ids have the specified state and count |
| `RedisBackend.RedisBackend.ReapList` | crates/azums-redis/src/backend.rs:273-299 | the loop over one list requeues each lapsed id at the end of the queue, in order, and counts it |
| `RedisBackend.RedisBackend.StartAttemptsBatch` | crates/azums-redis/src/backend.rs:305-334 | succeeds exactly if the worker holds every id, names the error of the first it does not, keeps what was counted before, and changes no job |
| `RedisBackend.RedisBackend.MarkSucceeded` | crates/azums-redis/src/backend.rs:336-401 | for the holder the record is completed, off its processing list, and a recurring job queued again at least a second later; fails without change exactly for a job held by another; an absent job is a silent success |
| `RedisBackend.RedisBackend.RescheduleForRetry` | crates/azums-redis/src/backend.rs:416-460 | for the holder the record is queued for the given time without lease fields, its id last in its queue and once less in its processing list; every other record and list is as before; fails without change exactly for a job held by another |
| `RedisBackend.RedisBackend.MarkDlq` | crates/azums-redis/src/backend.rs:462-501 | the same with the job dead-lettered for the given reason, leaving the lease fields of the record in place |
| `RedisBackend.RedisBackend.ExtendLease` | crates/azums-redis/src/backend.rs:524-549 | for the holder of a running job, and only then, the expiry becomes now plus the time asked for; nothing else changes |
| `RedisBackend.RedisBackend.CancelJob` | crates/azums-redis/src/backend.rs:551-594 | cancels a queued job, leaving its id in the queue list, or a running one for its holder, off its processing list; otherwise the right error and no change |
| `RedisBackend.RedisBackend.ReplayJob` | crates/azums-redis/src/backend.rs:656-709 | appends a copy of a known job, linked to it, to the queue given or its own |
| `EventLog.OffsetsNeverFall` | crates/azums-redis/src/backend.rs:766-784 | over any run a known group's offset never falls, in either backend |
| `EventLog.UnreadIsRetained` | crates/azums-redis/src/backend.rs:813-839 | over any run no event above a known group's offset is pruned |
| `EventLog.ReadIsSlice` | crates/azums-redis/src/backend.rs:786-811 | a read returns a contiguous slice of everything published, from the later of offset and pruning point |
| `EventLog.NoGapIffRetained` | crates/azums-core/src/backend/stream.rs:33-48 | a group's next read goes on where it left off if and only if nothing past its offset has been pruned |
| `EventLog.SuffixKept` | crates/azums-redis/src/backend.rs:714-839 | the log is always the end of the history, consecutively numbered, as long as new numbers count all publications |
| `EventLog.RedisLogIsSuffix` | crates/azums-redis/src/backend.rs:714-839 | after any operations from the empty log, a Redis log is the end of all that was published, numbered from one |
| `EventLog.FirstReadThenAck` | crates/azums-core/src/backend/stream.rs:33-48 | a group nobody knew reads, and acknowledges the last event it read after anything has happened in between; its next read goes on with the following event if and only if that has not been pruned meanwhile |
| `EventLog.ReaderDelivery` | crates/azums-redis/src/backend.rs:714-839 | in every run from the empty Redis log: what a group reads first and all it acknowledges later is everything from its first event on, once and in order, provided what followed its first read was still there at its first acknowledgement |
| `EventLog.DeliveryWithoutGaps` | crates/azums-core/src/backend/stream.rs:33-48 | a group that acknowledges only what it read is given every event after its first offset once and in order, whatever others publish, prune and acknowledge |
| `EventLog.NextReadGoesOn` | crates/azums-core/src/backend/stream.rs:33-48 | its next read starts right after its offset and stops only at the limit or the end of all that was published |
| `EventLog.RedisDelivery` | crates/azums-redis/src/backend.rs:714-839 | in every run from the empty log, a group whose first acknowledgement finds the later events still there is given every event after its start once and in order ever after |
| `EventLog.MemoryDelivery` | crates/azums-core/src/backend/memory.rs:1099-1201 | the same of the in-memory log, in every run from the empty log in which no publish follows a prune that removed events |
| `EventLog.LengthNumbersIffQuiet` | crates/azums-core/src/backend/memory.rs:1099-1118 | numbering by length agrees with counting if and only if no publish follows a prune that removed events |
| `EventLog.PrunedLogLosesEvent` | crates/azums-core/src/backend/memory.rs:1099-1118 | a group that has read everything can see the next event if and only if nothing was pruned; with a counter it always can |
| `EventLog.LostEvent` | crates/azums-core/src/backend/memory.rs:1099-1201 | publish, acknowledge, prune, publish: the second event is numbered one again and the group never reads it |
| `Streams.FirstAbove` | crates/azums-redis/src/backend.rs:786-811 | the loop with its early exit returns the first limit events above the offset |
| `Streams.Retain` | crates/azums-redis/src/backend.rs:820-830 | the filter keeps exactly the events above the cutoff, in order |
| `Streams.LowestOffset` | crates/azums-redis/src/backend.rs:815-818 | the cutoff is the lesser of the request and the lowest known offset |
| `Streams.RedisStreams.Publish` | crates/azums-redis/src/backend.rs:714-737 | appends the event as given under the next counter value and touches no other stream |
| `Streams.RedisStreams.Ack` | crates/azums-redis/src/backend.rs:766-784 | raises the offset, or sets it for a new group, of this stream only |
| `Streams.RedisStreams.PruneEvents` | crates/azums-redis/src/backend.rs:813-839 | keeps exactly the events above the request or above the offset of some group, and reports how many went |
| `Streams.RedisStreams.ReadNext` | crates/azums-core/src/backend/stream.rs:33-48 | reads from the group's offset, or from zero for an unknown group |
| `Streams.MemoryStreams.Publish` | crates/azums-core/src/backend/memory.rs:1099-1118 | appends the event as given under the length plus one and touches no other stream |
| `Streams.MemoryStreams.Ack` | crates/azums-core/src/backend/memory.rs:1138-1159 | raises the offset of one group of one stream, starting from zero |
| `Streams.MemoryStreams.PruneEvents` | crates/azums-core/src/backend/memory.rs:1183-1201 | keeps exactly the events above the request or above the offset of some group, and reports how many went |
| `Streams.MemoryStreams.ReadNext` | crates/azums-core/src/backend/stream.rs:33-48 | reads from the group's offset, or from zero for an unknown group |
| `StormControl.CallInFlight` | crates/azums/src/jobs/repo.rs:945-1027 | a call raises the running count of its own queue by exactly what it leases, at most the clamped batch, and no other queue's |
| `StormControl.GateHolds` | crates/azums/src/jobs/repo.rs:816-855 | nothing is leased while as many jobs run as the policy allows |
| `StormControl.InFlightBound` | crates/azums/src/jobs/repo.rs:749-1027 | over serialised calls with a fixed policy, from a table with every row under its own id, running jobs never exceed max(initial, max_in_flight - 1 + largest clamped batch) |
| `StormControl.OutcomeIsKeyed` | crates/azums/src/jobs/repo.rs:749-1027 | a call leaves every row under its own id |
| `StormControl.BoundIsReached` | crates/azums/src/jobs/repo.rs:749-1027 | one call on a queue one short of its cap reaches that bound |
| `StormControl.OnlyLeasesStart` | crates/azums-core/src/backend/memory.rs:151-879 | no job operation but a lease raises a queue's running count |
| `StormControl.ThrottledCall` | crates/azums/src/jobs/repo.rs:857-943 | compared with the swept table, a refused call changes no status, defers one due job and records one decision about it |
| `StormControl.ThrottlingDrains` | crates/azums/src/jobs/repo.rs:927-938 | a refused call removes one job from the due ones exactly when the delay is positive |
| `StormControl.BatchIsTopOfOneDataset` | crates/azums/src/jobs/repo.rs:945-1027 | a batch is of one dataset and leaves out no due job of it that comes before one taken; with FIFO it is the sorted prefix |
| `StormControl.FifoTopIsSorted` | crates/azums/src/jobs/repo.rs:946-984 | with FIFO ordering the choice is unique: the first n of the sorted candidates |
| `StormControl.SortedIsTop` | crates/azums/src/jobs/repo.rs:946-1023 | the full sort is one of the choices either ordering allows |
| `StormControl.JobsRepo.LeaseJobsBatch` | crates/azums/src/jobs/repo.rs:749-1027 | on the fields: with nothing eligible only the sweep; with a cap met the first row of the oldest dataset is deferred by the policy's delay and the decision recorded; else the first rows of that dataset, up to the batch size within 1 to 4096, are leased to the worker until now plus the lease time; every other row is as before or dead-lettered if late |
| `StormControl.GateIsCapped` | crates/azums/src/jobs/repo.rs:816-855 | a call is refused exactly if the running rows have met the in-flight cap or the attempts of the last sixty seconds the rate cap, in that order |
| `StormControl.TopByFields` | crates/azums/src/jobs/repo.rs:857-1027 | the rows chosen are, on their fields, the first of the dataset of the oldest eligible row |
| `StormControl.JobsRepo.OldestDue` | crates/azums/src/jobs/repo.rs:796-814 | finds a due row that none precedes by run and creation time, exactly if any is due |
| `StormControl.JobsRepo.CheckGate` | crates/azums/src/jobs/repo.rs:779-855 | the in-flight gate first, then the rate gate, with the numbers recorded in the decision |
| `StormControl.JobsRepo.FirstOf` | crates/azums/src/jobs/repo.rs:857-895 | the first n due rows of the served dataset, never empty |

## Left out

- Notifications, broadcast channels, pub/sub and LISTEN/NOTIFY: wake-up hints that decide no state.
- Connections, migrations, vacuum, configuration, web adapters, dashboard, CLI: plumbing and user interface.
- Crashes between single Redis commands and Postgres isolation anomalies: every operation is one atomic step.
- `mark_succeeded_batch`: a loop over `mark_succeeded`.
- Explanations, summaries, metrics averages, trace ids, JSON encoding: no hard property.
- Integer width of attempt counters, sequence numbers and instants: only the backoff arithmetic is modelled in 64 bits; overflow of dates and counters is not.
- `Backoff.Classify`: takes codes already trimmed and upper-cased; `parse_handler_error` is an arbitrary handler outcome.
- `Fastest` ordering in SQLite, where ties may come in any order: it is modelled for the Postgres lease only. The in-memory and Redis backends ignore the ordering they are given.
- Iteration order of hash maps: archiving and history pruning take any rows of the right number; processing lists are visited in any order.
- Worker.QuickstartFlow.RunUntilEmpty: one worker, no recurring jobs, no outside enqueue or reap; heartbeats are covered by `HeartbeatSafety`; the panic at attempt 64 is not carried into the loop, where the delay is an arbitrary number.
- RedisRuns.PartitionAlways: queue names without a colon; with one, the first reap already misplaces the id (`ColonStrandsJob`), while what a lease takes is proved for every name.
- Redis `list_jobs`, `archive_succeeded_older_than` and `delete_history_for_succeeded_older_than`: the first ignores its cursor, the others do nothing.
- Postgres rows are keyed by id alone, although the table's key is dataset and id; ids are random and do not repeat.
- `updated_at` of consumer groups: not part of delivery.
- The Postgres and SQLite operations other than leasing: the same state changes as the in-memory ones.
