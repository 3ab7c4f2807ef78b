/** The records a backend stores and the order in which a queue hands them out. */
module Model {
  import opened Ordering

  type Uuid = nat

  /** An instant, in nanoseconds. */
  type Time = int

  const SECOND: int := 1_000_000_000
  const MILLISECOND: int := 1_000_000

  datatype Option<+T> = None | Some(value: T)

  function Clamp(n: int, low: int, high: int): (r: int)
    ensures low <= high ==> low <= r <= high
    ensures low <= n <= high ==> r == n
    ensures n < low ==> r == low
    ensures low <= high < n ==> r == high
  {
    if n < low then low else if n > high then high else n
  }

  /** Why a backend refuses a request. */
  datatype Error =
    | JobNotFound
    | NotLeaseHolder
    | AttemptNotFound
    | AttemptNotRunning
    | WorkerRequired
    | TerminalJob
    | InvalidStatus

  datatype Result<+T> = Ok(value: T) | Err(error: Error)

  /** The persisted status strings; `Failed` is legacy and never written by a backend modelled here. */
  datatype Status = Queued | Running | Succeeded | Failed | Dlq | Canceled

  predicate Terminal(status: Status) {
    status.Succeeded? || status.Dlq? || status.Canceled?
  }

  datatype Job = Job(
    datasetId: string,
    replayOf: Option<Uuid>,
    key: Option<string>,
    id: Uuid,
    queue: string,
    jobType: string,
    payload: string,
    runAt: Time,
    deadlineAt: Option<Time>,
    timeoutSeconds: Option<int>,
    recurringSeconds: Option<int>,
    status: Status,
    priority: int,
    maxAttempts: int,
    lockedAt: Option<Time>,
    lockedBy: Option<string>,
    lockExpiresAt: Option<Time>,
    dlqReason: Option<string>,
    dlqAt: Option<Time>,
    createdAt: Time,
    updatedAt: Time)

  /** What the caller of `enqueue` supplies. */
  datatype NewJob = NewJob(
    queue: string,
    jobType: string,
    payload: string,
    key: Option<string>,
    runAt: Time,
    deadlineAt: Option<Time>,
    timeoutSeconds: Option<int>,
    recurringSeconds: Option<int>,
    priority: int,
    maxAttempts: int)

  datatype AttemptStatus = AttemptRunning | AttemptSucceeded | AttemptFailed

  datatype Attempt = Attempt(
    id: Uuid,
    jobId: Uuid,
    attemptNo: int,
    status: AttemptStatus,
    workerId: string,
    startedAt: Time,
    finishedAt: Option<Time>,
    latencyMs: Option<int>,
    errorCode: Option<string>,
    errorMessage: Option<string>)

  /** The sort key of a queued job. */
  datatype QueueEntry = QueueEntry(priority: int, runAt: Time, createdAt: Time, id: Uuid)

  function FromJob(j: Job): QueueEntry {
    QueueEntry(j.priority, j.runAt, j.createdAt, j.id)
  }

  /** Higher priority first, then earlier `runAt`, earlier `createdAt`, smaller id. */
  predicate Before(a: QueueEntry, b: QueueEntry) {
    || b.priority < a.priority
    || (b.priority == a.priority && a.runAt < b.runAt)
    || (b.priority == a.priority && a.runAt == b.runAt && a.createdAt < b.createdAt)
    || (b.priority == a.priority && a.runAt == b.runAt && a.createdAt == b.createdAt && a.id < b.id)
  }

  lemma BeforeIsStrictTotal()
    ensures StrictTotal(Before)
  {
  }

  // How one record changes. Each function is the block of field assignments of one backend operation.

  function FreshJob(n: NewJob, id: Uuid, now: Time): Job {
    Job("default", None, n.key, id, n.queue, n.jobType, n.payload, n.runAt, n.deadlineAt, n.timeoutSeconds,
        n.recurringSeconds, Queued, n.priority, n.maxAttempts, None, None, None, None, None, now, now)
  }

  function ExpireJob(j: Job, now: Time): Job {
    j.(status := Dlq, dlqReason := Some("DEADLINE_EXCEEDED"), dlqAt := Some(now), updatedAt := now)
  }

  function LeaseJob(j: Job, worker: string, expires: Time, now: Time): Job {
    j.(status := Running, lockedAt := Some(now), lockedBy := Some(worker), lockExpiresAt := Some(expires),
       updatedAt := now)
  }

  /** Clears the lease and moves the record to `status`. */
  function UnlockJob(j: Job, status: Status, now: Time): Job {
    j.(status := status, lockedAt := None, lockedBy := None, lockExpiresAt := None, updatedAt := now)
  }

  function RetryJob(j: Job, runAt: Time, now: Time): Job {
    UnlockJob(j, Queued, now).(runAt := runAt)
  }

  function DeadJob(j: Job, reason: string, now: Time): Job {
    UnlockJob(j, Dlq, now).(dlqReason := Some(reason), dlqAt := Some(now))
  }

  function ExtendJob(j: Job, expires: Time, now: Time): Job {
    j.(lockExpiresAt := Some(expires), updatedAt := now)
  }

  /** The next occurrence of a recurring job, `interval` seconds after the one that completed. */
  function NextOccurrence(j: Job, interval: int, id: Uuid, now: Time): Job {
    j.(id := id, replayOf := Some(j.id), key := None,
       runAt := j.runAt + interval * SECOND,
       deadlineAt := if j.deadlineAt.Some? then Some(j.deadlineAt.value + interval * SECOND) else None,
       status := Queued, lockedAt := None, lockedBy := None, lockExpiresAt := None,
       dlqReason := None, dlqAt := None, createdAt := now, updatedAt := now)
  }

  function ReplayOf(src: Job, id: Uuid, queue: Option<string>, runAt: Option<Time>, now: Time): Job {
    Job("default", Some(src.id), None, id, if queue.Some? then queue.value else src.queue, src.jobType, src.payload,
        if runAt.Some? then runAt.value else now, src.deadlineAt, src.timeoutSeconds, src.recurringSeconds,
        Queued, src.priority, src.maxAttempts, None, None, None, None, None, now, now)
  }

  function OpenAttempt(id: Uuid, jobId: Uuid, no: int, worker: string, now: Time): Attempt {
    Attempt(id, jobId, no, AttemptRunning, worker, now, None, None, None, None)
  }

  function PassAttempt(a: Attempt, latency: int, now: Time): Attempt {
    a.(status := AttemptSucceeded, finishedAt := Some(now), latencyMs := Some(latency))
  }

  function FailAttempt(a: Attempt, latency: int, code: string, message: string, now: Time): Attempt {
    a.(status := AttemptFailed, finishedAt := Some(now), latencyMs := Some(latency), errorCode := Some(code),
       errorMessage := Some(message))
  }

  /** A table is keyed by the identifiers of its records. */
  ghost predicate Keyed(jobs: map<Uuid, Job>) {
    forall id | id in jobs :: jobs[id].id == id
  }
}
