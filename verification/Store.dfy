/** The job table as a state machine. There is no index here: a lease scans the whole table and sorts it. */
module Store {
  import opened Model
  import opened Ordering

  /** `born` records every identifier generated so far and the order in which they were generated. */
  datatype State = State(
    jobs: map<Uuid, Job>,
    archive: map<Uuid, Job>,
    attempts: map<Uuid, Attempt>,
    counts: map<Uuid, int>,
    born: map<Uuid, nat>)

  const EMPTY := State(map[], map[], map[], map[], map[])

  ghost predicate Known(s: State, id: Uuid) {
    id in s.jobs || id in s.archive
  }

  /** What `get_job` returns: the live table first, then the archive. */
  ghost function Record(s: State, id: Uuid): Job
    requires Known(s, id)
  {
    if id in s.jobs then s.jobs[id] else s.archive[id]
  }

  function CountOf(s: State, id: Uuid): int {
    if id in s.counts then s.counts[id] else 0
  }

  ghost function Mint(s: State, id: Uuid): State {
    s.(born := s.born[id := |s.born|])
  }

  // Guards

  predicate Due(j: Job, queue: string, now: Time) {
    j.queue == queue && j.status.Queued? && j.runAt <= now
  }

  predicate Overdue(j: Job, queue: string, now: Time) {
    Due(j, queue, now) && j.deadlineAt.Some? && j.deadlineAt.value < now
  }

  predicate Lapsed(j: Job, now: Time) {
    j.status.Running? && j.lockExpiresAt.Some? && j.lockExpiresAt.value <= now
  }

  /** `worker` holds the running lease of job `id`. */
  predicate Holds(s: State, id: Uuid, worker: string) {
    id in s.jobs && s.jobs[id].status.Running? && s.jobs[id].lockedBy == Some(worker)
  }

  predicate OpenFor(s: State, id: Uuid, attempt: Uuid) {
    attempt in s.attempts && s.attempts[attempt].status.AttemptRunning? && s.attempts[attempt].jobId == id
  }

  /** The check that completing, retrying and dead-lettering share. */
  predicate Finishable(s: State, id: Uuid, attempt: Uuid, worker: string) {
    Holds(s, id, worker) && OpenFor(s, id, attempt)
  }

  predicate Cancelable(s: State, id: Uuid, worker: Option<string>) {
    id in s.jobs &&
    (s.jobs[id].status.Queued? ||
     (s.jobs[id].status.Running? && worker.Some? && s.jobs[id].lockedBy == worker))
  }

  /** The running attempt of `id` with the highest number. */
  ghost predicate LatestOpen(s: State, id: Uuid, attempt: Uuid) {
    && OpenFor(s, id, attempt)
    && forall b | OpenFor(s, id, b) :: s.attempts[b].attemptNo <= s.attempts[attempt].attemptNo
  }

  // Operations

  ghost predicate KeyTaken(s: State, key: Option<string>) {
    key.Some? && exists id :: id in s.jobs && s.jobs[id].key == key
  }

  ghost function KeyHolder(s: State, key: Option<string>): (id: Uuid)
    requires KeyTaken(s, key)
    ensures id in s.jobs && s.jobs[id].key == key
  {
    var id :| id in s.jobs && s.jobs[id].key == key;
    id
  }

  ghost function AddJob(s: State, j: Job): State {
    Mint(s, j.id).(jobs := s.jobs[j.id := j])
  }

  ghost function Enqueue(s: State, n: NewJob, newId: Uuid, now: Time): State {
    if KeyTaken(s, n.key) then s else AddJob(s, FreshJob(n, newId, now))
  }

  ghost function EnqueueResult(s: State, n: NewJob, newId: Uuid): Uuid {
    if KeyTaken(s, n.key) then KeyHolder(s, n.key) else newId
  }

  /** Dead-letters every due job of `queue` whose deadline has passed. */
  function Sweep(jobs: map<Uuid, Job>, queue: string, now: Time): map<Uuid, Job> {
    map id | id in jobs :: if Overdue(jobs[id], queue, now) then ExpireJob(jobs[id], now) else jobs[id]
  }

  function DueEntries(jobs: map<Uuid, Job>, queue: string, now: Time): set<QueueEntry> {
    set id | id in jobs && Due(jobs[id], queue, now) :: FromJob(jobs[id])
  }

  /** `SELECT ... ORDER BY priority DESC, run_at, created_at, id` over the swept table. */
  ghost function Ranking(jobs: map<Uuid, Job>, queue: string, now: Time): seq<QueueEntry> {
    BeforeIsStrictTotal();
    SortSet(Before, DueEntries(Sweep(jobs, queue, now), queue, now))
  }

  function Ids(entries: seq<QueueEntry>): set<Uuid> {
    set e | e in entries :: e.id
  }

  function MarkLeased(jobs: map<Uuid, Job>, ids: set<Uuid>, worker: string, expires: Time, now: Time): map<Uuid, Job> {
    map id | id in jobs :: if id in ids then LeaseJob(jobs[id], worker, expires, now) else jobs[id]
  }

  lemma IdsGrow(entries: seq<QueueEntry>, k: nat)
    requires k < |entries|
    ensures Ids(entries[..k + 1]) == Ids(entries[..k]) + {entries[k].id}
  {
    assert entries[..k + 1] == entries[..k] + [entries[k]];
  }

  lemma LeasedIsKeyed(jobs: map<Uuid, Job>, ids: set<Uuid>, worker: string, expires: Time, now: Time)
    requires Keyed(jobs)
    ensures Keyed(MarkLeased(jobs, ids, worker, expires, now))
  {
  }

  lemma SweptIsKeyed(jobs: map<Uuid, Job>, queue: string, now: Time)
    requires Keyed(jobs)
    ensures Keyed(Sweep(jobs, queue, now))
  {
  }

  /** The jobs a lease of at most `batch` takes, first to be run first. */
  ghost function Chosen(s: State, queue: string, batch: int, now: Time): seq<QueueEntry> {
    Take(Ranking(s.jobs, queue, now), batch)
  }

  ghost function Lease(s: State, queue: string, worker: string, seconds: int, batch: int, now: Time): State {
    s.(jobs := MarkLeased(Sweep(s.jobs, queue, now), Ids(Chosen(s, queue, batch, now)), worker,
                          now + seconds * SECOND, now))
  }

  ghost function Reap(s: State, now: Time): State {
    s.(jobs := map id | id in s.jobs ::
                 if Lapsed(s.jobs[id], now) then UnlockJob(s.jobs[id], Queued, now) else s.jobs[id],
       attempts := map a | a in s.attempts :: ReapAttempt(s, s.attempts[a], now))
  }

  function ReapAttempt(s: State, a: Attempt, now: Time): Attempt {
    if a.status.AttemptRunning? && a.jobId in s.jobs && Lapsed(s.jobs[a.jobId], now) then
      FailAttempt(a, 0, "LEASE_EXPIRED", "worker lease expired before ACK", now)
    else a
  }

  ghost function Start(s: State, id: Uuid, worker: string, newId: Uuid, now: Time): State {
    if Holds(s, id, worker) then
      Mint(s, newId).(
        attempts := s.attempts[newId := OpenAttempt(newId, id, CountOf(s, id) + 1, worker, now)],
        counts := s.counts[id := CountOf(s, id) + 1])
    else s
  }

  ghost function Succeed(s: State, id: Uuid, attempt: Uuid, worker: string, latency: int, newId: Uuid,
                         now: Time): State {
    if Finishable(s, id, attempt, worker) then
      var done := s.(attempts := s.attempts[attempt := PassAttempt(s.attempts[attempt], latency, now)],
                     jobs := s.jobs[id := UnlockJob(s.jobs[id], Succeeded, now)]);
      if s.jobs[id].recurringSeconds.Some? then
        AddJob(done, NextOccurrence(s.jobs[id], s.jobs[id].recurringSeconds.value, newId, now))
      else done
    else s
  }

  ghost function Retry(s: State, id: Uuid, attempt: Uuid, worker: string, latency: int, runAt: Time, code: string,
                       message: string, now: Time): State {
    if Finishable(s, id, attempt, worker) then
      s.(attempts := s.attempts[attempt := FailAttempt(s.attempts[attempt], latency, code, message, now)],
         jobs := s.jobs[id := RetryJob(s.jobs[id], runAt, now)])
    else s
  }

  ghost function DeadLetter(s: State, id: Uuid, attempt: Uuid, worker: string, latency: int, reason: string,
                            code: string, message: string, now: Time): State {
    if Finishable(s, id, attempt, worker) then
      s.(attempts := s.attempts[attempt := FailAttempt(s.attempts[attempt], latency, code, message, now)],
         jobs := s.jobs[id := DeadJob(s.jobs[id], reason, now)])
    else s
  }

  ghost function Cancel(s: State, id: Uuid, worker: Option<string>, now: Time): State {
    if Cancelable(s, id, worker) then
      s.(attempts := map a | a in s.attempts ::
                       if s.jobs[id].status.Running? && LatestOpen(s, id, a)
                       then FailAttempt(s.attempts[a], 0, "CANCELLED", "job cancelled", now) else s.attempts[a],
         jobs := s.jobs[id := UnlockJob(s.jobs[id], Canceled, now)])
    else s
  }

  ghost function Extend(s: State, id: Uuid, worker: string, seconds: int, now: Time): State {
    if Holds(s, id, worker) then s.(jobs := s.jobs[id := ExtendJob(s.jobs[id], now + seconds * SECOND, now)])
    else s
  }

  /** Moves the records `ids` out of the live table. */
  ghost function Archive(s: State, ids: set<Uuid>): State
    requires ids <= s.jobs.Keys
  {
    s.(jobs := s.jobs - ids, archive := s.archive + (map id | id in ids :: s.jobs[id]))
  }

  ghost function PruneHistory(s: State, attempts: set<Uuid>): State {
    s.(attempts := s.attempts - attempts)
  }

  ghost function Replay(s: State, id: Uuid, queue: Option<string>, runAt: Option<Time>, newId: Uuid, now: Time): State {
    if Known(s, id) then AddJob(s, ReplayOf(Record(s, id), newId, queue, runAt, now)) else s
  }

  // Which rows a maintenance pass takes is left to the hash map's iteration order: any set of the right size.

  ghost predicate Archivable(s: State, cutoff: Time, id: Uuid) {
    id in s.jobs && s.jobs[id].status.Succeeded? && s.jobs[id].updatedAt < cutoff
  }

  ghost predicate Prunable(s: State, cutoff: Time, a: Uuid) {
    a in s.attempts && s.attempts[a].startedAt < cutoff &&
    s.attempts[a].jobId in s.archive && s.archive[s.attempts[a].jobId].updatedAt < cutoff
  }

  /** `chosen` is `limit` of `eligible`, or all of it; a negative limit is cast to a huge unsigned one. */
  ghost predicate Limited<T(!new)>(eligible: set<T>, limit: int, chosen: set<T>) {
    chosen <= eligible && (chosen == eligible || (0 <= limit && |chosen| == limit))
      && (0 <= limit ==> |chosen| <= limit)
  }

  // Steps

  datatype Op =
    | OpEnqueue(n: NewJob, newId: Uuid)
    | OpLease(queue: string, worker: string, seconds: int, batch: int)
    | OpReap
    | OpStart(id: Uuid, worker: string, newId: Uuid)
    | OpSucceed(id: Uuid, attempt: Uuid, worker: string, latency: int, newId: Uuid)
    | OpRetry(id: Uuid, attempt: Uuid, worker: string, latency: int, runAt: Time, code: string, message: string)
    | OpDeadLetter(id: Uuid, attempt: Uuid, worker: string, latency: int, reason: string, code: string, message: string)
    | OpCancel(id: Uuid, caller: Option<string>)
    | OpExtend(id: Uuid, worker: string, seconds: int)
    | OpArchive(cutoff: Time, limit: int, ids: set<Uuid>)
    | OpPrune(cutoff: Time, limit: int, attempts: set<Uuid>)
    | OpReplay(id: Uuid, target: Option<string>, at: Option<Time>, newId: Uuid)

  ghost function ArchivableSet(s: State, cutoff: Time): set<Uuid> {
    set id | id in s.jobs && Archivable(s, cutoff, id)
  }

  ghost function PrunableSet(s: State, cutoff: Time): set<Uuid> {
    set a | a in s.attempts && Prunable(s, cutoff, a)
  }

  /** Generated identifiers are unused, and maintenance takes rows it may take. Nothing else is asked of a step. */
  ghost predicate Legal(s: State, op: Op) {
    match op
    case OpEnqueue(_, newId) => newId !in s.born
    case OpStart(_, _, newId) => newId !in s.born
    case OpSucceed(_, _, _, _, newId) => newId !in s.born
    case OpReplay(_, _, _, newId) => newId !in s.born
    case OpArchive(cutoff, limit, ids) => Limited(ArchivableSet(s, cutoff), limit, ids)
    case OpPrune(cutoff, limit, attempts) => Limited(PrunableSet(s, cutoff), limit, attempts)
    case _ => true
  }

  ghost function Apply(s: State, now: Time, op: Op): State
    requires Legal(s, op)
  {
    match op
    case OpEnqueue(n, newId) => Enqueue(s, n, newId, now)
    case OpLease(queue, worker, seconds, batch) => Lease(s, queue, worker, seconds, batch, now)
    case OpReap => Reap(s, now)
    case OpStart(id, worker, newId) => Start(s, id, worker, newId, now)
    case OpSucceed(id, attempt, worker, latency, newId) => Succeed(s, id, attempt, worker, latency, newId, now)
    case OpRetry(id, attempt, worker, latency, runAt, code, message) =>
      Retry(s, id, attempt, worker, latency, runAt, code, message, now)
    case OpDeadLetter(id, attempt, worker, latency, reason, code, message) =>
      DeadLetter(s, id, attempt, worker, latency, reason, code, message, now)
    case OpCancel(id, caller) => Cancel(s, id, caller, now)
    case OpExtend(id, worker, seconds) => Extend(s, id, worker, seconds, now)
    case OpArchive(_, _, ids) => Archive(s, ids)
    case OpPrune(_, _, attempts) => PruneHistory(s, attempts)
    case OpReplay(id, target, at, newId) => Replay(s, id, target, at, newId, now)
  }
}
