/** What each operation on the job table does to the records, field by field. */
module Effects {
  import opened Model
  import opened Ordering
  import opened Store

  // Leasing

  /** Due, queued, and not past a deadline. */
  predicate Eligible(j: Job, queue: string, now: Time) {
    && j.queue == queue && j.status == Queued && j.runAt <= now
    && (j.deadlineAt.Some? ==> now <= j.deadlineAt.value)
  }

  predicate TooLate(j: Job, queue: string, now: Time) {
    && j.queue == queue && j.status == Queued && j.runAt <= now
    && j.deadlineAt.Some? && j.deadlineAt.value < now
  }

  /** Higher priority, else earlier run time, else created earlier, else the smaller id. */
  predicate RunsFirst(a: Job, b: Job) {
    || a.priority > b.priority
    || (a.priority == b.priority && a.runAt < b.runAt)
    || (a.priority == b.priority && a.runAt == b.runAt && a.createdAt < b.createdAt)
    || (a.priority == b.priority && a.runAt == b.runAt && a.createdAt == b.createdAt && a.id < b.id)
  }

  ghost function RowIds(rows: seq<Job>): set<Uuid> {
    set row | row in rows :: row.id
  }

  /**
   * From `before` to `after` the rows `leased` were leased, each first that runs first and none passed over, the late
   * ones of the queue were dead-lettered, and nothing else happened.
   */
  ghost predicate LeasedInOrder(before: map<Uuid, Job>, after: map<Uuid, Job>, leased: seq<Job>, queue: string,
                                worker: string, seconds: int, now: Time) {
    && after.Keys == before.Keys
    && (forall i | 0 <= i < |leased| ::
          var id := leased[i].id;
          && id in before && Eligible(before[id], queue, now) && after[id] == leased[i]
          && leased[i] == before[id].(
               status := Running, lockedAt := Some(now), lockedBy := Some(worker),
               lockExpiresAt := Some(now + seconds * SECOND), updatedAt := now))
    && (forall i, k | 0 <= i < k < |leased| :: RunsFirst(leased[i], leased[k]))
    && (forall id, i | id in before && id !in RowIds(leased) && Eligible(before[id], queue, now) && 0 <= i < |leased| ::
          RunsFirst(leased[i], before[id]))
    && (forall id | id in before && id !in RowIds(leased) ::
          after[id] ==
            if TooLate(before[id], queue, now) then
              before[id].(status := Dlq, dlqReason := Some("DEADLINE_EXCEEDED"), dlqAt := Some(now), updatedAt := now)
            else before[id])
  }

  /** No job that could have been leased was left. */
  ghost predicate NoneLeft(before: map<Uuid, Job>, leased: seq<Job>, queue: string, now: Time) {
    forall id | id in before && Eligible(before[id], queue, now) :: id in RowIds(leased)
  }

  lemma RankedRow(jobs: map<Uuid, Job>, queue: string, now: Time, i: nat)
    requires Keyed(jobs) && i < |Ranking(jobs, queue, now)|
    ensures var e := Ranking(jobs, queue, now)[i];
      e.id in jobs && Eligible(jobs[e.id], queue, now) && e == FromJob(jobs[e.id])
  {
    hide SortSet, StrictTotal, Before;
    var ranking := Ranking(jobs, queue, now);
    assert ranking[i] in Elements(ranking);
    var swept := Sweep(jobs, queue, now);
    var k :| k in swept && Due(swept[k], queue, now) && FromJob(swept[k]) == ranking[i];
  }

  lemma EligibleIsRanked(jobs: map<Uuid, Job>, queue: string, now: Time, id: Uuid) returns (k: nat)
    requires Keyed(jobs) && id in jobs && Eligible(jobs[id], queue, now)
    ensures k < |Ranking(jobs, queue, now)| && Ranking(jobs, queue, now)[k] == FromJob(jobs[id])
  {
    hide SortSet, StrictTotal, Before;
    var ranking, swept := Ranking(jobs, queue, now), Sweep(jobs, queue, now);
    assert swept[id] == jobs[id];
    assert FromJob(swept[id]) in DueEntries(swept, queue, now);
    assert FromJob(jobs[id]) in Elements(ranking);
    k :| 0 <= k < |ranking| && ranking[k] == FromJob(jobs[id]);
  }

  lemma RankingAscends(jobs: map<Uuid, Job>, queue: string, now: Time)
    ensures Ascending(Before, Ranking(jobs, queue, now))
  {
  }

  /** The sort key of an entry says on the fields of the jobs which of them runs first. */
  lemma BeforeByFields(a: Job, b: Job)
    ensures Before(FromJob(a), FromJob(b)) <==> RunsFirst(a, b)
  {
  }

  /** The first rows of the ranking, leased. */
  lemma LeaseInOrder(jobs: map<Uuid, Job>, queue: string, worker: string, seconds: int, now: Time,
                     chosen: seq<QueueEntry>, leased: seq<Job>)
    requires Keyed(jobs) && chosen <= Ranking(jobs, queue, now) && |leased| == |chosen|
    requires var after := MarkLeased(Sweep(jobs, queue, now), Ids(chosen), worker, now + seconds * SECOND, now);
      forall i | 0 <= i < |leased| :: chosen[i].id in after && leased[i] == after[chosen[i].id]
    ensures var after := MarkLeased(Sweep(jobs, queue, now), Ids(chosen), worker, now + seconds * SECOND, now);
      LeasedInOrder(jobs, after, leased, queue, worker, seconds, now)
    ensures |chosen| == |Ranking(jobs, queue, now)| ==> NoneLeft(jobs, leased, queue, now)
  {
    hide Ranking, Before, RunsFirst;
    var after := MarkLeased(Sweep(jobs, queue, now), Ids(chosen), worker, now + seconds * SECOND, now);
    var ranking := Ranking(jobs, queue, now);
    forall i | 0 <= i < |leased|
      ensures chosen[i].id in jobs && Eligible(jobs[chosen[i].id], queue, now)
      ensures chosen[i] == FromJob(jobs[chosen[i].id]) && chosen[i] in chosen && leased[i].id == chosen[i].id
      ensures leased[i] == jobs[chosen[i].id].(
        status := Running, lockedAt := Some(now), lockedBy := Some(worker),
        lockExpiresAt := Some(now + seconds * SECOND), updatedAt := now)
    {
      RankedRow(jobs, queue, now, i);
      assert chosen[i] in chosen;
    }
    assert RowIds(leased) == Ids(chosen) by {
      RowIdsAre(leased, chosen);
    }
    OrderOfChosen(jobs, queue, now, chosen, leased);
    LeftBehind(jobs, queue, now, chosen, leased);
  }

  lemma RowIdsAre(leased: seq<Job>, chosen: seq<QueueEntry>)
    requires |leased| == |chosen| && forall i | 0 <= i < |leased| :: leased[i].id == chosen[i].id
    ensures RowIds(leased) == Ids(chosen)
  {
    forall id | id in Ids(chosen)
      ensures id in RowIds(leased)
    {
      var i :| 0 <= i < |chosen| && chosen[i].id == id;
      assert leased[i] in leased;
    }
    forall id | id in RowIds(leased)
      ensures id in Ids(chosen)
    {
      var i :| 0 <= i < |leased| && leased[i].id == id;
      assert chosen[i] in chosen;
    }
  }

  lemma NotTaken(chosen: seq<QueueEntry>, ranking: seq<QueueEntry>, k: nat, id: Uuid)
    requires chosen <= ranking && k < |ranking| && ranking[k].id == id && id !in Ids(chosen)
    ensures k >= |chosen|
  {
    forall i | 0 <= i < |chosen|
      ensures ranking[i].id != id
    {
      assert chosen[i] in chosen;
    }
  }

  lemma OrderOfChosen(jobs: map<Uuid, Job>, queue: string, now: Time, chosen: seq<QueueEntry>, leased: seq<Job>)
    requires chosen <= Ranking(jobs, queue, now) && |leased| == |chosen|
    requires forall i | 0 <= i < |leased| :: FromJob(leased[i]) == chosen[i]
    ensures forall i, k | 0 <= i < k < |leased| :: RunsFirst(leased[i], leased[k])
  {
    hide Ranking, Before, RunsFirst;
    RankingAscends(jobs, queue, now);
    forall i, k | 0 <= i < k < |leased|
      ensures RunsFirst(leased[i], leased[k])
    {
      assert Before(chosen[i], chosen[k]);
      BeforeByFields(leased[i], leased[k]);
    }
  }

  lemma LeftBehind(jobs: map<Uuid, Job>, queue: string, now: Time, chosen: seq<QueueEntry>, leased: seq<Job>)
    requires Keyed(jobs) && chosen <= Ranking(jobs, queue, now) && |leased| == |chosen|
    requires forall i | 0 <= i < |leased| :: FromJob(leased[i]) == chosen[i]
    requires RowIds(leased) == Ids(chosen)
    ensures forall id | id in jobs && id !in RowIds(leased) && Eligible(jobs[id], queue, now) ::
      |chosen| < |Ranking(jobs, queue, now)| && forall i | 0 <= i < |leased| :: RunsFirst(leased[i], jobs[id])
  {
    hide Ranking, Before, RunsFirst, Eligible;
    RankingAscends(jobs, queue, now);
    forall id | id in jobs && id !in RowIds(leased) && Eligible(jobs[id], queue, now)
      ensures |chosen| < |Ranking(jobs, queue, now)| && forall i | 0 <= i < |leased| :: RunsFirst(leased[i], jobs[id])
    {
      var k := EligibleIsRanked(jobs, queue, now, id);
      NotTaken(chosen, Ranking(jobs, queue, now), k, id);
      forall i | 0 <= i < |leased|
        ensures RunsFirst(leased[i], jobs[id])
      {
        assert Before(Ranking(jobs, queue, now)[i], Ranking(jobs, queue, now)[k]);
        BeforeByFields(leased[i], jobs[id]);
      }
    }
  }

  // Single records

  /** `k` is the record of a job just enqueued. */
  predicate EnqueuedAs(k: Job, n: NewJob, id: Uuid, now: Time) {
    k == Job(
      datasetId := "default", replayOf := None, key := n.key, id := id, queue := n.queue, jobType := n.jobType,
      payload := n.payload, runAt := n.runAt, deadlineAt := n.deadlineAt, timeoutSeconds := n.timeoutSeconds,
      recurringSeconds := n.recurringSeconds, status := Queued, priority := n.priority, maxAttempts := n.maxAttempts,
      lockedAt := None, lockedBy := None, lockExpiresAt := None, dlqReason := None, dlqAt := None,
      createdAt := now, updatedAt := now)
  }

  /** `k` is a replay of the job `id` with the record `src`. */
  predicate ReplayedAs(k: Job, src: Job, id: Uuid, newId: Uuid, target: Option<string>, at: Option<Time>, now: Time) {
    k == Job(
      datasetId := "default", replayOf := Some(id), key := None, id := newId,
      queue := if target.Some? then target.value else src.queue, jobType := src.jobType,
      payload := src.payload, runAt := if at.Some? then at.value else now, deadlineAt := src.deadlineAt,
      timeoutSeconds := src.timeoutSeconds, recurringSeconds := src.recurringSeconds, status := Queued,
      priority := src.priority, maxAttempts := src.maxAttempts,
      lockedAt := None, lockedBy := None, lockExpiresAt := None, dlqReason := None, dlqAt := None,
      createdAt := now, updatedAt := now)
  }

  /** `k` is the next occurrence of the recurring job `j`. */
  predicate RecursAs(k: Job, j: Job, interval: int, newId: Uuid, now: Time) {
    k == j.(
      id := newId, replayOf := Some(j.id), key := None, runAt := j.runAt + interval * SECOND,
      deadlineAt := if j.deadlineAt.Some? then Some(j.deadlineAt.value + interval * SECOND) else None,
      status := Queued, lockedAt := None, lockedBy := None, lockExpiresAt := None, dlqReason := None, dlqAt := None,
      createdAt := now, updatedAt := now)
  }

  /** `k` is `j` without its lease and with another status. */
  predicate ReleasedAs(k: Job, j: Job, status: Status, now: Time) {
    k == j.(status := status, lockedAt := None, lockedBy := None, lockExpiresAt := None, updatedAt := now)
  }

  predicate RetriedAs(k: Job, j: Job, runAt: Time, now: Time) {
    k == j.(status := Queued, runAt := runAt, lockedAt := None, lockedBy := None, lockExpiresAt := None,
         updatedAt := now)
  }

  predicate BuriedAs(k: Job, j: Job, reason: string, now: Time) {
    k == j.(status := Dlq, dlqReason := Some(reason), dlqAt := Some(now), lockedAt := None, lockedBy := None,
            lockExpiresAt := None, updatedAt := now)
  }

  predicate ExtendedAs(k: Job, j: Job, seconds: int, now: Time) {
    k == j.(lockExpiresAt := Some(now + seconds * SECOND), updatedAt := now)
  }

  predicate FailedWith(b: Attempt, a: Attempt, latency: int, code: string, message: string, now: Time) {
    b == a.(status := AttemptFailed, finishedAt := Some(now), latencyMs := Some(latency), errorCode := Some(code),
            errorMessage := Some(message))
  }

  // Operations

  predicate HeldBy(jobs: map<Uuid, Job>, id: Uuid, worker: string) {
    id in jobs && jobs[id].status == Running && jobs[id].lockedBy == Some(worker)
  }

  /** What it takes to finish a job: to hold it, and to name a running attempt of it. */
  predicate MayFinish(s: State, id: Uuid, attempt: Uuid, worker: string) {
    && HeldBy(s.jobs, id, worker)
    && attempt in s.attempts && s.attempts[attempt].status == AttemptRunning && s.attempts[attempt].jobId == id
  }

  lemma MayFinishIsFinishable(s: State, id: Uuid, attempt: Uuid, worker: string)
    ensures MayFinish(s, id, attempt, worker) <==> Finishable(s, id, attempt, worker)
  {
  }

  /** Only the job's record and the attempt's have changed. */
  ghost predicate OnlyThese(s: State, t: State, id: Uuid, attempt: Uuid)
    requires id in t.jobs && attempt in t.attempts
  {
    && t.jobs == s.jobs[id := t.jobs[id]] && t.attempts == s.attempts[attempt := t.attempts[attempt]]
    && t.archive == s.archive && t.counts == s.counts && t.born == s.born
  }

  ghost predicate Enqueued(s: State, t: State, n: NewJob, newId: Uuid, id: Uuid, now: Time) {
    if n.key.Some? && exists k :: k in s.jobs && s.jobs[k].key == n.key then
      t == s && id in s.jobs && s.jobs[id].key == n.key
    else
      && id == newId && newId in t.jobs && EnqueuedAs(t.jobs[newId], n, newId, now)
      && t.jobs == s.jobs[newId := t.jobs[newId]]
      && t.archive == s.archive && t.attempts == s.attempts && t.counts == s.counts
  }

  lemma EnqueueEffect(s: State, n: NewJob, newId: Uuid, now: Time)
    ensures Enqueued(s, Enqueue(s, n, newId, now), n, newId, EnqueueResult(s, n, newId), now)
  {
  }

  ghost predicate Replayed(s: State, t: State, id: Uuid, target: Option<string>, at: Option<Time>, newId: Uuid,
                           now: Time) {
    if id !in s.jobs && id !in s.archive then t == s
    else
      && newId in t.jobs
      && ReplayedAs(t.jobs[newId], if id in s.jobs then s.jobs[id] else s.archive[id], id, newId, target, at, now)
      && t.jobs == s.jobs[newId := t.jobs[newId]]
      && t.archive == s.archive && t.attempts == s.attempts && t.counts == s.counts
  }

  lemma ReplayEffect(s: State, id: Uuid, target: Option<string>, at: Option<Time>, newId: Uuid, now: Time)
    requires Keyed(s.jobs) && Keyed(s.archive)
    ensures Replayed(s, Replay(s, id, target, at, newId, now), id, target, at, newId, now)
  {
  }

  ghost predicate CompletedAs(s: State, t: State, id: Uuid, attempt: Uuid, latency: int, newId: Uuid, now: Time)
    requires id in s.jobs && attempt in s.attempts
  {
    && id in t.jobs && ReleasedAs(t.jobs[id], s.jobs[id], Succeeded, now)
    && t.attempts == s.attempts[attempt := s.attempts[attempt].(
         status := AttemptSucceeded, finishedAt := Some(now), latencyMs := Some(latency))]
    && t.archive == s.archive && t.counts == s.counts
    && match s.jobs[id].recurringSeconds
       case None => t.jobs == s.jobs[id := t.jobs[id]]
       case Some(interval) =>
         && newId in t.jobs && RecursAs(t.jobs[newId], s.jobs[id], interval, newId, now)
         && t.jobs == s.jobs[id := t.jobs[id]][newId := t.jobs[newId]]
  }

  lemma SucceedEffect(s: State, id: Uuid, attempt: Uuid, worker: string, latency: int, newId: Uuid, now: Time)
    requires MayFinish(s, id, attempt, worker) && newId != id
    ensures CompletedAs(s, Succeed(s, id, attempt, worker, latency, newId, now), id, attempt, latency, newId, now)
  {
  }

  ghost predicate Retried(s: State, t: State, id: Uuid, attempt: Uuid, latency: int, runAt: Time, code: string,
                          message: string, now: Time)
    requires id in s.jobs && attempt in s.attempts
  {
    && id in t.jobs && attempt in t.attempts && OnlyThese(s, t, id, attempt)
    && RetriedAs(t.jobs[id], s.jobs[id], runAt, now)
    && FailedWith(t.attempts[attempt], s.attempts[attempt], latency, code, message, now)
  }

  lemma RetryEffect(s: State, id: Uuid, attempt: Uuid, worker: string, latency: int, runAt: Time, code: string,
                    message: string, now: Time)
    requires MayFinish(s, id, attempt, worker)
    ensures Retried(s, Retry(s, id, attempt, worker, latency, runAt, code, message, now), id, attempt, latency, runAt,
                    code, message, now)
  {
  }

  ghost predicate DeadLettered(s: State, t: State, id: Uuid, attempt: Uuid, latency: int, reason: string, code: string,
                               message: string, now: Time)
    requires id in s.jobs && attempt in s.attempts
  {
    && id in t.jobs && attempt in t.attempts && OnlyThese(s, t, id, attempt)
    && BuriedAs(t.jobs[id], s.jobs[id], reason, now)
    && FailedWith(t.attempts[attempt], s.attempts[attempt], latency, code, message, now)
  }

  lemma DeadLetterEffect(s: State, id: Uuid, attempt: Uuid, worker: string, latency: int, reason: string, code: string,
                         message: string, now: Time)
    requires MayFinish(s, id, attempt, worker)
    ensures DeadLettered(s, DeadLetter(s, id, attempt, worker, latency, reason, code, message, now), id, attempt,
                         latency, reason, code, message, now)
  {
  }

  ghost predicate Extended(s: State, t: State, id: Uuid, seconds: int, now: Time)
    requires id in s.jobs
  {
    id in t.jobs && ExtendedAs(t.jobs[id], s.jobs[id], seconds, now) && t == s.(jobs := s.jobs[id := t.jobs[id]])
  }

  lemma ExtendEffect(s: State, id: Uuid, worker: string, seconds: int, now: Time)
    ensures var t := Extend(s, id, worker, seconds, now);
      if HeldBy(s.jobs, id, worker) then Extended(s, t, id, seconds, now) else t == s
  {
  }

  /** A running attempt of `id` than which none has a higher number. */
  ghost predicate Newest(s: State, id: Uuid, a: Uuid) {
    && a in s.attempts && s.attempts[a].jobId == id && s.attempts[a].status == AttemptRunning
    && forall b | b in s.attempts && s.attempts[b].jobId == id && s.attempts[b].status == AttemptRunning ::
         s.attempts[b].attemptNo <= s.attempts[a].attemptNo
  }

  ghost predicate Cancelled(s: State, t: State, id: Uuid, now: Time)
    requires id in s.jobs
  {
    && id in t.jobs && ReleasedAs(t.jobs[id], s.jobs[id], Canceled, now) && t.jobs == s.jobs[id := t.jobs[id]]
    && t.attempts.Keys == s.attempts.Keys && t.archive == s.archive && t.counts == s.counts && t.born == s.born
    && forall a | a in s.attempts ::
         if s.jobs[id].status == Running && Newest(s, id, a) then
           FailedWith(t.attempts[a], s.attempts[a], 0, "CANCELLED", "job cancelled", now)
         else t.attempts[a] == s.attempts[a]
  }

  predicate MayCancel(s: State, id: Uuid, worker: Option<string>) {
    id in s.jobs &&
    (s.jobs[id].status == Queued || (s.jobs[id].status == Running && worker.Some? && s.jobs[id].lockedBy == worker))
  }

  lemma CancelEffect(s: State, id: Uuid, worker: Option<string>, now: Time)
    ensures var t := Cancel(s, id, worker, now);
      if MayCancel(s, id, worker) then Cancelled(s, t, id, now) else t == s
  {
    if MayCancel(s, id, worker) {
      forall a | a in s.attempts
        ensures Newest(s, id, a) <==> LatestOpen(s, id, a)
      {
        NewestIsLatest(s, id, a);
      }
    }
  }

  lemma NewestIsLatest(s: State, id: Uuid, a: Uuid)
    ensures Newest(s, id, a) <==> LatestOpen(s, id, a)
  {
  }

  /** The lease has run out. */
  predicate RunOut(j: Job, now: Time) {
    j.status == Running && j.lockExpiresAt.Some? && j.lockExpiresAt.value <= now
  }

  ghost predicate TakenBack(s: State, t: State, now: Time) {
    && t.jobs.Keys == s.jobs.Keys && t.attempts.Keys == s.attempts.Keys
    && t.archive == s.archive && t.counts == s.counts && t.born == s.born
    && (forall id | id in s.jobs ::
          if RunOut(s.jobs[id], now) then ReleasedAs(t.jobs[id], s.jobs[id], Queued, now) else t.jobs[id] == s.jobs[id])
    && (forall a | a in s.attempts ::
          var id := s.attempts[a].jobId;
          if s.attempts[a].status == AttemptRunning && id in s.jobs && RunOut(s.jobs[id], now) then
            FailedWith(t.attempts[a], s.attempts[a], 0, "LEASE_EXPIRED", "worker lease expired before ACK", now)
          else t.attempts[a] == s.attempts[a])
  }

  lemma ReapEffect(s: State, now: Time)
    ensures TakenBack(s, Reap(s, now), now)
  {
  }
}
