/** Every operation, however many rows it scans, acts on each job by one of nine local moves. */
module Locality {
  import opened Model
  import opened Ordering
  import opened Store

  datatype Move =
    | Stay
    | Expire
    | Grant(worker: string, expires: Time)
    | Reclaim
    | Reschedule(runAt: Time)
    | Complete
    | Bury(reason: string)
    | Withdraw
    | Renew(expires: Time)

  function ApplyMove(j: Job, now: Time, m: Move): Job {
    match m
    case Stay => j
    case Expire => ExpireJob(j, now)
    case Grant(worker, expires) => LeaseJob(j, worker, expires, now)
    case Reclaim => UnlockJob(j, Queued, now)
    case Reschedule(runAt) => RetryJob(j, runAt, now)
    case Complete => UnlockJob(j, Succeeded, now)
    case Bury(reason) => DeadJob(j, reason, now)
    case Withdraw => UnlockJob(j, Canceled, now)
    case Renew(expires) => ExtendJob(j, expires, now)
  }

  /** How `op` moves the live job `id`. */
  ghost function MoveOf(s: State, now: Time, op: Op, id: Uuid): Move
    requires id in s.jobs
  {
    match op
    case OpLease(queue, worker, seconds, batch) =>
      if Overdue(s.jobs[id], queue, now) then Expire
      else if id in Ids(Chosen(s, queue, batch, now)) then Grant(worker, now + seconds * SECOND)
      else Stay
    case OpReap => if Lapsed(s.jobs[id], now) then Reclaim else Stay
    case OpSucceed(target, attempt, worker, _, _) =>
      if target == id && Finishable(s, id, attempt, worker) then Complete else Stay
    case OpRetry(target, attempt, worker, _, runAt, _, _) =>
      if target == id && Finishable(s, id, attempt, worker) then Reschedule(runAt) else Stay
    case OpDeadLetter(target, attempt, worker, _, reason, _, _) =>
      if target == id && Finishable(s, id, attempt, worker) then Bury(reason) else Stay
    case OpCancel(target, caller) => if target == id && Cancelable(s, id, caller) then Withdraw else Stay
    case OpExtend(target, worker, seconds) =>
      if target == id && Holds(s, id, worker) then Renew(now + seconds * SECOND) else Stay
    case _ => Stay
  }

  /** The job `op` creates, if it creates one. */
  ghost function Added(s: State, now: Time, op: Op): Option<Job> {
    match op
    case OpEnqueue(n, newId) => if KeyTaken(s, n.key) then None else Some(FreshJob(n, newId, now))
    case OpSucceed(id, attempt, worker, _, newId) =>
      if Finishable(s, id, attempt, worker) && s.jobs[id].recurringSeconds.Some? then
        Some(NextOccurrence(s.jobs[id], s.jobs[id].recurringSeconds.value, newId, now))
      else None
    case OpReplay(id, target, at, newId) =>
      if Known(s, id) then Some(ReplayOf(Record(s, id), newId, target, at, now)) else None
    case _ => None
  }

  ghost predicate KeysOk(s: State) {
    && (forall id | id in s.jobs :: s.jobs[id].id == id && id in s.born && id !in s.archive)
    && (forall id | id in s.archive :: s.archive[id].id == id && id in s.born && s.archive[id].status.Succeeded?)
    && (forall a | a in s.attempts :: s.attempts[a].id == a && a in s.born && Known(s, s.attempts[a].jobId))
    && (forall id | id in s.counts :: Known(s, id))
    && (forall id | id in s.born :: s.born[id] < |s.born|)
  }

  /** Whatever a lease takes is due and not past its deadline. */
  lemma ChosenIsDue(s: State, queue: string, batch: int, now: Time, id: Uuid)
    requires KeysOk(s)
    requires id in Ids(Chosen(s, queue, batch, now))
    ensures id in s.jobs && Due(s.jobs[id], queue, now) && !Overdue(s.jobs[id], queue, now)
    ensures FromJob(s.jobs[id]) in Chosen(s, queue, batch, now)
  {
    hide SortSet, StrictTotal, Before;
    var ranking := Ranking(s.jobs, queue, now);
    var e :| e in Chosen(s, queue, batch, now) && e.id == id;
    assert e in ranking;
    assert e in Elements(ranking);
    var swept := Sweep(s.jobs, queue, now);
    var k :| k in swept && Due(swept[k], queue, now) && FromJob(swept[k]) == e;
  }

  lemma LocalLease(s: State, queue: string, worker: string, seconds: int, batch: int, now: Time, id: Uuid)
    requires KeysOk(s)
    requires id in s.jobs
    ensures id in Lease(s, queue, worker, seconds, batch, now).jobs
    ensures Lease(s, queue, worker, seconds, batch, now).jobs[id]
         == ApplyMove(s.jobs[id], now, MoveOf(s, now, OpLease(queue, worker, seconds, batch), id))
  {
    hide KeysOk, Chosen, Ids, LeaseJob, ExpireJob;
    if id in Ids(Chosen(s, queue, batch, now)) {
      ChosenIsDue(s, queue, batch, now, id);
    }
  }

  /** Operations aimed at one job. */
  lemma LocalTarget(s: State, now: Time, op: Op, id: Uuid)
    requires id in s.jobs
    requires op.OpRetry? || op.OpDeadLetter? || op.OpCancel? || op.OpExtend?
    ensures id in Apply(s, now, op).jobs
    ensures Apply(s, now, op).jobs[id] == ApplyMove(s.jobs[id], now, MoveOf(s, now, op, id))
  {
    hide Enqueue, Lease, Reap, Start, Succeed, Archive, PruneHistory, Replay, Finishable, Cancelable, Holds;
    hide UnlockJob, RetryJob, DeadJob, ExtendJob, LeaseJob, ExpireJob;
  }

  lemma LocalSucceed(s: State, target: Uuid, attempt: Uuid, worker: string, latency: int, newId: Uuid, now: Time,
                     id: Uuid)
    requires id in s.jobs && newId !in s.jobs
    ensures id in Succeed(s, target, attempt, worker, latency, newId, now).jobs
    ensures Succeed(s, target, attempt, worker, latency, newId, now).jobs[id]
         == ApplyMove(s.jobs[id], now, MoveOf(s, now, OpSucceed(target, attempt, worker, latency, newId), id))
  {
    hide Finishable, UnlockJob;
  }

  /** A live job stays in the table and moves locally, or is archived as it stands. */
  lemma LocalMove(s: State, now: Time, op: Op, id: Uuid)
    requires KeysOk(s) && Legal(s, op)
    requires id in s.jobs
    ensures var t := Apply(s, now, op);
      Known(t, id) && Record(t, id) == ApplyMove(s.jobs[id], now, MoveOf(s, now, op, id)) &&
      (id !in t.jobs ==> s.jobs[id].status.Succeeded?)
  {
    hide Lease, Succeed, Retry, DeadLetter, Cancel, Extend, Finishable, Cancelable, Holds, Chosen, ReapAttempt;
    hide UnlockJob, RetryJob, DeadJob, ExtendJob, LeaseJob, ExpireJob;
    match op {
      case OpLease(queue, worker, seconds, batch) =>
        LocalLease(s, queue, worker, seconds, batch, now, id);
      case OpSucceed(target, attempt, worker, latency, newId) =>
        LocalSucceed(s, target, attempt, worker, latency, newId, now, id);
      case OpRetry(_, _, _, _, _, _, _) =>
        LocalTarget(s, now, op, id);
      case OpDeadLetter(_, _, _, _, _, _, _) =>
        LocalTarget(s, now, op, id);
      case OpCancel(_, _) =>
        LocalTarget(s, now, op, id);
      case OpExtend(_, _, _) =>
        LocalTarget(s, now, op, id);
      case _ =>
    }
  }

  lemma NeverInBoth(s: State, now: Time, op: Op, id: Uuid)
    requires KeysOk(s) && Legal(s, op)
    requires id in s.jobs
    ensures id in Apply(s, now, op).jobs ==> id !in Apply(s, now, op).archive
  {
    hide Chosen, FailAttempt, PassAttempt, OpenAttempt, UnlockJob, RetryJob, DeadJob, LeaseJob, ExpireJob;
  }

  lemma ArchiveStays(s: State, now: Time, op: Op, id: Uuid)
    requires KeysOk(s) && Legal(s, op)
    requires id in s.archive
    ensures id in Apply(s, now, op).archive && id !in Apply(s, now, op).jobs
    ensures Apply(s, now, op).archive[id] == s.archive[id]
  {
    hide Chosen, FailAttempt, PassAttempt, OpenAttempt, UnlockJob, RetryJob, DeadJob, LeaseJob, ExpireJob;
    if op.OpArchive? {
      assert id !in op.ids;
    }
  }

  lemma OnlyAdded(s: State, now: Time, op: Op, id: Uuid)
    requires KeysOk(s) && Legal(s, op)
    requires Known(Apply(s, now, op), id) && !Known(s, id)
    ensures Added(s, now, op).Some? && Added(s, now, op).value.id == id
    ensures id in Apply(s, now, op).jobs && Apply(s, now, op).jobs[id] == Added(s, now, op).value
    ensures id !in s.born && Apply(s, now, op).born == s.born[id := |s.born|]
    ensures id !in Apply(s, now, op).archive
  {
    hide Chosen, FailAttempt, PassAttempt, OpenAttempt;
  }

  /** Generated identifiers stay generated, in the order in which they were. */
  lemma BornStep(s: State, now: Time, op: Op)
    requires Legal(s, op)
    requires forall id | id in s.born :: s.born[id] < |s.born|
    ensures forall id | id in s.born :: id in Apply(s, now, op).born && Apply(s, now, op).born[id] == s.born[id]
    ensures var b := Apply(s, now, op).born; forall id | id in b :: b[id] < |b|
  {
    hide Chosen, FailAttempt, PassAttempt, OpenAttempt, UnlockJob, RetryJob, DeadJob, LeaseJob, ExpireJob;
  }

  lemma AddedIsThere(s: State, now: Time, op: Op)
    requires KeysOk(s) && Legal(s, op)
    requires Added(s, now, op).Some?
    ensures var j := Added(s, now, op).value;
      j.id in Apply(s, now, op).jobs && Apply(s, now, op).jobs[j.id] == j && !Known(s, j.id)
  {
    hide Chosen, FailAttempt, PassAttempt, OpenAttempt;
  }

  /** The guard each move carries. */
  ghost predicate Guarded(j: Job, now: Time, m: Move) {
    match m
    case Stay => true
    case Expire => j.status.Queued? && j.runAt <= now && j.deadlineAt.Some? && j.deadlineAt.value < now
    case Grant(_, _) => j.status.Queued? && j.runAt <= now && (j.deadlineAt.None? || now <= j.deadlineAt.value)
    case Reclaim => Lapsed(j, now)
    case Withdraw => j.status.Queued? || j.status.Running?
    case _ => j.status.Running?
  }

  lemma MoveIsGuarded(s: State, now: Time, op: Op, id: Uuid)
    requires KeysOk(s)
    requires id in s.jobs
    ensures Guarded(s.jobs[id], now, MoveOf(s, now, op, id))
  {
    hide Chosen, Ids, KeysOk;
    if op.OpLease? && MoveOf(s, now, op, id).Grant? {
      ChosenIsDue(s, op.queue, op.batch, now, id);
    }
  }

  /** Which operation, by whom, makes a move that ends or starts a lease. */
  lemma MoveCause(s: State, now: Time, op: Op, id: Uuid)
    requires id in s.jobs
    ensures var m := MoveOf(s, now, op, id);
      && (m.Grant? ==> op.OpLease? && op.worker == m.worker && m.expires == now + op.seconds * SECOND)
      && (m.Expire? ==> op.OpLease?)
      && (m.Reclaim? ==> op.OpReap?)
      && (m.Reschedule? ==>
            op.OpRetry? && op.id == id && m.runAt == op.runAt && Finishable(s, id, op.attempt, op.worker))
      && (m.Complete? ==> op.OpSucceed? && op.id == id && Finishable(s, id, op.attempt, op.worker))
      && (m.Bury? ==> op.OpDeadLetter? && op.id == id && Finishable(s, id, op.attempt, op.worker))
      && (m.Withdraw? ==> op.OpCancel? && op.id == id && Cancelable(s, id, op.caller))
      && (m.Renew? ==> op.OpExtend? && op.id == id && Holds(s, id, op.worker))
  {
    hide Chosen, Ids, Finishable, Cancelable, Holds;
  }

  // Attempts

  /** `op` closes the running attempt `a`. */
  ghost predicate Closes(s: State, now: Time, op: Op, a: Uuid)
    requires a in s.attempts
  {
    match op
    case OpReap => s.attempts[a].jobId in s.jobs && Lapsed(s.jobs[s.attempts[a].jobId], now)
    case OpSucceed(target, attempt, worker, _, _) => attempt == a && Finishable(s, target, a, worker)
    case OpRetry(target, attempt, worker, _, _, _, _) => attempt == a && Finishable(s, target, a, worker)
    case OpDeadLetter(target, attempt, worker, _, _, _, _) => attempt == a && Finishable(s, target, a, worker)
    case OpCancel(target, caller) =>
      Cancelable(s, target, caller) && s.jobs[target].status.Running? && LatestOpen(s, target, a)
    case _ => false
  }

  predicate Quiet(op: Op) {
    op.OpEnqueue? || op.OpLease? || op.OpExtend? || op.OpArchive? || op.OpReplay?
  }

  lemma QuietStep(s: State, now: Time, op: Op)
    requires Legal(s, op) && Quiet(op)
    ensures Apply(s, now, op).attempts == s.attempts
    ensures Apply(s, now, op).counts == s.counts
  {
    hide Sweep, Chosen, FreshJob, Reap, Succeed, Retry, DeadLetter, Cancel, Start, PruneHistory;
  }

  lemma PrunedIsArchived(s: State, now: Time, op: Op, a: Uuid)
    requires Legal(s, op) && op.OpPrune? && a in op.attempts
    ensures a in s.attempts && s.attempts[a].jobId in s.archive
  {
    assert a in PrunableSet(s, op.cutoff);
  }

  /** Identity is kept, a closed attempt is untouched, and an open one is untouched unless this step closes it. */
  predicate AttemptKept(before: Attempt, after: Attempt, closes: bool) {
    && after.id == before.id
    && after.jobId == before.jobId
    && after.attemptNo == before.attemptNo
    && after.workerId == before.workerId
    && (!before.status.AttemptRunning? || !closes ==> after == before)
    && (before.status.AttemptRunning? && closes ==> !after.status.AttemptRunning?)
  }

  lemma AttemptScan(s: State, now: Time, op: Op, a: Uuid)
    requires op.OpReap? || op.OpCancel?
    requires a in s.attempts
    ensures a in Apply(s, now, op).attempts
    ensures AttemptKept(s.attempts[a], Apply(s, now, op).attempts[a], Closes(s, now, op, a))
  {
    hide Enqueue, Lease, Extend, Archive, Replay, Succeed, Retry, DeadLetter, Start, UnlockJob, Cancelable;
  }

  lemma AttemptTarget(s: State, now: Time, op: Op, a: Uuid)
    requires op.OpSucceed? || op.OpRetry? || op.OpDeadLetter?
    requires Legal(s, op)
    requires a in s.attempts
    ensures a in Apply(s, now, op).attempts
    ensures AttemptKept(s.attempts[a], Apply(s, now, op).attempts[a], Closes(s, now, op, a))
    ensures op.OpRetry? && Closes(s, now, op, a) ==> Apply(s, now, op).attempts[a].status.AttemptFailed?
  {
    hide Enqueue, Lease, Extend, Archive, Replay, Reap, Cancel, Start, UnlockJob, RetryJob, DeadJob, NextOccurrence;
    hide Legal, Holds, PruneHistory;
  }

  /** An attempt keeps its identity; once closed it is never touched again, except that maintenance may drop it. */
  lemma AttemptStep(s: State, now: Time, op: Op, a: Uuid)
    requires KeysOk(s) && Legal(s, op)
    requires a in s.attempts
    ensures a in Apply(s, now, op).attempts ==>
      AttemptKept(s.attempts[a], Apply(s, now, op).attempts[a], Closes(s, now, op, a))
    ensures a !in Apply(s, now, op).attempts ==> op.OpPrune? && s.attempts[a].jobId in s.archive
  {
    hide Enqueue, Lease, Extend, Archive, Replay, Reap, Cancel, Succeed, Retry, DeadLetter;
    if Quiet(op) {
      QuietStep(s, now, op);
    } else if op.OpReap? || op.OpCancel? {
      AttemptScan(s, now, op, a);
    } else if op.OpPrune? {
      if a in op.attempts {
        PrunedIsArchived(s, now, op, a);
      }
    } else if !op.OpStart? {
      AttemptTarget(s, now, op, a);
    }
  }

  /** `op` opens an attempt on job `id`. */
  ghost predicate Opens(s: State, op: Op, id: Uuid) {
    op.OpStart? && op.id == id && Holds(s, id, op.worker)
  }

  lemma OnlyOpened(s: State, now: Time, op: Op, a: Uuid)
    requires KeysOk(s) && Legal(s, op)
    requires a in Apply(s, now, op).attempts && a !in s.attempts
    ensures op.OpStart? && op.newId == a && Opens(s, op, op.id)
    ensures Apply(s, now, op).attempts[a] == OpenAttempt(a, op.id, CountOf(s, op.id) + 1, op.worker, now)
    ensures a in Apply(s, now, op).born && a !in s.born
  {
    hide Enqueue, Lease, Extend, Archive, Replay, UnlockJob, RetryJob, DeadJob, NextOccurrence, LatestOpen, FailAttempt;
    if Quiet(op) {
      QuietStep(s, now, op);
    }
  }

  /** The attempt counter of a job counts the attempts opened on it; nothing resets it. */
  lemma CountStep(s: State, now: Time, op: Op, id: Uuid)
    requires Legal(s, op)
    ensures CountOf(Apply(s, now, op), id) == CountOf(s, id) + (if Opens(s, op, id) then 1 else 0)
    ensures id in Apply(s, now, op).counts ==> id in s.counts || id in s.jobs
  {
    hide UnlockJob, RetryJob, DeadJob, NextOccurrence, LatestOpen, FailAttempt, Chosen, FreshJob;
  }
}
