/** A stale attempt can never finish a job that has moved on. */
module Fencing {
  import opened Model
  import opened Ordering
  import opened Store
  import opened Locality
  import opened Invariants
  import opened Runs
  import opened Leases

  ghost predicate IsOpen(s: State, a: Uuid) {
    a in s.attempts && s.attempts[a].status.AttemptRunning?
  }

  /** `op` asks to complete, retry or dead-letter job `id` in the name of attempt `a`. */
  predicate Finishes(op: Op, id: Uuid, a: Uuid) {
    (op.OpSucceed? || op.OpRetry? || op.OpDeadLetter?) && op.id == id && op.attempt == a
  }

  lemma StepStaysClosed(r: Run, i: nat, a: Uuid)
    requires IsRun(r) && i < |r.ops|
    requires a in r.states[i].born && !IsOpen(r.states[i], a)
    ensures a in r.states[i + 1].born && !IsOpen(r.states[i + 1], a)
  {
    hide Apply, Legal, LocksOk, NumbersOk, KeysUnique, LineageOk;
    var s := r.states[i];
    RunInv(r, i);
    assert StepAt(r, i);
    BornStep(s, r.times[i], r.ops[i]);
    if a in s.attempts {
      AttemptStep(s, r.times[i], r.ops[i], a);
    } else if a in r.states[i + 1].attempts {
      OnlyOpened(s, r.times[i], r.ops[i], a);
    }
  }

  lemma {:induction false} ClosedForever(r: Run, i: nat, j: nat, a: Uuid)
    requires IsRun(r) && i <= j < |r.states|
    requires a in r.states[i].born && !IsOpen(r.states[i], a)
    ensures a in r.states[j].born && !IsOpen(r.states[j], a)
    decreases j - i
  {
    if i < j {
      ClosedForever(r, i, j - 1, a);
      StepStaysClosed(r, j - 1, a);
    }
  }

  lemma ClosedCannotFinish(s: State, now: Time, op: Op, id: Uuid, a: Uuid)
    requires Legal(s, op) && Finishes(op, id, a) && !OpenFor(s, id, a)
    ensures Apply(s, now, op) == s
  {
    hide Enqueue, Lease, Reap, Start, Cancel, Extend, Archive, PruneHistory, Replay;
  }

  /** An attempt of a job that a reap took back changes nothing ever after, whoever presents it. */
  lemma ReapFencesAttempts(r: Run, i: nat, j: nat, a: Uuid)
    requires IsRun(r) && i < j < |r.ops|
    requires a in r.states[i].attempts
    requires var id := r.states[i].attempts[a].jobId; id in r.states[i].jobs && MoveAt(r, i, id).Reclaim?
    requires Finishes(r.ops[j], r.states[i].attempts[a].jobId, a)
    ensures r.states[j + 1] == r.states[j]
  {
    hide Apply, Legal, LocksOk, NumbersOk, KeysUnique, LineageOk;
    var id := r.states[i].attempts[a].jobId;
    RunInv(r, i);
    assert StepAt(r, i) && StepAt(r, j);
    MoveCause(r.states[i], r.times[i], r.ops[i], id);
    MoveIsGuarded(r.states[i], r.times[i], r.ops[i], id);
    AttemptStep(r.states[i], r.times[i], r.ops[i], a);
    BornStep(r.states[i], r.times[i], r.ops[i]);
    ClosedForever(r, i + 1, j, a);
    ClosedCannotFinish(r.states[j], r.times[j], r.ops[j], id, a);
  }

  // Attempts opened once per lease, as the worker loop does.

  /** An attempt has been opened on job `id` since the job was last leased. */
  ghost predicate OpenedSinceLease(r: Run, i: nat, id: Uuid)
    requires Shaped(r) && i < |r.states|
  {
    i > 0 &&
    (if Leased(r, i - 1, id) then false
     else Opens(r.states[i - 1], r.ops[i - 1], id) || OpenedSinceLease(r, i - 1, id))
  }

  ghost predicate OncePerLease(r: Run)
    requires Shaped(r)
  {
    forall i, id | 0 <= i < |r.ops| && Opens(r.states[i], r.ops[i], id) :: !OpenedSinceLease(r, i, id)
  }

  /** Every open attempt belongs to the current lease, opened after it began by the worker that holds it. */
  ghost predicate CurrentOnly(r: Run, i: nat)
    requires Shaped(r) && i < |r.states|
  {
    var s := r.states[i];
    && (forall a | IsOpen(s, a) :: Holds(s, s.attempts[a].jobId, s.attempts[a].workerId))
    && (forall a | IsOpen(s, a) :: OpenedSinceLease(r, i, s.attempts[a].jobId))
    && (forall a, b | IsOpen(s, a) && IsOpen(s, b) && s.attempts[a].jobId == s.attempts[b].jobId :: a == b)
  }

  /** While its only open attempt stays open, the job stays with its holder. */
  lemma HeldWhileOpen(s: State, now: Time, op: Op, id: Uuid, a: Uuid, worker: string)
    requires KeysOk(s) && Legal(s, op)
    requires Holds(s, id, worker) && OpenFor(s, id, a)
    requires forall b | OpenFor(s, id, b) :: b == a
    requires !Closes(s, now, op, a)
    ensures Holds(Apply(s, now, op), id, worker)
    ensures !MoveOf(s, now, op, id).Grant?
  {
    hide Apply, Legal, KeysOk, MoveOf;
    MoveCause(s, now, op, id);
    MoveIsGuarded(s, now, op, id);
    LocalMove(s, now, op, id);
    assert LatestOpen(s, id, a);
  }

  /** An attempt open after a step was open before it and not closed by it, or the step opened it. */
  lemma OpenBefore(s: State, now: Time, op: Op, a: Uuid)
    requires KeysOk(s) && Legal(s, op)
    requires IsOpen(Apply(s, now, op), a)
    ensures IsOpen(s, a) ==> !Closes(s, now, op, a) && Apply(s, now, op).attempts[a] == s.attempts[a]
    ensures !IsOpen(s, a) ==>
      op.OpStart? && op.newId == a && Opens(s, op, op.id) &&
      Apply(s, now, op).attempts[a].jobId == op.id && Apply(s, now, op).attempts[a].workerId == op.worker
  {
    hide Apply, Legal, KeysOk;
    if a in s.attempts {
      AttemptStep(s, now, op, a);
    } else {
      OnlyOpened(s, now, op, a);
    }
  }

  lemma StartKeepsHolds(s: State, now: Time, op: Op)
    requires Legal(s, op) && op.OpStart? && Opens(s, op, op.id)
    ensures Holds(Apply(s, now, op), op.id, op.worker)
  {
    hide Enqueue, Lease, Reap, Cancel, Extend, Archive, PruneHistory, Replay, Succeed, Retry, DeadLetter;
  }

  lemma CurrentStep(r: Run, i: nat, a: Uuid)
    requires IsRun(r) && i < |r.ops| && CurrentOnly(r, i)
    requires IsOpen(r.states[i + 1], a)
    ensures var s := r.states[i + 1];
      Holds(s, s.attempts[a].jobId, s.attempts[a].workerId) && OpenedSinceLease(r, i + 1, s.attempts[a].jobId)
  {
    hide Apply, Legal, LocksOk, NumbersOk, KeysUnique, LineageOk, MoveOf, Closes;
    var s, now, op := r.states[i], r.times[i], r.ops[i];
    RunInv(r, i);
    hide KeysOk;
    assert StepAt(r, i);
    OpenBefore(s, now, op, a);
    if IsOpen(s, a) {
      HeldWhileOpen(s, now, op, s.attempts[a].jobId, a, s.attempts[a].workerId);
    } else {
      StartKeepsHolds(s, now, op);
      MoveCause(s, now, op, op.id);
    }
  }

  lemma OneOpenStep(r: Run, i: nat, a: Uuid, b: Uuid)
    requires IsRun(r) && i < |r.ops| && CurrentOnly(r, i) && OncePerLease(r)
    requires IsOpen(r.states[i + 1], a) && IsOpen(r.states[i + 1], b)
    requires r.states[i + 1].attempts[a].jobId == r.states[i + 1].attempts[b].jobId
    ensures a == b
  {
    hide Apply, Legal, LocksOk, NumbersOk, KeysUnique, LineageOk, MoveOf, Closes, OpenedSinceLease, Holds;
    RunInv(r, i);
    hide KeysOk;
    assert StepAt(r, i);
    OpenBefore(r.states[i], r.times[i], r.ops[i], a);
    OpenBefore(r.states[i], r.times[i], r.ops[i], b);
  }

  /** If attempts are opened once per lease, each job has at most one open attempt, and it is its holder's. */
  lemma {:induction false} OneCurrentAttempt(r: Run, i: nat)
    requires IsRun(r) && OncePerLease(r) && i < |r.states|
    ensures CurrentOnly(r, i)
  {
    hide StepAt, OncePerLease;
    if i > 0 {
      OneCurrentAttempt(r, i - 1);
      var s := r.states[i];
      forall a | IsOpen(s, a)
        ensures Holds(s, s.attempts[a].jobId, s.attempts[a].workerId)
        ensures OpenedSinceLease(r, i, s.attempts[a].jobId)
      {
        CurrentStep(r, i - 1, a);
      }
      forall a, b | IsOpen(s, a) && IsOpen(s, b) && s.attempts[a].jobId == s.attempts[b].jobId
        ensures a == b
      {
        OneOpenStep(r, i - 1, a, b);
      }
    }
  }

  /** Once a job is leased again, by whichever worker, no attempt opened before that lease can finish it. */
  lemma NewLeaseFencesOldAttempts(r: Run, i: nat, j: nat, id: Uuid, a: Uuid)
    requires IsRun(r) && OncePerLease(r) && i < j < |r.ops|
    requires Leased(r, i, id) && a in r.states[i].born
    requires Finishes(r.ops[j], id, a)
    ensures r.states[j + 1] == r.states[j]
  {
    hide Apply, Legal, MoveOf, OncePerLease;
    OneCurrentAttempt(r, i);
    JobStep(r, i, id);
    assert StepAt(r, j);
    if IsOpen(r.states[j], a) {
      AttemptJobFixed(r, i, j, a);
    }
    ClosedCannotFinish(r.states[j], r.times[j], r.ops[j], id, a);
  }

  lemma {:induction false} AttemptJobFixed(r: Run, i: nat, j: nat, a: Uuid)
    requires IsRun(r) && i <= j < |r.states|
    requires a in r.states[i].born && IsOpen(r.states[j], a)
    ensures IsOpen(r.states[i], a) && r.states[i].attempts[a].jobId == r.states[j].attempts[a].jobId
    decreases j - i
  {
    if !IsOpen(r.states[i], a) {
      ClosedForever(r, i, j, a);
    } else if i < j {
      OpenStep(r, i, j, a);
      AttemptJobFixed(r, i + 1, j, a);
    }
  }

  lemma OpenStep(r: Run, i: nat, j: nat, a: Uuid)
    requires IsRun(r) && i < j < |r.states|
    requires IsOpen(r.states[i], a) && IsOpen(r.states[j], a)
    ensures IsOpen(r.states[i + 1], a) && r.states[i + 1].attempts[a].jobId == r.states[i].attempts[a].jobId
    ensures a in r.states[i + 1].born
  {
    hide Apply, Legal, LocksOk, NumbersOk, KeysUnique, LineageOk;
    RunInv(r, i);
    assert StepAt(r, i);
    BornStep(r.states[i], r.times[i], r.ops[i]);
    AttemptStep(r.states[i], r.times[i], r.ops[i], a);
    if !IsOpen(r.states[i + 1], a) {
      ClosedForever(r, i + 1, j, a);
    }
  }

  // The discipline is needed: a second attempt opened under the same lease outlives it.

  lemma SecondAttemptIsAccepted(s: State, id: Uuid, worker: string, a: Uuid, b: Uuid, now: Time)
    requires Holds(s, id, worker) && a != b
    ensures var t := Start(Start(s, id, worker, a, now), id, worker, b, now);
      Holds(t, id, worker) && OpenFor(t, id, a) && OpenFor(t, id, b)
  {
  }

  /**
   * The holder retries under one attempt, and whoever leases the job next can finish it under the other. Every lease
   * large enough is such a lease if the job is due and in time.
   */
  lemma SecondAttemptOutlivesLease(s: State, id: Uuid, worker: string, a: Uuid, b: Uuid, runAt: Time, now: Time)
    requires Holds(s, id, worker) && OpenFor(s, id, a) && OpenFor(s, id, b) && a != b
    ensures var t := Retry(s, id, a, worker, 0, runAt, "", "", now);
      && id in t.jobs && t.jobs[id].status.Queued?
      && (forall queue, next: string, seconds, batch, later: Time
            | Holds(Lease(t, queue, next, seconds, batch, later), id, next) ::
            Finishable(Lease(t, queue, next, seconds, batch, later), id, b, next))
      && (forall next: string, seconds, batch, later: Time
            | Takes(t, id, batch, later) ::
            Holds(Lease(t, t.jobs[id].queue, next, seconds, batch, later), id, next))
  {
    RetryLeavesOther(s, id, worker, a, b, runAt, now);
    hide Retry;
    var t := Retry(s, id, a, worker, 0, runAt, "", "", now);
    forall queue, next: string, seconds, batch, later: Time
      | Holds(Lease(t, queue, next, seconds, batch, later), id, next)
      ensures Finishable(Lease(t, queue, next, seconds, batch, later), id, b, next)
    {
      LeaseKeepsAttempts(t, queue, next, seconds, batch, later);
    }
    forall next: string, seconds, batch, later: Time | Takes(t, id, batch, later)
      ensures Holds(Lease(t, t.jobs[id].queue, next, seconds, batch, later), id, next)
    {
      LargeLeaseTakes(t, id, next, seconds, batch, later);
    }
  }

  lemma RetryLeavesOther(s: State, id: Uuid, worker: string, a: Uuid, b: Uuid, runAt: Time, now: Time)
    requires Holds(s, id, worker) && OpenFor(s, id, a) && OpenFor(s, id, b) && a != b
    ensures var t := Retry(s, id, a, worker, 0, runAt, "", "", now);
      id in t.jobs && t.jobs[id].status.Queued? && OpenFor(t, id, b)
  {
  }

  /** A lease of `batch` jobs takes all that are due, and job `id` is one of them. */
  ghost predicate Takes(t: State, id: Uuid, batch: int, now: Time) {
    && id in t.jobs && t.jobs[id].id == id && Due(t.jobs[id], t.jobs[id].queue, now)
    && !Overdue(t.jobs[id], t.jobs[id].queue, now)
    && |DueEntries(Sweep(t.jobs, t.jobs[id].queue, now), t.jobs[id].queue, now)| <= batch
  }

  lemma LargeLeaseTakes(t: State, id: Uuid, worker: string, seconds: int, batch: int, now: Time)
    requires Takes(t, id, batch, now)
    ensures Holds(Lease(t, t.jobs[id].queue, worker, seconds, batch, now), id, worker)
  {
    hide SortSet, StrictTotal, Before;
    var j, queue := t.jobs[id], t.jobs[id].queue;
    var swept := Sweep(t.jobs, queue, now);
    assert FromJob(swept[id]) in DueEntries(swept, queue, now);
    var ranking := Ranking(t.jobs, queue, now);
    assert FromJob(j) in Elements(ranking);
    assert Chosen(t, queue, batch, now) == ranking;
    assert id in Ids(ranking);
  }

  lemma OnlyJobLeasedAgain(s: State, id: Uuid, worker: string, a: Uuid, b: Uuid, runAt: Time, now: Time,
                           next: string, seconds: int)
    requires Holds(s, id, worker) && OpenFor(s, id, a) && OpenFor(s, id, b) && a != b
    requires s.jobs.Keys == {id} && s.jobs[id].id == id && s.jobs[id].deadlineAt.None? && runAt <= now
    ensures var j, t := s.jobs[id], Retry(s, id, a, worker, 0, runAt, "", "", now);
      && id in t.jobs && t.jobs[id].status.Queued?
      && MoveOf(t, now, OpLease(j.queue, next, seconds, 1), id).Grant?
      && Finishable(Lease(t, j.queue, next, seconds, 1, now), id, b, next)
  {
    hide Lease, MoveOf;
    var j, t := s.jobs[id], Retry(s, id, a, worker, 0, runAt, "", "", now);
    assert t.jobs == map[id := RetryJob(j, runAt, now)];
    OnlyJobIsLeased(t, id, RetryJob(j, runAt, now), next, seconds, now);
    LeaseKeepsAttempts(t, j.queue, next, seconds, 1, now);
  }

  lemma LeaseKeepsAttempts(s: State, queue: string, worker: string, seconds: int, batch: int, now: Time)
    ensures Lease(s, queue, worker, seconds, batch, now).attempts == s.attempts
    ensures Lease(s, queue, worker, seconds, batch, now).born == s.born
  {
    hide Chosen, Sweep, MarkLeased, Ids;
  }

  /** A holder can open two attempts under one lease. */
  lemma StartTwice(r: Run, id: Uuid, worker: string, a: Uuid, b: Uuid, now: Time) returns (t: Run)
    requires IsRun(r) && By(r, now) && Holds(Last(r), id, worker)
    requires a != b && a !in Last(r).born && b !in Last(r).born
    ensures Shaped(t) && IsRun(t) && By(t, now) && Continues(r, t) && !OncePerLease(t)
    ensures |t.ops| == |r.ops| + 2 && t.ops[|r.ops| + 1] == OpStart(id, worker, b)
    ensures var s := Last(t);
      && s.jobs == Last(r).jobs && OpenFor(s, id, a) && OpenFor(s, id, b)
      && s.born.Keys == Last(r).born.Keys + {a, b}
  {
    hide Start, Holds, OpenFor, IsRun, By, OncePerLease;
    IsShaped(r);
    TwoStarts(Last(r), id, worker, a, b, now);
    ThenIsRun(r, now, OpStart(id, worker, a));
    var u := Then(r, now, OpStart(id, worker, a));
    ThenIsRun(u, now, OpStart(id, worker, b));
    t := Then(u, now, OpStart(id, worker, b));
    OpenedTwice(t, |r.ops|, id);
  }

  lemma IsShaped(r: Run)
    requires IsRun(r)
    ensures Shaped(r)
  {
  }

  /** `worker` leases the only job there is and opens attempts `a` and `b` under that lease. */
  lemma OpenedTwiceRun(n: NewJob, id: Uuid, worker: string, a: Uuid, b: Uuid) returns (r: Run)
    requires n.runAt <= 0 && n.deadlineAt.None? && id != a && id != b && a != b
    ensures Shaped(r) && IsRun(r) && By(r, 0) && |r.ops| == 4 && Leased(r, 1, id) && !OncePerLease(r)
    ensures r.ops[3] == OpStart(id, worker, b)
    ensures var s := Last(r);
      && s.jobs == map[id := LeaseJob(FreshJob(n, id, 0), worker, SECOND, 0)]
      && OpenFor(s, id, a) && OpenFor(s, id, b) && s.born.Keys == {id, a, b}
  {
    hide Lease, Chosen, Ids, MoveOf, Start, OpenFor, IsRun, By, OncePerLease;
    FirstLease(n, id, worker);
    EmptyRun(0);
    ThenIsRun(NO_STEPS, 0, OpEnqueue(n, id));
    var r1 := Then(NO_STEPS, 0, OpEnqueue(n, id));
    hide Enqueue, FreshJob, Holds;
    ThenIsRun(r1, 0, OpLease(n.queue, worker, 1, 1));
    var r2 := Then(r1, 0, OpLease(n.queue, worker, 1, 1));
    r := StartTwice(r2, id, worker, a, b, 0);
    assert r.states[1] == r2.states[1] && r.ops[1] == r2.ops[1] && r.times[1] == r2.times[1];
  }

  /**
   * A run in which `worker` opens two attempts under one lease and gives the job back under the first; `next` leases it
   * and completes it under the second, which was opened before its lease.
   */
  lemma OldAttemptCompletes(n: NewJob, id: Uuid, worker: string, next: string, a: Uuid, b: Uuid, newId: Uuid)
      returns (r: Run)
    requires n.runAt <= 0 && n.deadlineAt.None?
    requires id != a && id != b && a != b && newId !in {id, a, b}
    ensures IsRun(r) && |r.ops| == 7 && Leased(r, 5, id)
    ensures r.ops[3] == OpStart(id, worker, b) && r.ops[6] == OpSucceed(id, b, next, 0, newId)
    ensures id in r.states[7].jobs && r.states[7].jobs[id].status.Succeeded?
  {
    hide Lease, Chosen, Ids, MoveOf, Succeed, Retry, IsRun, By, OncePerLease, FreshJob;
    var r4 := OpenedTwiceRun(n, id, worker, a, b);
    var s := Last(r4);
    var j := s.jobs[id];
    FreshFields(n, id);
    OnlyJobLeasedAgain(s, id, worker, a, b, 0, 0, next, 1);
    RetryKeepsBorn(s, id, a, worker, 0, 0);
    hide OpenFor, Holds;
    var retry, lease := OpRetry(id, a, worker, 0, 0, "", ""), OpLease(n.queue, next, 1, 1);
    ThenIsRun(r4, 0, retry);
    var r5 := Then(r4, 0, retry);
    LeaseKeepsAttempts(Last(r5), n.queue, next, 1, 1, 0);
    ThenIsRun(r5, 0, lease);
    var r6 := Then(r5, 0, lease);
    SucceedCompletes(Last(r6), id, b, next, newId, 0);
    hide Finishable;
    ThenIsRun(r6, 0, OpSucceed(id, b, next, 0, newId));
    r := Then(r6, 0, OpSucceed(id, b, next, 0, newId));
  }

  lemma FreshFields(n: NewJob, id: Uuid)
    ensures var j := FreshJob(n, id, 0); j.id == id && j.queue == n.queue && j.deadlineAt == n.deadlineAt
  {
  }

  lemma FirstLease(n: NewJob, id: Uuid, worker: string)
    requires n.runAt <= 0 && n.deadlineAt.None?
    ensures var s := Enqueue(EMPTY, n, id, 0);
      var t := Lease(s, n.queue, worker, 1, 1, 0);
      && s.born == t.born == map[id := 0]
      && id in s.jobs && MoveOf(s, 0, OpLease(n.queue, worker, 1, 1), id).Grant?
      && t.jobs == map[id := LeaseJob(FreshJob(n, id, 0), worker, SECOND, 0)] && Holds(t, id, worker)
  {
    hide Lease, MoveOf;
    var s := Enqueue(EMPTY, n, id, 0);
    assert s.jobs == map[id := FreshJob(n, id, 0)];
    OnlyJobIsLeased(s, id, FreshJob(n, id, 0), worker, 1, 0);
    LeaseKeepsAttempts(s, n.queue, worker, 1, 1, 0);
  }

  lemma OpenedTwice(r: Run, i: nat, id: Uuid)
    requires Shaped(r) && i + 1 < |r.ops|
    requires Opens(r.states[i], r.ops[i], id) && Opens(r.states[i + 1], r.ops[i + 1], id)
    ensures !OncePerLease(r)
  {
    hide Lease, Chosen, Ids;
    assert OpenedSinceLease(r, i + 1, id);
  }

  lemma TwoStarts(s: State, id: Uuid, worker: string, a: Uuid, b: Uuid, now: Time)
    requires Holds(s, id, worker) && a != b && a !in s.born && b !in s.born
    ensures var t := Start(s, id, worker, a, now);
      var u := Start(t, id, worker, b, now);
      && Holds(t, id, worker) && t.jobs == u.jobs == s.jobs && OpenFor(u, id, a) && OpenFor(u, id, b)
      && t.born.Keys == s.born.Keys + {a} && u.born.Keys == s.born.Keys + {a, b}
  {
  }

  lemma RetryKeepsBorn(s: State, id: Uuid, a: Uuid, worker: string, runAt: Time, now: Time)
    ensures Retry(s, id, a, worker, 0, runAt, "", "", now).born == s.born
  {
  }

  lemma SucceedCompletes(s: State, id: Uuid, b: Uuid, worker: string, newId: Uuid, now: Time)
    requires Finishable(s, id, b, worker) && newId != id
    ensures var t := Succeed(s, id, b, worker, 0, newId, now); id in t.jobs && t.jobs[id].status.Succeeded?
  {
  }
}
