/** The canonical lifecycle, derived from the persisted record and its attempt history. */
module Lifecycle {
  import M = Model
  import opened Store
  import opened Locality
  import opened Invariants
  import opened Runs

  datatype Phase = Scheduled | Queued | Running | Completed | RetryWait | Cancelled | Dead

  function LegalSuccessors(p: Phase): set<Phase> {
    match p
    case Scheduled => {Queued}
    case Queued => {Running}
    case Running => {Completed, RetryWait, Cancelled, Dead}
    case RetryWait => {Queued}
    case Completed => {}
    case Cancelled => {}
    case Dead => {}
  }

  /** `from_persisted`; the legacy status `failed` has no phase. */
  function FromPersisted(status: M.Status, runAt: M.Time, now: M.Time, failedAttempts: nat): (p: M.Option<Phase>)
    ensures p == M.Some(Queued) <==> status == M.Queued && runAt <= now
    ensures p == M.Some(Scheduled) <==> status == M.Queued && now < runAt && failedAttempts == 0
    ensures p == M.Some(RetryWait) <==> status == M.Queued && now < runAt && failedAttempts > 0
    ensures p == M.Some(Running) <==> status == M.Running
    ensures p == M.Some(Completed) <==> status == M.Succeeded
    ensures p == M.Some(Dead) <==> status == M.Dlq
    ensures p == M.Some(Cancelled) <==> status == M.Canceled
  {
    match status
    case Queued =>
      if runAt > now && failedAttempts > 0 then M.Some(RetryWait)
      else if runAt > now then M.Some(Scheduled)
      else M.Some(Queued)
    case Running => M.Some(Running)
    case Succeeded => M.Some(Completed)
    case Dlq => M.Some(Dead)
    case Canceled => M.Some(Cancelled)
    case Failed => M.None
  }

  ghost function FailedAttempts(s: State, id: M.Uuid): set<M.Uuid> {
    set a | a in s.attempts && s.attempts[a].jobId == id && s.attempts[a].status.AttemptFailed?
  }

  ghost function PhaseOf(s: State, id: M.Uuid, now: M.Time): M.Option<Phase>
    requires Known(s, id)
  {
    FromPersisted(Record(s, id).status, Record(s, id).runAt, now, |FailedAttempts(s, id)|)
  }

  /** The edges the backend adds to `legal_successors`. */
  predicate OperationalEdge(p: Phase, q: Phase) {
    || (p in {Queued, Scheduled, RetryWait} && q == Cancelled)
    || (p == Queued && q == Dead)
    || (p == Running && q == Queued)
  }

  predicate Edge(p: Phase, q: Phase) {
    p == q || q in LegalSuccessors(p) || OperationalEdge(p, q)
  }

  /** The edges a phase can take, by name. */
  lemma EdgesByName(p: Phase, q: Phase)
    ensures Edge(p, q) <==>
      || p == q
      || (p == Scheduled && q in {Queued, Cancelled})
      || (p == Queued && q in {Running, Cancelled, Dead})
      || (p == Running && q in {Completed, RetryWait, Cancelled, Dead, Queued})
      || (p == RetryWait && q in {Queued, Cancelled})
  {
  }

  /** Time passing alone only turns waiting jobs into queued ones. */
  lemma ClockEdge(s: State, id: M.Uuid, now: M.Time, later: M.Time)
    requires Known(s, id) && now <= later && !Record(s, id).status.Failed?
    ensures PhaseOf(s, id, now).Some? && PhaseOf(s, id, later).Some?
    ensures var p, q := PhaseOf(s, id, now).value, PhaseOf(s, id, later).value;
      p == q || (p in {Scheduled, RetryWait} && q == Queued)
  {
  }

  /** A running job was due when it was leased, so it is due. */
  ghost predicate RunningIsDue(s: State, now: M.Time) {
    forall id | id in s.jobs && s.jobs[id].status.Running? :: s.jobs[id].runAt <= now
  }

  lemma {:induction false} RunKeepsRunningDue(r: Run, i: nat)
    requires IsRun(r) && i < |r.ops|
    ensures RunningIsDue(r.states[i], r.times[i])
  {
    hide StepAt, MoveOf, LockOk;
    if i > 0 {
      RunKeepsRunningDue(r, i - 1);
      forall id | id in r.states[i].jobs && r.states[i].jobs[id].status.Running?
        ensures r.states[i].jobs[id].runAt <= r.times[i]
      {
        DueStep(r, i - 1, id);
      }
    }
  }

  lemma DueStep(r: Run, i: nat, id: M.Uuid)
    requires IsRun(r) && i < |r.ops| && RunningIsDue(r.states[i], r.times[i])
    requires id in r.states[i + 1].jobs && r.states[i + 1].jobs[id].status.Running?
    ensures r.states[i + 1].jobs[id].runAt <= r.times[i]
  {
    hide Apply, Legal, MoveOf, LockOk, LocksOk, NumbersOk, KeysUnique, LineageOk;
    assert StepAt(r, i);
    if id in r.states[i].jobs {
      JobStep(r, i, id);
    } else {
      RunInv(r, i);
      if id in r.states[i].archive {
        ArchiveStays(r.states[i], r.times[i], r.ops[i], id);
      }
      OnlyAdded(r.states[i], r.times[i], r.ops[i], id);
      AddedIsQueued(r.states[i], r.times[i], r.ops[i]);
    }
  }

  /** A live job's failed attempts never go away. */
  lemma FailedAttemptsGrow(s: State, now: M.Time, op: Op, id: M.Uuid)
    requires KeysOk(s) && Legal(s, op) && id in s.jobs
    ensures FailedAttempts(s, id) <= FailedAttempts(Apply(s, now, op), id)
  {
    hide Apply, Legal;
    forall a | a in FailedAttempts(s, id)
      ensures a in FailedAttempts(Apply(s, now, op), id)
    {
      AttemptStep(s, now, op, a);
    }
  }

  lemma RetryFails(s: State, now: M.Time, op: Op, id: M.Uuid)
    requires Legal(s, op) && op.OpRetry? && op.id == id && Finishable(s, id, op.attempt, op.worker)
    ensures FailedAttempts(Apply(s, now, op), id) != {}
  {
    hide Apply;
    AttemptTarget(s, now, op, op.attempt);
    assert op.attempt in FailedAttempts(Apply(s, now, op), id);
  }

  /** What a guarded local move does to the phase, given whether the job has failed before and after. */
  lemma MoveEdge(j: M.Job, now: M.Time, m: Move, failed: nat, failedAfter: nat)
    requires Guarded(j, now, m) && LockOk(j)
    requires j.status.Running? ==> j.runAt <= now
    requires failed <= failedAfter
    requires failed < failedAfter ==> !m.Stay? || !j.status.Queued?
    requires m.Reschedule? ==> failedAfter > 0
    ensures var k := ApplyMove(j, now, m);
      var p, q := FromPersisted(j.status, j.runAt, now, failed), FromPersisted(k.status, k.runAt, now, failedAfter);
      && p.Some? && q.Some? && Edge(p.value, q.value)
      && (OperationalEdge(p.value, q.value) ==>
            || (m.Withdraw? && q.value == Cancelled)
            || (m.Expire? && q.value == Dead)
            || ((m.Reclaim? || (m.Reschedule? && m.runAt <= now)) && q.value == Queued))
  {
  }

  lemma QueuedFailuresStay(s: State, now: M.Time, op: Op, id: M.Uuid)
    requires KeysOk(s) && Legal(s, op) && id in s.jobs
    requires s.jobs[id].status.Queued? && MoveOf(s, now, op, id).Stay?
    ensures FailedAttempts(Apply(s, now, op), id) == FailedAttempts(s, id)
  {
    hide Apply, Legal, LatestOpen;
    FailedAttemptsGrow(s, now, op, id);
    forall a | a in FailedAttempts(Apply(s, now, op), id)
      ensures a in FailedAttempts(s, id)
    {
      FailureSource(s, now, op, id, a);
    }
  }

  /** A new failure of `id` needs the job running, or a cancellation of another job's attempt, which it is not. */
  lemma FailureSource(s: State, now: M.Time, op: Op, id: M.Uuid, a: M.Uuid)
    requires KeysOk(s) && Legal(s, op) && id in s.jobs && s.jobs[id].status.Queued?
    requires a in FailedAttempts(Apply(s, now, op), id)
    ensures a in FailedAttempts(s, id)
  {
    hide Apply, Legal;
    if a in s.attempts {
      AttemptStep(s, now, op, a);
    } else {
      OnlyOpened(s, now, op, a);
    }
  }

  /**
   * Every step of every run moves a job's phase along a legal edge, or along one of the operational edges: cancelling a
   * job that is not running, dead-lettering a due job past its deadline, and giving a running job back.
   */
  lemma LifecycleRefinement(r: Run, i: nat, id: M.Uuid)
    requires IsRun(r) && i < |r.ops| && Known(r.states[i], id)
    ensures Known(r.states[i + 1], id)
    ensures PhaseOf(r.states[i], id, r.times[i]).Some? && PhaseOf(r.states[i + 1], id, r.times[i]).Some?
    ensures var p, q := PhaseOf(r.states[i], id, r.times[i]).value, PhaseOf(r.states[i + 1], id, r.times[i]).value;
      && Edge(p, q)
      && (OperationalEdge(p, q) ==>
            || (q == Cancelled && r.ops[i].OpCancel? && r.ops[i].id == id)
            || (q == Dead && r.ops[i].OpLease? && Record(r.states[i], id).deadlineAt.Some? &&
                Record(r.states[i], id).deadlineAt.value < r.times[i])
            || (q == Queued && r.ops[i].OpReap?)
            || (q == Queued && r.ops[i].OpRetry? && r.ops[i].id == id && r.ops[i].runAt <= r.times[i]))
  {
    hide Apply, Legal, MoveOf, KeysOk, NumbersOk, KeysUnique, LineageOk, FromPersisted, ApplyMove, FailedAttempts;
    hide Edge, OperationalEdge;
    var s, now, op := r.states[i], r.times[i], r.ops[i];
    assert StepAt(r, i);
    RunInv(r, i);
    if id in s.jobs {
      RunKeepsRunningDue(r, i);
      JobStep(r, i, id);
      MoveCause(s, now, op, id);
      PhaseStep(s, now, op, id);
    } else {
      ArchiveStays(s, now, op, id);
      ArchivedPhase(s, now, op, id);
    }
  }

  lemma PhaseStep(s: State, now: M.Time, op: Op, id: M.Uuid)
    requires KeysOk(s) && Legal(s, op) && id in s.jobs
    requires LockOk(s.jobs[id]) && RunningIsDue(s, now)
    ensures Known(Apply(s, now, op), id)
    ensures var p, q, m := PhaseOf(s, id, now), PhaseOf(Apply(s, now, op), id, now), MoveOf(s, now, op, id);
      && p.Some? && q.Some? && Edge(p.value, q.value)
      && (OperationalEdge(p.value, q.value) ==>
            || (m.Withdraw? && q.value == Cancelled)
            || (m.Expire? && q.value == Dead)
            || ((m.Reclaim? || (m.Reschedule? && m.runAt <= now)) && q.value == Queued))
  {
    hide Apply, Legal, MoveOf, KeysOk, FromPersisted, ApplyMove, FailedAttempts, Edge, OperationalEdge, LockOk, Guarded;
    var t, m := Apply(s, now, op), MoveOf(s, now, op, id);
    LocalMove(s, now, op, id);
    MoveIsGuarded(s, now, op, id);
    MoveCause(s, now, op, id);
    FailedAttemptsGrow(s, now, op, id);
    SubsetSize(FailedAttempts(s, id), FailedAttempts(t, id));
    if s.jobs[id].status.Queued? && m.Stay? {
      QueuedFailuresStay(s, now, op, id);
    }
    if m.Reschedule? {
      RetryFails(s, now, op, id);
    }
    MoveEdge(s.jobs[id], now, m, |FailedAttempts(s, id)|, |FailedAttempts(t, id)|);
  }

  /** Each operational edge is taken, and on what condition. */
  lemma OperationalEdgesTaken(s: State, now: M.Time, op: Op, id: M.Uuid)
    requires KeysOk(s) && Legal(s, op) && id in s.jobs && RunningIsDue(s, now)
    ensures Known(Apply(s, now, op), id)
    ensures var q := PhaseOf(Apply(s, now, op), id, now);
      && (op.OpCancel? && op.id == id && s.jobs[id].status.Queued? ==> q == M.Some(Cancelled))
      && (op.OpLease? && Overdue(s.jobs[id], op.queue, now) ==> q == M.Some(Dead))
      && (op.OpReap? && Lapsed(s.jobs[id], now) ==> q == M.Some(Queued))
      && (op.OpRetry? && op.id == id && Finishable(s, id, op.attempt, op.worker) ==>
            q == M.Some(if op.runAt <= now then Queued else RetryWait))
  {
    hide Apply, Legal, KeysOk, FailedAttempts;
    LocalMove(s, now, op, id);
    if op.OpRetry? && op.id == id && Finishable(s, id, op.attempt, op.worker) {
      RetryFails(s, now, op, id);
      SubsetSize(FailedAttempts(Apply(s, now, op), id), FailedAttempts(Apply(s, now, op), id));
    }
  }

  lemma SubsetSize(x: set<M.Uuid>, y: set<M.Uuid>)
    requires x <= y
    ensures |x| <= |y|
    ensures y != {} ==> |y| > 0
  {
    assert y == x + (y - x);
  }

  lemma ArchivedPhase(s: State, now: M.Time, op: Op, id: M.Uuid)
    requires KeysOk(s) && Legal(s, op) && id in s.archive
    requires id in Apply(s, now, op).archive && id !in Apply(s, now, op).jobs
    requires Apply(s, now, op).archive[id] == s.archive[id]
    ensures PhaseOf(s, id, now) == M.Some(Completed) && PhaseOf(Apply(s, now, op), id, now) == M.Some(Completed)
    ensures Edge(Completed, Completed) && !OperationalEdge(Completed, Completed)
  {
    hide Apply, Legal, FailedAttempts;
  }

  /** A job that has left `Scheduled` never comes back to it. */
  lemma {:induction false} ScheduledNeverReentered(r: Run, i: nat, j: nat, id: M.Uuid)
    requires IsRun(r) && i <= j < |r.ops| && Known(r.states[i], id)
    requires PhaseOf(r.states[i], id, r.times[i]) != M.Some(Scheduled)
    ensures Known(r.states[j], id) && PhaseOf(r.states[j], id, r.times[j]) != M.Some(Scheduled)
    decreases j - i
  {
    hide StepAt, FailedAttempts, Inv;
    if i < j {
      ScheduledNeverReentered(r, i, j - 1, id);
      LifecycleRefinement(r, j - 1, id);
      NotFailed(r, j, id);
      ClockEdge(r.states[j], id, r.times[j - 1], r.times[j]);
    }
  }

  lemma NotFailed(r: Run, i: nat, id: M.Uuid)
    requires IsRun(r) && i < |r.states| && Known(r.states[i], id)
    ensures !Record(r.states[i], id).status.Failed?
  {
    hide StepAt, KeysOk, NumbersOk, KeysUnique, LineageOk;
    RunInv(r, i);
    assert LockOk(Record(r.states[i], id));
  }
}
