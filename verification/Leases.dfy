/** Exclusive leases over whole runs. */
module Leases {
  import opened Model
  import opened Ordering
  import opened Store
  import opened Locality
  import opened Invariants
  import opened Runs

  /** Step `i` leases job `id`. */
  ghost predicate Leased(r: Run, i: nat, id: Uuid)
    requires Shaped(r)
  {
    i < |r.ops| && id in r.states[i].jobs && MoveAt(r, i, id).Grant?
  }

  /** Step `k` leaves the lease in place: it does nothing to the job or extends it. */
  ghost predicate Keeps(r: Run, k: nat, id: Uuid)
    requires Shaped(r) && k < |r.ops|
  {
    id in r.states[k].jobs && (MoveAt(r, k, id).Stay? || MoveAt(r, k, id).Renew?)
  }

  /** The expiry that step `m` grants to job `id`, by leasing it or by extending its lease. */
  ghost function GrantedAt(r: Run, m: nat, id: Uuid): Option<Time>
    requires Shaped(r) && m < |r.ops|
  {
    if id !in r.states[m].jobs then None
    else match MoveAt(r, m, id)
      case Grant(_, expires) => Some(expires)
      case Renew(expires) => Some(expires)
      case _ => None
  }

  /** The expiry most recently granted to job `id` before step `k`. */
  ghost function LatestExpiry(r: Run, k: nat, id: Uuid): Time
    requires Shaped(r) && k < |r.states|
  {
    if k == 0 then 0
    else if GrantedAt(r, k - 1, id).Some? then GrantedAt(r, k - 1, id).value
    else LatestExpiry(r, k - 1, id)
  }

  /** While nothing ends the lease, the job runs for the same worker until the latest expiry granted. */
  lemma {:induction false} Tenure(r: Run, i: nat, k: nat, id: Uuid)
    requires IsRun(r) && i < k < |r.states|
    requires Leased(r, i, id)
    requires forall m | i < m < k :: Keeps(r, m, id)
    ensures id in r.states[k].jobs && r.states[k].jobs[id].status.Running?
    ensures r.states[k].jobs[id].lockedBy == Some(MoveAt(r, i, id).worker)
    ensures r.states[k].jobs[id].lockExpiresAt == Some(LatestExpiry(r, k, id))
    decreases k
  {
    hide StepAt, LockOk, MoveOf;
    if k == i + 1 {
      JobStep(r, i, id);
    } else {
      Tenure(r, i, k - 1, id);
      assert Keeps(r, k - 1, id);
      JobStep(r, k - 1, id);
    }
  }

  /** The first step after `from` that does something to the job other than extend it. */
  lemma {:induction false} FirstExit(r: Run, i: nat, from: nat, j: nat, id: Uuid) returns (k: nat)
    requires IsRun(r) && i < from <= j < |r.ops|
    requires Leased(r, i, id)
    requires forall m | i < m < from :: Keeps(r, m, id)
    requires !Keeps(r, j, id)
    ensures from <= k <= j
    ensures forall m | i < m < k :: Keeps(r, m, id)
    ensures !Keeps(r, k, id)
    decreases j - from
  {
    hide MoveOf, StepAt;
    if Keeps(r, from, id) {
      k := FirstExit(r, i, from + 1, j, id);
    } else {
      k := from;
    }
  }

  /**
   * Between two leases of one job the first one ended, and it ended either by a retry that its holder asked for or
   * by a reap no earlier than the latest expiry granted to it.
   */
  lemma LeaseExclusivity(r: Run, i: nat, j: nat, id: Uuid)
    requires IsRun(r) && i < j < |r.ops|
    requires Leased(r, i, id) && Leased(r, j, id)
    ensures exists k | i < k < j :: EndsLease(r, i, k, id)
  {
    hide StepAt, MoveOf;
    var k := FirstExit(r, i, i + 1, j, id);
    Tenure(r, i, k, id);
    JobStep(r, k, id);
    JobStep(r, j, id);
    MoveCause(r.states[k], r.times[k], r.ops[k], id);
    if Terminal(Record(r.states[k + 1], id).status) {
      TerminalNeverLeased(r, k + 1, j, id);
    }
    assert k < j;
    assert EndsLease(r, i, k, id);
  }

  lemma TerminalNeverLeased(r: Run, i: nat, j: nat, id: Uuid)
    requires IsRun(r) && i <= j < |r.ops| && Known(r.states[i], id) && Leased(r, j, id)
    ensures !Terminal(Record(r.states[i], id).status)
  {
    hide MoveOf, SameIdentity, StepAt;
    NothingLostTerminalFinal(r, i, j, id);
    JobStep(r, j, id);
  }

  /** Step `k` is the end of the lease granted at step `i`. */
  ghost predicate EndsLease(r: Run, i: nat, k: nat, id: Uuid)
    requires Shaped(r) && i < k < |r.ops|
    requires Leased(r, i, id)
  {
    && (forall m | i < m < k :: Keeps(r, m, id))
    && id in r.states[k].jobs
    && var holder := MoveAt(r, i, id).worker;
       || (r.ops[k].OpRetry? && r.ops[k].id == id && r.ops[k].worker == holder && MoveAt(r, k, id).Reschedule?)
       || (r.ops[k].OpReap? && MoveAt(r, k, id).Reclaim? && LatestExpiry(r, k, id) <= r.times[k])
  }

  /** Leases do not overlap in time: unless its holder gave the job back, a lease has expired when the next begins. */
  lemma LeasesNeverOverlap(r: Run, i: nat, j: nat, id: Uuid)
    requires IsRun(r) && i < j < |r.ops|
    requires Leased(r, i, id) && Leased(r, j, id)
    ensures exists k | i < k < j ::
      EndsLease(r, i, k, id) && (r.ops[k].OpRetry? || LatestExpiry(r, k, id) <= r.times[j])
  {
    LeaseExclusivity(r, i, j, id);
    var k :| i < k < j && EndsLease(r, i, k, id);
    assert r.times[k] <= r.times[j];
  }

  // A job that is leased twice

  /** A lease of the only job takes it if it is due and in time. */
  lemma OnlyJobIsChosen(s: State, id: Uuid, j: Job, queue: string, now: Time)
    requires s.jobs == map[id := j] && j.id == id && Due(j, queue, now) && j.deadlineAt.None?
    ensures id in Ids(Chosen(s, queue, 1, now))
  {
    hide SortSet, StrictTotal, Before;
    assert Sweep(s.jobs, queue, now) == s.jobs;
    assert s.jobs[id] == j;
    assert DueEntries(s.jobs, queue, now) == {FromJob(j)};
    var ranking := Ranking(s.jobs, queue, now);
    assert FromJob(j) in Elements(ranking);
    assert Chosen(s, queue, 1, now) == ranking;
  }

  lemma OnlyJobIsLeased(s: State, id: Uuid, j: Job, worker: string, seconds: int, now: Time)
    requires s.jobs == map[id := j] && j.id == id && Due(j, j.queue, now) && j.deadlineAt.None?
    ensures MoveOf(s, now, OpLease(j.queue, worker, seconds, 1), id) == Grant(worker, now + seconds * SECOND)
    ensures Lease(s, j.queue, worker, seconds, 1, now).jobs
         == map[id := LeaseJob(j, worker, now + seconds * SECOND, now)]
  {
    OnlyJobIsChosen(s, id, j, j.queue, now);
    hide Chosen, Ids;
    assert Sweep(s.jobs, j.queue, now) == s.jobs;
  }

  /** A run in which a worker enqueues a job, lets its lease run out, and leases it again after a reap. */
  lemma LeasedAgain(n: NewJob, id: Uuid, worker: string) returns (r: Run)
    requires n.runAt <= 0 && n.deadlineAt.None?
    ensures IsRun(r) && |r.ops| == 4 && Leased(r, 1, id) && Leased(r, 3, id)
  {
    hide Lease, Chosen, Ids, Succeed, Retry, DeadLetter, Cancel, Extend, Replay, Start, Archive, PruneHistory, MoveOf;
    hide LatestOpen;
    var ops := [OpEnqueue(n, id), OpLease(n.queue, worker, 1, 1), OpReap, OpLease(n.queue, worker, 1, 1)];
    var times := [0, 0, SECOND, SECOND];
    var s1 := Apply(EMPTY, times[0], ops[0]);
    var j := FreshJob(n, id, 0);
    assert s1.jobs == map[id := j];
    OnlyJobIsLeased(s1, id, j, worker, 1, 0);
    var s2 := Apply(s1, times[1], ops[1]);
    var s3 := Apply(s2, times[2], ops[2]);
    var k := UnlockJob(LeaseJob(j, worker, SECOND, 0), Queued, SECOND);
    assert s3.jobs == map[id := k];
    OnlyJobIsLeased(s3, id, k, worker, 1, SECOND);
    var s4 := Apply(s3, times[3], ops[3]);
    r := Run([EMPTY, s1, s2, s3, s4], times, ops);
    assert StepAt(r, 0) && StepAt(r, 1) && StepAt(r, 2) && StepAt(r, 3);
  }
}
