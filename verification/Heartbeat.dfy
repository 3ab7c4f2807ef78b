/** The heartbeat task of a worker: how often it must extend a lease for no reap to take the job away. */
module Heartbeat {
  import opened Model
  import opened Store
  import opened Locality
  import opened Runs
  import opened Leases

  /** Seconds between two heartbeats. */
  function Interval(leaseSeconds: int): (r: int)
    ensures r >= 1 && (leaseSeconds >= 2 ==> 2 * r <= leaseSeconds < 2 * r + 2)
    ensures leaseSeconds < 4 ==> r == 1
  {
    if leaseSeconds / 2 > 1 then leaseSeconds / 2 else 1
  }

  /** Step `m` is a heartbeat of `worker`: a call, whether or not it takes effect. */
  predicate Beat(r: Run, m: nat, id: Uuid, worker: string)
    requires m < |r.ops|
  {
    r.ops[m].OpExtend? && r.ops[m].id == id && r.ops[m].worker == worker
  }

  /** The last heartbeat before step `k`, or the lease at step `i` if there was none yet. */
  ghost function LastBeat(r: Run, i: nat, k: nat, id: Uuid, worker: string): (b: nat)
    requires Shaped(r) && i < k < |r.states|
    ensures i <= b < k
    decreases k
  {
    if k == i + 1 || Beat(r, k - 1, id, worker) then k - 1 else LastBeat(r, i, k - 1, id, worker)
  }

  /** Every heartbeat of `worker` between the two steps asks for `seconds`. */
  ghost predicate SteadyBeats(r: Run, i: nat, end: nat, id: Uuid, worker: string, seconds: int)
    requires Shaped(r) && i < end < |r.states|
  {
    forall m | i < m < end && Beat(r, m, id, worker) :: r.ops[m].seconds == seconds
  }

  /**
   * The worker that leased the job at step `i` beats on schedule up to step `end`: it asks for `seconds` each time, the
   * first beat comes before the lease expires, and from then on a beat is never more than an interval old.
   */
  ghost predicate OnSchedule(r: Run, i: nat, end: nat, id: Uuid, worker: string, seconds: int)
    requires Shaped(r) && i < end < |r.states|
  {
    SteadyBeats(r, i, end, id, worker, seconds) &&
    forall m | i < m < end ::
      var b := LastBeat(r, i, m, id, worker);
      if b == i then r.times[m] < r.times[i] + seconds * SECOND
      else r.times[m] <= r.times[b] + Interval(seconds) * SECOND
  }

  /** Nobody finishes or cancels the job between the two steps; its handler is still running. */
  ghost predicate StillWorking(r: Run, i: nat, end: nat, id: Uuid)
    requires Shaped(r) && i < end < |r.states|
  {
    forall m | i < m < end && id in r.states[m].jobs ::
      !MoveAt(r, m, id).Complete? && !MoveAt(r, m, id).Reschedule? && !MoveAt(r, m, id).Bury?
           && !MoveAt(r, m, id).Withdraw?
  }

  /** A beat takes effect if its sender holds the job, and nothing else extends a lease. */
  lemma BeatExtends(s: State, now: Time, op: Op, id: Uuid, holder: string)
    requires Holds(s, id, holder)
    ensures var m := MoveOf(s, now, op, id);
      var beat := op.OpExtend? && op.id == id && op.worker == holder;
      && (m.Renew? <==> beat) && (beat ==> m.expires == now + op.seconds * SECOND)
  {
    hide Chosen, Finishable, Cancelable, Ids;
  }

  ghost predicate Beating(r: Run, i: nat, end: nat, id: Uuid, seconds: int)
    requires Shaped(r) && i < end < |r.states|
  {
    && Leased(r, i, id) && r.ops[i].OpLease? && r.ops[i].seconds == seconds
    && OnSchedule(r, i, end, id, r.ops[i].worker, seconds)
    && StillWorking(r, i, end, id)
  }

  lemma {:induction false} BeatsKeepLease(r: Run, i: nat, k: nat, end: nat, id: Uuid, seconds: int)
    requires IsRun(r) && i < k <= end < |r.states|
    requires Beating(r, i, end, id, seconds)
    requires seconds >= 2
    ensures forall m | i < m < k :: Keeps(r, m, id)
    decreases k
  {
    hide MoveOf, StepAt;
    if k > i + 1 {
      BeatsKeepLease(r, i, k - 1, end, id, seconds);
      LeaseFollowsBeats(r, i, k - 1, id, seconds);
      Tenure(r, i, k - 1, id);
      JobStep(r, k - 1, id);
      assert Interval(seconds) < seconds;
    }
  }

  /** With a lease of at least two seconds, no reap takes a job away from a worker that beats on schedule. */
  lemma HeartbeatSafety(r: Run, i: nat, m: nat, end: nat, id: Uuid, seconds: int)
    requires IsRun(r) && i < m < end < |r.states|
    requires Beating(r, i, end, id, seconds)
    requires seconds >= 2
    ensures Holds(r.states[m], id, r.ops[i].worker) && !Lapsed(r.states[m].jobs[id], r.times[m])
    ensures Holds(r.states[m + 1], id, r.ops[i].worker)
    ensures r.ops[m].OpReap? ==> forall a | OpenFor(r.states[m], id, a) :: OpenFor(r.states[m + 1], id, a)
  {
    hide MoveOf, StepAt;
    BeatsKeepLease(r, i, end, end, id, seconds);
    Tenure(r, i, m, id);
    Tenure(r, i, m + 1, id);
    LeaseFollowsBeats(r, i, m, id, seconds);
    MoveCause(r.states[i], r.times[i], r.ops[i], id);
    assert Interval(seconds) < seconds;
    if r.ops[m].OpReap? {
      forall a | OpenFor(r.states[m], id, a)
        ensures OpenFor(r.states[m + 1], id, a)
      {
        ReapSparesAttempt(r, m, a);
      }
    }
  }

  lemma ReapSparesAttempt(r: Run, m: nat, a: Uuid)
    requires IsRun(r) && m < |r.ops| && r.ops[m].OpReap?
    requires a in r.states[m].attempts
    requires var id := r.states[m].attempts[a].jobId;
      id in r.states[m].jobs && !Lapsed(r.states[m].jobs[id], r.times[m])
    ensures a in r.states[m + 1].attempts && r.states[m + 1].attempts[a] == r.states[m].attempts[a]
  {
    assert StepAt(r, m);
  }

  /** Two seconds are needed: with one, a reap exactly one interval after a beat requeues the job. */
  lemma OneSecondLeaseIsReaped(r: Run, i: nat, k: nat, id: Uuid)
    requires IsRun(r) && i < k < |r.ops|
    requires Leased(r, i, id) && r.ops[i].OpLease? && r.ops[i].seconds == 1
    requires forall m | i < m < k :: Keeps(r, m, id)
    requires SteadyBeats(r, i, k, id, r.ops[i].worker, 1)
    requires r.ops[k].OpReap? && r.times[k] == r.times[LastBeat(r, i, k, id, r.ops[i].worker)] + Interval(1) * SECOND
    ensures id in r.states[k + 1].jobs && r.states[k + 1].jobs[id].status.Queued?
  {
    hide MoveOf, StepAt;
    LeaseFollowsBeats(r, i, k, id, 1);
    Tenure(r, i, k, id);
    assert StepAt(r, k);
    ReapTakes(r.states[k], r.times[k], id);
    JobStep(r, k, id);
  }

  lemma ReapTakes(s: State, now: Time, id: Uuid)
    requires id in s.jobs && Lapsed(s.jobs[id], now)
    ensures MoveOf(s, now, OpReap, id).Reclaim?
  {
  }

  /** The lease runs out `seconds` after the last beat: every beat of the holder has taken effect. */
  lemma {:induction false} LeaseFollowsBeats(r: Run, i: nat, k: nat, id: Uuid, seconds: int)
    requires IsRun(r) && i < k < |r.states|
    requires Leased(r, i, id) && r.ops[i].OpLease? && r.ops[i].seconds == seconds
    requires forall m | i < m < k :: Keeps(r, m, id)
    requires SteadyBeats(r, i, k, id, r.ops[i].worker, seconds)
    ensures LatestExpiry(r, k, id) == r.times[LastBeat(r, i, k, id, r.ops[i].worker)] + seconds * SECOND
    decreases k
  {
    hide MoveOf, StepAt;
    MoveCause(r.states[i], r.times[i], r.ops[i], id);
    if k > i + 1 {
      LeaseFollowsBeats(r, i, k - 1, id, seconds);
      assert Keeps(r, k - 1, id);
      Tenure(r, i, k - 1, id);
      BeatExtends(r.states[k - 1], r.times[k - 1], r.ops[k - 1], id, r.ops[i].worker);
    }
  }
}
