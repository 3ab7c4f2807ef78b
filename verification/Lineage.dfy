/** Idempotent enqueue, replay lineage and fixed-interval recurrence over whole runs. */
module Lineage {
  import opened Model
  import opened Store
  import opened Locality
  import opened Invariants
  import opened Runs
  import opened Attempts

  lemma EnqueueLands(s: State, now: Time, op: Op)
    requires KeysOk(s) && Legal(s, op) && op.OpEnqueue?
    ensures var id := EnqueueResult(s, op.n, op.newId);
      id in Apply(s, now, op).jobs && Apply(s, now, op).jobs[id].key == op.n.key
  {
    hide Lease, Reap, Start, Cancel, Extend, Archive, PruneHistory, Replay, Succeed, Retry, DeadLetter;
  }

  /** Enqueuing again under a key returns the job that has it, for as long as that job has not been archived. */
  lemma RepeatedEnqueueReturnsSameJob(r: Run, i: nat, j: nat)
    requires IsRun(r) && i < j < |r.ops|
    requires r.ops[i].OpEnqueue? && r.ops[j].OpEnqueue?
    requires r.ops[i].n.key.Some? && r.ops[j].n.key == r.ops[i].n.key
    requires EnqueueResult(r.states[i], r.ops[i].n, r.ops[i].newId) in r.states[j].jobs
    ensures EnqueueResult(r.states[j], r.ops[j].n, r.ops[j].newId)
         == EnqueueResult(r.states[i], r.ops[i].n, r.ops[i].newId)
    ensures r.states[j + 1] == r.states[j]
  {
    hide Legal, LocksOk, NumbersOk, LineageOk;
    var id := EnqueueResult(r.states[i], r.ops[i].n, r.ops[i].newId);
    RunInv(r, i);
    RunInv(r, j);
    assert StepAt(r, i) && StepAt(r, j);
    EnqueueLands(r.states[i], r.times[i], r.ops[i]);
    hide KeysUnique, KeysOk, EnqueueResult, StepAt, Apply;
    NothingLostTerminalFinal(r, i + 1, j, id);
    OnlyHolder(r.states[j], r.ops[j].n.key, id);
    EnqueueTaken(r.states[j], r.times[j], r.ops[j]);
  }

  lemma EnqueueTaken(s: State, now: Time, op: Op)
    requires Legal(s, op) && op.OpEnqueue? && KeyTaken(s, op.n.key)
    ensures Apply(s, now, op) == s
    ensures EnqueueResult(s, op.n, op.newId) == KeyHolder(s, op.n.key)
  {
    hide Lease, Reap, Start, Cancel, Extend, Archive, PruneHistory, Replay, Succeed, Retry, DeadLetter;
  }

  // Replay links

  ghost function Parent(s: State, id: Uuid): Option<Uuid>
    requires Known(s, id)
  {
    Record(s, id).replayOf
  }

  /** Each job on the path was replayed from, or recurred after, the next one. */
  ghost predicate Ancestry(s: State, path: seq<Uuid>) {
    && (forall k | 0 <= k < |path| :: Known(s, path[k]))
    && (forall k | 0 <= k < |path| - 1 :: Parent(s, path[k]) == Some(path[k + 1]))
  }

  lemma {:induction false} AncestorsAreOlder(s: State, path: seq<Uuid>, a: nat, b: nat)
    requires KeysOk(s) && LineageOk(s) && Ancestry(s, path)
    requires a < b < |path|
    ensures path[a] in s.born && path[b] in s.born && s.born[path[b]] < s.born[path[a]]
    decreases b - a
  {
    assert Parent(s, path[b - 1]) == Some(path[b]);
    if a < b - 1 {
      AncestorsAreOlder(s, path, a, b - 1);
    }
  }

  /** Replay links never form a cycle. */
  lemma LineageIsAcyclic(s: State, path: seq<Uuid>)
    requires KeysOk(s) && LineageOk(s) && Ancestry(s, path)
    ensures forall a, b | 0 <= a < b < |path| :: path[a] != path[b]
  {
    forall a, b | 0 <= a < b < |path|
      ensures path[a] != path[b]
    {
      AncestorsAreOlder(s, path, a, b);
    }
  }

  /** From any job the links lead, through retrievable jobs only, to one that was enqueued. */
  ghost function PathToRoot(s: State, id: Uuid): (path: seq<Uuid>)
    requires KeysOk(s) && LineageOk(s) && Known(s, id)
    ensures |path| > 0 && path[0] == id
    ensures Ancestry(s, path)
    ensures Parent(s, path[|path| - 1]).None?
    decreases s.born[id]
  {
    if Parent(s, id).None? then [id]
    else [id] + PathToRoot(s, Parent(s, id).value)
  }

  ghost predicate RootPath(s: State, id: Uuid, path: seq<Uuid>) {
    && |path| > 0 && path[0] == id
    && Ancestry(s, path)
    && Parent(s, path[|path| - 1]).None?
    && (forall a, b | 0 <= a < b < |path| :: path[a] != path[b])
  }

  /** In every reachable state the replay links form a forest. */
  lemma LineageForest(r: Run, i: nat, id: Uuid)
    requires IsRun(r) && i < |r.states| && Known(r.states[i], id)
    ensures exists path :: RootPath(r.states[i], id, path)
  {
    hide StepAt, LocksOk, NumbersOk, KeysUnique;
    RunInv(r, i);
    hide KeysOk, LineageOk;
    var path := PathToRoot(r.states[i], id);
    LineageIsAcyclic(r.states[i], path);
    assert RootPath(r.states[i], id, path);
  }

  // Recurrence

  /** Step `m` completes the recurring job `id` and thereby creates `next`. */
  ghost predicate Recurs(r: Run, m: nat, id: Uuid, next: Uuid)
    requires Shaped(r)
  {
    && m < |r.ops| && r.ops[m].OpSucceed? && r.ops[m].id == id && r.ops[m].newId == next
    && Finishable(r.states[m], id, r.ops[m].attempt, r.ops[m].worker)
    && r.states[m].jobs[id].recurringSeconds.Some?
  }

  /** `ids` are successive occurrences of one recurring job, each created when a step completed the one before. */
  ghost predicate Occurrences(r: Run, ids: seq<Uuid>, steps: seq<nat>)
    requires Shaped(r)
  {
    && |ids| == |steps| + 1
    && (forall k | 0 <= k < |steps| :: Recurs(r, steps[k], ids[k], ids[k + 1]))
    && (forall k | 0 < k < |steps| :: steps[k - 1] < steps[k])
  }

  ghost predicate NeverRetried(r: Run, id: Uuid)
    requires Shaped(r)
  {
    forall m | 0 <= m < |r.ops| :: !Retries(r, m, id)
  }

  /** Only a retry changes the time at which a job is due. */
  lemma {:induction false} RunAtFixed(r: Run, i: nat, j: nat, id: Uuid)
    requires IsRun(r) && i <= j < |r.states| && Known(r.states[i], id)
    requires NeverRetried(r, id)
    ensures Known(r.states[j], id) && Record(r.states[j], id).runAt == Record(r.states[i], id).runAt
    decreases j - i
  {
    hide StepAt, NeverRetried, Record;
    if i < j {
      RunAtFixed(r, i, j - 1, id);
      RunAtStep(r, j - 1, id);
    }
  }

  lemma RunAtStep(r: Run, i: nat, id: Uuid)
    requires IsRun(r) && i < |r.ops| && Known(r.states[i], id) && NeverRetried(r, id)
    ensures Known(r.states[i + 1], id) && Record(r.states[i + 1], id).runAt == Record(r.states[i], id).runAt
  {
    hide Apply, Legal, LocksOk, NumbersOk, KeysUnique, LineageOk, MoveOf, Finishable;
    RunInv(r, i);
    assert StepAt(r, i);
    if id in r.states[i].jobs {
      JobStep(r, i, id);
      MoveCause(r.states[i], r.times[i], r.ops[i], id);
      assert !Retries(r, i, id);
    } else {
      ArchiveStays(r.states[i], r.times[i], r.ops[i], id);
    }
  }

  lemma OccurrenceCreated(r: Run, m: nat, id: Uuid, next: Uuid)
    requires IsRun(r) && Recurs(r, m, id, next)
    ensures next in r.states[m + 1].jobs
    ensures var j := r.states[m].jobs[id];
      r.states[m + 1].jobs[next] == NextOccurrence(j, j.recurringSeconds.value, next, r.times[m])
  {
    hide Apply, LocksOk, NumbersOk, KeysUnique, LineageOk, Finishable;
    RunInv(r, m);
    assert StepAt(r, m);
    AddedIsThere(r.states[m], r.times[m], r.ops[m]);
  }

  predicate Shifted(first: Job, later: Job, seconds: int) {
    && later.runAt == first.runAt + seconds * SECOND
    && later.deadlineAt.Some? == first.deadlineAt.Some?
    && (first.deadlineAt.Some? ==> later.deadlineAt.value == first.deadlineAt.value + seconds * SECOND)
    && later.recurringSeconds == first.recurringSeconds
  }

  /** The first occurrence, as it stands when it completes. */
  ghost function First(r: Run, ids: seq<Uuid>, steps: seq<nat>): (j: Job)
    requires Shaped(r) && Occurrences(r, ids, steps) && |steps| > 0
    ensures j.recurringSeconds.Some?
  {
    assert Recurs(r, steps[0], ids[0], ids[1]);
    r.states[steps[0]].jobs[ids[0]]
  }

  /** Step `m` creates job `id` with the record `j`. */
  ghost predicate CreatedAs(r: Run, m: nat, id: Uuid, j: Job)
    requires Shaped(r)
  {
    m < |r.ops| && id in r.states[m + 1].jobs && r.states[m + 1].jobs[id] == j
  }

  /** The k-th occurrence is due, and overdue, exactly k intervals after the first, provided none was retried. */
  lemma {:induction false} RecurrenceDoesNotDrift(r: Run, ids: seq<Uuid>, steps: seq<nat>, k: nat) returns (j: Job)
    requires IsRun(r) && Occurrences(r, ids, steps) && 0 < k <= |steps|
    requires forall n | 0 <= n < |ids| :: NeverRetried(r, ids[n])
    ensures CreatedAs(r, steps[k - 1], ids[k], j)
    ensures Shifted(First(r, ids, steps), j, k * First(r, ids, steps).recurringSeconds.value)
  {
    hide StepAt, NeverRetried, SameIdentity, Finishable;
    assert Recurs(r, steps[k - 1], ids[k - 1], ids[k]);
    OccurrenceCreated(r, steps[k - 1], ids[k - 1], ids[k]);
    j := r.states[steps[k - 1] + 1].jobs[ids[k]];
    if k > 1 {
      var before := RecurrenceDoesNotDrift(r, ids, steps, k - 1);
      OccurrenceShift(r, First(r, ids, steps), before, steps[k - 2], steps[k - 1], ids[k - 1], ids[k], k);
    }
  }

  lemma OccurrenceShift(r: Run, first: Job, before: Job, l: nat, m: nat, id: Uuid, next: Uuid, k: nat)
    requires IsRun(r) && l < m && Recurs(r, m, id, next) && NeverRetried(r, id)
    requires CreatedAs(r, l, id, before)
    requires first.recurringSeconds.Some? && k > 0 && Shifted(first, before, (k - 1) * first.recurringSeconds.value)
    ensures next in r.states[m + 1].jobs
    ensures Shifted(first, r.states[m + 1].jobs[next], k * first.recurringSeconds.value)
  {
    hide StepAt, NeverRetried;
    var v := first.recurringSeconds.value;
    RunAtFixed(r, l + 1, m, id);
    NothingLostTerminalFinal(r, l + 1, m, id);
    OccurrenceCreated(r, m, id, next);
    assert (k - 1) * v + v == k * v;
    assert (k - 1) * v * SECOND + v * SECOND == k * v * SECOND;
  }
}
