/** Whole runs of the job table: any operations by any callers, under a clock that never goes back. */
module Runs {
  import opened Model
  import opened Store
  import opened Locality
  import opened Invariants

  datatype Run = Run(states: seq<State>, times: seq<Time>, ops: seq<Op>)

  ghost predicate Shaped(r: Run) {
    |r.times| == |r.ops| && |r.states| == |r.ops| + 1
  }

  ghost predicate StepAt(r: Run, i: nat)
    requires Shaped(r) && i < |r.ops|
  {
    Legal(r.states[i], r.ops[i]) && r.states[i + 1] == Apply(r.states[i], r.times[i], r.ops[i])
  }

  ghost predicate IsRun(r: Run) {
    && Shaped(r)
    && r.states[0] == EMPTY
    && (forall i | 0 <= i < |r.ops| :: StepAt(r, i))
    && (forall i, j | 0 <= i <= j < |r.times| :: r.times[i] <= r.times[j])
  }

  lemma {:induction false} RunInv(r: Run, i: nat)
    requires IsRun(r) && i < |r.states|
    ensures Inv(r.states[i])
  {
    hide Inv, Apply, Legal;
    if i == 0 {
      EmptyInv();
    } else {
      RunInv(r, i - 1);
      assert StepAt(r, i - 1);
      InvKept(r.states[i - 1], r.times[i - 1], r.ops[i - 1]);
    }
  }

  // Building runs step by step

  const NO_STEPS := Run([EMPTY], [], [])

  ghost function Last(r: Run): State
    requires Shaped(r)
  {
    r.states[|r.ops|]
  }

  /** No step was later than `now`. */
  ghost predicate By(r: Run, now: Time) {
    forall i | 0 <= i < |r.times| :: r.times[i] <= now
  }

  ghost function Then(r: Run, now: Time, op: Op): Run
    requires Shaped(r) && Legal(Last(r), op)
  {
    Run(r.states + [Apply(Last(r), now, op)], r.times + [now], r.ops + [op])
  }

  /** The first steps of `t` are those of `r`. */
  ghost predicate Continues(r: Run, t: Run) {
    r.states <= t.states && r.times <= t.times && r.ops <= t.ops
  }

  lemma ThenContinues(r: Run, now: Time, op: Op)
    requires Shaped(r) && Legal(Last(r), op)
    ensures Continues(r, Then(r, now, op))
  {
    hide Apply, Legal;
  }

  lemma ContinuesSelf(r: Run)
    ensures Continues(r, r)
  {
  }

  lemma ContinuesChain(r: Run, t: Run, u: Run)
    requires Continues(r, t) && Continues(t, u)
    ensures Continues(r, u)
  {
  }

  lemma ThenIsRun(r: Run, now: Time, op: Op)
    requires IsRun(r) && By(r, now) && Legal(Last(r), op)
    ensures var t := Then(r, now, op);
      && Shaped(t) && IsRun(t) && By(t, now) && Continues(r, t) && Last(t) == Apply(Last(r), now, op)
      && |t.ops| == |r.ops| + 1 && t.ops[|r.ops|] == op && t.states[|r.ops|] == Last(r) && t.times[|r.ops|] == now
  {
    hide Apply, Legal;
    var t := Then(r, now, op);
    forall i | 0 <= i < |t.ops|
      ensures StepAt(t, i)
    {
      if i < |r.ops| {
        assert StepAt(r, i);
      }
    }
  }

  lemma EmptyRun(now: Time)
    ensures IsRun(NO_STEPS) && By(NO_STEPS, now) && Last(NO_STEPS) == EMPTY
  {
  }

  /** The move step `i` makes on job `id`. */
  ghost function MoveAt(r: Run, i: nat, id: Uuid): Move
    requires Shaped(r) && i < |r.ops| && id in r.states[i].jobs
  {
    MoveOf(r.states[i], r.times[i], r.ops[i], id)
  }

  /** One step of one live job: it moves as its guarded move says. */
  lemma JobStep(r: Run, i: nat, id: Uuid)
    requires IsRun(r) && i < |r.ops| && id in r.states[i].jobs
    ensures Known(r.states[i + 1], id)
    ensures Record(r.states[i + 1], id) == ApplyMove(r.states[i].jobs[id], r.times[i], MoveAt(r, i, id))
    ensures Guarded(r.states[i].jobs[id], r.times[i], MoveAt(r, i, id))
    ensures LockOk(r.states[i].jobs[id])
    ensures id !in r.states[i + 1].jobs ==> r.states[i].jobs[id].status.Succeeded?
  {
    hide Apply, Legal, KeysOk, NumbersOk, KeysUnique, LineageOk, LockOk, ApplyMove, MoveOf, Guarded;
    RunInv(r, i);
    assert StepAt(r, i);
    LocalMove(r.states[i], r.times[i], r.ops[i], id);
    MoveIsGuarded(r.states[i], r.times[i], r.ops[i], id);
    assert LockOk(Record(r.states[i], id));
  }

  ghost predicate Frozen(s: State, id: Uuid, j: Job) {
    Known(s, id) && SameIdentity(j, Record(s, id)) && (Terminal(j.status) ==> Record(s, id) == j)
  }

  lemma StepKeeps(r: Run, i: nat, id: Uuid)
    requires IsRun(r) && i < |r.ops| && Known(r.states[i], id)
    ensures Frozen(r.states[i + 1], id, Record(r.states[i], id))
  {
    hide Apply, Legal, SameIdentity;
    RunInv(r, i);
    assert StepAt(r, i);
    KnownStays(r.states[i], r.times[i], r.ops[i], id);
    if id in r.states[i].jobs {
      hide Inv;
      JobStep(r, i, id);
    } else {
      ArchiveStays(r.states[i], r.times[i], r.ops[i], id);
    }
  }

  /** A job once known stays retrievable with the same identity, and a terminal record never changes again. */
  lemma {:induction false} NothingLostTerminalFinal(r: Run, i: nat, j: nat, id: Uuid)
    requires IsRun(r) && i <= j < |r.states| && Known(r.states[i], id)
    ensures Known(r.states[j], id)
    ensures SameIdentity(Record(r.states[i], id), Record(r.states[j], id))
    ensures Terminal(Record(r.states[i], id).status) ==> Record(r.states[j], id) == Record(r.states[i], id)
    ensures !(id in r.states[j].jobs && id in r.states[j].archive)
    decreases j - i
  {
    hide StepAt, SameIdentity, Inv;
    InOneTable(r, j, id);
    SameAsItself(Record(r.states[i], id));
    if i < j {
      NothingLostTerminalFinal(r, i, j - 1, id);
      StepKeeps(r, j - 1, id);
      IdentityChain(Record(r.states[i], id), Record(r.states[j - 1], id), Record(r.states[j], id));
    }
  }

  lemma InOneTable(r: Run, j: nat, id: Uuid)
    requires IsRun(r) && j < |r.states|
    ensures !(id in r.states[j].jobs && id in r.states[j].archive)
  {
    hide StepAt, LocksOk, NumbersOk, KeysUnique, LineageOk;
    RunInv(r, j);
  }

  lemma SameAsItself(j: Job)
    ensures SameIdentity(j, j)
  {
  }

  lemma IdentityChain(a: Job, b: Job, c: Job)
    requires SameIdentity(a, b) && SameIdentity(b, c)
    ensures SameIdentity(a, c)
  {
  }

  /** The identifier that `enqueue` returns is known afterwards, and so is the one `replay` creates. */
  lemma ReturnedIdIsKnown(r: Run, i: nat, j: nat)
    requires IsRun(r) && i < j < |r.states|
    ensures r.ops[i].OpEnqueue? ==> Known(r.states[j], EnqueueResult(r.states[i], r.ops[i].n, r.ops[i].newId))
    ensures r.ops[i].OpReplay? && Known(r.states[i], r.ops[i].id) ==> Known(r.states[j], r.ops[i].newId)
  {
    hide Inv, SameIdentity;
    RunInv(r, i);
    assert StepAt(r, i);
    if r.ops[i].OpEnqueue? {
      hide IsRun;
      NothingLostTerminalFinal(r, i + 1, j, EnqueueResult(r.states[i], r.ops[i].n, r.ops[i].newId));
    } else if r.ops[i].OpReplay? && Known(r.states[i], r.ops[i].id) {
      hide IsRun;
      NothingLostTerminalFinal(r, i + 1, j, r.ops[i].newId);
    }
  }
}
