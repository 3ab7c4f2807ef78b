/** Runs in which the worker's two rules are kept: one attempt per lease, and no retry beyond the limit. */
module Discipline {
  import opened Model
  import opened Store
  import opened Locality
  import opened Invariants
  import opened Runs
  import opened Fencing
  import opened Attempts

  /** `r` leads to `s` by time `now` and keeps both rules. */
  ghost predicate Traced(r: Run, s: State, now: Time) {
    Shaped(r) && IsRun(r) && By(r, now) && Last(r) == s && OncePerLease(r) && BudgetedRetries(r)
  }

  /** No attempt has been opened on the job since it was last leased. */
  ghost predicate Unopened(r: Run, id: Uuid)
    requires Shaped(r)
  {
    !OpenedSinceLease(r, |r.ops|, id)
  }

  lemma {:induction false} OpenedPrefix(r: Run, t: Run, i: nat, id: Uuid)
    requires Shaped(r) && Shaped(t) && Continues(r, t) && i < |r.states|
    ensures OpenedSinceLease(t, i, id) == OpenedSinceLease(r, i, id)
  {
    hide MoveOf, Opens;
    if i > 0 {
      OpenedPrefix(r, t, i - 1, id);
      assert t.states[i - 1] == r.states[i - 1] && t.ops[i - 1] == r.ops[i - 1] && t.times[i - 1] == r.times[i - 1];
    }
  }

  /**
   * A step that opens an attempt finds none opened since the lease; a step that retries finds the number below the
   * limit.
   */
  ghost predicate InOrder(r: Run, s: State, op: Op)
    requires Shaped(r)
  {
    && (forall id | Opens(s, op, id) :: Unopened(r, id))
    && (op.OpRetry? && Finishable(s, op.id, op.attempt, op.worker) ==>
          s.attempts[op.attempt].attemptNo < s.jobs[op.id].maxAttempts)
  }

  /** `t` is `r` with the step `op` more. */
  ghost predicate OneMore(r: Run, t: Run, now: Time, op: Op) {
    && Shaped(r) && Shaped(t) && Continues(r, t)
    && |t.ops| == |r.ops| + 1 && t.ops[|r.ops|] == op && t.times[|r.ops|] == now && t.states[|r.ops|] == Last(r)
  }

  lemma OnceStep(r: Run, t: Run, now: Time, op: Op)
    requires OneMore(r, t, now, op) && OncePerLease(r) && InOrder(r, Last(r), op)
    ensures OncePerLease(t)
  {
    hide Opens;
    forall i, id | 0 <= i < |t.ops| && Opens(t.states[i], t.ops[i], id)
      ensures !OpenedSinceLease(t, i, id)
    {
      OpenedPrefix(r, t, i, id);
      assert i < |r.ops| ==> t.states[i] == r.states[i] && t.ops[i] == r.ops[i];
    }
  }

  lemma BudgetStep(r: Run, t: Run, now: Time, op: Op)
    requires OneMore(r, t, now, op) && BudgetedRetries(r) && InOrder(r, Last(r), op)
    ensures BudgetedRetries(t)
  {
    hide Opens, Unopened, OpenFor;
    forall i, id | 0 <= i < |t.ops| && Retries(t, i, id)
      ensures RetriedNumber(t, i, id) < t.states[i].jobs[id].maxAttempts
    {
      if i < |r.ops| {
        assert t.states[i] == r.states[i] && t.ops[i] == r.ops[i];
        assert Retries(r, i, id);
        assert RetriedNumber(r, i, id) < r.states[i].jobs[id].maxAttempts;
      }
    }
  }

  /** What a step leaves unopened: whatever it leases, and whatever was unopened and it does not open. */
  lemma UnopenedStep(r: Run, t: Run, now: Time, op: Op, id: Uuid)
    requires OneMore(r, t, now, op)
    requires (id in Last(r).jobs && MoveOf(Last(r), now, op, id).Grant?) || (Unopened(r, id) && !Opens(Last(r), op, id))
    ensures Unopened(t, id)
  {
    hide MoveOf, Opens;
    OpenedPrefix(r, t, |r.ops|, id);
  }

  /** One more step in order. */
  lemma TraceStep(r: Run, s: State, last: Time, now: Time, op: Op)
    requires Traced(r, s, last) && last <= now && Legal(s, op) && InOrder(r, s, op)
    ensures Traced(Then(r, now, op), Apply(s, now, op), now) && OneMore(r, Then(r, now, op), now, op)
  {
    hide Apply, Legal, InOrder;
    var t := Then(r, now, op);
    ThenIsRun(r, now, op);
    hide Then, IsRun, By;
    OnceStep(r, t, now, op);
    BudgetStep(r, t, now, op);
  }

  lemma TraceLease(r: Run, s: State, last: Time, now: Time, op: Op)
    requires Traced(r, s, last) && last <= now && op.OpLease?
    ensures Traced(Then(r, now, op), Apply(s, now, op), now)
    ensures forall id | id in Ids(Chosen(s, op.queue, op.batch, now)) :: Unopened(Then(r, now, op), id)
  {
    hide Apply, Chosen, Ids, Traced, Inv;
    RunInvOf(r, s, last);
    TraceStep(r, s, last, now, op);
    forall id | id in Ids(Chosen(s, op.queue, op.batch, now))
      ensures Unopened(Then(r, now, op), id)
    {
      InvKeys(s);
      ChosenIsDue(s, op.queue, op.batch, now, id);
      LastOf(r, s, last);
      UnopenedStep(r, Then(r, now, op), now, op, id);
    }
  }

  lemma TracedLater(r: Run, s: State, now: Time, later: Time)
    requires Traced(r, s, now) && now <= later
    ensures Traced(r, s, later)
  {
    hide IsRun, OncePerLease, BudgetedRetries;
  }

  lemma LastOf(r: Run, s: State, now: Time)
    requires Traced(r, s, now)
    ensures Shaped(r) && Last(r) == s
  {
    hide IsRun, OncePerLease, BudgetedRetries;
  }

  lemma InvKeys(s: State)
    requires Inv(s)
    ensures KeysOk(s)
  {
  }

  lemma RunInvOf(r: Run, s: State, now: Time)
    requires Traced(r, s, now)
    ensures Inv(s)
  {
    hide Inv, StepAt;
    RunInv(r, |r.ops|);
  }

  lemma TraceStart(r: Run, s: State, now: Time, id: Uuid, worker: string, newId: Uuid)
    requires Traced(r, s, now) && newId !in s.born && Holds(s, id, worker) && Shaped(r) && Unopened(r, id)
    ensures var t := Then(r, now, OpStart(id, worker, newId));
      && Traced(t, Start(s, id, worker, newId, now), now)
      && forall x | x != id && Unopened(r, x) :: Unopened(t, x)
  {
    hide Traced, Holds, Start;
    var op := OpStart(id, worker, newId);
    TraceStep(r, s, now, now, op);
    LastOf(r, s, now);
    forall x | x != id && Unopened(r, x)
      ensures Unopened(Then(r, now, op), x)
    {
      UnopenedStep(r, Then(r, now, op), now, op, x);
    }
  }

  /**
   * Both rules pay off: in such a run the open attempts are current, and no job is retried more often than its limit
   * allows.
   */
  lemma TracedIsSafe(r: Run, s: State, now: Time, id: Uuid)
    requires Traced(r, s, now) && Known(s, id)
    ensures forall a, b | OpenFor(s, id, a) && OpenFor(s, id, b) :: a == b
    ensures forall a | OpenFor(s, id, a) :: Holds(s, id, s.attempts[a].workerId)
    ensures RetryCount(r, |r.ops|, id) <= if Record(s, id).maxAttempts > 1 then Record(s, id).maxAttempts - 1 else 0
  {
    hide StepAt, Holds, OpenedSinceLease, BudgetedRetries, OncePerLease, Record;
    OneCurrentAttempt(r, |r.ops|);
    RetryBudget(r, |r.ops|, id);
  }
}
