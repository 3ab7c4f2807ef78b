/** Attempt numbers and the retry budget over whole runs. */
module Attempts {
  import opened Model
  import opened Store
  import opened Locality
  import opened Invariants
  import opened Runs

  /** The numbers on the attempt records opened for job `id` in the first `i` steps, in order. */
  ghost function Issued(r: Run, i: nat, id: Uuid): seq<int>
    requires Shaped(r) && i < |r.states|
  {
    if i == 0 then []
    else
      var op, after := r.ops[i - 1], r.states[i].attempts;
      Issued(r, i - 1, id) +
      if Opens(r.states[i - 1], op, id) && op.newId in after then [after[op.newId].attemptNo] else []
  }

  lemma OpenedRecord(s: State, now: Time, op: Op, id: Uuid)
    requires Legal(s, op) && Opens(s, op, id)
    ensures op.newId in Apply(s, now, op).attempts
    ensures Apply(s, now, op).attempts[op.newId] == OpenAttempt(op.newId, id, CountOf(s, id) + 1, op.worker, now)
  {
    hide Enqueue, Lease, Reap, Cancel, Extend, Archive, PruneHistory, Replay, Succeed, Retry, DeadLetter;
  }

  /** The numbers issued to a job are 1, 2, 3, ... with no gap and no repeat, whatever history is pruned. */
  lemma {:induction false} NumbersAreConsecutive(r: Run, i: nat, id: Uuid)
    requires IsRun(r) && i < |r.states|
    ensures |Issued(r, i, id)| == CountOf(r.states[i], id)
    ensures forall k | 0 <= k < |Issued(r, i, id)| :: Issued(r, i, id)[k] == k + 1
  {
    hide Apply, Legal, Opens;
    if i > 0 {
      NumbersAreConsecutive(r, i - 1, id);
      assert StepAt(r, i - 1);
      CountStep(r.states[i - 1], r.times[i - 1], r.ops[i - 1], id);
      if Opens(r.states[i - 1], r.ops[i - 1], id) {
        OpenedRecord(r.states[i - 1], r.times[i - 1], r.ops[i - 1], id);
      }
    }
  }

  /** Step `i` puts job `id` back in the queue at its holder's request. */
  ghost predicate Retries(r: Run, i: nat, id: Uuid)
    requires Shaped(r)
  {
    i < |r.ops| && r.ops[i].OpRetry? && r.ops[i].id == id &&
    Finishable(r.states[i], id, r.ops[i].attempt, r.ops[i].worker)
  }

  ghost function RetriedNumber(r: Run, i: nat, id: Uuid): int
    requires Shaped(r) && Retries(r, i, id)
  {
    r.states[i].attempts[r.ops[i].attempt].attemptNo
  }

  /** As `handle_failure` does: an attempt is retried only while its number is below the job's limit. */
  ghost predicate BudgetedRetries(r: Run)
    requires Shaped(r)
  {
    forall i, id | 0 <= i < |r.ops| && Retries(r, i, id) ::
      RetriedNumber(r, i, id) < r.states[i].jobs[id].maxAttempts
  }

  ghost function RetryCount(r: Run, i: nat, id: Uuid): nat
    requires Shaped(r) && i < |r.states|
  {
    if i == 0 then 0 else RetryCount(r, i - 1, id) + (if Retries(r, i - 1, id) then 1 else 0)
  }

  /** The numbers of the attempts that were retried. */
  ghost function RetriedNumbers(r: Run, i: nat, id: Uuid): set<int>
    requires Shaped(r) && i < |r.states|
  {
    if i == 0 then {}
    else RetriedNumbers(r, i - 1, id) + (if Retries(r, i - 1, id) then {RetriedNumber(r, i - 1, id)} else {})
  }

  /** A retried number is used up: it is at most the counter and no open attempt carries it. */
  ghost predicate NumbersSpent(r: Run, i: nat, id: Uuid)
    requires Shaped(r) && i < |r.states|
  {
    && (forall n | n in RetriedNumbers(r, i, id) :: 1 <= n <= CountOf(r.states[i], id))
    && (forall a | OpenFor(r.states[i], id, a) :: r.states[i].attempts[a].attemptNo !in RetriedNumbers(r, i, id))
  }

  lemma {:induction false} RetriedNumbersSpent(r: Run, i: nat, id: Uuid)
    requires IsRun(r) && i < |r.states|
    ensures NumbersSpent(r, i, id)
  {
    hide StepAt;
    if i > 0 {
      RetriedNumbersSpent(r, i - 1, id);
      hide NumbersSpent;
      SpentStep(r, i - 1, id);
    }
  }

  lemma SpentStep(r: Run, i: nat, id: Uuid)
    requires IsRun(r) && i < |r.ops| && NumbersSpent(r, i, id)
    ensures NumbersSpent(r, i + 1, id)
  {
    hide StepAt, CountOf, Retries, RetriedNumber;
    RetryNumberBounds(r, i, id);
    var t := r.states[i + 1];
    forall a | OpenFor(t, id, a)
      ensures t.attempts[a].attemptNo !in RetriedNumbers(r, i + 1, id)
    {
      OpenNumberUnspent(r, i, id, a);
    }
  }

  lemma {:induction false} RetriedNumbersCounted(r: Run, i: nat, id: Uuid)
    requires IsRun(r) && i < |r.states|
    ensures |RetriedNumbers(r, i, id)| == RetryCount(r, i, id)
  {
    hide StepAt, Retries, RetriedNumber, NumbersSpent;
    if i > 0 {
      RetriedNumbersCounted(r, i - 1, id);
      RetriedNumbersSpent(r, i - 1, id);
      RetryNumberBounds(r, i - 1, id);
    }
  }

  lemma RetryNumberBounds(r: Run, i: nat, id: Uuid)
    requires IsRun(r) && i < |r.ops|
    ensures CountOf(r.states[i], id) <= CountOf(r.states[i + 1], id)
    ensures Retries(r, i, id) ==> 1 <= RetriedNumber(r, i, id) <= CountOf(r.states[i], id)
    ensures Retries(r, i, id) && NumbersSpent(r, i, id) ==> RetriedNumber(r, i, id) !in RetriedNumbers(r, i, id)
  {
    hide Apply, Legal, LocksOk, KeysOk, KeysUnique, LineageOk;
    RunInv(r, i);
    assert StepAt(r, i);
    CountStep(r.states[i], r.times[i], r.ops[i], id);
  }

  lemma OpenNumberUnspent(r: Run, i: nat, id: Uuid, a: Uuid)
    requires IsRun(r) && i < |r.ops| && NumbersSpent(r, i, id)
    requires OpenFor(r.states[i + 1], id, a)
    ensures r.states[i + 1].attempts[a].attemptNo !in RetriedNumbers(r, i + 1, id)
  {
    hide Apply, Legal, LocksOk, KeysUnique, LineageOk, Holds, CountOf;
    var s, now, op := r.states[i], r.times[i], r.ops[i];
    RunInv(r, i);
    assert StepAt(r, i);
    hide KeysOk;
    NumberSource(s, now, op, a);
    if a in s.attempts {
      AttemptStep(s, now, op, a);
    }
  }

  lemma {:induction false} RetriedBelowLimit(r: Run, i: nat, id: Uuid, n: int)
    requires IsRun(r) && BudgetedRetries(r) && i < |r.states|
    requires n in RetriedNumbers(r, i, id)
    ensures Known(r.states[i], id) && n < Record(r.states[i], id).maxAttempts
  {
    hide StepAt, RetriedNumber;
    if i > 0 {
      if n in RetriedNumbers(r, i - 1, id) {
        RetriedBelowLimit(r, i - 1, id, n);
      }
      NothingLostTerminalFinal(r, i - 1, i, id);
    }
  }

  lemma {:induction false} SmallSet(ns: set<int>, limit: int)
    requires forall n | n in ns :: 1 <= n <= limit
    ensures |ns| <= if limit > 0 then limit else 0
    decreases if limit > 0 then limit else 0
  {
    if limit > 0 {
      var rest := ns - {limit};
      SmallSet(rest, limit - 1);
      if limit in ns {
        assert ns == rest + {limit};
      } else {
        assert ns == rest;
      }
    } else {
      assert forall n :: n !in ns;
      assert ns == {};
    }
  }

  /**
   * However many leases, reaps and prunes come in between, a job is rescheduled fewer times than its attempt limit:
   * every retry spends a different attempt number below the limit.
   */
  lemma RetryBudget(r: Run, i: nat, id: Uuid)
    requires IsRun(r) && BudgetedRetries(r) && i < |r.states|
    requires Known(r.states[i], id)
    ensures var limit := Record(r.states[i], id).maxAttempts;
      RetryCount(r, i, id) <= if limit > 1 then limit - 1 else 0
  {
    hide StepAt, BudgetedRetries;
    RetriedNumbersSpent(r, i, id);
    RetriedNumbersCounted(r, i, id);
    forall n | n in RetriedNumbers(r, i, id)
      ensures 1 <= n <= Record(r.states[i], id).maxAttempts - 1
    {
      RetriedBelowLimit(r, i, id, n);
    }
    SmallSet(RetriedNumbers(r, i, id), Record(r.states[i], id).maxAttempts - 1);
  }
}
