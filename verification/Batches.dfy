/** What a batch of leased jobs comes to: the work it takes off the queue, the jobs it settles, the run it is. */
module Batches {
  import opened Model
  import opened Ordering
  import opened Store
  import opened Locality
  import opened Invariants
  import opened MemoryBackend
  import opened Backoff
  import opened Runs
  import opened Fencing
  import opened Discipline

  // The work left in a queue

  /** The attempts a queued job may still make, counting one more to be leased at all. */
  ghost function Weight(s: State, queue: string, id: Uuid): nat
    requires id in s.jobs
  {
    var j := s.jobs[id];
    if j.status.Queued? && j.queue == queue then
      (if j.maxAttempts > CountOf(s, id) then j.maxAttempts - CountOf(s, id) else 0) + 1
    else 0
  }

  ghost function Total(m: map<Uuid, nat>): nat
    decreases |m|
  {
    if m == map[] then 0
    else
      var k :| k in m;
      m[k] + Total(m - {k})
  }

  lemma {:induction false} TotalWithout(m: map<Uuid, nat>, k: Uuid)
    requires k in m
    ensures Total(m) == m[k] + Total(m - {k})
    decreases |m|
  {
    assert m != map[];
    var c :| c in m && Total(m) == m[c] + Total(m - {c});
    if c != k {
      TotalWithout(m - {c}, k);
      TotalWithout(m - {k}, c);
      assert m - {c} - {k} == m - {k} - {c};
    }
  }

  lemma {:induction false} TotalMonotone(m: map<Uuid, nat>, n: map<Uuid, nat>)
    requires m.Keys == n.Keys
    requires forall k | k in m :: n[k] <= m[k]
    ensures Total(n) <= Total(m)
    decreases |m|
  {
    if m == map[] {
      assert n == map[];
    } else {
      var k :| k in m;
      TotalWithout(m, k);
      TotalWithout(n, k);
      TotalMonotone(m - {k}, n - {k});
    }
  }

  lemma TotalStrict(m: map<Uuid, nat>, n: map<Uuid, nat>, k: Uuid)
    requires m.Keys == n.Keys && k in m
    requires forall x | x in m :: n[x] <= m[x]
    requires n[k] < m[k]
    ensures Total(n) < Total(m)
  {
    TotalWithout(m, k);
    TotalWithout(n, k);
    TotalMonotone(m - {k}, n - {k});
  }

  lemma TotalUpdate(m: map<Uuid, nat>, k: Uuid, v: nat)
    requires k in m
    ensures Total(m[k := v]) == Total(m) - m[k] + v
  {
    hide Total;
    TotalWithout(m, k);
    TotalWithout(m[k := v], k);
    assert m[k := v] - {k} == m - {k};
  }

  lemma {:induction false} TotalPlusOneEach(m: map<Uuid, nat>, n: map<Uuid, nat>, ids: seq<Uuid>)
    requires n.Keys == m.Keys && forall id | id in m :: n[id] == m[id] + if id in ids then 1 else 0
    requires forall k | 0 <= k < |ids| :: ids[k] in m
    requires forall k, l | 0 <= k < l < |ids| :: ids[k] != ids[l]
    ensures Total(n) == Total(m) + |ids|
    decreases |ids|
  {
    hide Total;
    if ids == [] {
      assert n == m;
    } else {
      var last := |ids| - 1;
      var x := ids[last];
      assert ids == ids[..last] + [x];
      TotalUpdate(m, x, m[x] + 1);
      TotalPlusOneEach(m[x := m[x] + 1], n, ids[..last]);
    }
  }

  ghost function Counts(s: State): map<Uuid, nat> {
    map id | id in s.jobs :: if CountOf(s, id) < 0 then 0 else CountOf(s, id)
  }

  /** How many attempts have been opened on the jobs of the table. */
  ghost function Opened(s: State): nat {
    Total(Counts(s))
  }

  ghost function Weights(s: State, queue: string): map<Uuid, nat> {
    map id | id in s.jobs :: Weight(s, queue, id)
  }

  /** The most attempts the queue can still cost. */
  ghost function WorkLeft(s: State, queue: string): nat {
    Total(Weights(s, queue))
  }

  // Opening the attempts of a batch

  /** Every id of the batch is held by the worker, and no id appears twice. */
  ghost predicate Held(s: State, ids: seq<Uuid>, worker: string) {
    && (forall k | 0 <= k < |ids| :: Holds(s, ids[k], worker))
    && (forall k, l | 0 <= k < l < |ids| :: ids[k] != ids[l])
  }

  ghost predicate CarriedOver(s: State, t: State) {
    && t.jobs == s.jobs && t.archive == s.archive
    && (forall a | a in s.attempts && a in s.born :: a in t.attempts && t.attempts[a] == s.attempts[a])
    && (forall id | id in s.born :: id in t.born)
  }

  ghost predicate OpenedFor(s: State, t: State, id: Uuid, worker: string, newId: Uuid, now: Time) {
    && newId in t.attempts && newId in t.born
    && t.attempts[newId] == OpenAttempt(newId, id, CountOf(s, id) + 1, worker, now)
    && CountOf(t, id) == CountOf(s, id) + 1
  }

  /** `t` is `s` with one open attempt more for each id. */
  ghost predicate AllStarted(s: State, t: State, ids: seq<Uuid>, worker: string, newIds: seq<Uuid>, now: Time)
    requires |newIds| == |ids|
  {
    && CarriedOver(s, t)
    && (forall k | 0 <= k < |ids| :: OpenedFor(s, t, ids[k], worker, newIds[k], now))
    && (forall id | id !in ids :: CountOf(t, id) == CountOf(s, id))
  }

  function StartedSeq(s: State, ids: seq<Uuid>, newIds: seq<Uuid>): seq<Started>
    requires |newIds| == |ids|
  {
    seq(|ids|, k requires 0 <= k < |ids| => Started(ids[k], newIds[k], CountOf(s, ids[k]) + 1))
  }

  lemma {:induction false} BatchStarts(s: State, ids: seq<Uuid>, worker: string, newIds: seq<Uuid>, now: Time,
                                       acc: seq<Started>)
    requires |newIds| == |ids| && Held(s, ids, worker) && Unused(s.born, newIds)
    ensures var (t, r) := StartAll(s, ids, worker, newIds, now, acc);
      AllStarted(s, t, ids, worker, newIds, now) && r == Ok(acc + StartedSeq(s, ids, newIds))
    decreases ids
  {
    if ids == [] {
      assert acc + StartedSeq(s, ids, newIds) == acc;
    } else {
      var u := Start(s, ids[0], worker, newIds[0], now);
      StartOne(s, ids, worker, newIds, now);
      var first := Started(ids[0], newIds[0], CountOf(s, ids[0]) + 1);
      assert Holds(s, ids[0], worker);
      hide Start, Held, Unused, CountOf, AllStarted, Holds;
      BatchStarts(u, ids[1..], worker, newIds[1..], now, acc + [first]);
      var t := StartAll(u, ids[1..], worker, newIds[1..], now, acc + [first]).0;
      StartRest(s, u, t, ids, worker, newIds, now);
      StartedSeqCons(s, u, ids, newIds);
      hide StartedSeq, OneStarted;
      AppendStarted(acc, [first], StartedSeq(u, ids[1..], newIds[1..]));
    }
  }

  lemma AppendStarted(a: seq<Started>, b: seq<Started>, c: seq<Started>)
    ensures a + b + c == a + (b + c)
  {
  }

  lemma StartedSeqCons(s: State, u: State, ids: seq<Uuid>, newIds: seq<Uuid>)
    requires |newIds| == |ids| > 0
    requires ids[0] !in ids[1..]
    requires forall id :: CountOf(u, id) == CountOf(s, id) + (if id == ids[0] then 1 else 0)
    ensures StartedSeq(s, ids, newIds)
         == [Started(ids[0], newIds[0], CountOf(s, ids[0]) + 1)] + StartedSeq(u, ids[1..], newIds[1..])
  {
    hide CountOf;
    forall k | 0 < k < |ids|
      ensures StartedSeq(s, ids, newIds)[k] == StartedSeq(u, ids[1..], newIds[1..])[k - 1]
    {
      assert ids[1..][k - 1] == ids[k];
    }
  }

  lemma StartOne(s: State, ids: seq<Uuid>, worker: string, newIds: seq<Uuid>, now: Time)
    requires |newIds| == |ids| > 0 && Held(s, ids, worker) && Unused(s.born, newIds)
    ensures var u := Start(s, ids[0], worker, newIds[0], now);
      && Held(u, ids[1..], worker) && Unused(u.born, newIds[1..])
      && OneStarted(s, u, ids[0], worker, newIds[0], now)
    ensures ids[0] !in ids[1..] && newIds[0] !in newIds[1..]
  {
    hide OpenAttempt;
    assert forall k | 0 <= k < |ids| - 1 :: ids[1..][k] == ids[k + 1];
    assert forall k | 0 <= k < |newIds| - 1 :: newIds[1..][k] == newIds[k + 1];
  }

  ghost predicate OneStarted(s: State, u: State, id: Uuid, worker: string, newId: Uuid, now: Time) {
    && u.jobs == s.jobs && u.archive == s.archive
    && u.attempts == s.attempts[newId := OpenAttempt(newId, id, CountOf(s, id) + 1, worker, now)]
    && (forall x :: CountOf(u, x) == CountOf(s, x) + (if x == id then 1 else 0))
    && u.born == s.born[newId := |s.born|]
  }

  lemma StartRest(s: State, u: State, t: State, ids: seq<Uuid>, worker: string, newIds: seq<Uuid>, now: Time)
    requires |newIds| == |ids| > 0
    requires ids[0] !in ids[1..] && newIds[0] !in s.born
    requires OneStarted(s, u, ids[0], worker, newIds[0], now)
    requires AllStarted(u, t, ids[1..], worker, newIds[1..], now)
    ensures AllStarted(s, t, ids, worker, newIds, now)
  {
    FirstStarted(s, u, t, ids, worker, newIds, now);
    hide CountOf, CarriedOver, OpenedFor;
    var rest, newRest := ids[1..], newIds[1..];
    forall k | 0 < k < |ids|
      ensures OpenedFor(s, t, ids[k], worker, newIds[k], now)
    {
      assert OpenedFor(u, t, rest[k - 1], worker, newRest[k - 1], now);
      OpenedSince(s, u, t, ids[0], ids[k], worker, newIds[0], newIds[k], now);
    }
    forall id | id !in ids
      ensures CountOf(t, id) == CountOf(s, id)
    {
      assert ids[0] in ids;
      assert id !in rest;
    }
  }

  lemma OpenedSince(s: State, u: State, t: State, first: Uuid, id: Uuid, worker: string, newFirst: Uuid, newId: Uuid,
                    now: Time)
    requires OneStarted(s, u, first, worker, newFirst, now) && id != first
    requires OpenedFor(u, t, id, worker, newId, now)
    ensures OpenedFor(s, t, id, worker, newId, now)
  {
    hide OpenAttempt, CountOf;
  }

  lemma FirstStarted(s: State, u: State, t: State, ids: seq<Uuid>, worker: string, newIds: seq<Uuid>, now: Time)
    requires |newIds| == |ids| > 0
    requires ids[0] !in ids[1..] && newIds[0] !in s.born
    requires OneStarted(s, u, ids[0], worker, newIds[0], now)
    requires AllStarted(u, t, ids[1..], worker, newIds[1..], now)
    ensures CarriedOver(s, t) && OpenedFor(s, t, ids[0], worker, newIds[0], now)
  {
    hide OpenAttempt, CountOf;
  }

  // Settling the jobs of a batch

  /** What running a handler comes to. */
  datatype Outcome = Done | Failure(code: string, message: string) | Panicked(message: string) | TimedOut

  const TIMEOUT_MESSAGE := "job attempt exceeded timeout_seconds"

  /**
   * A failed job is back in the queue exactly if its class and the number of its attempts allow it; else it is dead.
   */
  predicate FailedAs(j: Job, code: string, attemptNo: int) {
    if IsRetryable(Classify(code)) && attemptNo < j.maxAttempts then j.status.Queued?
    else j.status.Dlq? && j.dlqReason == Some(DlqReason(Classify(code)))
  }

  /** What the outcome of the handler makes of the job. */
  predicate EndsAs(j: Job, attemptNo: int, outcome: Outcome) {
    match outcome
    case Done => j.status.Succeeded?
    case Panicked(_) => j.status.Dlq? && j.dlqReason == Some("PANIC")
    case Failure(code, _) => FailedAs(j, code, attemptNo)
    case TimedOut => FailedAs(j, "TIMEOUT", attemptNo)
  }

  /** What it makes of the attempt. */
  predicate AttemptEndsAs(a: Attempt, outcome: Outcome) {
    match outcome
    case Done => a.status.AttemptSucceeded?
    case Panicked(message) => a.status.AttemptFailed? && a.errorCode == Some("PANIC") && a.errorMessage == Some(message)
    case Failure(code, message) =>
      a.status.AttemptFailed? && a.errorCode == Some(code) && a.errorMessage == Some(message)
    case TimedOut =>
      a.status.AttemptFailed? && a.errorCode == Some("TIMEOUT") && a.errorMessage == Some(TIMEOUT_MESSAGE)
  }

  ghost predicate Settled(t: State, id: Uuid, outcome: Outcome) {
    id in t.jobs && EndsAs(t.jobs[id], CountOf(t, id), outcome)
  }

  /** `t` is `s` after one job was settled in the name of one attempt, as the outcome asks, and nothing else. */
  ghost predicate SettledBy(s: State, t: State, id: Uuid, attempt: Uuid, outcome: Outcome) {
    && id in s.jobs && Settled(t, id, outcome) && SameIdentity(s.jobs[id], t.jobs[id])
    && t.jobs == s.jobs[id := t.jobs[id]]
    && attempt in t.attempts && t.attempts == s.attempts[attempt := t.attempts[attempt]]
    && AttemptEndsAs(t.attempts[attempt], outcome)
    && t.counts == s.counts && t.archive == s.archive && t.born == s.born
  }

  /** `op` settles job `id` under `attempt` in the name of `worker`, and retries only below the limit. */
  ghost predicate SettlesBy(s: State, t: State, op: Op, id: Uuid, attempt: Uuid, worker: string, now: Time) {
    && Legal(s, op) && t == Apply(s, now, op) && Finishes(op, id, attempt) && op.worker == worker
    && (op.OpRetry? ==> id in s.jobs && CountOf(s, id) < s.jobs[id].maxAttempts)
  }

  lemma TimeoutIsFailure(s: State, t: State, id: Uuid, attempt: Uuid)
    requires SettledBy(s, t, id, attempt, Failure("TIMEOUT", TIMEOUT_MESSAGE))
    ensures SettledBy(s, t, id, attempt, TimedOut)
  {
    hide Classify;
  }

  /** The first `k` jobs of the batch are settled and the rest stand as they did. */
  ghost predicate Progress(s: State, t: State, ids: seq<Uuid>, newIds: seq<Uuid>, outcomes: seq<Outcome>,
                           k: nat) {
    && |newIds| == |ids| == |outcomes|
    && t.jobs.Keys == s.jobs.Keys && t.counts == s.counts && t.archive == s.archive && t.born == s.born
    && (forall id | id in s.jobs :: SameIdentity(s.jobs[id], t.jobs[id]))
    && (forall id | id in s.jobs && id !in ids[..if k < |ids| then k else |ids|] :: t.jobs[id] == s.jobs[id])
    && AttemptsLeft(s, t, newIds, k)
    && (forall i | 0 <= i < k && i < |ids| :: Settled(t, ids[i], outcomes[i]))
  }

  /** Only the first `k` of the new attempts have changed. */
  ghost predicate AttemptsLeft(s: State, t: State, newIds: seq<Uuid>, k: nat) {
    && (forall i | k <= i < |newIds| && newIds[i] in s.attempts ::
          newIds[i] in t.attempts && t.attempts[newIds[i]] == s.attempts[newIds[i]])
    && (forall a | a in s.attempts && a !in newIds :: a in t.attempts && t.attempts[a] == s.attempts[a])
  }

  lemma AttemptsLeftStep(s: State, t: State, v: State, newIds: seq<Uuid>, k: nat)
    requires k < |newIds| && AttemptsLeft(s, t, newIds, k) && newIds[k] in v.attempts
    requires v.attempts == t.attempts[newIds[k] := v.attempts[newIds[k]]]
    requires forall i, j | 0 <= i < j < |newIds| :: newIds[i] != newIds[j]
    ensures AttemptsLeft(s, v, newIds, k + 1)
  {
  }

  lemma ProgressBegins(s: State, u: State, ids: seq<Uuid>, worker: string, newIds: seq<Uuid>, now: Time,
                       attemptsMap: map<Uuid, Started>, outcomes: seq<Outcome>)
    requires BatchOpen(s, u, ids, worker, newIds, now, attemptsMap) && |outcomes| == |ids|
    ensures |newIds| == |ids| && Progress(u, u, ids, newIds, outcomes, 0)
  {
    hide AllStarted;
  }

  lemma ProgressStep(s: State, u: State, t: State, v: State, ids: seq<Uuid>, worker: string, newIds: seq<Uuid>,
                     now: Time, attemptsMap: map<Uuid, Started>, outcomes: seq<Outcome>, k: nat)
    requires BatchOpen(s, u, ids, worker, newIds, now, attemptsMap) && k < |ids|
    requires Progress(u, t, ids, newIds, outcomes, k)
    requires SettledBy(t, v, ids[k], newIds[k], outcomes[k])
    ensures Progress(u, v, ids, newIds, outcomes, k + 1)
  {
    hide SameIdentity, AllStarted, Settled, AttemptsLeft, AttemptEndsAs;
    IdentityChains(u, t, v, ids[k]);
    AttemptsLeftStep(u, t, v, newIds, k);
    assert ids[..k + 1] == ids[..k] + [ids[k]];
    forall i | 0 <= i < k
      ensures Settled(v, ids[i], outcomes[i])
    {
      assert ids[i] != ids[k];
      StaysSettled(t, v, ids[i], ids[k], outcomes[i]);
    }
  }

  lemma StaysSettled(t: State, v: State, id: Uuid, other: Uuid, outcome: Outcome)
    requires Settled(t, id, outcome) && id != other && other in v.jobs
    requires v.jobs == t.jobs[other := v.jobs[other]] && v.counts == t.counts
    ensures Settled(v, id, outcome)
  {
    hide EndsAs;
  }

  lemma IdentityChains(s: State, t: State, u: State, id: Uuid)
    requires s.jobs.Keys == t.jobs.Keys && id in t.jobs && id in u.jobs
    requires forall x | x in s.jobs :: SameIdentity(s.jobs[x], t.jobs[x])
    requires SameIdentity(t.jobs[id], u.jobs[id]) && u.jobs == t.jobs[id := u.jobs[id]]
    ensures forall x | x in s.jobs :: x in u.jobs && SameIdentity(s.jobs[x], u.jobs[x])
  {
  }

  /** The outcome of a batch: every job is settled up to `done`, and every later one is left running and open. */
  ghost predicate BatchOutcome(s: State, t: State, ids: seq<Uuid>, worker: string, outcomes: seq<Outcome>,
                               done: nat) {
    && |outcomes| == |ids| && t.jobs.Keys == s.jobs.Keys && t.archive == s.archive
    && (forall id | id in s.jobs :: SameIdentity(s.jobs[id], t.jobs[id]))
    && (forall id | id in s.jobs && id !in ids :: t.jobs[id] == s.jobs[id] && CountOf(t, id) == CountOf(s, id))
    && (forall i | 0 <= i < |ids| :: CountOf(t, ids[i]) == CountOf(s, ids[i]) + 1)
    && (forall a | a in s.attempts && a in s.born :: a in t.attempts && t.attempts[a] == s.attempts[a])
    && (forall i | 0 <= i < |ids| && i < done :: Settled(t, ids[i], outcomes[i]))
    && (forall i | done <= i < |ids| :: LeftRunning(s, t, ids[i], worker))
  }

  /** The record is as it was leased, still held by the worker, with the attempt opened for it still open. */
  ghost predicate LeftRunning(s: State, t: State, id: Uuid, worker: string) {
    && Holds(t, id, worker) && id in s.jobs && t.jobs[id] == s.jobs[id]
    && exists a :: OpenFor(t, id, a) && t.attempts[a].attemptNo == CountOf(t, id) && t.attempts[a].workerId == worker
  }

  lemma OutcomeOf(s: State, u: State, t: State, ids: seq<Uuid>, worker: string, newIds: seq<Uuid>, now: Time,
                  attemptsMap: map<Uuid, Started>, outcomes: seq<Outcome>, done: nat)
    requires Held(s, ids, worker) && BatchOpen(s, u, ids, worker, newIds, now, attemptsMap) && done <= |ids|
    requires Progress(u, t, ids, newIds, outcomes, done)
    ensures BatchOutcome(s, t, ids, worker, outcomes, done)
  {
    assert u.jobs == s.jobs && u.archive == s.archive;
    assert forall id | id !in ids :: id !in ids[..done];
    forall id | id in s.jobs && id !in ids
      ensures t.jobs[id] == s.jobs[id] && CountOf(t, id) == CountOf(s, id)
    {
      assert CountOf(u, id) == CountOf(s, id);
    }
    forall i | 0 <= i < |ids|
      ensures CountOf(t, ids[i]) == CountOf(s, ids[i]) + 1
    {
      assert OpenedFor(s, u, ids[i], worker, newIds[i], now);
    }
    forall i | done <= i < |ids|
      ensures LeftRunning(s, t, ids[i], worker)
    {
      LaterJobLeft(s, u, t, ids, worker, newIds, now, outcomes, done, i);
    }
  }

  lemma LaterJobLeft(s: State, u: State, t: State, ids: seq<Uuid>, worker: string, newIds: seq<Uuid>, now: Time,
                     outcomes: seq<Outcome>, done: nat, i: nat)
    requires |newIds| == |ids| && Held(s, ids, worker) && done <= i < |ids|
    requires AllStarted(s, u, ids, worker, newIds, now)
    requires Progress(u, t, ids, newIds, outcomes, done)
    ensures LeftRunning(s, t, ids[i], worker)
  {
    hide SameIdentity, Settled;
    assert OpenedFor(s, u, ids[i], worker, newIds[i], now);
    assert ids[i] !in ids[..done];
    assert OpenFor(t, ids[i], newIds[i]);
  }

  lemma SucceedSettles(s: State, id: Uuid, attempt: Uuid, worker: string, latency: int, newId: Uuid, now: Time)
    requires Finishable(s, id, attempt, worker) && s.jobs[id].recurringSeconds.None?
    ensures SettledBy(s, Succeed(s, id, attempt, worker, latency, newId, now), id, attempt, Done)
  {
  }

  lemma RetrySettles(s: State, id: Uuid, attempt: Uuid, worker: string, latency: int, runAt: Time, code: string,
                     message: string, now: Time)
    requires Finishable(s, id, attempt, worker) && CountOf(s, id) < s.jobs[id].maxAttempts
    requires IsRetryable(Classify(code))
    ensures SettledBy(s, Retry(s, id, attempt, worker, latency, runAt, code, message, now), id, attempt,
                      Failure(code, message))
  {
    hide Classify;
  }

  lemma DeadLetterSettles(s: State, id: Uuid, attempt: Uuid, worker: string, latency: int, reason: string, code: string,
                          message: string, now: Time, outcome: Outcome)
    requires Finishable(s, id, attempt, worker)
    requires if outcome.Panicked? then outcome.message == message && reason == code == "PANIC"
             else
               && outcome == Failure(code, message) && reason == DlqReason(Classify(code))
               && !(IsRetryable(Classify(code)) && CountOf(s, id) < s.jobs[id].maxAttempts)
    ensures SettledBy(s, DeadLetter(s, id, attempt, worker, latency, reason, code, message, now), id, attempt, outcome)
  {
    hide Classify;
  }

  /** Outcomes the handlers of a batch may have: only a job with a timeout can time out. */
  predicate MayEnd(batch: seq<Job>, outcomes: seq<Outcome>) {
    |outcomes| == |batch| && forall k | 0 <= k < |batch| && outcomes[k].TimedOut? :: batch[k].timeoutSeconds.Some?
  }

  /** The rounds so far: the same one-shot jobs as at first, and `total` attempts opened. */
  ghost predicate Rounds(first: State, s: State, queue: string, total: nat) {
    OneShot(s, queue) && SameRowsAs(first, s) && total + Opened(first) == Opened(s)
  }

  lemma RoundsBegin(first: State, queue: string)
    requires OneShot(first, queue)
    ensures Rounds(first, first, queue, 0)
  {
    hide OneShot, Opened;
    SameRows(first);
  }

  lemma RoundsMeaning(first: State, t: State, queue: string, total: nat)
    requires Rounds(first, t, queue, total)
    ensures t.jobs.Keys == first.jobs.Keys && t.archive == first.archive && total == Opened(t) - Opened(first)
    ensures forall id | id in t.jobs :: SameIdentity(first.jobs[id], t.jobs[id])
  {
    hide OneShot, Opened;
  }

  /** The batch is of the chosen jobs, all of them due. */
  ghost predicate TakenBatch(s: State, queue: string, batch: int, now: Time, leased: seq<Job>) {
    && |leased| == |Chosen(s, queue, batch, now)|
    && forall i | 0 <= i < |leased| ::
         && leased[i].id in s.jobs && Due(s.jobs[leased[i].id], queue, now)
         && leased[i].id == Chosen(s, queue, batch, now)[i].id
  }

  lemma EmptyBatch(s: State, queue: string, batch: int, now: Time)
    requires TakenBatch(s, queue, batch, now, [])
    ensures Chosen(s, queue, batch, now) == []
  {
    hide Chosen;
  }

  lemma RoundLeases(first: State, s: State, queue: string, worker: string, seconds: int, batch: int, now: Time,
                    leased: seq<Job>, total: nat)
    requires Inv(s) && Inv(Lease(s, queue, worker, seconds, batch, now)) && Rounds(first, s, queue, total)
    requires IsBatch(Lease(s, queue, worker, seconds, batch, now).jobs, Chosen(s, queue, batch, now), leased)
    ensures var u := Lease(s, queue, worker, seconds, batch, now);
      && Rounds(first, u, queue, total) && Held(u, IdsOf(leased), worker) && AsStored(u.jobs, leased)
      && TakenBatch(s, queue, batch, now, leased)
  {
    hide Inv, Lease, Chosen, Ids, OneShot, Opened, SameRowsAs, Held, AsStored, IsBatch, Due;
    LeasedBatch(s, queue, worker, seconds, batch, now, leased);
    RowsAfterLease(first, s, queue, worker, seconds, batch, now);
    OpenedByLease(s, queue, worker, seconds, batch, now);
  }

  lemma RoundEnds(first: State, s: State, u: State, t: State, queue: string, worker: string, seconds: int, batch: int,
                  now: Time, leased: seq<Job>, outcomes: seq<Outcome>, done: nat, total: nat)
    requires Inv(s) && Inv(u) && u == Lease(s, queue, worker, seconds, batch, now) && Rounds(first, u, queue, total)
    requires leased != [] && Held(u, IdsOf(leased), worker)
    requires forall i | 0 <= i < |leased| :: leased[i].id in s.jobs && Due(s.jobs[leased[i].id], queue, now)
    requires BatchOutcome(u, t, IdsOf(leased), worker, outcomes, done)
    ensures Rounds(first, t, queue, total + |leased|) && WorkLeft(t, queue) < WorkLeft(s, queue)
  {
    hide Inv, Lease, OneShot, Opened, SameRowsAs, Held, BatchOutcome, WorkLeft, Due;
    WorkShrinks(s, u, t, queue, worker, seconds, batch, now, leased, outcomes, done);
    RowsAfterBatch(first, u, t, IdsOf(leased), worker, outcomes, done);
    OpenedByBatch(u, t, IdsOf(leased), worker, outcomes, done);
  }

  /**
   * A timeout ends the batch, and nothing else does: `done` jobs are reached, of which only the last can have timed
   * out, and if any are left then it has.
   */
  ghost predicate StopsAt(outcomes: seq<Outcome>, done: nat) {
    && done <= |outcomes| && (forall k | 0 <= k < done - 1 :: !outcomes[k].TimedOut?)
    && (done < |outcomes| ==> done > 0 && outcomes[done - 1].TimedOut?)
  }

  /** Every job of the batch is reached if and only if none before the last times out. */
  lemma ReachesAllIff(outcomes: seq<Outcome>, done: nat)
    requires StopsAt(outcomes, done)
    ensures done == |outcomes| <==> forall k | 0 <= k < |outcomes| - 1 :: !outcomes[k].TimedOut?
  {
    if done < |outcomes| {
      assert outcomes[done - 1].TimedOut?;
    }
  }

  /** How far a batch gets is settled by the outcomes. */
  lemma StopIsUnique(outcomes: seq<Outcome>, a: nat, b: nat)
    requires StopsAt(outcomes, a) && StopsAt(outcomes, b)
    ensures a == b
  {
  }

  // The worker's steps as a run

  /** `r` is in order, leads to `s`, and has opened no attempt for the current leases of `ids`. */
  ghost predicate ReadyFor(r: Run, s: State, now: Time, ids: seq<Uuid>) {
    Traced(r, s, now) && forall k | 0 <= k < |ids| :: Unopened(r, ids[k])
  }

  lemma ReadyLater(r: Run, s: State, now: Time, later: Time, ids: seq<Uuid>)
    requires now <= later
    ensures ReadyFor(r, s, now, ids) ==> ReadyFor(r, s, later, ids)
  {
    hide Traced, Unopened;
    if Traced(r, s, now) {
      TracedLater(r, s, now, later);
      LastOf(r, s, now);
    }
  }

  lemma {:induction false} TraceStarts(r: Run, s: State, ids: seq<Uuid>, worker: string, newIds: seq<Uuid>, now: Time,
                                       acc: seq<Started>) returns (t: Run)
    requires |newIds| == |ids| && Held(s, ids, worker) && Unused(s.born, newIds) && ReadyFor(r, s, now, ids)
    ensures Traced(t, StartAll(s, ids, worker, newIds, now, acc).0, now) && Continues(r, t)
    decreases ids
  {
    hide Traced, Unopened, Start;
    t := r;
    if ids != [] {
      LastOf(r, s, now);
      StartOne(s, ids, worker, newIds, now);
      assert Holds(s, ids[0], worker) && newIds[0] !in s.born;
      hide Held, Unused, Holds;
      TraceStart(r, s, now, ids[0], worker, newIds[0]);
      var first := Started(ids[0], newIds[0], CountOf(s, ids[0]) + 1);
      var next := Then(r, now, OpStart(ids[0], worker, newIds[0]));
      hide OneStarted;
      ThenContinues(r, now, OpStart(ids[0], worker, newIds[0]));
      hide Then;
      t := TraceStarts(next, Start(s, ids[0], worker, newIds[0], now), ids[1..], worker, newIds[1..], now,
                       acc + [first]);
      ContinuesChain(r, next, t);
    }
  }

  lemma TraceSettle(r: Run, s: State, t: State, last: Time, now: Time, op: Op, id: Uuid, attempt: Uuid, worker: string)
      returns (after: Run)
    requires SettlesBy(s, t, op, id, attempt, worker, now) && last <= now
    requires Finishable(s, id, attempt, worker) && s.attempts[attempt].attemptNo == CountOf(s, id)
    ensures Traced(r, s, last) ==> Traced(after, t, now)
    ensures Continues(r, after)
  {
    hide Apply, Traced, Legal;
    after := r;
    if Traced(r, s, last) {
      LastOf(r, s, last);
      TraceStep(r, s, last, now, op);
      ThenContinues(r, now, op);
      after := Then(r, now, op);
    }
  }

  lemma ReadyAfterLease(r: Run, s: State, last: Time, queue: string, worker: string, seconds: int, batch: int,
                        now: Time, leased: seq<Job>) returns (after: Run)
    requires last <= now && TakenBatch(s, queue, batch, now, leased)
    ensures Traced(r, s, last) ==>
      ReadyFor(after, Lease(s, queue, worker, seconds, batch, now), now, IdsOf(leased))
    ensures Traced(r, s, last) ==> Traced(after, Lease(s, queue, worker, seconds, batch, now), now)
    ensures Continues(r, after)
  {
    hide Traced, Unopened, Lease, Chosen, Due;
    after := r;
    assert forall k | 0 <= k < |leased| :: Chosen(s, queue, batch, now)[k] in Chosen(s, queue, batch, now);
    if Traced(r, s, last) {
      var op := OpLease(queue, worker, seconds, batch);
      TraceLease(r, s, last, now, op);
      LastOf(r, s, last);
      ThenContinues(r, now, op);
      after := Then(r, now, op);
    }
  }

  /** No job of the queue recurs. */
  ghost predicate OneShot(s: State, queue: string) {
    forall id | id in s.jobs && s.jobs[id].queue == queue :: s.jobs[id].recurringSeconds.None?
  }

  /** The same jobs, with the same identities; only their progress may differ. */
  ghost predicate SameRowsAs(s: State, t: State) {
    t.jobs.Keys == s.jobs.Keys && t.archive == s.archive &&
    forall id | id in s.jobs :: SameIdentity(s.jobs[id], t.jobs[id])
  }

  lemma SameRows(s: State)
    ensures SameRowsAs(s, s)
  {
  }

  lemma RowsAfterLease(first: State, s: State, queue: string, worker: string, seconds: int, batch: int, now: Time)
    requires SameRowsAs(first, s)
    ensures SameRowsAs(first, Lease(s, queue, worker, seconds, batch, now))
  {
    hide Chosen, Ids;
  }

  lemma RowsAfterBatch(first: State, s: State, t: State, ids: seq<Uuid>, worker: string, outcomes: seq<Outcome>,
                       done: nat)
    requires SameRowsAs(first, s) && BatchOutcome(s, t, ids, worker, outcomes, done)
    ensures SameRowsAs(first, t)
  {
  }

  lemma OpenedByLease(s: State, queue: string, worker: string, seconds: int, batch: int, now: Time)
    ensures Opened(Lease(s, queue, worker, seconds, batch, now)) == Opened(s)
  {
    hide Total, Chosen, Ids;
    assert Counts(Lease(s, queue, worker, seconds, batch, now)) == Counts(s);
  }

  lemma OpenedByBatch(s: State, t: State, ids: seq<Uuid>, worker: string, outcomes: seq<Outcome>, done: nat)
    requires Inv(s) && Held(s, ids, worker) && BatchOutcome(s, t, ids, worker, outcomes, done)
    ensures Opened(t) == Opened(s) + |ids|
  {
    hide Total, SameIdentity, Settled, LeftRunning, KeysOk, LocksOk, KeysUnique, LineageOk, CountOf;
    forall k | 0 <= k < |ids|
      ensures ids[k] in s.jobs
    {
      assert Holds(s, ids[k], worker);
    }
    forall id | id in s.jobs
      ensures Counts(t)[id] == Counts(s)[id] + if id in ids then 1 else 0
    {
      assert CountOf(s, id) >= 0;
      if id in ids {
        var k :| 0 <= k < |ids| && ids[k] == id;
        assert CountOf(t, ids[k]) == CountOf(s, ids[k]) + 1;
      }
    }
    TotalPlusOneEach(Counts(s), Counts(t), ids);
  }

  lemma LeaseGrants(s: State, queue: string, worker: string, seconds: int, batch: int, now: Time, id: Uuid)
    requires Inv(s) && id in Ids(Chosen(s, queue, batch, now))
    ensures Holds(Lease(s, queue, worker, seconds, batch, now), id, worker)
    ensures id in s.jobs && Due(s.jobs[id], queue, now)
    ensures Lease(s, queue, worker, seconds, batch, now).jobs[id].queue == queue
  {
    hide Chosen, Ids, Lease, LocksOk, NumbersOk, KeysUnique, LineageOk;
    ChosenIsDue(s, queue, batch, now, id);
    LocalLease(s, queue, worker, seconds, batch, now, id);
  }

  lemma ChosenIdsDiffer(s: State, queue: string, batch: int, now: Time)
    requires Inv(s)
    ensures var c := Chosen(s, queue, batch, now); forall i, j | 0 <= i < j < |c| :: c[i].id != c[j].id
  {
    hide LocksOk, NumbersOk, KeysUnique, LineageOk, Ranking, SortSet;
    var c := Chosen(s, queue, batch, now);
    forall i, j | 0 <= i < j < |c|
      ensures c[i].id != c[j].id
    {
      assert c[i] in c && c[j] in c;
      assert c[i].id in Ids(c) && c[j].id in Ids(c);
      ChosenEntry(s, queue, batch, now, c[i]);
      ChosenEntry(s, queue, batch, now, c[j]);
      RankingAscends(s.jobs, queue, now);
    }
  }

  lemma RankingAscends(jobs: map<Uuid, Job>, queue: string, now: Time)
    ensures Ascending(Before, Ranking(jobs, queue, now))
  {
  }

  lemma ChosenEntry(s: State, queue: string, batch: int, now: Time, e: QueueEntry)
    requires Inv(s) && e in Chosen(s, queue, batch, now)
    ensures e.id in s.jobs && e == FromJob(s.jobs[e.id])
  {
    hide SortSet, StrictTotal, Before, LocksOk, NumbersOk, KeysUnique, LineageOk;
    assert e in Elements(Ranking(s.jobs, queue, now));
    var swept := Sweep(s.jobs, queue, now);
    var k :| k in swept && Due(swept[k], queue, now) && FromJob(swept[k]) == e;
  }

  lemma LeasedBatch(s: State, queue: string, worker: string, seconds: int, batch: int, now: Time, leased: seq<Job>)
    requires Inv(s) && OneShot(s, queue) && Inv(Lease(s, queue, worker, seconds, batch, now))
    requires IsBatch(Lease(s, queue, worker, seconds, batch, now).jobs, Chosen(s, queue, batch, now), leased)
    ensures Held(Lease(s, queue, worker, seconds, batch, now), IdsOf(leased), worker)
    ensures AsStored(Lease(s, queue, worker, seconds, batch, now).jobs, leased)
    ensures OneShot(Lease(s, queue, worker, seconds, batch, now), queue)
    ensures |leased| == |Chosen(s, queue, batch, now)|
    ensures forall i | 0 <= i < |leased| :: leased[i].id in s.jobs && Due(s.jobs[leased[i].id], queue, now)
    ensures forall i | 0 <= i < |leased| :: leased[i].id == Chosen(s, queue, batch, now)[i].id
  {
    hide Chosen, Lease, LocksOk, NumbersOk, KeysUnique, LineageOk, OneShot;
    var t, c := Lease(s, queue, worker, seconds, batch, now), Chosen(s, queue, batch, now);
    OneShotLease(s, queue, worker, seconds, batch, now);
    ChosenIdsDiffer(s, queue, batch, now);
    forall i | 0 <= i < |leased|
      ensures leased[i].id == c[i].id && Holds(t, leased[i].id, worker)
      ensures leased[i].id in s.jobs && Due(s.jobs[leased[i].id], queue, now) && leased[i].recurringSeconds.None?
    {
      assert c[i] in c;
      LeaseGrants(s, queue, worker, seconds, batch, now, c[i].id);
      OneShotAt(t, queue, c[i].id);
    }
  }

  lemma OneShotAt(s: State, queue: string, id: Uuid)
    requires OneShot(s, queue) && id in s.jobs && s.jobs[id].queue == queue
    ensures s.jobs[id].recurringSeconds.None?
  {
  }

  lemma OneShotLease(s: State, queue: string, worker: string, seconds: int, batch: int, now: Time)
    requires OneShot(s, queue)
    ensures OneShot(Lease(s, queue, worker, seconds, batch, now), queue)
  {
    hide Chosen, Ids;
  }

  lemma OneShotBatch(s: State, t: State, queue: string, ids: seq<Uuid>, worker: string, outcomes: seq<Outcome>,
                     done: nat)
    requires OneShot(s, queue) && BatchOutcome(s, t, ids, worker, outcomes, done)
    ensures OneShot(t, queue)
  {
  }

  /** A lease of a positive size that takes nothing leaves nothing due. */
  lemma NothingDue(s: State, queue: string, worker: string, seconds: int, batch: int, now: Time)
    requires batch > 0 && Chosen(s, queue, batch, now) == []
    ensures var t := Lease(s, queue, worker, seconds, batch, now);
      forall id | id in t.jobs :: !Due(t.jobs[id], queue, now)
  {
    hide SortSet, StrictTotal, Before;
    var swept := Sweep(s.jobs, queue, now);
    DueIsListed(swept, queue, now);
    assert Elements(Ranking(s.jobs, queue, now)) == {};
  }

  lemma DueIsListed(jobs: map<Uuid, Job>, queue: string, now: Time)
    ensures forall id | id in jobs && Due(jobs[id], queue, now) :: FromJob(jobs[id]) in DueEntries(jobs, queue, now)
  {
  }

  lemma WorkShrinks(s: State, u: State, t: State, queue: string, worker: string, seconds: int, batch: int, now: Time,
                    leased: seq<Job>, outcomes: seq<Outcome>, done: nat)
    requires Inv(s) && u == Lease(s, queue, worker, seconds, batch, now)
    requires leased != [] && OneShot(u, queue)
    requires forall i | 0 <= i < |leased| :: leased[i].id in s.jobs && Due(s.jobs[leased[i].id], queue, now)
    requires BatchOutcome(u, t, IdsOf(leased), worker, outcomes, done)
    ensures WorkLeft(t, queue) < WorkLeft(s, queue)
    ensures OneShot(t, queue)
  {
    hide Lease, Inv, BatchOutcome, OneShot;
    OneShotBatch(u, t, queue, IdsOf(leased), worker, outcomes, done);
    SameKeys(s, u, t, queue, worker, seconds, batch, now, IdsOf(leased), outcomes, done);
    forall id | id in s.jobs
      ensures Weight(t, queue, id) <= Weight(s, queue, id)
      ensures id in IdsOf(leased) ==> Weight(t, queue, id) < Weight(s, queue, id)
    {
      WeightStep(s, u, t, queue, worker, seconds, batch, now, leased, outcomes, done, id);
    }
    assert IdsOf(leased)[0] in IdsOf(leased);
    TotalStrict(Weights(s, queue), Weights(t, queue), leased[0].id);
  }

  lemma SameKeys(s: State, u: State, t: State, queue: string, worker: string, seconds: int, batch: int, now: Time,
                 ids: seq<Uuid>, outcomes: seq<Outcome>, done: nat)
    requires u == Lease(s, queue, worker, seconds, batch, now) && BatchOutcome(u, t, ids, worker, outcomes, done)
    ensures u.jobs.Keys == s.jobs.Keys && t.jobs.Keys == s.jobs.Keys && u.counts == s.counts
  {
    hide Chosen, Ids;
  }

  lemma WeightStep(s: State, u: State, t: State, queue: string, worker: string, seconds: int, batch: int, now: Time,
                   leased: seq<Job>, outcomes: seq<Outcome>, done: nat, id: Uuid)
    requires Inv(s) && u == Lease(s, queue, worker, seconds, batch, now)
    requires forall i | 0 <= i < |leased| :: leased[i].id in s.jobs && Due(s.jobs[leased[i].id], queue, now)
    requires BatchOutcome(u, t, IdsOf(leased), worker, outcomes, done)
    requires id in s.jobs && id in t.jobs && u.counts == s.counts && u.jobs.Keys == s.jobs.Keys
    ensures Weight(t, queue, id) <= Weight(s, queue, id)
    ensures id in IdsOf(leased) ==> Weight(t, queue, id) < Weight(s, queue, id)
  {
    hide Lease, LocksOk, NumbersOk, KeysUnique, LineageOk, MoveOf, ApplyMove, Settled, LeftRunning, Weight;
    LocalLease(s, queue, worker, seconds, batch, now, id);
    hide KeysOk, Inv;
    var ids, m := IdsOf(leased), MoveOf(s, now, OpLease(queue, worker, seconds, batch), id);
    MoveKeepsIdentity(s.jobs[id], now, m);
    if id in ids {
      var i :| 0 <= i < |ids| && ids[i] == id;
      assert leased[i].id == id;
      BatchWeight(s.jobs[id], u, t, queue, worker, ids, outcomes, done, i);
      SameCount(s, u, queue, id);
    } else {
      MoveCause(s, now, OpLease(queue, worker, seconds, batch), id);
      UnleasedWeight(s, u, t, queue, id, m, now);
    }
  }

  lemma SameCount(s: State, u: State, queue: string, id: Uuid)
    requires id in s.jobs && u.counts == s.counts && s.jobs[id].status.Queued? && s.jobs[id].queue == queue
    ensures CountOf(u, id) == CountOf(s, id)
    ensures Weight(s, queue, id)
         == (if s.jobs[id].maxAttempts > CountOf(u, id) then s.jobs[id].maxAttempts - CountOf(u, id) else 0) + 1
  {
  }

  lemma UnleasedWeight(s: State, u: State, t: State, queue: string, id: Uuid, m: Move, now: Time)
    requires id in s.jobs && id in u.jobs && id in t.jobs && u.counts == s.counts
    requires u.jobs[id] == ApplyMove(s.jobs[id], now, m) && (m.Stay? || m.Expire? || m.Grant?)
    requires t.jobs[id] == u.jobs[id] && CountOf(t, id) == CountOf(u, id)
    ensures Weight(t, queue, id) <= Weight(s, queue, id)
  {
  }

  lemma BatchWeight(j: Job, u: State, t: State, queue: string, worker: string, ids: seq<Uuid>,
                    outcomes: seq<Outcome>, done: nat, i: nat)
    requires BatchOutcome(u, t, ids, worker, outcomes, done) && i < |ids| && ids[i] in u.jobs
    requires j.status.Queued? && j.queue == queue && SameIdentity(j, u.jobs[ids[i]])
    ensures Weight(t, queue, ids[i])
          < (if j.maxAttempts > CountOf(u, ids[i]) then j.maxAttempts - CountOf(u, ids[i]) else 0) + 1
  {
    hide CountOf;
    assert SameIdentity(u.jobs[ids[i]], t.jobs[ids[i]]);
    if i < done {
      assert Settled(t, ids[i], outcomes[i]);
    } else {
      assert LeftRunning(u, t, ids[i], worker);
    }
  }

  /** The batch holds the stored records of one-shot jobs. */
  ghost predicate AsStored(jobs: map<Uuid, Job>, batch: seq<Job>) {
    forall i | 0 <= i < |batch| ::
      batch[i].id in jobs && batch[i] == jobs[batch[i].id] && batch[i].recurringSeconds.None?
  }

  ghost predicate BatchOpen(s: State, u: State, ids: seq<Uuid>, worker: string, newIds: seq<Uuid>, now: Time,
                            attemptsMap: map<Uuid, Started>) {
    && |newIds| == |ids|
    && AllStarted(s, u, ids, worker, newIds, now)
    && (forall i, j | 0 <= i < j < |ids| :: ids[i] != ids[j] && newIds[i] != newIds[j])
    && (forall k | 0 <= k < |ids| :: newIds[k] !in s.born)
    && (forall k | 0 <= k < |ids| ::
          ids[k] in attemptsMap && attemptsMap[ids[k]] == Started(ids[k], newIds[k], CountOf(s, ids[k]) + 1))
  }

  lemma StartedSeqAt(s: State, ids: seq<Uuid>, newIds: seq<Uuid>)
    requires |newIds| == |ids|
    ensures [] + StartedSeq(s, ids, newIds) == StartedSeq(s, ids, newIds)
    ensures |StartedSeq(s, ids, newIds)| == |ids|
    ensures forall k | 0 <= k < |ids| ::
      StartedSeq(s, ids, newIds)[k] == Started(ids[k], newIds[k], CountOf(s, ids[k]) + 1)
  {
  }

  lemma ReadyToSettle(s: State, u: State, t: State, ids: seq<Uuid>, worker: string, newIds: seq<Uuid>, now: Time,
                      attemptsMap: map<Uuid, Started>, outcomes: seq<Outcome>, k: nat)
    requires Held(s, ids, worker) && BatchOpen(s, u, ids, worker, newIds, now, attemptsMap) && k < |ids|
    requires Progress(u, t, ids, newIds, outcomes, k)
    ensures Finishable(t, ids[k], newIds[k], worker)
    ensures ids[k] in attemptsMap && attemptsMap[ids[k]] == Started(ids[k], newIds[k], CountOf(t, ids[k]))
    ensures ids[k] in s.jobs && t.jobs[ids[k]] == s.jobs[ids[k]]
    ensures t.attempts[newIds[k]].attemptNo == CountOf(t, ids[k])
  {
    hide Settled;
    assert OpenedFor(s, u, ids[k], worker, newIds[k], now);
    assert ids[k] !in ids[..k];
  }

  function IdsOf(batch: seq<Job>): seq<Uuid> {
    seq(|batch|, i requires 0 <= i < |batch| => batch[i].id)
  }
}
