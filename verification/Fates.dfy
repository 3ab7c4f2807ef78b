/** What becomes of each job over all the batches a worker processes until its queue is empty. */
module Fates {
  import opened Model
  import opened Store
  import opened Locality
  import opened Invariants
  import opened Backoff
  import opened Effects
  import opened Batches

  /** What the handler comes to on the given attempt at the given job: any outcome at all. */
  type Handler = (Uuid, int) -> Outcome

  /** One batch: its jobs, the number of the attempt opened for each, and how many of them were reached. */
  datatype Round = Round(ids: seq<Uuid>, numbers: seq<int>, done: nat)

  function RoundOutcomes(handler: Handler, round: Round): seq<Outcome>
    requires |round.numbers| == |round.ids|
  {
    seq(|round.ids|, i requires 0 <= i < |round.ids| => handler(round.ids[i], round.numbers[i]))
  }

  /** The batch was of jobs that had been waiting at first, and got as far as its timeouts let it. */
  ghost predicate RoundOk(first: State, handler: Handler, queue: string, round: Round) {
    && |round.numbers| == |round.ids| && StopsAt(RoundOutcomes(handler, round), round.done)
    && (forall i | 0 <= i < |round.ids| ::
          WaitedIn(first, queue, round.ids[i]) && CountOf(first, round.ids[i]) < round.numbers[i])
  }

  /** The job is one of those that come after a timeout in their batch. */
  ghost predicate Abandoned(rounds: seq<Round>, id: Uuid) {
    exists k, i :: 0 <= k < |rounds| && rounds[k].done <= i < |rounds[k].ids| && rounds[k].ids[i] == id
  }

  /** Only a job with a timeout can time out. */
  ghost predicate MayTimeOut(handler: Handler, jobs: map<Uuid, Job>) {
    forall id, n | id in jobs && handler(id, n).TimedOut? :: jobs[id].timeoutSeconds.Some?
  }

  /** The job was dead-lettered because a lease found its deadline passed. */
  predicate PastDeadline(j: Job, now: Time) {
    && j.status.Dlq? && j.dlqReason == Some("DEADLINE_EXCEEDED")
    && j.deadlineAt.Some? && j.deadlineAt.value < now
  }

  /** An attempt with this number and outcome puts the job back in the queue. */
  predicate Requeues(outcome: Outcome, attemptNo: int, limit: int) {
    match outcome
    case Failure(code, _) => IsRetryable(Classify(code)) && attemptNo < limit
    case TimedOut => IsRetryable(Classify("TIMEOUT")) && attemptNo < limit
    case _ => false
  }

  ghost predicate WaitedIn(s: State, queue: string, id: Uuid) {
    id in s.jobs && s.jobs[id].status.Queued? && s.jobs[id].queue == queue
  }

  /** The worker holds the job, and its last attempt is still open. */
  ghost predicate HeldOpen(t: State, id: Uuid, worker: string) {
    && Holds(t, id, worker)
    && exists a :: OpenFor(t, id, a) && t.attempts[a].attemptNo == CountOf(t, id) && t.attempts[a].workerId == worker
  }

  /**
   * Between `first` and `t` job `id` was left behind by a timeout and is still held; or it was attempted, and is as its
   * last attempt left it, unless that put it back in the queue and its deadline has passed since; or it was not
   * attempted, and is as it was unless its deadline has passed.
   */
  ghost predicate Fate(first: State, t: State, rounds: seq<Round>, handler: Handler, queue: string, worker: string,
                       now: Time, id: Uuid)
    requires id in first.jobs && id in t.jobs
  {
    var j, n := t.jobs[id], CountOf(t, id);
    if Abandoned(rounds, id) then
      HeldOpen(t, id, worker) && WaitedIn(first, queue, id) && n > CountOf(first, id)
    else if n > CountOf(first, id) then
      && WaitedIn(first, queue, id)
      && (EndsAs(j, n, handler(id, n)) || (Requeues(handler(id, n), n, j.maxAttempts) && PastDeadline(j, now)))
    else
      && n == CountOf(first, id)
      && (j == first.jobs[id] || (WaitedIn(first, queue, id) && PastDeadline(j, now)))
  }

  ghost predicate AllFates(first: State, t: State, rounds: seq<Round>, handler: Handler, queue: string, worker: string,
                        now: Time) {
    && t.jobs.Keys == first.jobs.Keys && (forall k | 0 <= k < |rounds| :: RoundOk(first, handler, queue, rounds[k]))
    && (forall id | id in first.jobs :: Fate(first, t, rounds, handler, queue, worker, now, id))
  }

  lemma FatesBegin(first: State, handler: Handler, queue: string, worker: string, now: Time)
    ensures AllFates(first, first, [], handler, queue, worker, now)
  {
  }

  lemma FateLater(first: State, t: State, rounds: seq<Round>, handler: Handler, queue: string, worker: string,
                  now: Time, later: Time, id: Uuid)
    requires now <= later && id in first.jobs && id in t.jobs
    requires Fate(first, t, rounds, handler, queue, worker, now, id)
    ensures Fate(first, t, rounds, handler, queue, worker, later, id)
  {
    hide EndsAs, Requeues, HeldOpen, Abandoned;
  }

  /** An attempt that leaves the job queued is one that requeues it. */
  lemma QueuedAgain(j: Job, n: int, outcome: Outcome)
    requires EndsAs(j, n, outcome) && j.status.Queued?
    ensures Requeues(outcome, n, j.maxAttempts)
  {
    hide Classify;
  }

  /** What a lease that does not take the job can do to it. */
  predicate PassedOver(before: Job, after: Job, queue: string, now: Time) {
    after == before || (Overdue(before, queue, now) && after == ExpireJob(before, now))
  }

  lemma PassedOverByLease(s: State, queue: string, worker: string, seconds: int, batch: int, now: Time, id: Uuid)
    requires Inv(s) && id in s.jobs && id !in Ids(Chosen(s, queue, batch, now))
    ensures id in Lease(s, queue, worker, seconds, batch, now).jobs
    ensures PassedOver(s.jobs[id], Lease(s, queue, worker, seconds, batch, now).jobs[id], queue, now)
  {
    hide Chosen, Ids, LocksOk, NumbersOk, KeysUnique, LineageOk, Lease;
    LocalLease(s, queue, worker, seconds, batch, now, id);
  }

  /** A job that a round does not take keeps its fate. */
  lemma FateUntaken(first: State, s: State, t: State, rounds: seq<Round>, more: seq<Round>, handler: Handler,
                    queue: string, worker: string, now: Time, id: Uuid)
    requires id in first.jobs && id in s.jobs && id in t.jobs
    requires Fate(first, s, rounds, handler, queue, worker, now, id)
    requires PassedOver(s.jobs[id], t.jobs[id], queue, now) && CountOf(t, id) == CountOf(s, id)
    requires forall a | OpenFor(s, id, a) :: OpenFor(t, id, a) && t.attempts[a] == s.attempts[a]
    requires Abandoned(more, id) <==> Abandoned(rounds, id)
    ensures Fate(first, t, more, handler, queue, worker, now, id)
  {
    hide Abandoned, EndsAs, Requeues, CountOf;
    if !Abandoned(rounds, id) && t.jobs[id] != s.jobs[id] && CountOf(s, id) > CountOf(first, id) {
      if EndsAs(s.jobs[id], CountOf(s, id), handler(id, CountOf(s, id))) {
        QueuedAgain(s.jobs[id], CountOf(s, id), handler(id, CountOf(s, id)));
      }
    }
  }

  /** A job that a round takes had been waiting all along. */
  lemma TakenWaited(first: State, s: State, rounds: seq<Round>, handler: Handler, queue: string, worker: string,
                    now: Time, id: Uuid)
    requires id in first.jobs && id in s.jobs && Due(s.jobs[id], queue, now)
    requires Fate(first, s, rounds, handler, queue, worker, now, id)
    ensures !Abandoned(rounds, id) && WaitedIn(first, queue, id) && CountOf(s, id) >= CountOf(first, id)
  {
    hide Abandoned, EndsAs, Requeues, CountOf;
  }

  lemma AbandonedMore(rounds: seq<Round>, round: Round, id: Uuid)
    ensures Abandoned(rounds + [round], id)
        <==> Abandoned(rounds, id) || exists i :: round.done <= i < |round.ids| && round.ids[i] == id
  {
    var more := rounds + [round];
    assert more[|rounds|] == round;
    if Abandoned(rounds, id) {
      var k, i :| 0 <= k < |rounds| && rounds[k].done <= i < |rounds[k].ids| && rounds[k].ids[i] == id;
      assert more[k].ids[i] == id;
    }
    if exists i :: round.done <= i < |round.ids| && round.ids[i] == id {
      var i :| round.done <= i < |round.ids| && round.ids[i] == id;
      assert more[|rounds|].ids[i] == id;
    }
  }

  /** A job that a round takes and reaches is as its outcome says; one that it does not reach is left behind. */
  lemma FateTaken(first: State, s: State, u: State, t: State, rounds: seq<Round>, round: Round, handler: Handler,
                  queue: string, worker: string, now: Time, i: nat)
    requires i < |round.ids| == |round.numbers|
    requires var id := round.ids[i];
      && id in first.jobs && id in s.jobs && id in t.jobs && Due(s.jobs[id], queue, now)
      && Fate(first, s, rounds, handler, queue, worker, now, id) && CountOf(u, id) == CountOf(s, id)
      && round.numbers[i] == CountOf(s, id) + 1
    requires forall k, l | 0 <= k < l < |round.ids| :: round.ids[k] != round.ids[l]
    requires BatchOutcome(u, t, round.ids, worker, RoundOutcomes(handler, round), round.done)
    ensures Fate(first, t, rounds + [round], handler, queue, worker, now, round.ids[i])
  {
    hide CountOf, EndsAs, Abandoned, Fate, Due;
    var id := round.ids[i];
    TakenWaited(first, s, rounds, handler, queue, worker, now, id);
    AbandonedMore(rounds, round, id);
    TakenFate(first, u, t, rounds, round, handler, queue, worker, now, i);
  }

  lemma TakenFate(first: State, u: State, t: State, rounds: seq<Round>, round: Round, handler: Handler, queue: string,
                  worker: string, now: Time, i: nat)
    requires i < |round.ids| == |round.numbers|
    requires forall k, l | 0 <= k < l < |round.ids| :: round.ids[k] != round.ids[l]
    requires BatchOutcome(u, t, round.ids, worker, RoundOutcomes(handler, round), round.done)
    requires var id := round.ids[i];
      && id in first.jobs && id in t.jobs && WaitedIn(first, queue, id) && CountOf(u, id) >= CountOf(first, id)
      && round.numbers[i] == CountOf(u, id) + 1
      && (Abandoned(rounds + [round], id) <==> exists k :: round.done <= k < |round.ids| && round.ids[k] == id)
    ensures Fate(first, t, rounds + [round], handler, queue, worker, now, round.ids[i])
  {
    hide CountOf, EndsAs, Abandoned, SameIdentity, Requeues;
    var id := round.ids[i];
    assert CountOf(t, id) == CountOf(u, id) + 1;
    if i < round.done {
      assert Settled(t, id, RoundOutcomes(handler, round)[i]);
      assert !exists k :: round.done <= k < |round.ids| && round.ids[k] == id;
    } else {
      assert LeftRunning(u, t, id, worker);
    }
  }

  /** The jobs left running by the worker are those after a timeout in their batch, no more and no fewer. */
  lemma LeftRunningIffAbandoned(first: State, t: State, rounds: seq<Round>, handler: Handler, queue: string,
                                worker: string, now: Time, id: Uuid)
    requires AllFates(first, t, rounds, handler, queue, worker, now) && id in first.jobs
    ensures t.jobs[id].status.Running? && !first.jobs[id].status.Running? <==> Abandoned(rounds, id)
    ensures first.jobs[id].status.Running? ==> t.jobs[id] == first.jobs[id]
  {
    hide Abandoned, Requeues, RoundOk, CountOf, Classify;
    assert Fate(first, t, rounds, handler, queue, worker, now, id);
  }

  /** Without timeouts nothing is left running. */
  lemma NoTimeoutNoneAbandoned(first: State, t: State, rounds: seq<Round>, handler: Handler, queue: string,
                               worker: string, now: Time, id: Uuid)
    requires AllFates(first, t, rounds, handler, queue, worker, now) && MayTimeOut(handler, first.jobs)
    requires forall x | x in first.jobs && first.jobs[x].queue == queue :: first.jobs[x].timeoutSeconds.None?
    ensures !Abandoned(rounds, id)
  {
    hide Fate;
    forall k | 0 <= k < |rounds|
      ensures rounds[k].done == |rounds[k].ids|
    {
      RoundGoesThrough(first, handler, queue, rounds[k]);
    }
  }

  lemma RoundGoesThrough(first: State, handler: Handler, queue: string, round: Round)
    requires RoundOk(first, handler, queue, round) && MayTimeOut(handler, first.jobs)
    requires forall x | x in first.jobs && first.jobs[x].queue == queue :: first.jobs[x].timeoutSeconds.None?
    ensures round.done == |round.ids|
  {
    var outcomes := RoundOutcomes(handler, round);
    forall i | 0 <= i < |outcomes|
      ensures !outcomes[i].TimedOut?
    {
      assert WaitedIn(first, queue, round.ids[i]);
      assert outcomes[i] == handler(round.ids[i], round.numbers[i]);
    }
  }

  /** The numbers the attempts of a batch will get. */
  ghost function NextNumbers(s: State, ids: seq<Uuid>): seq<int> {
    seq(|ids|, i requires 0 <= i < |ids| => CountOf(s, ids[i]) + 1)
  }

  /** The jobs of a batch are the chosen ones. */
  ghost predicate TookChosen(s: State, queue: string, batch: int, now: Time, ids: seq<Uuid>) {
    && |ids| == |Chosen(s, queue, batch, now)|
    && forall i | 0 <= i < |ids| :: ids[i] == Chosen(s, queue, batch, now)[i].id
  }

  lemma OthersNotChosen(s: State, queue: string, batch: int, now: Time, ids: seq<Uuid>, id: Uuid)
    requires TookChosen(s, queue, batch, now, ids) && id !in ids
    ensures id !in Ids(Chosen(s, queue, batch, now))
  {
    hide Chosen;
    var c := Chosen(s, queue, batch, now);
    forall e | e in c
      ensures e.id != id
    {
      var i :| 0 <= i < |c| && c[i] == e;
      assert ids[i] in ids;
    }
  }

  lemma LeaseKeepsOpen(s: State, queue: string, worker: string, seconds: int, batch: int, now: Time)
    ensures var u := Lease(s, queue, worker, seconds, batch, now); u.attempts == s.attempts && u.counts == s.counts
  {
    hide Chosen, Sweep, MarkLeased, Ids;
  }

  /** One round, job by job. */
  lemma FatesRound(first: State, s: State, u: State, t: State, rounds: seq<Round>, round: Round, handler: Handler,
                   queue: string, worker: string, seconds: int, batch: int, last: Time, now: Time)
    requires Inv(s) && Inv(u) && u == Lease(s, queue, worker, seconds, batch, now) && last <= now
    requires AllFates(first, s, rounds, handler, queue, worker, last)
    requires TookChosen(s, queue, batch, now, round.ids) && round.numbers == NextNumbers(u, round.ids)
    requires forall i | 0 <= i < |round.ids| :: round.ids[i] in s.jobs && Due(s.jobs[round.ids[i]], queue, now)
    requires Held(u, round.ids, worker) && StopsAt(RoundOutcomes(handler, round), round.done)
    requires BatchOutcome(u, t, round.ids, worker, RoundOutcomes(handler, round), round.done)
    ensures AllFates(first, t, rounds + [round], handler, queue, worker, now)
  {
    hide Inv, Lease, Chosen, Due, Fate, RoundOk, TookChosen, CountOf, Abandoned, RoundOutcomes;
    LeaseKeepsOpen(s, queue, worker, seconds, batch, now);
    SameKeys(s, u, t, queue, worker, seconds, batch, now, round.ids, RoundOutcomes(handler, round), round.done);
    hide BatchOutcome;
    RoundIsOk(first, s, u, rounds, round, handler, queue, worker, last, now);
    forall id | id in first.jobs
      ensures Fate(first, t, rounds + [round], handler, queue, worker, now, id)
    {
      FateLater(first, s, rounds, handler, queue, worker, last, now, id);
      FateOver(first, s, u, t, rounds, round, handler, queue, worker, seconds, batch, now, id);
    }
  }

  lemma SameCounts(s: State, u: State, id: Uuid)
    requires u.counts == s.counts
    ensures CountOf(u, id) == CountOf(s, id)
  {
  }

  lemma RoundIsOk(first: State, s: State, u: State, rounds: seq<Round>, round: Round, handler: Handler, queue: string,
                  worker: string, last: Time, now: Time)
    requires AllFates(first, s, rounds, handler, queue, worker, last) && last <= now && u.counts == s.counts
    requires round.numbers == NextNumbers(u, round.ids) && StopsAt(RoundOutcomes(handler, round), round.done)
    requires forall i | 0 <= i < |round.ids| :: round.ids[i] in s.jobs && Due(s.jobs[round.ids[i]], queue, now)
    ensures RoundOk(first, handler, queue, round)
  {
    hide Fate, Due, CountOf, RoundOutcomes, StopsAt;
    forall i | 0 <= i < |round.ids|
      ensures WaitedIn(first, queue, round.ids[i]) && CountOf(first, round.ids[i]) < round.numbers[i]
    {
      var id := round.ids[i];
      FateLater(first, s, rounds, handler, queue, worker, last, now, id);
      TakenWaited(first, s, rounds, handler, queue, worker, now, id);
      SameCounts(s, u, id);
    }
  }

  lemma FateOver(first: State, s: State, u: State, t: State, rounds: seq<Round>, round: Round, handler: Handler,
                 queue: string, worker: string, seconds: int, batch: int, now: Time, id: Uuid)
    requires Inv(s) && Inv(u) && u == Lease(s, queue, worker, seconds, batch, now)
    requires u.attempts == s.attempts && u.counts == s.counts
    requires id in first.jobs && id in s.jobs && id in t.jobs
    requires Fate(first, s, rounds, handler, queue, worker, now, id)
    requires TookChosen(s, queue, batch, now, round.ids) && round.numbers == NextNumbers(u, round.ids)
    requires forall i | 0 <= i < |round.ids| :: round.ids[i] in s.jobs && Due(s.jobs[round.ids[i]], queue, now)
    requires Held(u, round.ids, worker)
    requires BatchOutcome(u, t, round.ids, worker, RoundOutcomes(handler, round), round.done)
    ensures Fate(first, t, rounds + [round], handler, queue, worker, now, id)
  {
    hide Inv, Lease, Chosen, Due, Fate, TookChosen, CountOf, Abandoned, RoundOutcomes, BatchOutcome;
    SameCounts(s, u, id);
    if id in round.ids {
      var i :| 0 <= i < |round.ids| && round.ids[i] == id;
      FateTaken(first, s, u, t, rounds, round, handler, queue, worker, now, i);
    } else {
      OthersNotChosen(s, queue, batch, now, round.ids, id);
      PassedOverByLease(s, queue, worker, seconds, batch, now, id);
      OtherJobsKept(u, t, round.ids, worker, RoundOutcomes(handler, round), round.done, id);
      AbandonedMore(rounds, round, id);
      FateUntaken(first, s, t, rounds, rounds + [round], handler, queue, worker, now, id);
    }
  }

  /** A batch leaves the jobs outside it, and their attempts, alone. */
  lemma OtherJobsKept(u: State, t: State, ids: seq<Uuid>, worker: string, outcomes: seq<Outcome>, done: nat, id: Uuid)
    requires Inv(u) && BatchOutcome(u, t, ids, worker, outcomes, done) && id in u.jobs && id !in ids
    ensures id in t.jobs && t.jobs[id] == u.jobs[id] && CountOf(t, id) == CountOf(u, id)
    ensures forall a | OpenFor(u, id, a) :: OpenFor(t, id, a) && t.attempts[a] == u.attempts[a]
  {
    hide SameIdentity, LocksOk, NumbersOk, KeysUnique, LineageOk, CountOf;
  }

  /** The last lease takes nothing. */
  lemma FatesEnd(first: State, s: State, rounds: seq<Round>, handler: Handler, queue: string, worker: string,
                 seconds: int, batch: int, last: Time, now: Time)
    requires Inv(s) && last <= now && Chosen(s, queue, batch, now) == []
    requires AllFates(first, s, rounds, handler, queue, worker, last)
    ensures AllFates(first, Lease(s, queue, worker, seconds, batch, now), rounds, handler, queue, worker, now)
  {
    hide Inv, Lease, Chosen, Fate, RoundOk, CountOf;
    var u := Lease(s, queue, worker, seconds, batch, now);
    LeaseKeepsOpen(s, queue, worker, seconds, batch, now);
    LeaseKeepsKeys(s, queue, worker, seconds, batch, now);
    forall id | id in first.jobs
      ensures Fate(first, u, rounds, handler, queue, worker, now, id)
    {
      FateLater(first, s, rounds, handler, queue, worker, last, now, id);
      PassedOverByLease(s, queue, worker, seconds, batch, now, id);
      SameCounts(s, u, id);
      FateUntaken(first, s, u, rounds, rounds, handler, queue, worker, now, id);
    }
  }

  lemma LeaseKeepsKeys(s: State, queue: string, worker: string, seconds: int, batch: int, now: Time)
    ensures Lease(s, queue, worker, seconds, batch, now).jobs.Keys == s.jobs.Keys
  {
    hide Chosen, Ids;
  }

  lemma FatesLater(first: State, t: State, rounds: seq<Round>, handler: Handler, queue: string, worker: string,
                   now: Time, later: Time)
    requires AllFates(first, t, rounds, handler, queue, worker, now) && now <= later
    ensures AllFates(first, t, rounds, handler, queue, worker, later)
  {
    hide Fate, RoundOk;
    forall id | id in first.jobs
      ensures Fate(first, t, rounds, handler, queue, worker, later, id)
    {
      FateLater(first, t, rounds, handler, queue, worker, now, later, id);
    }
  }

  /** No batch is empty, nor larger than `most`. */
  ghost predicate RoundsUpTo(rounds: seq<Round>, most: nat) {
    forall k | 0 <= k < |rounds| :: 0 < |rounds[k].ids| <= most
  }

  /** Every job leased since `first` and still running is leased for `seconds`. */
  ghost predicate LeasedFor(first: State, t: State, seconds: int) {
    forall id | id in first.jobs && id in t.jobs && t.jobs[id].status == Running && first.jobs[id].status != Running ::
      t.jobs[id].lockedAt.Some? && t.jobs[id].lockExpiresAt == Some(t.jobs[id].lockedAt.value + seconds * SECOND)
  }

  lemma LeasedForBegins(first: State, seconds: int)
    ensures LeasedFor(first, first, seconds)
  {
  }

  lemma LeasedForAfterLease(first: State, s: State, u: State, leased: seq<Job>, queue: string, worker: string,
                            seconds: int, now: Time)
    requires LeasedFor(first, s, seconds) && LeasedInOrder(s.jobs, u.jobs, leased, queue, worker, seconds, now)
    ensures LeasedFor(first, u, seconds)
  {
    hide LeasedInOrder;
    forall id | id in first.jobs && id in u.jobs && u.jobs[id].status == Running && first.jobs[id].status != Running
      ensures u.jobs[id].lockedAt.Some?
      ensures u.jobs[id].lockExpiresAt == Some(u.jobs[id].lockedAt.value + seconds * SECOND)
    {
      RunningRow(s.jobs, u.jobs, leased, queue, worker, seconds, now, id);
    }
  }

  lemma RunningRow(before: map<Uuid, Job>, after: map<Uuid, Job>, leased: seq<Job>, queue: string, worker: string,
                   seconds: int, now: Time, id: Uuid)
    requires LeasedInOrder(before, after, leased, queue, worker, seconds, now)
    requires id in after && after[id].status == Running
    ensures id in before
    ensures after[id] == before[id] ||
      (after[id].lockedAt == Some(now) && after[id].lockExpiresAt == Some(now + seconds * SECOND))
  {
    hide RunsFirst, Eligible, TooLate;
    if id in RowIds(leased) {
      var row :| row in leased && row.id == id;
      var i :| 0 <= i < |leased| && leased[i] == row;
    }
  }

  lemma LeasedForAfterBatch(first: State, u: State, t: State, ids: seq<Uuid>, worker: string, outcomes: seq<Outcome>,
                            done: nat, seconds: int)
    requires LeasedFor(first, u, seconds) && BatchOutcome(u, t, ids, worker, outcomes, done)
    ensures LeasedFor(first, t, seconds)
  {
    hide SameIdentity, LeftRunning, Settled;
    forall id | id in first.jobs && id in t.jobs && t.jobs[id].status == Running && first.jobs[id].status != Running
      ensures t.jobs[id] == u.jobs[id]
    {
      if id in ids {
        var i :| 0 <= i < |ids| && ids[i] == id;
        if i < done {
          SettledStops(t, id, outcomes[i]);
        } else {
          LeftAsIs(u, t, id, worker);
        }
      }
    }
  }

  lemma SettledStops(t: State, id: Uuid, outcome: Outcome)
    requires Settled(t, id, outcome)
    ensures t.jobs[id].status != Running
  {
    hide Classify;
  }

  lemma LeftAsIs(u: State, t: State, id: Uuid, worker: string)
    requires LeftRunning(u, t, id, worker)
    ensures id in u.jobs && id in t.jobs && t.jobs[id] == u.jobs[id]
  {
  }
}
