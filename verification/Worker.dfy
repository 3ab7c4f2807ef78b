/** The worker loop: lease a batch, open attempts, run each handler, settle each job. */
module Worker {
  import opened Model
  import opened Ordering
  import opened Store
  import opened Invariants
  import opened Index
  import opened MemoryBackend
  import opened Backoff
  import opened Runs
  import opened Discipline
  import opened Effects
  import opened Batches
  import opened Fates

  // What the worker does not control: the clock, the identifiers it is given and the backoff draw.

  method Clock(last: Time) returns (now: Time)
    ensures now >= last
  {
    now := *;
    if now < last {
      now := last;
    }
  }

  method AnyDelay() returns (seconds: int) {
    seconds := *;
  }

  lemma {:induction false} SomeIdIsUnused(used: set<Uuid>)
    ensures exists id: Uuid :: id !in used && forall x | x in used :: x < id
  {
    if used == {} {
      assert 0 !in used;
    } else {
      var x :| x in used;
      SomeIdIsUnused(used - {x});
      var id :| id !in used - {x} && forall y | y in used - {x} :: y < id;
      assert forall y | y in used :: y == x || y in used - {x};
      var above := if x < id then id else x + 1;
      assert above !in used && forall y | y in used :: y < above;
    }
  }

  method NewIds(born: map<Uuid, nat>, n: nat) returns (ids: seq<Uuid>)
    ensures |ids| == n && Unused(born, ids)
  {
    ids := [];
    for k := 0 to n
      invariant |ids| == k && Unused(born, ids)
    {
      SomeIdIsUnused(born.Keys + Elements(ids));
      var id: Uuid :| id !in born.Keys + Elements(ids);
      assert id !in Elements(ids);
      ids := ids + [id];
    }
  }

  class QuickstartFlow {
    const backend: MemoryBackend
    const queue: string
    const workerId: string
    const leaseSeconds: int

    constructor (backend: MemoryBackend, queue: string, workerId: string, leaseSeconds: int)
      ensures this.backend == backend && this.queue == queue && this.workerId == workerId
      ensures this.leaseSeconds == leaseSeconds
    {
      this.backend := backend;
      this.queue := queue;
      this.workerId := workerId;
      this.leaseSeconds := leaseSeconds;
    }

    /** Retries while the class allows it and the attempt number is below the limit; otherwise gives up on the job. */
    method HandleFailure(id: Uuid, attempt: Uuid, latency: int, code: string, message: string, attemptNo: int,
                         maxAttempts: int, delay: int, now: Time) returns (r: Result<()>, ghost op: Op)
      requires backend.Valid()
      requires Finishable(backend.View(), id, attempt, workerId)
      requires attemptNo == CountOf(backend.View(), id) && maxAttempts == backend.jobs[id].maxAttempts
      modifies backend
      ensures backend.Valid() && r == Ok(())
      ensures SettledBy(old(backend.View()), backend.View(), id, attempt, Failure(code, message))
      ensures SettlesBy(old(backend.View()), backend.View(), op, id, attempt, workerId, now)
      ensures backend.jobs[id].status.Queued? <==>
        && attemptNo < maxAttempts
        && code !in {"PANIC", "CANCELLED", "CANCELED", "BAD_PAYLOAD", "UNKNOWN_JOB_TYPE", "PERMANENT",
             "PERMANENT_ERROR"}
      ensures backend.jobs[id].status.Queued? ==> backend.jobs[id].runAt == now + delay * SECOND
      ensures !backend.jobs[id].status.Queued? ==>
        backend.jobs[id].status.Dlq? && backend.jobs[id].dlqReason == Some(
          if code == "PANIC" then "PANIC"
          else if code == "CANCELLED" || code == "CANCELED" then "CANCELLED"
          else if code in {"BAD_PAYLOAD", "UNKNOWN_JOB_TYPE", "PERMANENT", "PERMANENT_ERROR"} then "PERMANENT_ERROR"
          else "MAX_ATTEMPTS_EXCEEDED")
    {
      CodesThatEndAJob(code);
      hide Inv, Agrees, Classify, DlqReason, IsRetryable, FailAttempt, SettledBy;
      ghost var s := backend.View();
      var class_ := Classify(code);
      if IsRetryable(class_) && attemptNo < maxAttempts {
        var runAt := now + delay * SECOND;
        op := OpRetry(id, attempt, workerId, latency, runAt, code, message);
        RetrySettles(s, id, attempt, workerId, latency, runAt, code, message, now);
        r := backend.RescheduleForRetry(id, attempt, workerId, latency, runAt, code, message, now);
      } else {
        op := OpDeadLetter(id, attempt, workerId, latency, DlqReason(class_), code, message);
        DeadLetterSettles(s, id, attempt, workerId, latency, DlqReason(class_), code, message, now,
                          Failure(code, message));
        r := backend.MarkDlq(id, attempt, workerId, latency, DlqReason(class_), code, message, now);
      }
    }

    /** Settles one job according to the outcome of its handler; `delay` is how long a retry would wait. */
    method Settle(job: Job, attempt: Uuid, attemptNo: int, outcome: Outcome, delay: int, now: Time)
        returns (r: Result<()>, ghost op: Op)
      requires backend.Valid()
      requires Finishable(backend.View(), job.id, attempt, workerId)
      requires attemptNo == CountOf(backend.View(), job.id) && job == backend.jobs[job.id]
      requires job.recurringSeconds.None?
      modifies backend
      ensures backend.Valid() && r == Ok(())
      ensures SettledBy(old(backend.View()), backend.View(), job.id, attempt, outcome)
      ensures SettlesBy(old(backend.View()), backend.View(), op, job.id, attempt, workerId, now)
      ensures backend.jobs[job.id].status.Queued? ==> backend.jobs[job.id].runAt == now + delay * SECOND
      ensures outcome.Done? ==> backend.jobs[job.id].status.Succeeded?
      ensures outcome.Panicked? ==>
        backend.jobs[job.id].status.Dlq? && backend.jobs[job.id].dlqReason == Some("PANIC")
      ensures outcome.TimedOut? ==>
        if attemptNo < job.maxAttempts then backend.jobs[job.id].status.Queued?
        else backend.jobs[job.id].status.Dlq? && backend.jobs[job.id].dlqReason == Some("MAX_ATTEMPTS_EXCEEDED")
      ensures outcome.Failure? && backend.jobs[job.id].status.Queued? ==> attemptNo < job.maxAttempts
      ensures outcome.Failure? && attemptNo < job.maxAttempts ==>
        (backend.jobs[job.id].status.Queued? <==>
          outcome.code !in
            {"PANIC", "CANCELLED", "CANCELED", "BAD_PAYLOAD", "UNKNOWN_JOB_TYPE", "PERMANENT", "PERMANENT_ERROR"})
    {
      hide Inv, Agrees, Classify, FailAttempt, PassAttempt, SettledBy;
      ghost var s := backend.View();
      var latency: int := *;
      match outcome {
        case Done =>
          var newIds := NewIds(backend.born, 1);
          op := OpSucceed(job.id, attempt, workerId, latency, newIds[0]);
          SucceedSettles(s, job.id, attempt, workerId, latency, newIds[0], now);
          r := backend.MarkSucceeded(job.id, attempt, workerId, latency, newIds[0], now);
        case Panicked(message) =>
          op := OpDeadLetter(job.id, attempt, workerId, latency, "PANIC", "PANIC", message);
          DeadLetterSettles(s, job.id, attempt, workerId, latency, "PANIC", "PANIC", message, now, outcome);
          r := backend.MarkDlq(job.id, attempt, workerId, latency, "PANIC", "PANIC", message, now);
        case Failure(code, message) =>
          r, op := HandleFailure(job.id, attempt, latency, code, message, attemptNo, job.maxAttempts, delay,
                                 now);
        case TimedOut =>
          r, op := HandleFailure(job.id, attempt, latency, "TIMEOUT", TIMEOUT_MESSAGE, attemptNo, job.maxAttempts,
                                 delay, now);
          TimeoutIsFailure(s, backend.View(), job.id, attempt);
      }
    }

    /**
     * Opens one attempt for each job of the batch. If `history` is in order and has opened none of them, so is
     * `after`.
     */
    method OpenAttempts(ids: seq<Uuid>, now: Time, ghost history: Run)
        returns (attemptsMap: map<Uuid, Started>, newIds: seq<Uuid>, ghost after: Run)
      requires backend.Valid() && Held(backend.View(), ids, workerId)
      modifies backend
      ensures backend.Valid()
      ensures BatchOpen(old(backend.View()), backend.View(), ids, workerId, newIds, now, attemptsMap)
      ensures ReadyFor(history, old(backend.View()), now, ids) ==> Traced(after, backend.View(), now)
      ensures Continues(history, after)
    {
      hide Inv, Agrees, AllStarted, StartAll, StartedSeq, ReadyFor, Traced;
      ghost var s := backend.View();
      newIds := NewIds(backend.born, |ids|);
      after := history;
      if ReadyFor(history, s, now, ids) {
        after := TraceStarts(history, s, ids, workerId, newIds, now, []);
      }
      BatchStarts(s, ids, workerId, newIds, now, []);
      var started := backend.StartAttemptsBatch(ids, workerId, newIds, now);
      StartedSeqAt(s, ids, newIds);
      attemptsMap := ById(started.value);
    }

    /**
     * Runs the handlers of a leased batch one after the other, each with the outcome given for it. `done` is how far it
     * got: the whole batch, or up to and including the first job that timed out.
     */
    method ProcessBatch(batch: seq<Job>, outcomes: seq<Outcome>, start: Time, ghost history: Run)
        returns (r: Result<()>, now: Time, ghost done: nat, ghost after: Run)
      requires backend.Valid()
      requires Held(backend.View(), IdsOf(batch), workerId)
      requires AsStored(backend.jobs, batch) && MayEnd(batch, outcomes)
      modifies backend
      ensures backend.Valid() && r == Ok(()) && now >= start
      ensures StopsAt(outcomes, done)
      ensures done == |batch| <==> forall k | 0 <= k < |batch| - 1 :: !outcomes[k].TimedOut?
      ensures BatchOutcome(old(backend.View()), backend.View(), IdsOf(batch), workerId, outcomes, done)
      ensures ReadyFor(history, old(backend.View()), start, IdsOf(batch)) ==> Traced(after, backend.View(), now)
      ensures Continues(history, after)
    {
      hide Inv, Agrees, Held, Progress, BatchOutcome, SettledBy, SettlesBy, BatchOpen, ReadyFor, Traced;
      ghost var s := backend.View();
      var ids := IdsOf(batch);
      now := Clock(start);
      ghost var tracing := ReadyFor(history, s, start, ids);
      ReadyLater(history, s, start, now, ids);
      var attemptsMap, newIds, started := OpenAttempts(ids, now, history);
      after := started;
      ghost var startedAt, u := now, backend.View();
      ProgressBegins(s, u, ids, workerId, newIds, now, attemptsMap, outcomes);
      done := 0;
      r := Ok(());
      for k := 0 to |batch|
        invariant now >= start && done == k && r == Ok(())
        invariant forall i | 0 <= i < k :: !outcomes[i].TimedOut?
        invariant backend.Valid() && Progress(u, backend.View(), ids, newIds, outcomes, k)
        invariant (tracing ==> Traced(after, backend.View(), now)) && Continues(history, after)
      {
        ghost var before, last, sofar := backend.View(), now, after;
        ReadyToSettle(s, u, before, ids, workerId, newIds, startedAt, attemptsMap, outcomes, k);
        now := Clock(now);
        ghost var op;
        var delay := AnyDelay();
        r, op := Settle(batch[k], attemptsMap[batch[k].id].attempt, attemptsMap[batch[k].id].attemptNo, outcomes[k],
                        delay, now);
        ProgressStep(s, u, before, backend.View(), ids, workerId, newIds, startedAt, attemptsMap, outcomes, k);
        after := TraceSettle(sofar, before, backend.View(), last, now, op, ids[k], newIds[k], workerId);
        ContinuesChain(history, sofar, after);
        done := k + 1;
        if outcomes[k].TimedOut? {
          break;
        }
      }
      ReachesAllIff(outcomes, done);
      OutcomeOf(s, u, backend.View(), ids, workerId, newIds, startedAt, attemptsMap, outcomes, done);
    }

    /** What the handlers will make of a batch, given the number of the attempt each job is about to get. */
    method HandlerOutcomes(batch: seq<Job>, handler: Handler) returns (outcomes: seq<Outcome>)
      ensures |outcomes| == |batch|
      ensures forall k | 0 <= k < |batch| ::
        outcomes[k] == handler(batch[k].id, CountOf(backend.View(), batch[k].id) + 1)
    {
      outcomes := [];
      for k := 0 to |batch|
        invariant |outcomes| == k
        invariant forall i | 0 <= i < k ::
          outcomes[i] == handler(batch[i].id, CountOf(backend.View(), batch[i].id) + 1)
      {
        var id := batch[k].id;
        var count := if id in backend.attemptCounts then backend.attemptCounts[id] else 0;
        outcomes := outcomes + [handler(id, count + 1)];
      }
    }

    /**
     * Leases and processes batches until nothing is due. It ends whatever the handlers do and however short the retry
     * delays are: every batch leaves strictly less work. `rounds` are its batches. Every job is then as its last
     * attempt left it, or untouched, or caught by its deadline; only those that came after a timeout in their batch
     * are left running. The number it returns is that of the attempts it opened, not of the jobs it finished. If
     * `history` is a run that led here and keeps to one attempt per lease and to the retry limits, then so does
     * `after`, which goes on from it with what the worker did.
     */
    method RunUntilEmpty(handler: Handler, start: Time, ghost history: Run)
        returns (r: Result<nat>, now: Time, ghost rounds: seq<Round>, ghost after: Run)
      requires backend.Valid() && OneShot(backend.View(), queue) && MayTimeOut(handler, backend.jobs)
      modifies backend
      ensures backend.Valid() && r.Ok? && now >= start
      ensures r.value == Opened(backend.View()) - Opened(old(backend.View()))
      ensures forall id | id in backend.jobs :: !Due(backend.jobs[id], queue, now)
      ensures backend.jobs.Keys == old(backend.jobs).Keys && backend.archive == old(backend.archive)
      ensures forall id | id in backend.jobs :: SameIdentity(old(backend.jobs)[id], backend.jobs[id])
      ensures AllFates(old(backend.View()), backend.View(), rounds, handler, queue, workerId, now)
      ensures forall id | id in backend.jobs ::
        backend.jobs[id].status.Running? && !old(backend.jobs)[id].status.Running? <==> Abandoned(rounds, id)
      ensures LeasedFor(old(backend.View()), backend.View(), leaseSeconds)
      ensures RoundsUpTo(rounds, 32)
      ensures Traced(history, old(backend.View()), start) ==> Traced(after, backend.View(), now)
      ensures Continues(history, after)
    {
      hide Inv, Agrees, Held, BatchOutcome, OneShot, AsStored, Store.Lease, IsBatch, Traced, ReadyFor, Chosen, Ids;
      hide LeasedInOrder, NoneLeft, LeasedFor, RoundsUpTo;
      hide TakenBatch, IdsOf, Continues, SameIdentity, AllFates, MayTimeOut, StopsAt, RoundOutcomes, NextNumbers;
      hide TookChosen, CountOf, Abandoned;
      now := start;
      var totalProcessed: nat := 0;
      ghost var first := backend.View();
      ghost var tracing := Traced(history, first, start);
      after, rounds := history, [];
      ContinuesSelf(history);
      RoundsBegin(first, queue);
      FatesBegin(first, handler, queue, workerId, now);
      LeasedForBegins(first, leaseSeconds);
      NoRounds();
      while true
        invariant backend.Valid() && Rounds(first, backend.View(), queue, totalProcessed) && now >= start
        invariant AllFates(first, backend.View(), rounds, handler, queue, workerId, now)
        invariant LeasedFor(first, backend.View(), leaseSeconds)
        invariant RoundsUpTo(rounds, 32)
        invariant (tracing ==> Traced(after, backend.View(), now)) && Continues(history, after)
        decreases WorkLeft(backend.View(), queue)
      {
        hide Rounds, WorkLeft;
        ghost var s, last, sofar := backend.View(), now, after;
        now := Clock(now);
        var batch := backend.Lease(queue, workerId, leaseSeconds, 32, now);
        ghost var u := backend.View();
        hide RoundOf;
        LeasedForAfterLease(first, s, u, batch, queue, workerId, leaseSeconds, now);
        RoundLeases(first, s, queue, workerId, leaseSeconds, 32, now, batch, totalProcessed);
        after := ReadyAfterLease(sofar, s, last, queue, workerId, leaseSeconds, 32, now, batch);
        ContinuesChain(history, sofar, after);
        if batch == [] {
          EmptyBatch(s, queue, 32, now);
          NothingDue(s, queue, workerId, leaseSeconds, 32, now);
          RoundsMeaning(first, u, queue, totalProcessed);
          FatesEnd(first, s, rounds, handler, queue, workerId, leaseSeconds, 32, last, now);
          FatesMeaning(first, u, rounds, handler, queue, workerId, now);
          return Ok(totalProcessed), now, rounds, after;
        }
        var outcomes := HandlerOutcomes(batch, handler);
        OutcomesMayEnd(first, u, queue, totalProcessed, batch, outcomes, handler);
        var settled, later, done, traced := ProcessBatch(batch, outcomes, now, after);
        ContinuesChain(history, after, traced);
        after := traced;
        RoundDone(first, s, u, backend.View(), rounds, handler, queue, workerId, leaseSeconds, 32, last, now, later,
                  batch, outcomes, done, totalProcessed);
        LeasedForAfterBatch(first, u, backend.View(), IdsOf(batch), workerId, outcomes, done, leaseSeconds);
        RoundSize(rounds, u, batch, done);
        rounds := rounds + [RoundOf(u, batch, done)];
        now := later;
        totalProcessed := totalProcessed + |batch|;
      }
    }
  }

  ghost function RoundOf(u: State, batch: seq<Job>, done: nat): Round {
    Round(IdsOf(batch), NextNumbers(u, IdsOf(batch)), done)
  }

  lemma NoRounds()
    ensures RoundsUpTo([], 32)
  {
  }

  lemma RoundSize(rounds: seq<Round>, u: State, batch: seq<Job>, done: nat)
    requires RoundsUpTo(rounds, 32) && 0 < |batch| <= 32
    ensures RoundsUpTo(rounds + [RoundOf(u, batch, done)], 32)
  {
  }

  lemma RoundMatches(u: State, batch: seq<Job>, outcomes: seq<Outcome>, done: nat, handler: Handler)
    requires |outcomes| == |batch|
    requires forall k | 0 <= k < |batch| :: outcomes[k] == handler(batch[k].id, CountOf(u, batch[k].id) + 1)
    ensures var round := RoundOf(u, batch, done);
      |round.numbers| == |round.ids| && RoundOutcomes(handler, round) == outcomes
  {
    hide CountOf;
  }

  /** All that a round keeps. */
  lemma RoundDone(first: State, s: State, u: State, t: State, rounds: seq<Round>, handler: Handler, queue: string,
                  worker: string, seconds: int, batch: int, last: Time, now: Time, later: Time, leased: seq<Job>,
                  outcomes: seq<Outcome>, done: nat, total: nat)
    requires Inv(s) && Inv(u) && u == Lease(s, queue, worker, seconds, batch, now) && last <= now <= later
    requires Rounds(first, u, queue, total) && AllFates(first, s, rounds, handler, queue, worker, last)
    requires leased != [] && Held(u, IdsOf(leased), worker) && TakenBatch(s, queue, batch, now, leased)
    requires |outcomes| == |leased| && StopsAt(outcomes, done)
    requires forall k | 0 <= k < |leased| :: outcomes[k] == handler(leased[k].id, CountOf(u, leased[k].id) + 1)
    requires BatchOutcome(u, t, IdsOf(leased), worker, outcomes, done)
    ensures Rounds(first, t, queue, total + |leased|) && WorkLeft(t, queue) < WorkLeft(s, queue)
    ensures AllFates(first, t, rounds + [RoundOf(u, leased, done)], handler, queue, worker, later)
  {
    hide Inv, Lease, Rounds, AllFates, Held, BatchOutcome, StopsAt, WorkLeft, CountOf, Chosen, Due, NextNumbers;
    hide RoundOutcomes, TookChosen;
    var round := RoundOf(u, leased, done);
    RoundMatches(u, leased, outcomes, done, handler);
    RoundEnds(first, s, u, t, queue, worker, seconds, batch, now, leased, outcomes, done, total);
    IdsChosen(s, queue, batch, now, leased);
    FatesRound(first, s, u, t, rounds, round, handler, queue, worker, seconds, batch, last, now);
    FatesLater(first, t, rounds + [round], handler, queue, worker, now, later);
  }

  lemma OutcomesMayEnd(first: State, u: State, queue: string, total: nat, batch: seq<Job>, outcomes: seq<Outcome>,
                       handler: Handler)
    requires Rounds(first, u, queue, total) && MayTimeOut(handler, first.jobs) && AsStored(u.jobs, batch)
    requires |outcomes| == |batch|
    requires forall k | 0 <= k < |batch| :: outcomes[k] == handler(batch[k].id, CountOf(u, batch[k].id) + 1)
    ensures MayEnd(batch, outcomes)
  {
    hide CountOf, OneShot, Opened;
  }

  lemma IdsChosen(s: State, queue: string, batch: int, now: Time, leased: seq<Job>)
    requires |leased| == |Chosen(s, queue, batch, now)|
    requires forall i | 0 <= i < |leased| :: leased[i].id == Chosen(s, queue, batch, now)[i].id
    ensures TookChosen(s, queue, batch, now, IdsOf(leased))
  {
    hide Chosen;
  }

  lemma FatesMeaning(first: State, t: State, rounds: seq<Round>, handler: Handler, queue: string, worker: string,
                     now: Time)
    requires AllFates(first, t, rounds, handler, queue, worker, now)
    ensures t.jobs.Keys == first.jobs.Keys
    ensures forall id | id in first.jobs ::
      t.jobs[id].status.Running? && !first.jobs[id].status.Running? <==> Abandoned(rounds, id)
  {
    hide Fate, RoundOk;
    forall id | id in first.jobs
      ensures t.jobs[id].status.Running? && !first.jobs[id].status.Running? <==> Abandoned(rounds, id)
    {
      LeftRunningIffAbandoned(first, t, rounds, handler, queue, worker, now, id);
    }
  }

  /**
   * Why recurring jobs are left out: completing one puts another in the queue, due at once if its time has come too.
   */
  lemma RecurrenceRefillsQueue(s: State, id: Uuid, attempt: Uuid, worker: string, latency: int, newId: Uuid, now: Time)
    requires Finishable(s, id, attempt, worker) && s.jobs[id].recurringSeconds.Some? && newId !in s.jobs
    ensures var j, t := s.jobs[id], Succeed(s, id, attempt, worker, latency, newId, now);
      && newId in t.jobs && t.jobs[newId].recurringSeconds == j.recurringSeconds
      && (Due(t.jobs[newId], j.queue, now) <==> j.runAt + j.recurringSeconds.value * SECOND <= now)
  {
    hide PassAttempt;
  }

  /** The started attempts by job. */
  method ById(started: seq<Started>) returns (m: map<Uuid, Started>)
    requires forall i, j | 0 <= i < j < |started| :: started[i].job != started[j].job
    ensures forall i | 0 <= i < |started| :: started[i].job in m && m[started[i].job] == started[i]
  {
    m := map[];
    for k := 0 to |started|
      invariant forall i | 0 <= i < k :: started[i].job in m && m[started[i].job] == started[i]
    {
      m := m[started[k].job := started[k]];
    }
  }
}
