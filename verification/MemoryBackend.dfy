/** The in-memory backend: the job table with its per-queue index, updated in place. */
module MemoryBackend {
  import opened Model
  import opened Ordering
  import opened Store
  import opened Locality
  import opened Invariants
  import opened Index
  import opened Effects

  /** The first check that fails, in the order in which they are made. */
  function FinishCheck(s: State, id: Uuid, attempt: Uuid, worker: string): (r: Result<()>)
    ensures r.Ok? <==> Finishable(s, id, attempt, worker)
    ensures r == Err(JobNotFound) <==> id !in s.jobs
    ensures r == Err(NotLeaseHolder) <==>
      id in s.jobs && (s.jobs[id].status != Running || s.jobs[id].lockedBy != Some(worker))
    ensures r == Err(AttemptNotFound) <==>
      id in s.jobs && s.jobs[id].status == Running && s.jobs[id].lockedBy == Some(worker) && attempt !in s.attempts
  {
    if id !in s.jobs then Err(JobNotFound)
    else if !s.jobs[id].status.Running? || s.jobs[id].lockedBy != Some(worker) then Err(NotLeaseHolder)
    else if attempt !in s.attempts then Err(AttemptNotFound)
    else if !s.attempts[attempt].status.AttemptRunning? || s.attempts[attempt].jobId != id then Err(AttemptNotRunning)
    else Ok(())
  }

  function CancelCheck(s: State, id: Uuid, worker: Option<string>): (r: Result<()>)
    ensures r.Ok? <==> Cancelable(s, id, worker)
    ensures r == Err(JobNotFound) <==> id !in s.jobs
    ensures r == Err(WorkerRequired) <==> id in s.jobs && s.jobs[id].status == Running && worker == None
    ensures r == Err(NotLeaseHolder) <==>
      id in s.jobs && s.jobs[id].status == Running && worker != None && s.jobs[id].lockedBy != worker
    ensures r == Err(TerminalJob) <==> id in s.jobs && s.jobs[id].status in {Succeeded, Dlq, Canceled}
  {
    if id !in s.jobs then Err(JobNotFound)
    else match s.jobs[id].status
      case Queued => Ok(())
      case Running =>
        if worker.None? then Err(WorkerRequired)
        else if s.jobs[id].lockedBy != worker then Err(NotLeaseHolder)
        else Ok(())
      case Failed => Err(InvalidStatus)
      case _ => Err(TerminalJob)
  }

  /** A sweep that has reached the jobs `ids`. */
  function SweepSome(jobs: map<Uuid, Job>, ids: set<Uuid>, now: Time): map<Uuid, Job> {
    map id | id in jobs :: if id in ids then ExpireJob(jobs[id], now) else jobs[id]
  }

  ghost predicate EntriesOf(jobs: map<Uuid, Job>, queue: string, entries: seq<QueueEntry>) {
    Ascending(Before, entries) && forall e | e in entries :: Indexed(jobs, queue, e)
  }

  lemma NextIdIsNew(jobs: map<Uuid, Job>, queue: string, entries: seq<QueueEntry>, k: nat)
    requires EntriesOf(jobs, queue, entries) && k < |entries|
    ensures entries[k].id !in Ids(entries[..k])
  {
    forall i | 0 <= i < k
      ensures entries[i].id != entries[k].id
    {
      assert Before(entries[i], entries[k]);
      assert entries[i] in entries && entries[k] in entries;
    }
  }

  lemma SweepOne(jobs: map<Uuid, Job>, idx: QueueIndex, queue: string, late: seq<QueueEntry>, k: nat, now: Time)
    requires Keyed(jobs) && EntriesOf(jobs, queue, late) && k < |late|
    requires Agrees(SweepSome(jobs, Ids(late[..k]), now), idx)
    ensures late[k].id in jobs && late[k].id in SweepSome(jobs, Ids(late[..k]), now)
    ensures SweepSome(jobs, Ids(late[..k + 1]), now)
         == SweepSome(jobs, Ids(late[..k]), now)[late[k].id := ExpireJob(jobs[late[k].id], now)]
    ensures SweepSome(jobs, Ids(late[..k]), now)[late[k].id] == jobs[late[k].id]
    ensures Agrees(SweepSome(jobs, Ids(late[..k + 1]), now), Drop(idx, queue, late[k]))
  {
    hide Agrees, Drop, Ids;
    var e := late[k];
    assert e in late;
    IdsGrow(late, k);
    NextIdIsNew(jobs, queue, late, k);
    LeaveQueue(SweepSome(jobs, Ids(late[..k]), now), idx, e.id, ExpireJob(jobs[e.id], now));
  }

  lemma LeaseOne(jobs: map<Uuid, Job>, idx: QueueIndex, queue: string, due: seq<QueueEntry>, k: nat, worker: string,
                 expires: Time, now: Time)
    requires Keyed(jobs) && EntriesOf(jobs, queue, due) && k < |due|
    ensures due[k].id in jobs && due[k].id in MarkLeased(jobs, Ids(due[..k]), worker, expires, now)
    ensures MarkLeased(jobs, Ids(due[..k + 1]), worker, expires, now)
         == MarkLeased(jobs, Ids(due[..k]), worker, expires, now)
            [due[k].id := LeaseJob(jobs[due[k].id], worker, expires, now)]
    ensures MarkLeased(jobs, Ids(due[..k]), worker, expires, now)[due[k].id] == jobs[due[k].id]
    ensures Agrees(MarkLeased(jobs, Ids(due[..k]), worker, expires, now), idx) ==>
            Agrees(MarkLeased(jobs, Ids(due[..k + 1]), worker, expires, now), Drop(idx, queue, due[k]))
  {
    hide Agrees, Drop, Ids;
    var e := due[k];
    assert e in due;
    IdsGrow(due, k);
    NextIdIsNew(jobs, queue, due, k);
    var before := MarkLeased(jobs, Ids(due[..k]), worker, expires, now);
    if Agrees(before, idx) {
      LeaveQueue(before, idx, e.id, LeaseJob(jobs[e.id], worker, expires, now));
    }
  }

  lemma ChosenInOrder(s: State, queue: string, worker: string, seconds: int, batch: int, now: Time, leased: seq<Job>)
    requires Keyed(s.jobs)
    requires IsBatch(Store.Lease(s, queue, worker, seconds, batch, now).jobs, Chosen(s, queue, batch, now), leased)
    ensures var after := Store.Lease(s, queue, worker, seconds, batch, now).jobs;
      LeasedInOrder(s.jobs, after, leased, queue, worker, seconds, now)
    ensures |leased| <= if batch > 0 then batch else 0
    ensures (|leased| == if batch > 0 then batch else 0) || NoneLeft(s.jobs, leased, queue, now)
  {
    hide Ranking, Sweep, MarkLeased, Ids, LeasedInOrder, NoneLeft, Keyed;
    LeaseInOrder(s.jobs, queue, worker, seconds, now, Chosen(s, queue, batch, now), leased);
  }

  lemma EntriesPrefix(jobs: map<Uuid, Job>, queue: string, entries: seq<QueueEntry>, prefix: seq<QueueEntry>)
    requires EntriesOf(jobs, queue, entries) && prefix <= entries
    ensures EntriesOf(jobs, queue, prefix)
  {
  }

  function LateEntries(jobs: map<Uuid, Job>, entries: seq<QueueEntry>, now: Time): seq<QueueEntry> {
    Select(entries, (e: QueueEntry) =>
      e.runAt <= now && e.id in jobs && jobs[e.id].deadlineAt.Some? && jobs[e.id].deadlineAt.value < now)
  }

  function RipeEntries(entries: seq<QueueEntry>, now: Time): seq<QueueEntry> {
    Select(entries, (e: QueueEntry) => e.runAt <= now)
  }

  /** Filtering the index is the same as scanning the whole table and sorting. */
  lemma IndexScanIsTableScan(jobs: map<Uuid, Job>, idx: QueueIndex, queue: string, now: Time)
    requires Keyed(jobs) && Agrees(jobs, idx)
    ensures StrictTotal(Before)
    ensures RipeEntries(At(idx, queue), now) == SortSet(Before, DueEntries(jobs, queue, now))
    ensures EntriesOf(jobs, queue, RipeEntries(At(idx, queue), now))
  {
    hide SortSet, Before, Ascending, StrictTotal;
    BeforeIsStrictTotal();
    var ripe := RipeEntries(At(idx, queue), now);
    assert AgreesAt(jobs, At(idx, queue), queue);
    SelectAscending(Before, At(idx, queue), (e: QueueEntry) => e.runAt <= now);
    forall e
      ensures e in Elements(ripe) <==> e in DueEntries(jobs, queue, now)
    {
      if e in DueEntries(jobs, queue, now) {
        assert Indexed(jobs, queue, e);
      }
    }
    SortSetUnique(Before, DueEntries(jobs, queue, now), ripe);
  }

  lemma LateIsOverdue(jobs: map<Uuid, Job>, idx: QueueIndex, queue: string, now: Time)
    requires Keyed(jobs) && Agrees(jobs, idx)
    ensures var late := LateEntries(jobs, At(idx, queue), now);
      EntriesOf(jobs, queue, late) && SweepSome(jobs, Ids(late), now) == Sweep(jobs, queue, now)
  {
    hide Ascending, Before;
    var late := LateEntries(jobs, At(idx, queue), now);
    assert AgreesAt(jobs, At(idx, queue), queue);
    SelectAscending(Before, At(idx, queue), (e: QueueEntry) =>
      e.runAt <= now && e.id in jobs && jobs[e.id].deadlineAt.Some? && jobs[e.id].deadlineAt.value < now);
    forall id | id in jobs
      ensures id in Ids(late) <==> Overdue(jobs[id], queue, now)
    {
      if Overdue(jobs[id], queue, now) {
        assert Indexed(jobs, queue, FromJob(jobs[id]));
        assert FromJob(jobs[id]) in late;
      }
    }
  }

  class MemoryBackend {
    var jobs: map<Uuid, Job>
    var queuedJobs: QueueIndex
    var archive: map<Uuid, Job>
    var attempts: map<Uuid, Attempt>
    var attemptCounts: map<Uuid, int>
    /** Identifiers generated so far. */
    var born: map<Uuid, nat>

    ghost function View(): State
      reads this
    {
      State(jobs, archive, attempts, attemptCounts, born)
    }

    /** The table invariant, and the index agrees with the table. */
    ghost predicate Valid()
      reads this
    {
      Inv(View()) && Agrees(jobs, queuedJobs)
    }

    constructor ()
      ensures Valid() && View() == EMPTY
    {
      jobs, queuedJobs, archive, attempts, attemptCounts, born := map[], map[], map[], map[], map[], map[];
      new;
      EmptyInv();
    }

    method SweepDeadlines(queue: string, now: Time)
      requires Keyed(jobs) && Agrees(jobs, queuedJobs)
      modifies this`jobs, this`queuedJobs
      ensures jobs == Sweep(old(jobs), queue, now)
      ensures Agrees(jobs, queuedJobs)
    {
      hide Agrees, Drop, Sweep, Keyed, EntriesOf, LateEntries, SweepSome;
      var table := jobs;
      var late := LateEntries(jobs, At(queuedJobs, queue), now);
      LateIsOverdue(table, queuedJobs, queue, now);
      NothingSwept(table, now);
      assert late[..0] == [];
      for k := 0 to |late|
        invariant jobs == SweepSome(table, Ids(late[..k]), now)
        invariant Agrees(jobs, queuedJobs)
      {
        SweepOne(table, queuedJobs, queue, late, k, now);
        queuedJobs := Drop(queuedJobs, queue, late[k]);
        jobs := jobs[late[k].id := ExpireJob(jobs[late[k].id], now)];
      }
      assert late[..|late|] == late;
    }

    /** `lease_jobs_batch`: takes the first `batchSize` due jobs of the queue through the index. */
    method Lease(queue: string, worker: string, leaseSeconds: int, batchSize: int, now: Time) returns (leased: seq<Job>)
      requires Valid()
      modifies this`jobs, this`queuedJobs
      ensures Valid()
      ensures View() == Store.Lease(old(View()), queue, worker, leaseSeconds, batchSize, now)
      ensures IsBatch(jobs, Chosen(old(View()), queue, batchSize, now), leased)
      ensures LeasedInOrder(old(jobs), jobs, leased, queue, worker, leaseSeconds, now)
      ensures |leased| <= if batchSize > 0 then batchSize else 0
      ensures (|leased| == if batchSize > 0 then batchSize else 0) || NoneLeft(old(jobs), leased, queue, now)
      ensures archive == old(archive) && attempts == old(attempts) && attemptCounts == old(attemptCounts)
    {
      hide LeasedInOrder, NoneLeft;
      hide Agrees, KeysOk, LocksOk, NumbersOk, KeysUnique, LineageOk, Sweep, MarkLeased, Ids, RipeEntries, EntriesOf;
      hide SortSet, Take;
      ghost var s := View();
      ghost var op := OpLease(queue, worker, leaseSeconds, batchSize);
      TableIsKeyed(s);
      SweptIsKeyed(jobs, queue, now);
      hide Keyed, Inv;
      SweepDeadlines(queue, now);
      var swept := jobs;
      var candidates := Take(RipeEntries(At(queuedJobs, queue), now), batchSize);
      IndexScanIsTableScan(jobs, queuedJobs, queue, now);
      EntriesPrefix(jobs, queue, RipeEntries(At(queuedJobs, queue), now), candidates);
      assert candidates == Chosen(s, queue, batchSize, now);
      var expires := now + leaseSeconds * SECOND;
      NothingLeased(swept, worker, expires, now);
      assert candidates[..0] == [];
      leased := [];
      if |candidates| > 0 {
        for k := 0 to |candidates|
          invariant jobs == swept
          invariant Agrees(MarkLeased(swept, Ids(candidates[..k]), worker, expires, now), queuedJobs)
        {
          LeaseOne(swept, queuedJobs, queue, candidates, k, worker, expires, now);
          queuedJobs := Drop(queuedJobs, queue, candidates[k]);
        }
        assert candidates[..|candidates|] == candidates;
        for k := 0 to |candidates|
          invariant Agrees(MarkLeased(swept, Ids(candidates), worker, expires, now), queuedJobs)
          invariant jobs == MarkLeased(swept, Ids(candidates[..k]), worker, expires, now)
          invariant IsBatch(jobs, candidates[..k], leased)
        {
          LeaseOne(swept, queuedJobs, queue, candidates, k, worker, expires, now);
          BatchGrows(jobs, candidates, k, leased, swept, queue, worker, expires, now);
          jobs := jobs[candidates[k].id := LeaseJob(jobs[candidates[k].id], worker, expires, now)];
          leased := leased + [jobs[candidates[k].id]];
        }
      }
      assert candidates[..|candidates|] == candidates;
      ChosenInOrder(s, queue, worker, leaseSeconds, batchSize, now, leased);
      InvKept(s, now, op);
    }

    method Enqueue(n: NewJob, newId: Uuid, now: Time) returns (id: Uuid)
      requires Valid() && newId !in born
      modifies this
      ensures Valid()
      ensures View() == Store.Enqueue(old(View()), n, newId, now)
      ensures id == EnqueueResult(old(View()), n, newId)
      ensures Enqueued(old(View()), View(), n, newId, id, now)
    {
      hide Enqueued;
      hide Agrees, KeysOk, LocksOk, NumbersOk, KeysUnique, LineageOk, Put, FreshJob;
      ghost var s := View();
      EnqueueEffect(s, n, newId, now);
      if n.key.Some? && exists k :: k in jobs && jobs[k].key == n.key {
        id :| id in jobs && jobs[id].key == n.key;
        OnlyHolder(s, n.key, id);
        return;
      }
      NewIdUnused(s, newId);
      var j := FreshJob(n, newId, now);
      FreshIsQueued(n, newId, now);
      EnterQueue(jobs, queuedJobs, j);
      queuedJobs := Put(queuedJobs, j.queue, FromJob(j));
      jobs := jobs[newId := j];
      born := born[newId := |born|];
      id := newId;
      InvKept(s, now, OpEnqueue(n, newId));
    }

    method ReplayJob(id: Uuid, queue: Option<string>, runAt: Option<Time>, newId: Uuid, now: Time)
        returns (r: Result<Uuid>)
      requires Valid() && newId !in born
      modifies this
      ensures Valid()
      ensures View() == Replay(old(View()), id, queue, runAt, newId, now)
      ensures r == if Known(old(View()), id) then Ok(newId) else Err(JobNotFound)
      ensures Replayed(old(View()), View(), id, queue, runAt, newId, now)
    {
      hide Replayed, Replay, Inv, Agrees, Put, ReplayOf;
      ghost var s := View();
      ReplayState(s, id, queue, runAt, newId, now);
      if id !in jobs && id !in archive {
        return Err(JobNotFound);
      }
      NewIdUnused(s, newId);
      var src := if id in jobs then jobs[id] else archive[id];
      var j := ReplayOf(src, newId, queue, runAt, now);
      ReplayIsQueued(src, newId, queue, runAt, now);
      EnterQueue(jobs, queuedJobs, j);
      queuedJobs := Put(queuedJobs, j.queue, FromJob(j));
      jobs := jobs[newId := j];
      born := born[newId := |born|];
      return Ok(newId);
    }

    method MarkSucceeded(id: Uuid, attempt: Uuid, worker: string, latency: int, newId: Uuid, now: Time)
      returns (r: Result<()>)
      requires Valid() && newId !in born
      modifies this
      ensures Valid()
      ensures View() == Succeed(old(View()), id, attempt, worker, latency, newId, now)
      ensures r == FinishCheck(old(View()), id, attempt, worker)
      ensures r.Err? ==> View() == old(View())
      ensures r.Ok? <==> MayFinish(old(View()), id, attempt, worker)
      ensures r.Ok? ==> CompletedAs(old(View()), View(), id, attempt, latency, newId, now)
    {
      hide CompletedAs, MayFinish;
      hide Agrees, KeysOk, LocksOk, NumbersOk, KeysUnique, LineageOk, Put, NextOccurrence, PassAttempt;
      ghost var s := View();
      FinishEffects(s, id, attempt, worker, latency, newId, now);
      if id !in jobs { return Err(JobNotFound); }
      var j := jobs[id];
      if !j.status.Running? || j.lockedBy != Some(worker) { return Err(NotLeaseHolder); }
      if attempt !in attempts { return Err(AttemptNotFound); }
      var att := attempts[attempt];
      if !att.status.AttemptRunning? || att.jobId != id { return Err(AttemptNotRunning); }
      NewIdUnused(s, newId);
      attempts := attempts[attempt := PassAttempt(att, latency, now)];
      RunningLeaves(jobs, queuedJobs, id, UnlockJob(j, Succeeded, now));
      jobs := jobs[id := UnlockJob(j, Succeeded, now)];
      if j.recurringSeconds.Some? {
        var next := NextOccurrence(j, j.recurringSeconds.value, newId, now);
        NextIsQueued(j, j.recurringSeconds.value, newId, now);
        EnterQueue(jobs, queuedJobs, next);
        queuedJobs := Put(queuedJobs, next.queue, FromJob(next));
        jobs := jobs[newId := next];
        born := born[newId := |born|];
      }
      InvKept(s, now, OpSucceed(id, attempt, worker, latency, newId));
      return Ok(());
    }

    method RescheduleForRetry(id: Uuid, attempt: Uuid, worker: string, latency: int, runAt: Time, code: string,
                              message: string, now: Time) returns (r: Result<()>)
      requires Valid()
      modifies this`jobs, this`queuedJobs, this`attempts
      ensures Valid()
      ensures View() == Retry(old(View()), id, attempt, worker, latency, runAt, code, message, now)
      ensures r == FinishCheck(old(View()), id, attempt, worker)
      ensures r.Err? ==> View() == old(View())
      ensures r.Ok? <==> MayFinish(old(View()), id, attempt, worker)
      ensures r.Ok? ==> Retried(old(View()), View(), id, attempt, latency, runAt, code, message, now)
    {
      hide Agrees, KeysOk, LocksOk, NumbersOk, KeysUnique, LineageOk, Put, FailAttempt;
      ghost var s := View();
      RetryEffects(s, id, attempt, worker, latency, runAt, code, message, now);
      TableIsKeyed(s);
      if id !in jobs { return Err(JobNotFound); }
      var j := jobs[id];
      if !j.status.Running? || j.lockedBy != Some(worker) { return Err(NotLeaseHolder); }
      if attempt !in attempts { return Err(AttemptNotFound); }
      var att := attempts[attempt];
      if !att.status.AttemptRunning? || att.jobId != id { return Err(AttemptNotRunning); }
      attempts := attempts[attempt := FailAttempt(att, latency, code, message, now)];
      var k := RetryJob(j, runAt, now);
      EnterQueue(jobs, queuedJobs, k);
      jobs := jobs[id := k];
      queuedJobs := Put(queuedJobs, k.queue, FromJob(k));
      InvKept(s, now, OpRetry(id, attempt, worker, latency, runAt, code, message));
      return Ok(());
    }

    method MarkDlq(id: Uuid, attempt: Uuid, worker: string, latency: int, reason: string, code: string,
                   message: string, now: Time) returns (r: Result<()>)
      requires Valid()
      modifies this`jobs, this`attempts
      ensures Valid()
      ensures View() == DeadLetter(old(View()), id, attempt, worker, latency, reason, code, message, now)
      ensures r == FinishCheck(old(View()), id, attempt, worker)
      ensures r.Err? ==> View() == old(View())
      ensures r.Ok? <==> MayFinish(old(View()), id, attempt, worker)
      ensures r.Ok? ==> DeadLettered(old(View()), View(), id, attempt, latency, reason, code, message, now)
    {
      hide Agrees, KeysOk, LocksOk, NumbersOk, KeysUnique, LineageOk, FailAttempt;
      ghost var s := View();
      DeadLetterEffects(s, id, attempt, worker, latency, reason, code, message, now);
      if id !in jobs { return Err(JobNotFound); }
      var j := jobs[id];
      if !j.status.Running? || j.lockedBy != Some(worker) { return Err(NotLeaseHolder); }
      if attempt !in attempts { return Err(AttemptNotFound); }
      var att := attempts[attempt];
      if !att.status.AttemptRunning? || att.jobId != id { return Err(AttemptNotRunning); }
      attempts := attempts[attempt := FailAttempt(att, latency, code, message, now)];
      RunningLeaves(jobs, queuedJobs, id, DeadJob(j, reason, now));
      jobs := jobs[id := DeadJob(j, reason, now)];
      InvKept(s, now, OpDeadLetter(id, attempt, worker, latency, reason, code, message));
      return Ok(());
    }

    method ExtendLease(id: Uuid, worker: string, leaseSeconds: int, now: Time) returns (extended: bool)
      requires Valid()
      modifies this`jobs
      ensures Valid()
      ensures View() == Extend(old(View()), id, worker, leaseSeconds, now)
      ensures extended == Holds(old(View()), id, worker)
      ensures extended <==> HeldBy(old(jobs), id, worker)
      ensures if extended then Extended(old(View()), View(), id, leaseSeconds, now) else View() == old(View())
    {
      hide Agrees, KeysOk, LocksOk, NumbersOk, KeysUnique, LineageOk;
      ghost var s := View();
      ExtendEffect(s, id, worker, leaseSeconds, now);
      if id in jobs && jobs[id].status.Running? && jobs[id].lockedBy == Some(worker) {
        var k := ExtendJob(jobs[id], now + leaseSeconds * SECOND, now);
        RunningLeaves(jobs, queuedJobs, id, k);
        jobs := jobs[id := k];
        InvKept(s, now, OpExtend(id, worker, leaseSeconds));
        return true;
      }
      return false;
    }

    method GetJob(id: Uuid) returns (j: Option<Job>)
      ensures j == if Known(View(), id) then Some(Record(View(), id)) else None
    {
      if id in jobs {
        j := Some(jobs[id]);
      } else if id in archive {
        j := Some(archive[id]);
      } else {
        j := None;
      }
    }

    /** Forgets every row; identifiers already generated are not generated again. */
    method Clear()
      requires Valid()
      modifies this`jobs, this`queuedJobs, this`archive, this`attempts, this`attemptCounts
      ensures Valid() && View() == EMPTY.(born := old(born))
    {
      hide LocksOk, NumbersOk, KeysUnique, LineageOk, Inv;
      ClearedInv(View());
      jobs, queuedJobs, archive, attempts, attemptCounts := map[], map[], map[], map[], map[];
    }

    /** Closes the open attempts of the jobs `expired`. */
    method FailLapsedAttempts(expired: set<Uuid>, now: Time)
      requires forall id :: id in expired <==> id in jobs && Lapsed(jobs[id], now)
      modifies this`attempts
      ensures attempts == ReapSomeAttempts(old(View()), old(attempts).Keys, now)
    {
      hide Lapsed, FailAttempt, ReapSomeAttempts;
      ghost var s := View();
      var history := attempts;
      var rest := attempts.Keys;
      ReapStarts(s, now);
      while rest != {}
        invariant rest <= history.Keys
        invariant attempts == ReapSomeAttempts(s, history.Keys - rest, now)
        decreases |rest|
      {
        var a :| a in rest;
        ReapAttemptNext(s, history.Keys - rest, a, now);
        if attempts[a].jobId in expired && attempts[a].status.AttemptRunning? {
          var failed := FailAttempt(attempts[a], 0, "LEASE_EXPIRED", "worker lease expired before ACK", now);
          attempts := attempts[a := failed];
        }
        assert history.Keys - (rest - {a}) == history.Keys - rest + {a};
        rest := rest - {a};
      }
      assert history.Keys - {} == history.Keys;
    }

    /** Puts the jobs `expired` back in their queues. */
    method Requeue(expired: set<Uuid>, now: Time) returns (reaped: nat)
      requires Keyed(jobs) && Agrees(jobs, queuedJobs)
      requires forall id | id in expired :: id in jobs && jobs[id].status.Running?
      modifies this`jobs, this`queuedJobs
      ensures jobs == ReapSome(old(jobs), expired, now)
      ensures Agrees(jobs, queuedJobs)
      ensures reaped == |expired|
    {
      hide Agrees, Put, ReapSome, Keyed;
      var table := jobs;
      reaped := 0;
      var todo := expired;
      ReapStarts(View(), now);
      assert expired - todo == {};
      while todo != {}
        invariant todo <= expired
        invariant jobs == ReapSome(table, expired - todo, now)
        invariant Agrees(jobs, queuedJobs)
        invariant reaped == |expired| - |todo|
        decreases |todo|
      {
        var id :| id in todo;
        ReapNext(table, queuedJobs, expired - todo, id, now);
        jobs := jobs[id := UnlockJob(jobs[id], Queued, now)];
        queuedJobs := Put(queuedJobs, jobs[id].queue, FromJob(jobs[id]));
        reaped := reaped + 1;
        assert expired - (todo - {id}) == expired - todo + {id};
        todo := todo - {id};
      }
      assert expired - {} == expired;
    }

    method ReapExpiredLocks(now: Time) returns (reaped: nat)
      requires Valid()
      modifies this`jobs, this`queuedJobs, this`attempts
      ensures Valid()
      ensures View() == Reap(old(View()), now)
      ensures reaped == |LapsedIds(old(jobs), now)|
      ensures TakenBack(old(View()), View(), now)
    {
      hide Agrees, KeysOk, LocksOk, NumbersOk, KeysUnique, LineageOk, ReapSome, ReapSomeAttempts, Reap, Keyed;
      ghost var s := View();
      ReapEffect(s, now);
      TableIsKeyed(s);
      var expired := LapsedIds(jobs, now);
      FailLapsedAttempts(expired, now);
      reaped := Requeue(expired, now);
      ReapEnds(s, expired, now);
      InvKept(s, now, OpReap);
    }

    /** `start_attempts_batch`: opens attempts one by one and stops at the first job the worker does not hold. */
    method StartAttemptsBatch(ids: seq<Uuid>, worker: string, newIds: seq<Uuid>, now: Time)
      returns (r: Result<seq<Started>>)
      requires Valid() && Unused(born, newIds) && |newIds| == |ids|
      modifies this`attempts, this`attemptCounts, this`born
      ensures Valid()
      ensures View() == StartAll(old(View()), ids, worker, newIds, now, []).0
      ensures r == StartAll(old(View()), ids, worker, newIds, now, []).1
      ensures BatchOpened(old(View()), View(), ids, worker, newIds, now, r, 0)
    {
      hide Inv, Start, Agrees;
      ghost var s := View();
      hide BatchOpened;
      StartAllEffect(s, ids, worker, newIds, now, []);
      var results := [];
      assert ids[0..] == ids && newIds[0..] == newIds;
      for k := 0 to |ids|
        invariant Inv(View()) && Unused(born, newIds[k..])
        invariant StartAll(View(), ids[k..], worker, newIds[k..], now, results)
               == StartAll(s, ids, worker, newIds, now, [])
      {
        var id := ids[k];
        assert ids[k..][0] == id && ids[k..][1..] == ids[k + 1..];
        assert newIds[k..][0] == newIds[k] && newIds[k..][1..] == newIds[k + 1..];
        if id !in jobs { return Err(JobNotFound); }
        if !jobs[id].status.Running? || jobs[id].lockedBy != Some(worker) { return Err(NotLeaseHolder); }
        ghost var before := View();
        var no := (if id in attemptCounts then attemptCounts[id] else 0) + 1;
        attempts := attempts[newIds[k] := OpenAttempt(newIds[k], id, no, worker, now)];
        attemptCounts := attemptCounts[id := no];
        born := born[newIds[k] := |born|];
        results := results + [Started(id, newIds[k], no)];
        StartedView(before, id, worker, newIds[k], now);
        InvKept(before, now, OpStart(id, worker, newIds[k]));
        assert View() == Start(before, id, worker, newIds[k], now);
      }
      return Ok(results);
    }

    method CancelJob(id: Uuid, worker: Option<string>, now: Time) returns (r: Result<()>)
      requires Valid()
      modifies this`jobs, this`queuedJobs, this`attempts
      ensures Valid()
      ensures View() == Cancel(old(View()), id, worker, now)
      ensures r == CancelCheck(old(View()), id, worker)
      ensures r.Err? ==> View() == old(View())
      ensures r.Ok? <==> MayCancel(old(View()), id, worker)
      ensures r.Ok? ==> Cancelled(old(View()), View(), id, now)
    {
      hide Cancelled, MayCancel, Inv, Agrees, Drop, FailAttempt, UnlockJob, LatestOpen, Cancel, Keyed;
      ghost var s := View();
      CancelFacts(s, id, worker, now);
      if id in jobs {
        UnlockedStatus(s, id, now);
      }
      if id !in jobs { return Err(JobNotFound); }
      var j := jobs[id];
      match j.status {
        case Queued =>
        case Running =>
          if worker.None? { return Err(WorkerRequired); }
          if j.lockedBy != worker { return Err(NotLeaseHolder); }
        case Failed =>
          return Err(InvalidStatus);
        case _ =>
          return Err(TerminalJob);
      }
      if j.status.Running? {
        var latest := LatestOpenAttempt(s, attempts, id);
        CancelClosesLatest(s, id, worker, latest, now);
        if latest.Some? {
          var failed := FailAttempt(attempts[latest.value], 0, "CANCELLED", "job cancelled", now);
          attempts := attempts[latest.value := failed];
        }
        RunningLeaves(jobs, queuedJobs, id, UnlockJob(j, Canceled, now));
        jobs := jobs[id := UnlockJob(j, Canceled, now)];
      } else {
        CancelQueued(s, id, worker, now);
        LeaveQueue(jobs, queuedJobs, id, UnlockJob(j, Canceled, now));
        jobs := jobs[id := UnlockJob(j, Canceled, now)];
        queuedJobs := Drop(queuedJobs, j.queue, FromJob(j));
      }
      return Ok(());
    }

    /** Moves up to `limit` old succeeded jobs to the archive; `moved` are the ones it took. */
    method ArchiveSucceeded(cutoff: Time, limit: int) returns (count: nat, ghost moved: set<Uuid>)
      requires Valid()
      modifies this`jobs, this`archive
      ensures Valid()
      ensures Limited(ArchivableSet(old(View()), cutoff), limit, moved) && count == |moved|
      ensures forall id | id in moved ::
        id in old(jobs) && old(jobs)[id].status == Succeeded && old(jobs)[id].updatedAt < cutoff
      ensures limit < 0 || count < limit ==>
        forall id | id in jobs :: jobs[id].status == Succeeded ==> jobs[id].updatedAt >= cutoff
      ensures limit >= 0 ==> count <= limit
      ensures jobs == old(jobs) - moved && archive == old(archive) + (map id | id in moved :: old(jobs)[id])
      ensures View() == Archive(old(View()), moved)
    {
      hide Agrees, KeysOk, LocksOk, NumbersOk, KeysUnique, LineageOk, Limited;
      ghost var s := View();
      var eligible := set id | id in jobs && jobs[id].status.Succeeded? && jobs[id].updatedAt < cutoff;
      assert eligible == ArchivableSet(s, cutoff);
      var chosen := TakeSome(eligible, limit);
      ArchivedWereSucceeded(s, cutoff, limit, chosen);
      hide Inv, Archivable;
      moved := chosen;
      count := |chosen|;
      OffQueue(jobs, jobs - chosen, queuedJobs);
      MoveToArchive(chosen);
      InvKept(s, 0, OpArchive(cutoff, limit, chosen));
    }

    method MoveToArchive(chosen: set<Uuid>)
      requires chosen <= jobs.Keys
      modifies this`jobs, this`archive
      ensures jobs == old(jobs) - chosen
      ensures archive == old(archive) + (map id | id in chosen :: old(jobs)[id])
    {
      var table, archived := jobs, archive;
      var rest := chosen;
      assert table - (chosen - rest) == table;
      while rest != {}
        invariant rest <= chosen
        invariant jobs == table - (chosen - rest)
        invariant archive == archived + (map id | id in chosen - rest :: table[id])
        decreases |rest|
      {
        var id :| id in rest;
        archive := archive[id := jobs[id]];
        jobs := jobs - {id};
        rest := rest - {id};
      }
    }

    /** Deletes up to `limit` old attempts of archived jobs; `removed` are the ones it took. */
    method DeleteHistory(cutoff: Time, limit: int) returns (count: nat, ghost removed: set<Uuid>)
      requires Valid()
      modifies this`attempts
      ensures Valid()
      ensures Limited(PrunableSet(old(View()), cutoff), limit, removed) && count == |removed|
      ensures forall a | a in removed :: a in old(attempts) && OldHistory(old(attempts)[a], archive, cutoff)
      ensures limit < 0 || count < limit ==> forall a | a in attempts :: !OldHistory(attempts[a], archive, cutoff)
      ensures limit >= 0 ==> count <= limit
      ensures attempts == old(attempts) - removed
      ensures View() == PruneHistory(old(View()), removed)
    {
      hide Agrees, KeysOk, LocksOk, NumbersOk, KeysUnique, LineageOk, Limited;
      ghost var s := View();
      var archivedIds := set id | id in archive && archive[id].updatedAt < cutoff;
      var eligible := set a | a in attempts && attempts[a].startedAt < cutoff && attempts[a].jobId in archivedIds;
      assert eligible == PrunableSet(s, cutoff);
      var chosen := TakeSome(eligible, limit);
      removed := chosen;
      count := |chosen|;
      hide Inv, Prunable;
      RemoveAttempts(chosen);
      InvKept(s, 0, OpPrune(cutoff, limit, chosen));
    }

    method RemoveAttempts(chosen: set<Uuid>)
      modifies this`attempts
      ensures attempts == old(attempts) - chosen
    {
      var history := attempts;
      var rest := chosen;
      assert history - (chosen - rest) == history;
      while rest != {}
        invariant rest <= chosen
        invariant attempts == history - (chosen - rest)
        decreases |rest|
      {
        var a :| a in rest;
        attempts := attempts - {a};
        rest := rest - {a};
      }
    }
  }

  /** The attempt began, and the job was archived in its last state, before the cutoff. */
  predicate OldHistory(a: Attempt, archive: map<Uuid, Job>, cutoff: Time) {
    a.startedAt < cutoff && a.jobId in archive && archive[a.jobId].updatedAt < cutoff
  }

  /** The open attempt of the job with the highest number, if it has one. */
  method LatestOpenAttempt(ghost s: State, attempts: map<Uuid, Attempt>, id: Uuid) returns (latest: Option<Uuid>)
    requires attempts == s.attempts
    ensures latest.Some? ==> LatestOpen(s, id, latest.value)
    ensures latest.None? ==> forall a :: !OpenFor(s, id, a)
  {
    latest := None;
    var rest := attempts.Keys;
    while rest != {}
      invariant rest <= attempts.Keys
      invariant latest.Some? ==> OpenFor(s, id, latest.value)
      invariant forall a | OpenFor(s, id, a) && a !in rest ::
        latest.Some? && attempts[a].attemptNo <= attempts[latest.value].attemptNo
      decreases |rest|
    {
      var a :| a in rest;
      rest := rest - {a};
      if attempts[a].jobId == id && attempts[a].status.AttemptRunning? {
        if latest.None? || attempts[latest.value].attemptNo <= attempts[a].attemptNo {
          latest := Some(a);
        }
      }
    }
  }

  /** `limit` elements, whichever the iteration meets first; all of them under a negative limit. */
  method TakeSome(eligible: set<Uuid>, limit: int) returns (chosen: set<Uuid>)
    ensures Limited(eligible, limit, chosen)
  {
    chosen := {};
    while chosen != eligible && (limit < 0 || |chosen| < limit)
      invariant chosen <= eligible
      invariant 0 <= limit ==> |chosen| <= limit
      decreases |eligible - chosen|
    {
      var x :| x in eligible - chosen;
      assert eligible - (chosen + {x}) == (eligible - chosen) - {x};
      chosen := chosen + {x};
    }
  }

  lemma ReplayState(s: State, id: Uuid, queue: Option<string>, runAt: Option<Time>, newId: Uuid, now: Time)
    requires Inv(s) && newId !in s.born
    ensures var t := Replay(s, id, queue, runAt, newId, now);
      && Inv(t) && Replayed(s, t, id, queue, runAt, newId, now)
      && if Known(s, id) then
           var j := ReplayOf(Record(s, id), newId, queue, runAt, now);
           t == State(s.jobs[newId := j], s.archive, s.attempts, s.counts, s.born[newId := |s.born|])
         else t == s
  {
    InvKept(s, now, OpReplay(id, queue, runAt, newId));
    TablesAreKeyed(s);
    ReplayEffect(s, id, queue, runAt, newId, now);
    hide Replayed, Inv, ReplayOf;
    if Known(s, id) {
      ReplayHasId(s, id, queue, runAt, newId, now);
    }
  }

  lemma ReplayHasId(s: State, id: Uuid, queue: Option<string>, runAt: Option<Time>, newId: Uuid, now: Time)
    requires Known(s, id)
    ensures ReplayOf(Record(s, id), newId, queue, runAt, now).id == newId
  {
  }

  lemma TablesAreKeyed(s: State)
    requires Inv(s)
    ensures Keyed(s.jobs) && Keyed(s.archive)
  {
  }

  lemma FinishEffects(s: State, id: Uuid, attempt: Uuid, worker: string, latency: int, newId: Uuid, now: Time)
    requires Inv(s) && newId !in s.born
    ensures var t := Succeed(s, id, attempt, worker, latency, newId, now);
      && (FinishCheck(s, id, attempt, worker).Ok? <==> MayFinish(s, id, attempt, worker))
      && (if MayFinish(s, id, attempt, worker) then CompletedAs(s, t, id, attempt, latency, newId, now) else t == s)
  {
    hide CompletedAs, LocksOk, NumbersOk, KeysUnique, LineageOk, AddJob, PassAttempt, UnlockJob;
    MayFinishIsFinishable(s, id, attempt, worker);
    if MayFinish(s, id, attempt, worker) {
      SucceedEffect(s, id, attempt, worker, latency, newId, now);
    }
  }

  lemma RetryEffects(s: State, id: Uuid, attempt: Uuid, worker: string, latency: int, runAt: Time, code: string,
                     message: string, now: Time)
    ensures var t := Retry(s, id, attempt, worker, latency, runAt, code, message, now);
      && (FinishCheck(s, id, attempt, worker).Ok? <==> MayFinish(s, id, attempt, worker))
      && (if MayFinish(s, id, attempt, worker) then Retried(s, t, id, attempt, latency, runAt, code, message, now)
          else t == s)
  {
    hide Retried, FailAttempt, RetryJob;
    MayFinishIsFinishable(s, id, attempt, worker);
    if MayFinish(s, id, attempt, worker) {
      RetryEffect(s, id, attempt, worker, latency, runAt, code, message, now);
    }
  }

  lemma DeadLetterEffects(s: State, id: Uuid, attempt: Uuid, worker: string, latency: int, reason: string, code: string,
                          message: string, now: Time)
    ensures var t := DeadLetter(s, id, attempt, worker, latency, reason, code, message, now);
      && (FinishCheck(s, id, attempt, worker).Ok? <==> MayFinish(s, id, attempt, worker))
      && (if MayFinish(s, id, attempt, worker) then
            DeadLettered(s, t, id, attempt, latency, reason, code, message, now)
          else t == s)
  {
    hide DeadLettered, FailAttempt, DeadJob;
    MayFinishIsFinishable(s, id, attempt, worker);
    if MayFinish(s, id, attempt, worker) {
      DeadLetterEffect(s, id, attempt, worker, latency, reason, code, message, now);
    }
  }

  lemma CancelFacts(s: State, id: Uuid, worker: Option<string>, now: Time)
    requires Inv(s)
    ensures var t := Cancel(s, id, worker, now);
      && Inv(t) && (id in s.jobs ==> s.jobs[id].id == id)
      && (CancelCheck(s, id, worker).Ok? <==> MayCancel(s, id, worker))
      && (MayCancel(s, id, worker) <==> Cancelable(s, id, worker))
      && (if MayCancel(s, id, worker) then Cancelled(s, t, id, now) else t == s)
  {
    InvKept(s, now, OpCancel(id, worker));
    CancelEffect(s, id, worker, now);
    CancelChecked(s, id, worker);
    TableIsKeyed(s);
    hide Inv, Cancelled, Cancel;
  }

  lemma UnlockedStatus(s: State, id: Uuid, now: Time)
    requires id in s.jobs
    ensures UnlockJob(s.jobs[id], Canceled, now).status == Canceled
  {
  }

  lemma CancelChecked(s: State, id: Uuid, worker: Option<string>)
    ensures CancelCheck(s, id, worker).Ok? <==> MayCancel(s, id, worker)
  {
  }

  lemma ArchivedWereSucceeded(s: State, cutoff: Time, limit: int, chosen: set<Uuid>)
    requires Limited(ArchivableSet(s, cutoff), limit, chosen)
    ensures forall id | id in chosen :: id in s.jobs && s.jobs[id].status.Succeeded?
  {
  }

  lemma CancelClosesLatest(s: State, id: Uuid, worker: Option<string>, latest: Option<Uuid>, now: Time)
    requires Inv(s) && Cancelable(s, id, worker) && s.jobs[id].status.Running?
    requires latest.Some? ==> LatestOpen(s, id, latest.value)
    requires latest.None? ==> forall a :: !OpenFor(s, id, a)
    ensures latest.Some? ==> latest.value in s.attempts
    ensures Cancel(s, id, worker, now) ==
      s.(jobs := s.jobs[id := UnlockJob(s.jobs[id], Canceled, now)],
         attempts := if latest.Some?
                     then
                       s.attempts[latest.value :=
                         FailAttempt(s.attempts[latest.value], 0, "CANCELLED", "job cancelled", now)]
                     else s.attempts)
  {
    hide KeysOk, LocksOk, KeysUnique, LineageOk, FailAttempt, UnlockJob;
  }

  lemma CancelRefused(s: State, id: Uuid, worker: Option<string>, now: Time)
    ensures !Cancelable(s, id, worker) ==> Cancel(s, id, worker, now) == s
  {
  }

  lemma CancelQueued(s: State, id: Uuid, worker: Option<string>, now: Time)
    requires Cancelable(s, id, worker) && s.jobs[id].status.Queued?
    ensures Cancel(s, id, worker, now) == s.(jobs := s.jobs[id := UnlockJob(s.jobs[id], Canceled, now)])
  {
    hide UnlockJob, LatestOpen;
  }

  datatype Started = Started(job: Uuid, attempt: Uuid, attemptNo: int)

  /** Freshly generated identifiers: unused so far and all different. */
  ghost predicate Unused(born: map<Uuid, nat>, ids: seq<Uuid>) {
    && (forall k | 0 <= k < |ids| :: ids[k] !in born)
    && (forall k, l | 0 <= k < l < |ids| :: ids[k] != ids[l])
  }

  ghost function StartAll(s: State, ids: seq<Uuid>, worker: string, newIds: seq<Uuid>, now: Time, acc: seq<Started>)
    : (State, Result<seq<Started>>)
    requires |newIds| == |ids|
    decreases ids
  {
    if ids == [] then (s, Ok(acc))
    else if ids[0] !in s.jobs then (s, Err(JobNotFound))
    else if !Holds(s, ids[0], worker) then (s, Err(NotLeaseHolder))
    else
      StartAll(Start(s, ids[0], worker, newIds[0], now), ids[1..], worker, newIds[1..], now,
               acc + [Started(ids[0], newIds[0], CountOf(s, ids[0]) + 1)])
  }

  /** Each id has the attempt with the new id, and the number on it is the one reported. */
  ghost predicate OpenedEach(ids: seq<Uuid>, worker: string, newIds: seq<Uuid>, now: Time, started: seq<Started>,
                             attempts: map<Uuid, Attempt>) {
    && |started| == |ids| == |newIds|
    && forall k | 0 <= k < |ids| ::
         && started[k].job == ids[k] && started[k].attempt == newIds[k] && newIds[k] in attempts
         && attempts[newIds[k]] == Attempt(
              id := newIds[k], jobId := ids[k], attemptNo := started[k].attemptNo, status := AttemptRunning,
              workerId := worker, startedAt := now, finishedAt := None, latencyMs := None, errorCode := None,
              errorMessage := None)
  }

  /** The first id that the worker does not hold, and what is said of it. */
  ghost predicate FirstNotHeld(jobs: map<Uuid, Job>, ids: seq<Uuid>, worker: string, k: nat, error: Error) {
    && k < |ids| && !HeldBy(jobs, ids[k], worker) && (forall j | 0 <= j < k :: HeldBy(jobs, ids[j], worker))
    && error == if ids[k] in jobs then NotLeaseHolder else JobNotFound
  }

  /**
   * Either the worker held every id and an attempt was opened for each, which `r` lists after its first `from` entries;
   * or `r` names the first that it did not hold. The jobs and the attempts there were are as before.
   */
  ghost predicate BatchOpened(s: State, t: State, ids: seq<Uuid>, worker: string, newIds: seq<Uuid>, now: Time,
                              r: Result<seq<Started>>, from: nat) {
    && t.jobs == s.jobs && t.archive == s.archive
    && (forall a | a in s.attempts && a !in newIds :: a in t.attempts && t.attempts[a] == s.attempts[a])
    && (r.Ok? <==> forall k | 0 <= k < |ids| :: HeldBy(s.jobs, ids[k], worker))
    && (r.Ok? ==> from <= |r.value| && OpenedEach(ids, worker, newIds, now, r.value[from..], t.attempts))
    && (r.Err? ==> exists k | 0 <= k < |ids| :: FirstNotHeld(s.jobs, ids, worker, k, r.error))
  }

  lemma {:induction false} StartAllEffect(s: State, ids: seq<Uuid>, worker: string, newIds: seq<Uuid>, now: Time,
                                          acc: seq<Started>)
    requires |newIds| == |ids| && Unused(s.born, newIds)
    ensures var (t, r) := StartAll(s, ids, worker, newIds, now, acc);
      BatchOpened(s, t, ids, worker, newIds, now, r, |acc|) && (r.Ok? ==> acc <= r.value)
    decreases ids
  {
    hide BatchOpened, HeldBy, Unused;
    if ids == [] {
      NothingOpened(s, worker, now, acc);
    } else {
      HeldByHolds(s, ids[0], worker);
      if !Holds(s, ids[0], worker) {
        FirstIsNotHeld(s, ids, worker, newIds, now, |acc|);
      } else {
        UnusedRest(s, ids[0], worker, newIds, now);
        var u := Start(s, ids[0], worker, newIds[0], now);
        var first := Started(ids[0], newIds[0], CountOf(s, ids[0]) + 1);
        StartedView(s, ids[0], worker, newIds[0], now);
        assert newIds[0] !in s.born by {
          FirstUnused(s.born, newIds);
        }
        hide Start, Holds, CountOf;
        StartAllEffect(u, ids[1..], worker, newIds[1..], now, acc + [first]);
        var (t, r) := StartAll(u, ids[1..], worker, newIds[1..], now, acc + [first]);
        BatchOpenedStep(s, u, t, ids, worker, newIds, now, r, |acc|, first);
      }
    }
  }

  lemma FirstUnused(born: map<Uuid, nat>, newIds: seq<Uuid>)
    requires newIds != [] && Unused(born, newIds)
    ensures newIds[0] !in born
  {
  }

  lemma BatchOpenedStep(s: State, u: State, t: State, ids: seq<Uuid>, worker: string, newIds: seq<Uuid>, now: Time,
                        r: Result<seq<Started>>, from: nat, first: Started)
    requires |newIds| == |ids| > 0 && HeldBy(s.jobs, ids[0], worker) && newIds[0] !in newIds[1..]
    requires first.job == ids[0] && first.attempt == newIds[0]
    requires u.jobs == s.jobs && u.archive == s.archive
    requires u.attempts == s.attempts[newIds[0] := OpenAttempt(newIds[0], ids[0], first.attemptNo, worker, now)]
    requires BatchOpened(u, t, ids[1..], worker, newIds[1..], now, r, from + 1)
    requires r.Ok? ==> from < |r.value| && r.value[from] == first
    ensures BatchOpened(s, t, ids, worker, newIds, now, r, from)
  {
    hide HeldBy, OpenedEach, FirstNotHeld;
    assert forall k | 0 <= k < |ids| - 1 :: ids[1..][k] == ids[k + 1];
    assert newIds == [newIds[0]] + newIds[1..];
    if r.Ok? {
      assert r.value[from..][1..] == r.value[from + 1..];
      OpenedFirst(ids, worker, newIds, now, r.value[from..], t.attempts);
      forall k | 0 <= k < |ids|
        ensures HeldBy(s.jobs, ids[k], worker)
      {
        assert k > 0 ==> ids[1..][k - 1] == ids[k];
      }
    } else {
      NotHeldLater(s.jobs, ids, worker, r.error);
    }
  }

  lemma NothingOpened(s: State, worker: string, now: Time, acc: seq<Started>)
    ensures BatchOpened(s, s, [], worker, [], now, Ok(acc), |acc|)
  {
  }

  lemma HeldByHolds(s: State, id: Uuid, worker: string)
    ensures HeldBy(s.jobs, id, worker) <==> Holds(s, id, worker)
  {
  }

  lemma FirstIsNotHeld(s: State, ids: seq<Uuid>, worker: string, newIds: seq<Uuid>, now: Time, from: nat)
    requires ids != [] && !HeldBy(s.jobs, ids[0], worker)
    ensures BatchOpened(s, s, ids, worker, newIds, now,
                        Err(if ids[0] in s.jobs then NotLeaseHolder else JobNotFound), from)
  {
    hide HeldBy;
    assert FirstNotHeld(s.jobs, ids, worker, 0, if ids[0] in s.jobs then NotLeaseHolder else JobNotFound);
  }

  lemma NotHeldLater(jobs: map<Uuid, Job>, ids: seq<Uuid>, worker: string, error: Error)
    requires ids != [] && HeldBy(jobs, ids[0], worker)
    requires exists k | 0 <= k < |ids[1..]| :: FirstNotHeld(jobs, ids[1..], worker, k, error)
    ensures exists k | 0 <= k < |ids| :: FirstNotHeld(jobs, ids, worker, k, error)
  {
    hide HeldBy;
    var k :| 0 <= k < |ids[1..]| && FirstNotHeld(jobs, ids[1..], worker, k, error);
    forall j | 0 <= j < k + 1
      ensures HeldBy(jobs, ids[j], worker)
    {
      assert j > 0 ==> ids[1..][j - 1] == ids[j];
    }
    assert FirstNotHeld(jobs, ids, worker, k + 1, error);
  }

  lemma UnusedRest(s: State, id: Uuid, worker: string, newIds: seq<Uuid>, now: Time)
    requires newIds != [] && Unused(s.born, newIds) && Holds(s, id, worker)
    ensures Unused(Start(s, id, worker, newIds[0], now).born, newIds[1..])
    ensures newIds[0] !in newIds[1..]
  {
    assert forall k | 0 <= k < |newIds| - 1 :: newIds[1..][k] == newIds[k + 1];
  }

  lemma OpenedFirst(ids: seq<Uuid>, worker: string, newIds: seq<Uuid>, now: Time, started: seq<Started>,
                    attempts: map<Uuid, Attempt>)
    requires ids != [] && newIds != [] && started != [] && newIds[0] in attempts
    requires started[0].job == ids[0] && started[0].attempt == newIds[0]
    requires attempts[newIds[0]] == OpenAttempt(newIds[0], ids[0], started[0].attemptNo, worker, now)
    requires OpenedEach(ids[1..], worker, newIds[1..], now, started[1..], attempts)
    ensures OpenedEach(ids, worker, newIds, now, started, attempts)
  {
    forall k | 0 < k < |ids|
      ensures ids[1..][k - 1] == ids[k] && newIds[1..][k - 1] == newIds[k] && started[1..][k - 1] == started[k]
    {
    }
  }

  lemma StartedView(s: State, id: Uuid, worker: string, newId: Uuid, now: Time)
    requires Holds(s, id, worker)
    ensures Start(s, id, worker, newId, now) ==
      State(s.jobs, s.archive, s.attempts[newId := OpenAttempt(newId, id, CountOf(s, id) + 1, worker, now)],
            s.counts[id := CountOf(s, id) + 1], s.born[newId := |s.born|])
  {
  }

  function LapsedIds(jobs: map<Uuid, Job>, now: Time): set<Uuid> {
    set id | id in jobs && Lapsed(jobs[id], now)
  }

  function ReapSomeAttempts(s: State, done: set<Uuid>, now: Time): map<Uuid, Attempt> {
    map a | a in s.attempts :: if a in done then ReapAttempt(s, s.attempts[a], now) else s.attempts[a]
  }

  function ReapSome(jobs: map<Uuid, Job>, done: set<Uuid>, now: Time): map<Uuid, Job> {
    map id | id in jobs :: if id in done then UnlockJob(jobs[id], Queued, now) else jobs[id]
  }

  lemma ReapStarts(s: State, now: Time)
    ensures ReapSomeAttempts(s, s.attempts.Keys - s.attempts.Keys, now) == s.attempts
    ensures ReapSome(s.jobs, {}, now) == s.jobs
  {
  }

  lemma ReapEnds(s: State, expired: set<Uuid>, now: Time)
    requires forall id :: id in expired <==> id in s.jobs && Lapsed(s.jobs[id], now)
    ensures Reap(s, now)
         == s.(jobs := ReapSome(s.jobs, expired, now), attempts := ReapSomeAttempts(s, s.attempts.Keys, now))
  {
  }

  lemma ReapAttemptNext(s: State, done: set<Uuid>, a: Uuid, now: Time)
    requires a in s.attempts && a !in done
    ensures var m := ReapSomeAttempts(s, done, now);
      && a in m && m[a] == s.attempts[a]
      && ReapSomeAttempts(s, done + {a}, now) == m[a := ReapAttempt(s, s.attempts[a], now)]
      && (ReapAttempt(s, s.attempts[a], now) == s.attempts[a] ==> ReapSomeAttempts(s, done + {a}, now) == m)
  {
    hide ReapAttempt;
  }

  lemma ReapNext(jobs: map<Uuid, Job>, idx: QueueIndex, done: set<Uuid>, id: Uuid, now: Time)
    requires Keyed(jobs) && Agrees(ReapSome(jobs, done, now), idx)
    requires id in jobs && jobs[id].status.Running? && id !in done
    ensures var m := ReapSome(jobs, done, now); var k := UnlockJob(jobs[id], Queued, now);
      && id in m && m[id] == jobs[id]
      && ReapSome(jobs, done + {id}, now) == m[id := k]
      && Agrees(m[id := k], Put(idx, k.queue, FromJob(k)))
  {
    hide Agrees, Put;
    EnterQueue(ReapSome(jobs, done, now), idx, UnlockJob(jobs[id], Queued, now));
  }

  lemma ClearedInv(s: State)
    requires Inv(s)
    ensures Inv(EMPTY.(born := s.born))
  {
  }

  lemma NewIdUnused(s: State, newId: Uuid)
    requires Inv(s) && newId !in s.born
    ensures newId !in s.jobs && newId !in s.archive && newId !in s.attempts
  {
  }

  lemma FreshIsQueued(n: NewJob, id: Uuid, now: Time)
    ensures FreshJob(n, id, now).id == id && FreshJob(n, id, now).status.Queued?
  {
  }

  lemma ReplayIsQueued(src: Job, id: Uuid, queue: Option<string>, runAt: Option<Time>, now: Time)
    ensures ReplayOf(src, id, queue, runAt, now).id == id && ReplayOf(src, id, queue, runAt, now).status.Queued?
  {
  }

  lemma NextIsQueued(j: Job, interval: int, id: Uuid, now: Time)
    ensures NextOccurrence(j, interval, id, now).id == id && NextOccurrence(j, interval, id, now).status.Queued?
  {
  }

  /** `leased` are the records of the entries, in order. */
  ghost predicate IsBatch(jobs: map<Uuid, Job>, entries: seq<QueueEntry>, leased: seq<Job>) {
    |leased| == |entries| && forall i | 0 <= i < |leased| :: entries[i].id in jobs && leased[i] == jobs[entries[i].id]
  }

  lemma BatchGrows(jobs: map<Uuid, Job>, entries: seq<QueueEntry>, k: nat, leased: seq<Job>, table: map<Uuid, Job>,
                   queue: string, worker: string, expires: Time, now: Time)
    requires EntriesOf(table, queue, entries) && k < |entries| && entries[k].id in jobs
    requires IsBatch(jobs, entries[..k], leased)
    ensures var j := LeaseJob(jobs[entries[k].id], worker, expires, now);
      IsBatch(jobs[entries[k].id := j], entries[..k + 1], leased + [j])
  {
    hide EntriesOf;
    NextIdIsNew(table, queue, entries, k);
    forall i | 0 <= i < k
      ensures entries[..k + 1][i] == entries[..k][i] && entries[i].id != entries[k].id
    {
      assert entries[..k][i] in entries[..k];
      assert entries[i].id in Ids(entries[..k]);
    }
  }

  lemma TableIsKeyed(s: State)
    requires Inv(s)
    ensures Keyed(s.jobs)
  {
  }

  lemma NothingLeased(jobs: map<Uuid, Job>, worker: string, expires: Time, now: Time)
    ensures MarkLeased(jobs, Ids([]), worker, expires, now) == jobs
  {
  }

  lemma NothingSwept(jobs: map<Uuid, Job>, now: Time)
    ensures SweepSome(jobs, Ids([]), now) == jobs
  {
  }
}
