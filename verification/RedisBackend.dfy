/** The Redis backend as a client of lists and hashes, one command after another. */
module RedisBackend {
  import opened Model
  import opened RedisKeys
  import opened RedisStore
  import opened RedisPartition
  import opened RedisRuns
  import opened Effects
  import opened RedisEffects

  /** Starts attempts one id at a time and stops at the first that the worker does not hold. */
  function StartIds(s: RState, ids: seq<Uuid>, worker: string): RState
    decreases ids
  {
    if ids == [] || !Holds(s, ids[0], worker) then s else StartIds(Start(s, ids[0], worker), ids[1..], worker)
  }

  /** The numbers issued when every id is held: each job's count goes up by one. */
  function Numbers(s: RState, ids: seq<Uuid>, worker: string): seq<(Uuid, int)>
    decreases ids
  {
    if ids == [] then []
    else
      var t := Start(s, ids[0], worker);
      [(ids[0], Count(t, ids[0]))] + Numbers(t, ids[1..], worker)
  }

  function Count(s: RState, id: Uuid): int {
    if id in s.attempts then s.attempts[id] else 0
  }

  /** Each job's attempts are numbered on from its count, without gaps or repeats, however often a batch names it. */
  lemma {:induction false} NumbersFollowCounts(s: RState, ids: seq<Uuid>, worker: string, k: nat)
    requires k < |ids| && forall id | id in ids :: Holds(s, id, worker)
    ensures |Numbers(s, ids, worker)| == |ids|
    ensures Numbers(s, ids, worker)[k] == (ids[k], Count(s, ids[k]) + Occurs(ids[..k + 1], ids[k]))
    decreases ids
  {
    hide Holds, Start, Count, Occurs;
    var t := Start(s, ids[0], worker);
    assert ids[0] in ids;
    forall id | id in ids[1..]
      ensures Holds(t, id, worker)
    {
      StartEffect(s, ids[0], worker, id);
    }
    StartEffect(s, ids[0], worker, ids[k]);
    assert ids[..k + 1] == [ids[0]] + ids[1..][..k];
    OccursPush(ids[1..][..k], ids[0], ids[k]);
    if |ids| > 1 {
      NumbersFollowCounts(t, ids[1..], worker, if k > 0 then k - 1 else 0);
    }
    if k == 0 {
      assert ids[1..][..k] == [];
      OccursNone(ids[k]);
    }
  }

  lemma StartEffect(s: RState, id: Uuid, worker: string, x: Uuid)
    requires Holds(s, id, worker)
    ensures Holds(Start(s, id, worker), x, worker) <==> Holds(s, x, worker)
    ensures Count(Start(s, id, worker), x) == Count(s, x) + if x == id then 1 else 0
  {
  }

  lemma OccursNone(x: Uuid)
    ensures Occurs([], x) == 0
  {
  }

  /** How many of `ids` a reaper takes back. */
  function LapsedCount(s: RState, key: string, ids: seq<Uuid>, now: Time): nat
    decreases ids
  {
    if ids == [] then 0
    else (if LapsedId(s, ids[0], now) then 1 else 0) + LapsedCount(ReapId(s, key, ids[0], now), key, ids[1..], now)
  }

  function ReapedCount(s: RState, lists: seq<string>, now: Time): nat
    decreases lists
  {
    if lists == [] then 0
    else if !Reapable(lists[0]) then ReapedCount(s, lists[1..], now)
    else
      LapsedCount(s, lists[0], List(s.processing, lists[0]), now) +
      ReapedCount(ReapIds(s, lists[0], List(s.processing, lists[0]), now), lists[1..], now)
  }

  ghost function Running(jobs: map<Uuid, Job>): set<Uuid> {
    set id | id in jobs && jobs[id].status.Running?
  }

  lemma {:induction false} LapsedCountIsDrop(s: RState, key: string, ids: seq<Uuid>, now: Time, c: Cancels)
    requires Partition(s, c) && Distinct(ids)
    requires forall id | id in ids :: Works(s, key, id)
    ensures |Running(s.jobs)| == |Running(ReapIds(s, key, ids, now).jobs)| + LapsedCount(s, key, ids, now)
    decreases ids
  {
    hide Partition, ReapId, ProcessingKey, UnlockJob, Reaped;
    if ids != [] {
      assert ids[0] in ids;
      ReapIdKeeps(s, key, ids[0], now, c);
      var t := ReapId(s, key, ids[0], now);
      forall id | id in ids[1..]
        ensures Works(t, key, id)
      {
        assert Works(s, key, id) && id != ids[0];
      }
      LapsedCountIsDrop(t, key, ids[1..], now, c);
      RunningAfter(s, t, ids[0], now);
    }
  }

  lemma RunningAfter(s: RState, t: RState, id: Uuid, now: Time)
    requires id in s.jobs && s.jobs[id].status.Running?
    requires t.jobs == if LapsedId(s, id, now) then s.jobs[id := UnlockJob(s.jobs[id], Queued, now)] else s.jobs
    ensures |Running(s.jobs)| == |Running(t.jobs)| + if LapsedId(s, id, now) then 1 else 0
  {
    if LapsedId(s, id, now) {
      assert Running(t.jobs) == Running(s.jobs) - {id};
    }
  }

  /** The count a reaper reports is the number of jobs that stop running. */
  lemma {:induction false} ReapedCountIsDrop(s: RState, lists: seq<string>, now: Time, c: Cancels)
    requires Partition(s, c)
    ensures |Running(s.jobs)| == |Running(ReapKeys(s, lists, now).jobs)| + ReapedCount(s, lists, now)
    decreases lists
  {
    hide Partition, ReapIds, LapsedCount, Reapable, Works, Running, Reaped;
    if lists != [] {
      if !Reapable(lists[0]) {
        ReapedCountIsDrop(s, lists[1..], now, c);
      } else {
        var ids := List(s.processing, lists[0]);
        ListedWork(s, lists[0], c);
        ReapIdsKeeps(s, lists[0], ids, now, c);
        LapsedCountIsDrop(s, lists[0], ids, now, c);
        ReapedCountIsDrop(ReapIds(s, lists[0], ids, now), lists[1..], now, c);
      }
    }
  }

  /** The ids whose lease has run out, in order. */
  function RunOutIds(jobs: map<Uuid, Job>, ids: seq<Uuid>, now: Time): seq<Uuid> {
    if ids == [] then []
    else
      (if ids[0] in jobs && jobs[ids[0]].lockExpiresAt.Some? && jobs[ids[0]].lockExpiresAt.value <= now then [ids[0]]
       else []) + RunOutIds(jobs, ids[1..], now)
  }

  lemma {:induction false} RunOutFrame(jobs: map<Uuid, Job>, id: Uuid, j: Job, ids: seq<Uuid>, now: Time)
    requires id !in ids
    ensures RunOutIds(jobs[id := j], ids, now) == RunOutIds(jobs, ids, now)
  {
    if ids != [] {
      assert ids[0] != id;
      RunOutFrame(jobs, id, j, ids[1..], now);
    }
  }

  /** The ids taken back go to the end of the queue in the order of the processing list. */
  lemma {:induction false} ReapAppends(s: RState, key: string, ids: seq<Uuid>, now: Time)
    requires Keyed(s.jobs) && Distinct(ids)
    ensures var t, queue := ReapIds(s, key, ids, now), QueueOfKey(key);
      && List(t.queues, queue) == List(s.queues, queue) + RunOutIds(s.jobs, ids, now)
      && forall q | q != queue :: List(t.queues, q) == List(s.queues, q)
    decreases ids
  {
    hide QueueOfKey, Lrem, UnlockJob;
    if ids != [] {
      var t := ReapId(s, key, ids[0], now);
      ReapIdRecord(s, key, ids[0], now);
      hide ReapId;
      ReapAppends(t, key, ids[1..], now);
      assert ids[0] !in ids[1..];
      if LapsedId(s, ids[0], now) {
        RunOutFrame(s.jobs, ids[0], t.jobs[ids[0]], ids[1..], now);
      }
    }
  }

  lemma ReapIdRecord(s: RState, key: string, id: Uuid, now: Time)
    requires Keyed(s.jobs)
    ensures var t, queue := ReapId(s, key, id, now), QueueOfKey(key);
      && Keyed(t.jobs) && (forall q | q != queue :: List(t.queues, q) == List(s.queues, q))
      && (if LapsedId(s, id, now) then
            && id in t.jobs && t.jobs == s.jobs[id := t.jobs[id]]
            && List(t.queues, queue) == List(s.queues, queue) + [id]
          else t == s)
  {
    hide QueueOfKey, Lrem;
  }

  class RedisBackend {
    var jobs: map<Uuid, Job>
    var queues: map<string, seq<Uuid>>
    var processing: map<string, seq<Uuid>>
    var keys: map<string, Uuid>
    var attempts: map<Uuid, int>

    /** Every record is stored under its own id. */
    ghost predicate Valid()
      reads this
    {
      Keyed(jobs)
    }

    ghost function View(): RState
      reads this
    {
      RState(jobs, queues, processing, keys, attempts)
    }

    constructor ()
      ensures Valid() && View() == NO_JOBS
    {
      jobs, queues, processing, keys, attempts := map[], map[], map[], map[], map[];
    }

    method Enqueue(n: NewJob, newId: Uuid, now: Time) returns (id: Uuid)
      requires Valid()
      modifies this
      ensures Valid()
      ensures View() == RedisStore.Enqueue(old(View()), n, newId, now)
      ensures id == EnqueueResult(old(View()), n, newId)
      ensures EnqueuedTo(old(View()), View(), n, newId, id, now)
    {
      hide EnqueuedTo;
      RedisEffects.EnqueueEffect(View(), n, newId, now);
      if n.key.Some? {
        if n.key.value in keys {
          return keys[n.key.value];
        }
        keys := keys[n.key.value := newId];
      }
      jobs := jobs[newId := FreshJob(n, newId, now)];
      queues := queues[n.queue := List(queues, n.queue) + [newId]];
      return newId;
    }

    /** Pops up to a hundred ids; one that is not due goes back to the head, where every later turn finds it again. */
    method LeaseJobsBatch(queue: string, worker: string, seconds: int, batch: int, now: Time) returns (leased: seq<Job>)
      requires Valid()
      modifies this
      ensures (View(), leased)
           == PopMany(old(View()), queue, worker, now + seconds * SECOND, now, BatchSize(batch), [])
      ensures Valid()
      ensures exists k: nat ::
        LeasedOff(old(View()), View(), leased, queue, worker, seconds, Clamp(batch, 1, 100), now, k)
    {
      hide LeasedOff;
      LoopEffect(View(), queue, worker, seconds, now, BatchSize(batch));
      hide PopOne;
      var expires := now + seconds * SECOND;
      leased := [];
      var n, i := BatchSize(batch), 0;
      while i < n
        invariant i <= n && Valid()
        invariant PopMany(View(), queue, worker, expires, now, n - i, leased)
               == PopMany(old(View()), queue, worker, expires, now, n, [])
      {
        if List(queues, queue) == [] {
          return;
        }
        var job := TakeHead(queue, worker, expires, now);
        if job.Some? {
          leased := leased + [job.value];
        }
        i := i + 1;
      }
    }

    /** One turn of the lease loop. */
    method TakeHead(queue: string, worker: string, expires: Time, now: Time) returns (leased: Option<Job>)
      requires Valid() && List(queues, queue) != []
      modifies this
      ensures Popped(View(), leased) == PopOne(old(View()), queue, worker, expires, now)
      ensures Valid()
    {
      hide ProcessingKey, Lrem;
      var key := ProcessingKey(queue, worker);
      var id := List(queues, queue)[0];
      queues, processing := queues[queue := List(queues, queue)[1..]], processing[key := List(processing, key) + [id]];
      if id !in jobs {
        return None;
      }
      var j := jobs[id];
      if j.runAt > now {
        queues := queues[queue := [id] + List(queues, queue)];
        processing := processing[key := Lrem(List(processing, key), id)];
        return None;
      }
      if j.deadlineAt.Some? && j.deadlineAt.value < now {
        jobs := jobs[id := ExpireJob(j, now)];
        processing := processing[key := Lrem(List(processing, key), id)];
        return None;
      }
      j := LeaseJob(j, worker, expires, now);
      jobs := jobs[id := j];
      return Some(j);
    }

    /** Visits the processing lists in the order given and takes back every id whose lease has run out. */
    method ReapExpiredLocks(lists: seq<string>, now: Time) returns (reaped: nat)
      requires Valid()
      modifies this
      ensures View() == ReapKeys(old(View()), lists, now)
      ensures Valid()
      ensures reaped == ReapedCount(old(View()), lists, now)
    {
      hide ReapId, Reapable, QueueOfKey;
      reaped := 0;
      var i := 0;
      while i < |lists|
        invariant i <= |lists| && Valid()
        invariant ReapKeys(View(), lists[i..], now) == ReapKeys(old(View()), lists, now)
        invariant reaped + ReapedCount(View(), lists[i..], now) == ReapedCount(old(View()), lists, now)
      {
        var key := lists[i];
        assert lists[i..][0] == key && lists[i..][1..] == lists[i + 1..];
        if Reapable(key) {
          var n := ReapList(key, List(processing, key), now);
          reaped := reaped + n;
        }
        i := i + 1;
      }
    }

    method ReapList(key: string, ids: seq<Uuid>, now: Time) returns (reaped: nat)
      requires Valid()
      modifies this
      ensures View() == ReapIds(old(View()), key, ids, now)
      ensures Valid()
      ensures reaped == LapsedCount(old(View()), key, ids, now)
      ensures Distinct(ids) ==>
        && List(queues, QueueOfKey(key))
           == List(old(queues), QueueOfKey(key)) + RunOutIds(old(jobs), ids, now)
        && forall q | q != QueueOfKey(key) :: List(queues, q) == List(old(queues), q)
    {
      if Distinct(ids) {
        ReapAppends(View(), key, ids, now);
      }
      hide QueueOfKey, Lrem, Distinct, RunOutIds;
      reaped := 0;
      var k := 0;
      while k < |ids|
        invariant k <= |ids| && Valid()
        invariant ReapIds(View(), key, ids[k..], now) == ReapIds(old(View()), key, ids, now)
        invariant reaped + LapsedCount(View(), key, ids[k..], now) == LapsedCount(old(View()), key, ids, now)
      {
        var id := ids[k];
        assert ids[k..][0] == id && ids[k..][1..] == ids[k + 1..];
        if id in jobs && jobs[id].lockExpiresAt.Some? && jobs[id].lockExpiresAt.value <= now {
          var queue := QueueOfKey(key);
          jobs := jobs[id := UnlockJob(jobs[id], Queued, now)];
          processing := processing[key := Lrem(List(processing, key), id)];
          queues := queues[queue := List(queues, queue) + [id]];
          reaped := reaped + 1;
        }
        k := k + 1;
      }
    }

    /** A batch with an id that the worker does not hold fails, and keeps the attempts counted up to there. */
    method StartAttemptsBatch(ids: seq<Uuid>, worker: string) returns (r: Result<seq<(Uuid, int)>>)
      requires Valid()
      modifies this`attempts
      ensures Valid()
      ensures View() == StartIds(old(View()), ids, worker)
      ensures r.Ok? <==> forall id | id in ids :: Holds(old(View()), id, worker)
      ensures r.Ok? ==> r.value == Numbers(old(View()), ids, worker)
      ensures r.Ok? <==> forall k | 0 <= k < |ids| :: HeldBy(old(jobs), ids[k], worker)
      ensures r.Err? ==> exists k | 0 <= k < |ids| ::
        && !HeldBy(old(jobs), ids[k], worker) && (forall j | 0 <= j < k :: HeldBy(old(jobs), ids[j], worker))
        && r.error == if ids[k] in old(jobs) then NotLeaseHolder else JobNotFound
    {
      var numbers: seq<(Uuid, int)> := [];
      var k := 0;
      while k < |ids|
        invariant k <= |ids| && Valid()
        invariant StartIds(View(), ids[k..], worker) == StartIds(old(View()), ids, worker)
        invariant forall j | 0 <= j < k :: HeldBy(jobs, ids[j], worker)
        invariant numbers + Numbers(View(), ids[k..], worker) == Numbers(old(View()), ids, worker)
      {
        var id := ids[k];
        assert ids[k..][0] == id && ids[k..][1..] == ids[k + 1..];
        assert id in ids;
        assert HeldBy(jobs, id, worker) <==> Holds(View(), id, worker);
        if id !in jobs {
          return Err(JobNotFound);
        }
        if !jobs[id].status.Running? || jobs[id].lockedBy != Some(worker) {
          return Err(NotLeaseHolder);
        }
        var no := (if id in attempts then attempts[id] else 0) + 1;
        attempts := attempts[id := no];
        numbers := numbers + [(id, no)];
        k := k + 1;
      }
      return Ok(numbers);
    }

    /** Settling a job that is not there succeeds without effect; one held by another worker is an error. */
    method MarkSucceeded(id: Uuid, worker: string, newId: Uuid, now: Time) returns (r: Result<()>)
      requires Valid()
      modifies this
      ensures View() == Succeed(old(View()), id, worker, newId, now)
      ensures r.Ok? <==> id !in old(jobs) || Holds(old(View()), id, worker)
      ensures Valid()
      ensures r.Err? ==> r.error == NotLeaseHolder && View() == old(View())
      ensures r.Ok? <==> id !in old(jobs) || HeldBy(old(jobs), id, worker)
      ensures id !in old(jobs) ==> View() == old(View())
      ensures HeldBy(old(jobs), id, worker) && newId != id ==>
        SucceededTo(old(View()), View(), id, worker, newId, now)
    {
      hide SucceededTo;
      if newId != id {
        RedisEffects.SucceedEffect(View(), id, worker, newId, now);
      }
      hide Lrem, ProcessingKey;
      if id !in jobs {
        return Ok(());
      }
      if !jobs[id].status.Running? || jobs[id].lockedBy != Some(worker) {
        return Err(NotLeaseHolder);
      }
      var j := UnlockJob(jobs[id], Succeeded, now);
      jobs := jobs[id := j];
      var key := ProcessingKey(j.queue, worker);
      processing := processing[key := Lrem(List(processing, key), id)];
      if j.recurringSeconds.Some? {
        var interval := if j.recurringSeconds.value > 1 then j.recurringSeconds.value else 1;
        var next := NextOccurrence(j, interval, newId, now);
        jobs := jobs[newId := next];
        queues := queues[next.queue := List(queues, next.queue) + [newId]];
      }
      return Ok(());
    }

    method RescheduleForRetry(id: Uuid, worker: string, runAt: Time, now: Time) returns (r: Result<()>)
      requires Valid()
      modifies this
      ensures View() == Retry(old(View()), id, worker, runAt, now)
      ensures r.Ok? <==> id !in old(jobs) || Holds(old(View()), id, worker)
      ensures Valid()
      ensures r.Err? ==> r.error == NotLeaseHolder && View() == old(View())
      ensures r.Ok? <==> id !in old(jobs) || HeldBy(old(jobs), id, worker)
      ensures id !in old(jobs) ==> View() == old(View())
      ensures HeldBy(old(jobs), id, worker) ==> RetriedTo(old(View()), View(), id, worker, runAt, now)
    {
      hide RetriedTo;
      RedisEffects.RetryEffect(View(), id, worker, runAt, now);
      hide Lrem, ProcessingKey;
      if id !in jobs {
        return Ok(());
      }
      if !jobs[id].status.Running? || jobs[id].lockedBy != Some(worker) {
        return Err(NotLeaseHolder);
      }
      var j := RetryJob(jobs[id], runAt, now);
      jobs := jobs[id := j];
      var key := ProcessingKey(j.queue, worker);
      processing := processing[key := Lrem(List(processing, key), id)];
      queues := queues[j.queue := List(queues, j.queue) + [id]];
      return Ok(());
    }

    method MarkDlq(id: Uuid, worker: string, reason: string, now: Time) returns (r: Result<()>)
      requires Valid()
      modifies this
      ensures View() == DeadLetter(old(View()), id, worker, reason, now)
      ensures r.Ok? <==> id !in old(jobs) || Holds(old(View()), id, worker)
      ensures Valid()
      ensures r.Err? ==> r.error == NotLeaseHolder && View() == old(View())
      ensures r.Ok? <==> id !in old(jobs) || HeldBy(old(jobs), id, worker)
      ensures id !in old(jobs) ==> View() == old(View())
      ensures HeldBy(old(jobs), id, worker) ==> BuriedTo(old(View()), View(), id, worker, reason, now)
    {
      hide BuriedTo;
      RedisEffects.DeadLetterEffect(View(), id, worker, reason, now);
      hide Lrem, ProcessingKey;
      if id !in jobs {
        return Ok(());
      }
      if !jobs[id].status.Running? || jobs[id].lockedBy != Some(worker) {
        return Err(NotLeaseHolder);
      }
      var j := jobs[id].(status := Dlq, dlqReason := Some(reason), dlqAt := Some(now), updatedAt := now);
      jobs := jobs[id := j];
      var key := ProcessingKey(j.queue, worker);
      processing := processing[key := Lrem(List(processing, key), id)];
      return Ok(());
    }

    method ExtendLease(id: Uuid, worker: string, seconds: int, now: Time) returns (extended: bool)
      requires Valid()
      modifies this
      ensures View() == Extend(old(View()), id, worker, seconds, now)
      ensures extended == Holds(old(View()), id, worker)
      ensures Valid()
      ensures extended <==> HeldBy(old(jobs), id, worker)
      ensures if extended then ExtendedTo(old(View()), View(), id, seconds, now) else View() == old(View())
    {
      hide ExtendedTo;
      RedisEffects.ExtendEffect(View(), id, worker, seconds, now);
      if id in jobs && jobs[id].status.Running? && jobs[id].lockedBy == Some(worker) {
        jobs := jobs[id := ExtendJob(jobs[id], now + seconds * SECOND, now)];
        return true;
      }
      return false;
    }

    method CancelJob(id: Uuid, worker: Option<string>, now: Time) returns (r: Result<()>)
      requires Valid()
      modifies this
      ensures View() == Cancel(old(View()), id, worker, now)
      ensures r.Ok? <==> id in jobs && jobs[id].status.Canceled? && !old(id in jobs && jobs[id].status.Canceled?)
      ensures Valid()
      ensures r.Ok? <==> CanCancel(old(View()), id, worker)
      ensures r.Ok? ==> CancelledTo(old(View()), View(), id, worker, now)
      ensures r.Err? ==> View() == old(View())
      ensures r == Err(JobNotFound) <==> id !in old(jobs)
      ensures r == Err(WorkerRequired) <==> id in old(jobs) && old(jobs)[id].status == Running && worker == None
      ensures r == Err(NotLeaseHolder) <==>
        id in old(jobs) && old(jobs)[id].status == Running && worker != None && old(jobs)[id].lockedBy != worker
      ensures r == Err(TerminalJob) <==> id in old(jobs) && old(jobs)[id].status in {Succeeded, Dlq, Canceled}
    {
      hide CancelledTo;
      RedisEffects.CancelEffect(View(), id, worker, now);
      hide Lrem, ProcessingKey;
      if id !in jobs {
        return Err(JobNotFound);
      }
      var j := jobs[id];
      match j.status {
        case Queued =>
        case Running =>
          if worker.None? {
            return Err(WorkerRequired);
          }
          if j.lockedBy != worker {
            return Err(NotLeaseHolder);
          }
          var key := ProcessingKey(j.queue, worker.value);
          processing := processing[key := Lrem(List(processing, key), id)];
        case Failed => return Err(InvalidStatus);
        case _ => return Err(TerminalJob);
      }
      jobs := jobs[id := UnlockJob(j, Canceled, now)];
      return Ok(());
    }

    method ReplayJob(id: Uuid, target: Option<string>, runAt: Option<Time>, newId: Uuid, now: Time)
        returns (r: Result<Uuid>)
      requires Valid()
      modifies this
      ensures View() == Replay(old(View()), id, target, runAt, newId, now)
      ensures r == if id in old(jobs) then Ok(newId) else Err(JobNotFound)
      ensures Valid()
      ensures ReplayedTo(old(View()), View(), id, target, runAt, newId, now)
    {
      hide ReplayedTo;
      RedisEffects.ReplayEffect(View(), id, target, runAt, newId, now);
      if id !in jobs {
        return Err(JobNotFound);
      }
      var j := ReplayOf(jobs[id], newId, target, runAt, now);
      jobs := jobs[newId := j];
      queues := queues[j.queue := List(queues, j.queue) + [newId]];
      return Ok(newId);
    }
  }
}
