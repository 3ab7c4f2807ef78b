/** What each Redis operation does to the records and to the lists, field by field. */
module RedisEffects {
  import opened Model
  import opened Effects
  import opened RedisKeys
  import opened RedisStore
  import opened RedisPartition
  import opened RedisLease

  /** The id is now last in the list of the queue; the other queues are as they were. */
  ghost predicate Appended(l: map<string, seq<Uuid>>, m: map<string, seq<Uuid>>, queue: string, id: Uuid) {
    List(m, queue) == List(l, queue) + [id] && forall q | q != queue :: List(m, q) == List(l, q)
  }

  /** The id is once less in the list, if it was there; the other lists are as they were. */
  ghost predicate Removed(l: map<string, seq<Uuid>>, m: map<string, seq<Uuid>>, key: string, id: Uuid) {
    && multiset(List(m, key)) == multiset(List(l, key)) - multiset{id}
    && forall k | k != key :: List(m, k) == List(l, k)
  }

  lemma UnlistRemoves(u: RState, key: string, id: Uuid)
    ensures var t := Unlist(u, key, id);
      && Removed(u.processing, t.processing, key, id)
      && t.jobs == u.jobs && t.queues == u.queues && t.keys == u.keys && t.attempts == u.attempts
  {
    var l := List(u.processing, key);
    forall x
      ensures multiset(Lrem(l, id))[x] == (multiset(l) - multiset{id})[x]
    {
      OccursLrem(l, id, x);
    }
    assert multiset(Lrem(l, id)) == multiset(l) - multiset{id};
    hide Lrem;
  }

  lemma PushAppends(u: RState, queue: string, id: Uuid)
    ensures var t := PushBack(u, queue, id);
      && Appended(u.queues, t.queues, queue, id)
      && t.jobs == u.jobs && t.processing == u.processing && t.keys == u.keys && t.attempts == u.attempts
  {
  }

  ghost predicate EnqueuedTo(s: RState, t: RState, n: NewJob, newId: Uuid, id: Uuid, now: Time) {
    if n.key.Some? && n.key.value in s.keys then t == s && id == s.keys[n.key.value]
    else
      && id == newId && newId in t.jobs && EnqueuedAs(t.jobs[newId], n, newId, now)
      && t.jobs == s.jobs[newId := t.jobs[newId]]
      && t.keys == (if n.key.Some? then s.keys[n.key.value := newId] else s.keys)
      && Appended(s.queues, t.queues, n.queue, newId) && t.processing == s.processing && t.attempts == s.attempts
  }

  lemma EnqueueEffect(s: RState, n: NewJob, newId: Uuid, now: Time)
    ensures EnqueuedTo(s, Enqueue(s, n, newId, now), n, newId, EnqueueResult(s, n, newId), now)
  {
    hide PushBack, Appended;
    if !Claimed(s, n.key) {
      var t := if n.key.Some? then s.(keys := s.keys[n.key.value := newId]) else s;
      PushAppends(SetJob(t, FreshJob(n, newId, now)), n.queue, newId);
    }
  }

  ghost predicate ReplayedTo(s: RState, t: RState, id: Uuid, target: Option<string>, at: Option<Time>, newId: Uuid,
                             now: Time) {
    if id !in s.jobs then t == s
    else
      && newId in t.jobs && ReplayedAs(t.jobs[newId], s.jobs[id], id, newId, target, at, now)
      && t.jobs == s.jobs[newId := t.jobs[newId]]
      && Appended(s.queues, t.queues, if target.Some? then target.value else s.jobs[id].queue, newId)
      && t.processing == s.processing && t.keys == s.keys && t.attempts == s.attempts
  }

  lemma ReplayEffect(s: RState, id: Uuid, target: Option<string>, at: Option<Time>, newId: Uuid, now: Time)
    requires Keyed(s.jobs)
    ensures ReplayedTo(s, Replay(s, id, target, at, newId, now), id, target, at, newId, now)
  {
  }

  /** Only this job's record has changed, and its id is off its worker's list. */
  ghost predicate OffList(s: RState, t: RState, id: Uuid, worker: string)
    requires id in s.jobs
  {
    && Removed(s.processing, t.processing, ProcessingKey(s.jobs[id].queue, worker), id)
    && t.keys == s.keys && t.attempts == s.attempts
  }

  ghost predicate SucceededTo(s: RState, t: RState, id: Uuid, worker: string, newId: Uuid, now: Time)
    requires id in s.jobs
  {
    && OffList(s, t, id, worker)
    && id in t.jobs && ReleasedAs(t.jobs[id], s.jobs[id], Succeeded, now)
    && match s.jobs[id].recurringSeconds
       case None => t.jobs == s.jobs[id := t.jobs[id]] && t.queues == s.queues
       case Some(interval) =>
         && newId in t.jobs && RecursAs(t.jobs[newId], s.jobs[id], if interval > 1 then interval else 1, newId, now)
         && t.jobs == s.jobs[id := t.jobs[id]][newId := t.jobs[newId]]
         && Appended(s.queues, t.queues, s.jobs[id].queue, newId)
  }

  lemma SucceedEffect(s: RState, id: Uuid, worker: string, newId: Uuid, now: Time)
    requires Keyed(s.jobs) && newId != id
    ensures var t := Succeed(s, id, worker, newId, now);
      if HeldBy(s.jobs, id, worker) then SucceededTo(s, t, id, worker, newId, now) else t == s
  {
    hide Unlist, PushBack, Removed, Appended, ProcessingKey;
    if HeldBy(s.jobs, id, worker) {
      var j := UnlockJob(s.jobs[id], Succeeded, now);
      var key := ProcessingKey(j.queue, worker);
      var u := Unlist(SetJob(s, j), key, id);
      UnlistRemoves(SetJob(s, j), key, id);
      if j.recurringSeconds.Some? {
        var interval := if j.recurringSeconds.value > 1 then j.recurringSeconds.value else 1;
        PushAppends(SetJob(u, NextOccurrence(j, interval, newId, now)), j.queue, newId);
      }
    }
  }

  ghost predicate RetriedTo(s: RState, t: RState, id: Uuid, worker: string, runAt: Time, now: Time)
    requires id in s.jobs
  {
    && OffList(s, t, id, worker) && Appended(s.queues, t.queues, s.jobs[id].queue, id)
    && id in t.jobs && RetriedAs(t.jobs[id], s.jobs[id], runAt, now) && t.jobs == s.jobs[id := t.jobs[id]]
  }

  lemma RetryEffect(s: RState, id: Uuid, worker: string, runAt: Time, now: Time)
    requires Keyed(s.jobs)
    ensures var t := Retry(s, id, worker, runAt, now);
      if HeldBy(s.jobs, id, worker) then RetriedTo(s, t, id, worker, runAt, now) else t == s
  {
    hide Unlist, PushBack, Removed, Appended, ProcessingKey;
    if HeldBy(s.jobs, id, worker) {
      var j := RetryJob(s.jobs[id], runAt, now);
      var key := ProcessingKey(j.queue, worker);
      UnlistRemoves(SetJob(s, j), key, id);
      PushAppends(Unlist(SetJob(s, j), key, id), j.queue, id);
    }
  }

  /** Unlike in memory the lease fields stay. */
  ghost predicate BuriedTo(s: RState, t: RState, id: Uuid, worker: string, reason: string, now: Time)
    requires id in s.jobs
  {
    && OffList(s, t, id, worker) && t.queues == s.queues && id in t.jobs && t.jobs == s.jobs[id := t.jobs[id]]
    && t.jobs[id] == s.jobs[id].(status := Dlq, dlqReason := Some(reason), dlqAt := Some(now), updatedAt := now)
  }

  lemma DeadLetterEffect(s: RState, id: Uuid, worker: string, reason: string, now: Time)
    requires Keyed(s.jobs)
    ensures var t := DeadLetter(s, id, worker, reason, now);
      if HeldBy(s.jobs, id, worker) then BuriedTo(s, t, id, worker, reason, now) else t == s
  {
    hide Unlist, PushBack, Removed, Appended, ProcessingKey;
    if HeldBy(s.jobs, id, worker) {
      var j := s.jobs[id].(status := Dlq, dlqReason := Some(reason), dlqAt := Some(now), updatedAt := now);
      UnlistRemoves(SetJob(s, j), ProcessingKey(j.queue, worker), id);
    }
  }

  ghost predicate ExtendedTo(s: RState, t: RState, id: Uuid, seconds: int, now: Time)
    requires id in s.jobs
  {
    id in t.jobs && ExtendedAs(t.jobs[id], s.jobs[id], seconds, now) && t == s.(jobs := s.jobs[id := t.jobs[id]])
  }

  lemma ExtendEffect(s: RState, id: Uuid, worker: string, seconds: int, now: Time)
    requires Keyed(s.jobs)
    ensures var t := Extend(s, id, worker, seconds, now);
      if HeldBy(s.jobs, id, worker) then ExtendedTo(s, t, id, seconds, now) else t == s
  {
  }

  /** A queued job keeps its place in the queue list; a running one leaves its worker's list. */
  ghost predicate CancelledTo(s: RState, t: RState, id: Uuid, worker: Option<string>, now: Time)
    requires id in s.jobs
  {
    && t.queues == s.queues && t.keys == s.keys && t.attempts == s.attempts
    && id in t.jobs && ReleasedAs(t.jobs[id], s.jobs[id], Canceled, now) && t.jobs == s.jobs[id := t.jobs[id]]
    && (s.jobs[id].status == Queued ==> t.processing == s.processing)
    && (s.jobs[id].status == Running && worker.Some? ==>
          Removed(s.processing, t.processing, ProcessingKey(s.jobs[id].queue, worker.value), id))
  }

  predicate CanCancel(s: RState, id: Uuid, worker: Option<string>) {
    id in s.jobs &&
    (s.jobs[id].status == Queued || (s.jobs[id].status == Running && worker.Some? && s.jobs[id].lockedBy == worker))
  }

  lemma CancelEffect(s: RState, id: Uuid, worker: Option<string>, now: Time)
    requires Keyed(s.jobs)
    ensures var t := Cancel(s, id, worker, now);
      if CanCancel(s, id, worker) then CancelledTo(s, t, id, worker, now) else t == s
  {
    hide Unlist, PushBack, Removed, Appended, ProcessingKey;
    if CanCancel(s, id, worker) && s.jobs[id].status == Running {
      UnlistRemoves(s, ProcessingKey(s.jobs[id].queue, worker.value), id);
    }
  }

  // Leasing

  /** The job may be leased now, whatever its status: the lease loop goes by the list alone. */
  predicate InTime(jobs: map<Uuid, Job>, id: Uuid, now: Time) {
    id in jobs && jobs[id].runAt <= now && (jobs[id].deadlineAt.Some? ==> now <= jobs[id].deadlineAt.value)
  }

  ghost predicate LeasedRow(before: map<Uuid, Job>, row: Job, worker: string, seconds: int, now: Time) {
    && InTime(before, row.id, now)
    && row == before[row.id].(
         status := Running, lockedAt := Some(now), lockedBy := Some(worker),
         lockExpiresAt := Some(now + seconds * SECOND), updatedAt := now)
  }

  /**
   * The first `k` ids were taken off the queue, up to `most` of them or up to one that is not due. The rows returned
   * are those of them that are known and in time, as leased.
   */
  ghost predicate LeasedOff(s: RState, t: RState, leased: seq<Job>, queue: string, worker: string, seconds: int,
                            most: int, now: Time, k: nat) {
    var l := List(s.queues, queue);
    && k <= |l| && k <= most && List(t.queues, queue) == l[k..]
    && (k == most || k == |l| || (l[k] in s.jobs && s.jobs[l[k]].runAt > now))
    && (forall i | 0 <= i < k :: l[i] in s.jobs ==> s.jobs[l[i]].runAt <= now)
    && (forall row | row in leased :: row.id in l[..k] && LeasedRow(s.jobs, row, worker, seconds, now))
    && (forall row | row in leased :: row.id in t.jobs && t.jobs[row.id] == row)
    && (forall i | 0 <= i < k && InTime(s.jobs, l[i], now) :: l[i] in RowIds(leased))
  }

  lemma {:induction false} LeasedRows(jobs: map<Uuid, Job>, seg: seq<Uuid>, worker: string, seconds: int, now: Time)
    requires Keyed(jobs) && forall id | id in seg :: !NotDue(jobs, id, now)
    ensures var rows := LeasedOf(jobs, seg, worker, now + seconds * SECOND, now);
      && (forall row | row in rows :: row.id in seg && LeasedRow(jobs, row, worker, seconds, now))
      && (forall id | id in seg && InTime(jobs, id, now) :: id in RowIds(rows))
  {
    var rows := LeasedOf(jobs, seg, worker, now + seconds * SECOND, now);
    if seg != [] {
      var rest := LeasedOf(jobs, seg[1..], worker, now + seconds * SECOND, now);
      LeasedRows(jobs, seg[1..], worker, seconds, now);
      OneLeasedRow(jobs, seg[0], worker, seconds, now);
      hide LeaseJob, LeasedRow, InTime, IsLate, NotDue;
      assert forall row | row in rest :: row in rows;
      forall id | id in seg && InTime(jobs, id, now)
        ensures id in RowIds(rows)
      {
        if id == seg[0] {
          assert rows[0] in rows;
        } else {
          assert id in RowIds(rest);
        }
      }
    }
  }

  lemma OneLeasedRow(jobs: map<Uuid, Job>, id: Uuid, worker: string, seconds: int, now: Time)
    requires Keyed(jobs) && !NotDue(jobs, id, now)
    ensures InTime(jobs, id, now) <==> id in jobs && !IsLate(jobs, id, now)
    ensures InTime(jobs, id, now) ==>
      var row := LeaseJob(jobs[id], worker, now + seconds * SECOND, now);
      row.id == id && LeasedRow(jobs, row, worker, seconds, now)
  {
  }

  lemma LoopEffect(s: RState, queue: string, worker: string, seconds: int, now: Time, n: nat)
    requires Keyed(s.jobs)
    ensures var (t, leased) := PopMany(s, queue, worker, now + seconds * SECOND, now, n, []);
      exists k: nat :: LeasedOff(s, t, leased, queue, worker, seconds, n, now, k)
  {
    hide PopMany, Handled, Gained, SameListsBut, Kept, ProcessingKey;
    var expires := now + seconds * SECOND;
    var (t, leased) := PopMany(s, queue, worker, expires, now, n, []);
    var l := List(s.queues, queue);
    var k := Cut(s.jobs, l, now, n);
    LeaseTakesPrefix(s, queue, worker, expires, now, n, []);
    CutIsDue(s.jobs, l, now, n);
    assert leased == LeasedOf(s.jobs, l[..k], worker, expires, now);
    forall id | id in l[..k]
      ensures !NotDue(s.jobs, id, now)
    {
      var i :| 0 <= i < k && l[i] == id;
    }
    LeasedRows(s.jobs, l[..k], worker, seconds, now);
    hide LeasedOf, Cut;
    forall row | row in leased
      ensures row.id in t.jobs && t.jobs[row.id] == row
    {
      RowIsHandled(s.jobs, row, worker, seconds, now);
    }
    assert LeasedOff(s, t, leased, queue, worker, seconds, n, now, k);
  }

  lemma RowIsHandled(jobs: map<Uuid, Job>, row: Job, worker: string, seconds: int, now: Time)
    requires LeasedRow(jobs, row, worker, seconds, now)
    ensures Handled(jobs[row.id], worker, now + seconds * SECOND, now) == row
  {
  }
}
