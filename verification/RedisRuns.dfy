/** The partition over whole runs of the Redis backend. */
module RedisRuns {
  import opened Model
  import opened RedisKeys
  import opened RedisStore
  import opened RedisPartition
  import opened RedisLease

  // Reaping

  ghost predicate Distinct(ids: seq<Uuid>) {
    forall i, k | 0 <= i < k < |ids| :: ids[i] != ids[k]
  }

  lemma OnceMeansDistinct(l: seq<Uuid>)
    requires forall id | id in l :: Occurs(l, id) == 1
    ensures Distinct(l)
  {
    forall i, k | 0 <= i < k < |l|
      ensures l[i] != l[k]
    {
      assert l == l[..k] + l[k..];
      assert l[i] in l[..k] && l[k] in l[k..];
      assert l[i] in l;
      assert multiset(l) == multiset(l[..k]) + multiset(l[k..]);
    }
  }

  /** Every id of a processing list is a job that runs for that list's worker, and is there once. */
  lemma ListedWork(s: RState, key: string, c: Cancels)
    requires Partition(s, c)
    ensures Distinct(List(s.processing, key))
    ensures forall id | id in List(s.processing, key) :: Works(s, key, id)
  {
    hide Sound, Works;
    var l := List(s.processing, key);
    forall id | id in l
      ensures Works(s, key, id) && Occurs(l, id) == 1
    {
      assert Placed(s, id, c);
      assert ListCount(s, key, id) > 0;
    }
    OnceMeansDistinct(l);
  }

  /** Conversely, the id of a running job is in the list of its holder. */
  lemma WorkListed(s: RState, key: string, id: Uuid, c: Cancels)
    requires Partition(s, c) && Works(s, key, id)
    ensures id in List(s.processing, key)
  {
    hide Sound, Works;
    assert Placed(s, id, c);
    assert ListCount(s, key, id) == 1;
  }

  lemma ReapIdKeeps(s: RState, key: string, id: Uuid, now: Time, c: Cancels)
    requires Partition(s, c) && Works(s, key, id)
    ensures Partition(ReapId(s, key, id, now), c)
    ensures ReapId(s, key, id, now).jobs
         == if LapsedId(s, id, now) then s.jobs[id := UnlockJob(s.jobs[id], Queued, now)] else s.jobs
  {
    var j := s.jobs[id];
    RecordKeyed(s, id, c);
    QueueRoundTrip(j.queue, j.lockedBy.value);
    hide ProcessingKey, QueueOfKey, Placed, Reapable;
    if LapsedId(s, id, now) {
      RequeueKeeps(s, UnlockJob(j, Queued, now), key, c);
    }
  }

  /** `after` is `jobs` with the lapsed ones of `ids` back in the queue. */
  ghost predicate Reaped(jobs: map<Uuid, Job>, after: map<Uuid, Job>, ids: set<Uuid>, now: Time) {
    && after.Keys == jobs.Keys
    && forall id | id in jobs :: after[id] ==
         if id in ids && jobs[id].lockExpiresAt.Some? && jobs[id].lockExpiresAt.value <= now
         then UnlockJob(jobs[id], Queued, now) else jobs[id]
  }

  function Members(ids: seq<Uuid>): set<Uuid> {
    set id | id in ids
  }

  lemma ReapedMore(jobs: map<Uuid, Job>, mid: map<Uuid, Job>, after: map<Uuid, Job>, a: set<Uuid>, b: set<Uuid>,
                   now: Time)
    requires Reaped(jobs, mid, a, now) && Reaped(mid, after, b, now)
    requires a !! b
    ensures Reaped(jobs, after, a + b, now)
  {
  }

  lemma {:induction false} ReapIdsKeeps(s: RState, key: string, ids: seq<Uuid>, now: Time, c: Cancels)
    requires Partition(s, c) && Distinct(ids)
    requires forall id | id in ids :: Works(s, key, id)
    ensures Partition(ReapIds(s, key, ids, now), c)
    ensures Reaped(s.jobs, ReapIds(s, key, ids, now).jobs, Members(ids), now)
    decreases ids
  {
    hide Partition, ReapId, ProcessingKey, UnlockJob, Reaped;
    if ids == [] {
      ReapedNone(s.jobs, now);
    } else {
      assert ids[0] in ids;
      ReapIdKeeps(s, key, ids[0], now, c);
      var t := ReapId(s, key, ids[0], now);
      forall id | id in ids[1..]
        ensures Works(t, key, id)
      {
        assert Works(s, key, id) && id != ids[0];
      }
      ReapIdsKeeps(t, key, ids[1..], now, c);
      ReapedOne(s.jobs, ids[0], t.jobs, now);
      assert ids[0] !in ids[1..];
      ReapedMore(s.jobs, t.jobs, ReapIds(t, key, ids[1..], now).jobs, {ids[0]}, Members(ids[1..]), now);
      assert Members(ids) == {ids[0]} + Members(ids[1..]);
    }
  }

  lemma ReapedNone(jobs: map<Uuid, Job>, now: Time)
    ensures Reaped(jobs, jobs, Members([]), now)
  {
  }

  lemma ReapedOne(jobs: map<Uuid, Job>, id: Uuid, after: map<Uuid, Job>, now: Time)
    requires id in jobs
    requires after == if jobs[id].lockExpiresAt.Some? && jobs[id].lockExpiresAt.value <= now
                      then jobs[id := UnlockJob(jobs[id], Queued, now)] else jobs
    ensures Reaped(jobs, after, {id}, now)
  {
  }

  /** The ids of the jobs that run for the lists with these keys. */
  ghost function WorkersIds(s: RState, keys: seq<string>): set<Uuid> {
    set id | id in s.jobs && s.jobs[id].status.Running? && s.jobs[id].lockedBy.Some? &&
             ProcessingKey(s.jobs[id].queue, s.jobs[id].lockedBy.value) in keys
  }

  /** Going through one list leaves for the others what they had, less what was taken back. */
  lemma ReapKeyThenRest(s: RState, t: RState, after: map<Uuid, Job>, key: string, rest: seq<string>, now: Time)
    requires Reaped(s.jobs, t.jobs, WorkersIds(s, [key]), now)
    requires Reaped(t.jobs, after, WorkersIds(t, rest), now)
    ensures Reaped(s.jobs, after, WorkersIds(s, [key] + rest), now)
  {
    hide ProcessingKey;
  }

  lemma WorkersOfKey(s: RState, key: string, c: Cancels)
    requires Partition(s, c)
    ensures WorkersIds(s, [key]) == Members(List(s.processing, key))
  {
    hide Partition, ProcessingKey;
    ListedWork(s, key, c);
    forall id | id in WorkersIds(s, [key])
      ensures id in List(s.processing, key)
    {
      WorkListed(s, key, id, c);
    }
  }

  /** A key too short to name a queue is no running job's key. */
  lemma UnreapableHasNone(s: RState, key: string)
    requires !Reapable(key)
    ensures WorkersIds(s, [key]) == Members([])
  {
    forall id | id in WorkersIds(s, [key])
      ensures false
    {
      QueueRoundTrip(s.jobs[id].queue, s.jobs[id].lockedBy.value);
    }
  }

  /** Reaping takes back exactly the lapsed jobs of the lists it visits, in whatever order it visits them. */
  lemma {:induction false} ReapTakesBackLapsed(s: RState, keys: seq<string>, now: Time, c: Cancels)
    requires Partition(s, c)
    ensures Partition(ReapKeys(s, keys, now), c)
    ensures Reaped(s.jobs, ReapKeys(s, keys, now).jobs, WorkersIds(s, keys), now)
    decreases keys
  {
    hide Partition, Reaped, ReapIds, ProcessingKey, Reapable, WorkersIds, Works;
    if keys == [] {
      NoKeysNoWorkers(s);
      ReapedNone(s.jobs, now);
    } else {
      var key, rest := keys[0], keys[1..];
      assert keys == [key] + rest;
      if !Reapable(key) {
        UnreapableHasNone(s, key);
        ReapedNone(s.jobs, now);
        ReapTakesBackLapsed(s, rest, now, c);
        ReapKeyThenRest(s, s, ReapKeys(s, rest, now).jobs, key, rest, now);
      } else {
        var t := ReapIds(s, key, List(s.processing, key), now);
        ListedWork(s, key, c);
        ReapIdsKeeps(s, key, List(s.processing, key), now, c);
        WorkersOfKey(s, key, c);
        ReapTakesBackLapsed(t, rest, now, c);
        ReapKeyThenRest(s, t, ReapKeys(t, rest, now).jobs, key, rest, now);
      }
    }
  }

  lemma NoKeysNoWorkers(s: RState)
    ensures WorkersIds(s, []) == Members([])
  {
  }

  /** A reaper that puts an id back puts it where its job waits exactly when the queue's name has no colon. */
  lemma ColonStrandsJob(s: RState, queue: string, worker: string, id: Uuid, now: Time)
    requires LapsedId(s, id, now) && s.jobs[id].id == id && s.jobs[id].queue == queue
    requires forall q :: QueueCount(s, q, id) == 0
    ensures var t := ReapId(s, ProcessingKey(queue, worker), id, now);
      (forall q :: QueueCount(t, q, id) == if Waits(t, q, id) then 1 else 0) <==> ColonFree(queue)
  {
    hide ProcessingKey, QueueOfKey, Occurs, QueueCount;
    var key := ProcessingKey(queue, worker);
    QueueRoundTrip(queue, worker);
    var j := UnlockJob(s.jobs[id], Queued, now);
    var u := Unlist(SetJob(s, j), key, id);
    var t := ReapId(s, key, id, now);
    forall q
      ensures QueueCount(t, q, id) == if q == QueueOfKey(key) then 1 else 0
    {
      PushCounts(u, QueueOfKey(key), id, q, id);
      QueueCountUnlist(s, j, key, q, id);
    }
    assert QueueCount(t, QueueOfKey(key), id) == 1;
    assert Waits(t, queue, id);
  }

  // Every operation

  datatype ROp =
    | REnqueue(n: NewJob, newId: Uuid)
    | RLease(queue: string, worker: string, seconds: int, batch: int)
    | RReap(keys: seq<string>)
    | RStart(id: Uuid, worker: string)
    | RSucceed(id: Uuid, worker: string, newId: Uuid)
    | RRetry(id: Uuid, worker: string, runAt: Time)
    | RDeadLetter(id: Uuid, worker: string, reason: string)
    | RCancel(id: Uuid, canceler: Option<string>)
    | RExtend(id: Uuid, worker: string, seconds: int)
    | RReplay(id: Uuid, target: Option<string>, at: Option<Time>, newId: Uuid)

  function RApply(s: RState, op: ROp, now: Time): RState {
    match op
    case REnqueue(n, newId) => Enqueue(s, n, newId, now)
    case RLease(queue, worker, seconds, batch) =>
      PopMany(s, queue, worker, now + seconds * SECOND, now, BatchSize(batch), []).0
    case RReap(keys) => ReapKeys(s, keys, now)
    case RStart(id, worker) => Start(s, id, worker)
    case RSucceed(id, worker, newId) => Succeed(s, id, worker, newId, now)
    case RRetry(id, worker, runAt) => Retry(s, id, worker, runAt, now)
    case RDeadLetter(id, worker, reason) => DeadLetter(s, id, worker, reason, now)
    case RCancel(id, worker) => Cancel(s, id, worker, now)
    case RExtend(id, worker, seconds) => Extend(s, id, worker, seconds, now)
    case RReplay(id, queue, at, newId) => Replay(s, id, queue, at, newId, now)
  }

  /**
   * New ids are new, queues have no colon in their names, and a queued job is cancelled only if that is allowed for.
   */
  ghost predicate RLegal(s: RState, op: ROp, c: Cancels) {
    match op
    case REnqueue(n, newId) => newId !in s.jobs && ColonFree(n.queue)
    case RSucceed(_, _, newId) => newId !in s.jobs
    case RReplay(_, target, _, newId) => newId !in s.jobs && (target.Some? ==> ColonFree(target.value))
    case RCancel(id, _) => c.Any? || id !in s.jobs || !s.jobs[id].status.Queued?
    case _ => true
  }

  lemma EnqueueKeeps(s: RState, n: NewJob, newId: Uuid, now: Time, c: Cancels)
    requires Partition(s, c) && newId !in s.jobs && ColonFree(n.queue)
    ensures Partition(Enqueue(s, n, newId, now), c)
  {
    if !Claimed(s, n.key) {
      var t := if n.key.Some? then s.(keys := s.keys[n.key.value := newId]) else s;
      SameListsPartition(s, t, c);
      AddKeeps(t, FreshJob(n, newId, now), c);
    }
  }

  lemma SucceedKeeps(s: RState, id: Uuid, worker: string, newId: Uuid, now: Time, c: Cancels)
    requires Partition(s, c) && newId !in s.jobs
    ensures Partition(Succeed(s, id, worker, newId, now), c)
  {
    hide Occurs, ListCount, QueueCount, ProcessingKey, Placed, Lrem;
    if Holds(s, id, worker) {
      var j := UnlockJob(s.jobs[id], Succeeded, now);
      RecordKeyed(s, id, c);
      ReleaseKeeps(s, j, ProcessingKey(j.queue, worker), c);
      if j.recurringSeconds.Some? {
        var interval := if j.recurringSeconds.value > 1 then j.recurringSeconds.value else 1;
        AddKeeps(Unlist(SetJob(s, j), ProcessingKey(j.queue, worker), id), NextOccurrence(j, interval, newId, now), c);
      }
    }
  }

  lemma SettleKeeps(s: RState, op: ROp, now: Time, c: Cancels)
    requires Partition(s, c)
    requires op.RRetry? || op.RDeadLetter? || op.RExtend? || op.RStart?
    ensures Partition(RApply(s, op, now), c)
  {
    hide Occurs, ListCount, QueueCount, ProcessingKey, Placed, Lrem, Enqueue, PopMany, ReapKeys, Succeed, Cancel;
    hide Replay;
    if Holds(s, op.id, op.worker) {
      RecordKeyed(s, op.id, c);
      var j := s.jobs[op.id];
      match op
      case RRetry(id, worker, runAt) => RequeueKeeps(s, RetryJob(j, runAt, now), ProcessingKey(j.queue, worker), c);
      case RDeadLetter(id, worker, reason) =>
        ReleaseKeeps(s, j.(status := Dlq, dlqReason := Some(reason), dlqAt := Some(now), updatedAt := now),
                     ProcessingKey(j.queue, worker), c);
      case RExtend(id, worker, seconds) => StayKeeps(s, ExtendJob(j, now + seconds * SECOND, now), c);
      case RStart(id, worker) => SameListsPartition(s, Start(s, id, worker), c);
    }
  }

  /**
   * Cancelling keeps every id exactly in its place if and only if the job is not waiting in a queue; if it is, its id
   * is left behind there and all else is in its place.
   */
  lemma CancelKeepsUnlessQueued(s: RState, id: Uuid, worker: Option<string>, now: Time, c: Cancels)
    requires Partition(s, c)
    ensures c.OnlyRunning? ==>
      (Partition(Cancel(s, id, worker, now), c) <==> !(id in s.jobs && s.jobs[id].status.Queued?))
    ensures c.Any? ==> Partition(Cancel(s, id, worker, now), c)
  {
    hide Occurs, ListCount, QueueCount, ProcessingKey, Lrem;
    if id in s.jobs {
      RecordKeyed(s, id, c);
      var j := UnlockJob(s.jobs[id], Canceled, now);
      if s.jobs[id].status.Queued? {
        StrayLeft(s, j, c);
      } else if s.jobs[id].status.Running? && worker.Some? && s.jobs[id].lockedBy == worker {
        ReleaseKeeps(s, j, ProcessingKey(j.queue, worker.value), c);
      }
    }
  }

  lemma StrayLeft(s: RState, j: Job, c: Cancels)
    requires Partition(s, c) && Waits(s, j.queue, j.id) && j.status.Canceled?
    ensures Partition(SetJob(s, j), c) <==> c.Any?
  {
    hide Occurs, ListCount, QueueCount, ProcessingKey;
    var t := SetJob(s, j);
    assert Placed(s, j.id, c);
    forall q, x
      ensures QueueCount(t, q, x) == QueueCount(s, q, x) && ListCount(t, q, x) == ListCount(s, q, x)
    {
      SetJobCounts(s, j, q, x);
      ListCountSetJob(s, j, q, x);
    }
    if c.Any? {
      Relocated(s, t, j.id, c);
    } else {
      assert QueueCount(t, j.queue, j.id) == 1;
      assert !Placed(t, j.id, c);
    }
  }

  lemma ReplayKeeps(s: RState, id: Uuid, target: Option<string>, at: Option<Time>, newId: Uuid, now: Time, c: Cancels)
    requires Partition(s, c) && newId !in s.jobs && (target.Some? ==> ColonFree(target.value))
    ensures Partition(Replay(s, id, target, at, newId, now), c)
  {
    if id in s.jobs {
      AddKeeps(s, ReplayOf(s.jobs[id], newId, target, at, now), c);
    }
  }

  lemma PartitionKept(s: RState, op: ROp, now: Time, c: Cancels)
    requires Partition(s, c) && RLegal(s, op, c)
    ensures Partition(RApply(s, op, now), c)
  {
    hide Partition, Enqueue, PopMany, ReapKeys, Start, Succeed, Retry, DeadLetter, Cancel, Extend, Replay;
    match op
    case REnqueue(n, newId) => EnqueueKeeps(s, n, newId, now, c);
    case RLease(queue, worker, seconds, batch) =>
      LoopKeepsPartition(s, queue, worker, now + seconds * SECOND, now, BatchSize(batch), [], c);
    case RReap(keys) => ReapTakesBackLapsed(s, keys, now, c);
    case RSucceed(id, worker, newId) => SucceedKeeps(s, id, worker, newId, now, c);
    case RCancel(id, worker) => CancelKeepsUnlessQueued(s, id, worker, now, c);
    case RReplay(id, target, at, newId) => ReplayKeeps(s, id, target, at, newId, now, c);
    case _ => SettleKeeps(s, op, now, c);
  }

  // Whole runs

  datatype RStep = RStep(op: ROp, now: Time)

  ghost predicate IsRedisRun(states: seq<RState>, steps: seq<RStep>, c: Cancels) {
    && |states| == |steps| + 1 && states[0] == NO_JOBS
    && forall i | 0 <= i < |steps| ::
         RLegal(states[i], steps[i].op, c) && states[i + 1] == RApply(states[i], steps[i].op, steps[i].now)
  }

  /**
   * In every state of every run each id is in exactly the list its status calls for; if queued jobs are cancelled on
   * the way, the id of a cancelled job may also be left once in its own queue.
   */
  lemma {:induction false} PartitionAlways(states: seq<RState>, steps: seq<RStep>, i: nat, c: Cancels)
    requires IsRedisRun(states, steps, c) && i < |states|
    ensures Partition(states[i], c)
  {
    hide RApply;
    if i > 0 {
      PartitionAlways(states, steps, i - 1, c);
      PartitionKept(states[i - 1], steps[i - 1].op, steps[i - 1].now, c);
    }
  }

  /** The statuses that are final: with queued jobs cancelled, a cancelled one need not be. */
  predicate Final(status: Status, c: Cancels) {
    Terminal(status) && (c.Any? ==> !status.Canceled?)
  }

  /** A record stays, and stays as it is once its status is final. */
  ghost predicate KeptFor(jobs: map<Uuid, Job>, after: map<Uuid, Job>, id: Uuid, c: Cancels) {
    id in jobs ==> id in after && (Final(jobs[id].status, c) ==> after[id] == jobs[id])
  }

  lemma LeaseSparesTerminal(s: RState, t: RState, queue: string, worker: string, expires: Time, now: Time, n: nat,
                            id: Uuid, c: Cancels)
    requires Partition(s, c) && t == PopMany(s, queue, worker, expires, now, n, []).0
    ensures KeptFor(s.jobs, t.jobs, id, c)
  {
    hide Partition, PopMany, Handled, Kept, LeasedOf, ProcessingKey, Gained, SameListsBut, Keyed;
    PartitionKeyed(s, c);
    LeaseTakesPrefix(s, queue, worker, expires, now, n, []);
    var l, k := List(s.queues, queue), Cut(s.jobs, List(s.queues, queue), now, n);
    if id in l[..k] {
      assert id in l;
      ListedWaits(s, queue, id, c);
    }
  }

  lemma ListedWaits(s: RState, queue: string, id: Uuid, c: Cancels)
    requires Partition(s, c) && id in List(s.queues, queue)
    ensures Waits(s, queue, id) || (c.Any? && Stray(s, queue, id))
  {
    assert Placed(s, id, c);
    assert QueueCount(s, queue, id) > 0;
  }

  lemma TerminalIsFinal(s: RState, op: ROp, now: Time, id: Uuid, c: Cancels)
    requires Partition(s, c) && RLegal(s, op, c)
    ensures KeptFor(s.jobs, RApply(s, op, now).jobs, id, c)
  {
    hide PopMany, ReapKeys, Partition, Reaped, Enqueue, Start, Succeed, Retry, DeadLetter, Cancel, Extend, Replay;
    PartitionKeyed(s, c);
    if op.RLease? {
      LeaseSparesTerminal(s, RApply(s, op, now), op.queue, op.worker, now + op.seconds * SECOND, now,
                          BatchSize(op.batch), id, c);
    } else if op.RReap? {
      ReapTakesBackLapsed(s, op.keys, now, c);
      ReapSparesTerminal(s, ReapKeys(s, op.keys, now).jobs, op.keys, now, id, c);
    }
    if op.REnqueue? || op.RSucceed? || op.RReplay? {
      AddSparesTerminal(s, op, now, id, c);
    }
    if op.RStart? || op.RDeadLetter? || op.RExtend? {
      SettleSparesTerminal(s, op, now, id, c);
    }
    if op.RRetry? || op.RCancel? {
      UnlockSparesTerminal(s, op, now, id, c);
    }
  }

  lemma ReapSparesTerminal(s: RState, after: map<Uuid, Job>, keys: seq<string>, now: Time, id: Uuid, c: Cancels)
    requires Reaped(s.jobs, after, WorkersIds(s, keys), now)
    ensures KeptFor(s.jobs, after, id, c)
  {
    hide ProcessingKey;
  }

  lemma AddSparesTerminal(s: RState, op: ROp, now: Time, id: Uuid, c: Cancels)
    requires Keyed(s.jobs) && RLegal(s, op, c) && (op.REnqueue? || op.RSucceed? || op.RReplay?)
    ensures KeptFor(s.jobs, RApply(s, op, now).jobs, id, c)
  {
    hide ProcessingKey, Lrem, PopMany, ReapKeys, Start, Retry, DeadLetter, Cancel, Extend, List;
    match op
    case REnqueue(n, newId) =>
      assert FreshJob(n, newId, now).id == newId;
      hide FreshJob;
    case RSucceed(_, _, _) =>
    case RReplay(_, _, _, _) =>
  }

  lemma SettleSparesTerminal(s: RState, op: ROp, now: Time, id: Uuid, c: Cancels)
    requires Keyed(s.jobs) && RLegal(s, op, c) && (op.RStart? || op.RDeadLetter? || op.RExtend?)
    ensures KeptFor(s.jobs, RApply(s, op, now).jobs, id, c)
  {
    hide ProcessingKey, Lrem, PopMany, ReapKeys, Enqueue, Succeed, Replay, List, Retry, Cancel;
  }

  lemma UnlockSparesTerminal(s: RState, op: ROp, now: Time, id: Uuid, c: Cancels)
    requires Keyed(s.jobs) && RLegal(s, op, c) && (op.RRetry? || op.RCancel?)
    ensures KeptFor(s.jobs, RApply(s, op, now).jobs, id, c)
  {
    hide ProcessingKey, Lrem, PopMany, ReapKeys, Enqueue, Succeed, Replay, List, Start, DeadLetter, Extend;
  }

  /** Over any stretch of a run every job stays retrievable, and a final record never changes again. */
  lemma {:induction false} TerminalIsFinalAlways(states: seq<RState>, steps: seq<RStep>, i: nat, k: nat, id: Uuid,
                                                 c: Cancels)
    requires IsRedisRun(states, steps, c) && i <= k < |states|
    ensures KeptFor(states[i].jobs, states[k].jobs, id, c)
    decreases k - i
  {
    hide RApply;
    if i < k {
      PartitionAlways(states, steps, i, c);
      TerminalIsFinal(states[i], steps[i].op, steps[i].now, id, c);
      TerminalIsFinalAlways(states, steps, i + 1, k, id, c);
    }
  }

  /** After a waiting job is cancelled, the next lease of its queue runs it all the same. */
  lemma CancelledJobRuns(s: RState, queue: string, worker: string, expires: Time, now: Time, c: Cancels)
    requires Partition(s, c) && List(s.queues, queue) != []
    requires var id := List(s.queues, queue)[0];
      id in s.jobs ==> s.jobs[id].runAt <= now && !Late(s.jobs[id], now)
    ensures var id := List(s.queues, queue)[0];
      var t := Cancel(s, id, None, now);
      && id in t.jobs && t.jobs[id].status.Canceled?
      && PopOne(t, queue, worker, expires, now).state.jobs[id].status.Running?
      && PopOne(t, queue, worker, expires, now).job.Some?
  {
    hide ProcessingKey, Lrem;
    var id := List(s.queues, queue)[0];
    HeadWaits(s, queue, c);
    RecordKeyed(s, id, c);
  }

  // Idempotency keys

  lemma KeyStays(s: RState, op: ROp, now: Time, key: string)
    requires key in s.keys
    ensures key in RApply(s, op, now).keys && RApply(s, op, now).keys[key] == s.keys[key]
  {
    hide PopMany, ReapKeys, Enqueue, Start, Succeed, Retry, DeadLetter, Cancel, Extend, Replay;
    match op
    case RLease(queue, worker, seconds, batch) =>
      LeaseKeepsKeys(s, queue, worker, now + seconds * SECOND, now, BatchSize(batch), []);
    case RReap(keys) => ReapKeepsKeys(s, keys, now);
    case REnqueue(n, newId) => EnqueueKeepsKey(s, n, newId, now, key);
    case _ => OthersKeepKeys(s, op, now);
  }

  lemma EnqueueKeepsKey(s: RState, n: NewJob, newId: Uuid, now: Time, key: string)
    requires key in s.keys
    ensures key in Enqueue(s, n, newId, now).keys && Enqueue(s, n, newId, now).keys[key] == s.keys[key]
  {
    hide FreshJob;
  }

  lemma OthersKeepKeys(s: RState, op: ROp, now: Time)
    requires !op.RLease? && !op.RReap? && !op.REnqueue?
    ensures RApply(s, op, now).keys == s.keys
  {
    hide Lrem, ProcessingKey, UnlockJob, RetryJob, NextOccurrence, ReplayOf, ExtendJob, PopMany, ReapKeys, Enqueue;
    hide List;
  }

  lemma {:induction false} LeaseKeepsKeys(s: RState, queue: string, worker: string, expires: Time, now: Time, n: nat,
                                          acc: seq<Job>)
    ensures PopMany(s, queue, worker, expires, now, n, acc).0.keys == s.keys
    decreases n
  {
    hide Lrem, ProcessingKey, LeaseJob, ExpireJob;
    if n > 0 && List(s.queues, queue) != [] {
      var p := PopOne(s, queue, worker, expires, now);
      LeaseKeepsKeys(p.state, queue, worker, expires, now, n - 1, if p.job.Some? then acc + [p.job.value] else acc);
    }
  }

  lemma {:induction false} ReapIdsKeepKeys(s: RState, key: string, ids: seq<Uuid>, now: Time)
    ensures ReapIds(s, key, ids, now).keys == s.keys
    decreases ids
  {
    hide Lrem, QueueOfKey, UnlockJob;
    if ids != [] {
      ReapIdsKeepKeys(ReapId(s, key, ids[0], now), key, ids[1..], now);
    }
  }

  lemma {:induction false} ReapKeepsKeys(s: RState, lists: seq<string>, now: Time)
    ensures ReapKeys(s, lists, now).keys == s.keys
    decreases lists
  {
    hide ReapIds, Reapable;
    if lists != [] {
      if Reapable(lists[0]) {
        ReapIdsKeepKeys(s, lists[0], List(s.processing, lists[0]), now);
        ReapKeepsKeys(ReapIds(s, lists[0], List(s.processing, lists[0]), now), lists[1..], now);
      } else {
        ReapKeepsKeys(s, lists[1..], now);
      }
    }
  }

  lemma {:induction false} KeyStaysAlways(states: seq<RState>, steps: seq<RStep>, i: nat, k: nat, key: string,
                                          c: Cancels)
    requires IsRedisRun(states, steps, c) && i <= k < |states| && key in states[i].keys
    ensures key in states[k].keys && states[k].keys[key] == states[i].keys[key]
    decreases k - i
  {
    hide RApply, RLegal;
    if i < k {
      KeyStays(states[i], steps[i].op, steps[i].now, key);
      KeyStaysAlways(states, steps, i + 1, k, key, c);
    }
  }

  /** Enqueuing again under a key returns the first job's id and changes nothing, for good: keys are never given up. */
  lemma RepeatedEnqueueReturnsFirst(states: seq<RState>, steps: seq<RStep>, i: nat, k: nat, c: Cancels)
    requires IsRedisRun(states, steps, c) && i < k < |steps|
    requires steps[i].op.REnqueue? && steps[k].op.REnqueue?
    requires steps[i].op.n.key.Some? && steps[k].op.n.key == steps[i].op.n.key
    ensures EnqueueResult(states[k], steps[k].op.n, steps[k].op.newId)
         == EnqueueResult(states[i], steps[i].op.n, steps[i].op.newId)
    ensures states[k + 1] == states[k]
  {
    var key := steps[i].op.n.key.value;
    assert states[i + 1] == RApply(states[i], steps[i].op, steps[i].now);
    assert key in states[i + 1].keys;
    assert states[i + 1].keys[key] == EnqueueResult(states[i], steps[i].op.n, steps[i].op.newId);
    hide FreshJob;
    KeyStaysAlways(states, steps, i + 1, k, key, c);
    assert states[k + 1] == RApply(states[k], steps[k].op, steps[k].now);
  }
}
