/** The Redis backend as a state machine over its hash of jobs, queue lists and processing lists. */
module RedisStore {
  import opened Model
  import opened RedisKeys

  datatype RState = RState(
    jobs: map<Uuid, Job>,
    queues: map<string, seq<Uuid>>,
    processing: map<string, seq<Uuid>>,
    keys: map<string, Uuid>,
    attempts: map<Uuid, int>)

  const NO_JOBS := RState(map[], map[], map[], map[], map[])

  function List(lists: map<string, seq<Uuid>>, key: string): seq<Uuid> {
    if key in lists then lists[key] else []
  }

  /** `LREM key 1 id`. */
  function Lrem(l: seq<Uuid>, id: Uuid): seq<Uuid> {
    if l == [] then [] else if l[0] == id then l[1..] else [l[0]] + Lrem(l[1..], id)
  }

  // List and hash commands

  function SetJob(s: RState, j: Job): RState {
    s.(jobs := s.jobs[j.id := j])
  }

  function PushBack(s: RState, queue: string, id: Uuid): RState {
    s.(queues := s.queues[queue := List(s.queues, queue) + [id]])
  }

  function PushFront(s: RState, queue: string, id: Uuid): RState {
    s.(queues := s.queues[queue := [id] + List(s.queues, queue)])
  }

  function Unlist(s: RState, key: string, id: Uuid): RState {
    s.(processing := s.processing[key := Lrem(List(s.processing, key), id)])
  }

  /** `LMOVE queue processing LEFT RIGHT`. */
  function Lmove(s: RState, queue: string, key: string): RState
    requires List(s.queues, queue) != []
  {
    var l := List(s.queues, queue);
    s.(queues := s.queues[queue := l[1..]], processing := s.processing[key := List(s.processing, key) + [l[0]]])
  }

  // Operations

  predicate Claimed(s: RState, key: Option<string>) {
    key.Some? && key.value in s.keys
  }

  function Enqueue(s: RState, n: NewJob, newId: Uuid, now: Time): RState {
    if Claimed(s, n.key) then s
    else
      var t := if n.key.Some? then s.(keys := s.keys[n.key.value := newId]) else s;
      PushBack(SetJob(t, FreshJob(n, newId, now)), n.queue, newId)
  }

  function EnqueueResult(s: RState, n: NewJob, newId: Uuid): Uuid {
    if Claimed(s, n.key) then s.keys[n.key.value] else newId
  }

  datatype Popped = Popped(state: RState, job: Option<Job>)

  /** One turn of the lease loop: moves the head of the queue and decides what becomes of it. */
  function PopOne(s: RState, queue: string, worker: string, expires: Time, now: Time): Popped
    requires List(s.queues, queue) != []
  {
    var id := List(s.queues, queue)[0];
    var key := ProcessingKey(queue, worker);
    var t := Lmove(s, queue, key);
    if id !in t.jobs then Popped(t, None)
    else
      var j := t.jobs[id];
      if j.runAt > now then Popped(Unlist(PushFront(t, queue, id), key, id), None)
      else if j.deadlineAt.Some? && j.deadlineAt.value < now then
        Popped(Unlist(SetJob(t, ExpireJob(j, now)), key, id), None)
      else
        Popped(SetJob(t, LeaseJob(j, worker, expires, now)), Some(LeaseJob(j, worker, expires, now)))
  }

  /** `n` turns of the lease loop, or fewer if the queue runs out. */
  function PopMany(s: RState, queue: string, worker: string, expires: Time, now: Time, n: nat, acc: seq<Job>)
    : (RState, seq<Job>)
    decreases n
  {
    if n == 0 || List(s.queues, queue) == [] then (s, acc)
    else
      var p := PopOne(s, queue, worker, expires, now);
      PopMany(p.state, queue, worker, expires, now, n - 1, if p.job.Some? then acc + [p.job.value] else acc)
  }

  function BatchSize(batch: int): nat {
    Clamp(batch, 1, 100)
  }

  predicate LapsedId(s: RState, id: Uuid, now: Time) {
    id in s.jobs && s.jobs[id].lockExpiresAt.Some? && s.jobs[id].lockExpiresAt.value <= now
  }

  /** Takes one id of a processing list back, if its lease has run out. */
  function ReapId(s: RState, key: string, id: Uuid, now: Time): RState {
    if LapsedId(s, id, now) then
      PushBack(Unlist(SetJob(s, UnlockJob(s.jobs[id], Queued, now)), key, id), QueueOfKey(key), id)
    else s
  }

  function ReapIds(s: RState, key: string, ids: seq<Uuid>, now: Time): RState
    decreases ids
  {
    if ids == [] then s else ReapIds(ReapId(s, key, ids[0], now), key, ids[1..], now)
  }

  /** Goes through the lists in whatever order the server lists their keys. */
  function ReapKeys(s: RState, keys: seq<string>, now: Time): RState
    decreases keys
  {
    if keys == [] then s
    else if !Reapable(keys[0]) then ReapKeys(s, keys[1..], now)
    else ReapKeys(ReapIds(s, keys[0], List(s.processing, keys[0]), now), keys[1..], now)
  }

  predicate Holds(s: RState, id: Uuid, worker: string) {
    id in s.jobs && s.jobs[id].status.Running? && s.jobs[id].lockedBy == Some(worker)
  }

  function Start(s: RState, id: Uuid, worker: string): RState {
    if Holds(s, id, worker) then
      s.(attempts := s.attempts[id := (if id in s.attempts then s.attempts[id] else 0) + 1])
    else s
  }

  function Succeed(s: RState, id: Uuid, worker: string, newId: Uuid, now: Time): RState {
    if !Holds(s, id, worker) then s
    else
      var j := UnlockJob(s.jobs[id], Succeeded, now);
      var t := Unlist(SetJob(s, j), ProcessingKey(j.queue, worker), id);
      if j.recurringSeconds.None? then t
      else
        var interval := if j.recurringSeconds.value > 1 then j.recurringSeconds.value else 1;
        PushBack(SetJob(t, NextOccurrence(j, interval, newId, now)), j.queue, newId)
  }

  function Retry(s: RState, id: Uuid, worker: string, runAt: Time, now: Time): RState {
    if !Holds(s, id, worker) then s
    else
      var j := RetryJob(s.jobs[id], runAt, now);
      PushBack(Unlist(SetJob(s, j), ProcessingKey(j.queue, worker), id), j.queue, id)
  }

  /** Unlike the in-memory backend this leaves the lease fields of the record in place. */
  function DeadLetter(s: RState, id: Uuid, worker: string, reason: string, now: Time): RState {
    if !Holds(s, id, worker) then s
    else
      var j := s.jobs[id].(status := Dlq, dlqReason := Some(reason), dlqAt := Some(now), updatedAt := now);
      Unlist(SetJob(s, j), ProcessingKey(j.queue, worker), id)
  }

  /** A queued job is marked cancelled but its id stays in the queue list. */
  function Cancel(s: RState, id: Uuid, worker: Option<string>, now: Time): RState {
    if id !in s.jobs then s
    else if s.jobs[id].status.Queued? then SetJob(s, UnlockJob(s.jobs[id], Canceled, now))
    else if s.jobs[id].status.Running? && worker.Some? && s.jobs[id].lockedBy == worker then
      SetJob(Unlist(s, ProcessingKey(s.jobs[id].queue, worker.value), id), UnlockJob(s.jobs[id], Canceled, now))
    else s
  }

  function Extend(s: RState, id: Uuid, worker: string, seconds: int, now: Time): RState {
    if Holds(s, id, worker) then SetJob(s, ExtendJob(s.jobs[id], now + seconds * SECOND, now)) else s
  }

  function Replay(s: RState, id: Uuid, queue: Option<string>, runAt: Option<Time>, newId: Uuid, now: Time): RState {
    if id !in s.jobs then s
    else
      var j := ReplayOf(s.jobs[id], newId, queue, runAt, now);
      PushBack(SetJob(s, j), j.queue, newId)
  }
}
