/** Where the ids are: a job's id is in exactly the one list that its status calls for. */
module RedisPartition {
  import opened Model
  import opened RedisKeys
  import opened RedisStore

  function Occurs(l: seq<Uuid>, id: Uuid): nat {
    multiset(l)[id]
  }

  lemma OccursPush(l: seq<Uuid>, id: Uuid, x: Uuid)
    ensures Occurs(l + [id], x) == Occurs(l, x) + (if x == id then 1 else 0)
    ensures Occurs([id] + l, x) == Occurs(l, x) + (if x == id then 1 else 0)
  {
  }

  lemma OccursTail(l: seq<Uuid>, x: Uuid)
    requires l != []
    ensures Occurs(l[1..], x) == Occurs(l, x) - (if x == l[0] then 1 else 0)
  {
    assert l == [l[0]] + l[1..];
    OccursPush(l[1..], l[0], x);
  }

  lemma {:induction false} OccursLrem(l: seq<Uuid>, id: Uuid, x: Uuid)
    ensures Occurs(Lrem(l, id), x) == Occurs(l, x) - (if x == id && id in l then 1 else 0)
  {
    if l != [] {
      OccursTail(l, x);
      if l[0] != id {
        OccursLrem(l[1..], id, x);
        OccursPush(Lrem(l[1..], id), l[0], x);
      }
    }
  }

  function QueueCount(s: RState, queue: string, id: Uuid): nat {
    Occurs(List(s.queues, queue), id)
  }

  function ListCount(s: RState, key: string, id: Uuid): nat {
    Occurs(List(s.processing, key), id)
  }

  /** The job waits in `queue`. */
  predicate Waits(s: RState, queue: string, id: Uuid) {
    id in s.jobs && s.jobs[id].status.Queued? && s.jobs[id].queue == queue
  }

  /** The job runs for the worker whose list of this queue has the key `key`. */
  predicate Works(s: RState, key: string, id: Uuid) {
    id in s.jobs && s.jobs[id].status.Running? && s.jobs[id].lockedBy.Some? &&
    key == ProcessingKey(s.jobs[id].queue, s.jobs[id].lockedBy.value)
  }

  /** A cancelled job whose id may have been left in `queue`. */
  predicate Stray(s: RState, queue: string, id: Uuid) {
    id in s.jobs && s.jobs[id].status.Canceled? && s.jobs[id].queue == queue
  }

  /** Which jobs have been cancelled so far: only running ones, or queued ones as well. */
  datatype Cancels = OnlyRunning | Any

  /**
   * The id is once in the list it belongs to and in no other. If queued jobs have been cancelled, the id of a cancelled
   * job may be left once in its own queue.
   */
  ghost predicate Placed(s: RState, id: Uuid, c: Cancels) {
    && (forall queue ::
          (if Waits(s, queue, id) then 1 else 0) <= QueueCount(s, queue, id) <=
          (if Waits(s, queue, id) || (c.Any? && Stray(s, queue, id)) then 1 else 0))
    && (forall key :: ListCount(s, key, id) == if Works(s, key, id) then 1 else 0)
  }

  ghost predicate Sound(s: RState) {
    forall id | id in s.jobs ::
      && s.jobs[id].id == id && ColonFree(s.jobs[id].queue)
      && (s.jobs[id].status.Running? ==> s.jobs[id].lockedBy.Some? && s.jobs[id].lockExpiresAt.Some?)
  }

  ghost predicate Partition(s: RState, c: Cancels) {
    Sound(s) && forall id :: Placed(s, id, c)
  }

  /** Nothing about `x` differs between the two states. */
  ghost predicate SameFor(s: RState, t: RState, x: Uuid) {
    && (x in t.jobs <==> x in s.jobs) && (x in s.jobs ==> t.jobs[x] == s.jobs[x])
    && (forall queue :: QueueCount(t, queue, x) == QueueCount(s, queue, x))
    && (forall key :: ListCount(t, key, x) == ListCount(s, key, x))
  }

  lemma StaysPlaced(s: RState, t: RState, x: Uuid, c: Cancels)
    requires Placed(s, x, c) && SameFor(s, t, x)
    ensures Placed(t, x, c)
  {
  }

  lemma Relocated(s: RState, t: RState, id: Uuid, c: Cancels)
    requires Partition(s, c) && Sound(t)
    requires forall x | x != id :: SameFor(s, t, x)
    requires Placed(t, id, c)
    ensures Partition(t, c)
  {
    hide SameFor, Placed;
    forall x
      ensures Placed(t, x, c)
    {
      if x != id {
        StaysPlaced(s, t, x, c);
      }
    }
  }

  // What each command does to the counts

  lemma PushCounts(s: RState, queue: string, id: Uuid, q: string, x: Uuid)
    ensures QueueCount(PushBack(s, queue, id), q, x) == QueueCount(s, q, x) + (if q == queue && x == id then 1 else 0)
    ensures QueueCount(PushFront(s, queue, id), q, x) == QueueCount(s, q, x) + (if q == queue && x == id then 1 else 0)
  {
    hide Occurs;
    OccursPush(List(s.queues, queue), id, x);
  }

  lemma UnlistCounts(s: RState, key: string, id: Uuid, k: string, x: Uuid)
    ensures ListCount(Unlist(s, key, id), k, x)
         == ListCount(s, k, x) - (if k == key && x == id && ListCount(s, key, id) > 0 then 1 else 0)
  {
    OccursLrem(List(s.processing, key), id, x);
  }

  lemma LmoveCounts(s: RState, queue: string, key: string, q: string, k: string, x: Uuid)
    requires List(s.queues, queue) != []
    ensures var t, id := Lmove(s, queue, key), List(s.queues, queue)[0];
      && QueueCount(t, q, x) == QueueCount(s, q, x) - (if q == queue && x == id then 1 else 0)
      && ListCount(t, k, x) == ListCount(s, k, x) + (if k == key && x == id then 1 else 0)
  {
    hide Occurs;
    OccursTail(List(s.queues, queue), x);
    OccursPush(List(s.processing, key), List(s.queues, queue)[0], x);
  }

  // The four ways in which an id changes places

  /** A new queued job is appended to its queue. */
  lemma AddKeeps(s: RState, j: Job, c: Cancels)
    requires Partition(s, c) && j.id !in s.jobs && j.status.Queued? && ColonFree(j.queue)
    ensures Partition(PushBack(SetJob(s, j), j.queue, j.id), c)
  {
    hide Occurs, QueueCount, ListCount;
    var t := PushBack(SetJob(s, j), j.queue, j.id);
    assert Placed(s, j.id, c);
    forall k, x
      ensures ListCount(t, k, x) == ListCount(s, k, x)
    {
      ListCountSetJob(s, j, k, x);
      ListCountPush(SetJob(s, j), j.queue, j.id, k, x);
    }
    forall q, x
      ensures QueueCount(t, q, x) == QueueCount(s, q, x) + (if q == j.queue && x == j.id then 1 else 0)
    {
      PushCounts(SetJob(s, j), j.queue, j.id, q, x);
      SetJobCounts(s, j, q, x);
    }
    Relocated(s, t, j.id, c);
  }

  lemma SetJobCounts(s: RState, j: Job, q: string, x: Uuid)
    ensures QueueCount(SetJob(s, j), q, x) == QueueCount(s, q, x)
  {
  }

  /** A running job leaves its list for good. */
  lemma ReleaseKeeps(s: RState, j: Job, key: string, c: Cancels)
    requires Partition(s, c) && Works(s, key, j.id) && Terminal(j.status) && j.queue == s.jobs[j.id].queue
    ensures Partition(Unlist(SetJob(s, j), key, j.id), c)
  {
    hide Occurs, ListCount, QueueCount;
    var t := Unlist(SetJob(s, j), key, j.id);
    assert Placed(s, j.id, c);
    forall q, x
      ensures QueueCount(t, q, x) == QueueCount(s, q, x)
    {
      QueueCountUnlist(s, j, key, q, x);
    }
    forall k, x
      ensures ListCount(t, k, x) == ListCount(s, k, x) - (if k == key && x == j.id then 1 else 0)
    {
      UnlistCounts(SetJob(s, j), key, j.id, k, x);
      ListCountSetJob(s, j, k, x);
      ListCountSetJob(s, j, key, j.id);
    }
    Relocated(s, t, j.id, c);
  }

  lemma ListCountSetJob(s: RState, j: Job, k: string, x: Uuid)
    ensures ListCount(SetJob(s, j), k, x) == ListCount(s, k, x)
  {
  }

  /** A running job goes from its list back to the end of its queue. */
  lemma RequeueKeeps(s: RState, j: Job, key: string, c: Cancels)
    requires Partition(s, c) && Works(s, key, j.id) && j.status.Queued? && j.queue == s.jobs[j.id].queue
    ensures Partition(PushBack(Unlist(SetJob(s, j), key, j.id), j.queue, j.id), c)
  {
    hide Occurs, ListCount, QueueCount;
    var u := Unlist(SetJob(s, j), key, j.id);
    var t := PushBack(u, j.queue, j.id);
    assert Placed(s, j.id, c);
    forall k, x
      ensures ListCount(t, k, x) == ListCount(s, k, x) - (if k == key && x == j.id then 1 else 0)
    {
      UnlistCounts(SetJob(s, j), key, j.id, k, x);
      ListCountSetJob(s, j, k, x);
      ListCountSetJob(s, j, key, j.id);
      ListCountPush(u, j.queue, j.id, k, x);
    }
    forall q, x
      ensures QueueCount(t, q, x) == QueueCount(s, q, x) + (if q == j.queue && x == j.id then 1 else 0)
    {
      PushCounts(u, j.queue, j.id, q, x);
      QueueCountUnlist(s, j, key, q, x);
    }
    Relocated(s, t, j.id, c);
  }

  lemma ListCountPush(u: RState, queue: string, id: Uuid, k: string, x: Uuid)
    ensures ListCount(PushBack(u, queue, id), k, x) == ListCount(u, k, x)
  {
  }

  lemma QueueCountUnlist(s: RState, j: Job, key: string, q: string, x: Uuid)
    ensures QueueCount(Unlist(SetJob(s, j), key, j.id), q, x) == QueueCount(s, q, x)
  {
  }

  /** A change to a record that keeps its place. */
  lemma StayKeeps(s: RState, j: Job, c: Cancels)
    requires Partition(s, c) && j.id in s.jobs && j.queue == s.jobs[j.id].queue && j.status == s.jobs[j.id].status
    requires j.status.Running? ==> j.lockedBy == s.jobs[j.id].lockedBy && j.lockExpiresAt.Some?
    ensures Partition(SetJob(s, j), c)
  {
    hide Occurs, ListCount, QueueCount;
    var t := SetJob(s, j);
    assert Placed(s, j.id, c);
    forall k, x
      ensures ListCount(t, k, x) == ListCount(s, k, x)
    {
      ListCountSetJob(s, j, k, x);
    }
    forall q, x
      ensures QueueCount(t, q, x) == QueueCount(s, q, x)
    {
      SetJobCounts(s, j, q, x);
    }
    Relocated(s, t, j.id, c);
  }

  // The lease loop

  /** The head of a queue list is a queued job of that queue, or a cancelled one, and in no processing list. */
  lemma HeadWaits(s: RState, queue: string, c: Cancels)
    requires Partition(s, c) && List(s.queues, queue) != []
    ensures var id := List(s.queues, queue)[0];
      && (Waits(s, queue, id) || (c.Any? && Stray(s, queue, id)))
      && QueueCount(s, queue, id) == 1 && forall key :: ListCount(s, key, id) == 0
    ensures ColonFree(queue)
  {
    var id := List(s.queues, queue)[0];
    assert Placed(s, id, c);
    assert QueueCount(s, queue, id) > 0;
  }

  /** How counts change when the head of the queue is moved and then set to `j`. */
  lemma MovedCounts(s: RState, queue: string, key: string, j: Job, q: string, k: string, x: Uuid)
    requires List(s.queues, queue) != [] && j.id == List(s.queues, queue)[0]
    ensures var t := SetJob(Lmove(s, queue, key), j);
      && QueueCount(t, q, x) == QueueCount(s, q, x) - (if q == queue && x == j.id then 1 else 0)
      && ListCount(t, k, x) == ListCount(s, k, x) + (if k == key && x == j.id then 1 else 0)
  {
    LmoveCounts(s, queue, key, q, k, x);
    SetJobCounts(Lmove(s, queue, key), j, q, x);
    ListCountSetJob(Lmove(s, queue, key), j, k, x);
  }

  lemma LeaseKeeps(s: RState, queue: string, worker: string, j: Job, c: Cancels)
    requires Partition(s, c) && List(s.queues, queue) != [] && j.id == List(s.queues, queue)[0]
    requires j.status.Running? && j.queue == queue && j.lockedBy == Some(worker) && j.lockExpiresAt.Some?
    ensures Partition(SetJob(Lmove(s, queue, ProcessingKey(queue, worker)), j), c)
  {
    hide Occurs, ListCount, QueueCount;
    var key := ProcessingKey(queue, worker);
    var t := SetJob(Lmove(s, queue, key), j);
    HeadWaits(s, queue, c);
    assert Placed(s, j.id, c);
    forall q, x
      ensures QueueCount(t, q, x) == QueueCount(s, q, x) - (if q == queue && x == j.id then 1 else 0)
    {
      MovedCounts(s, queue, key, j, q, key, x);
    }
    forall k, x
      ensures ListCount(t, k, x) == ListCount(s, k, x) + (if k == key && x == j.id then 1 else 0)
    {
      MovedCounts(s, queue, key, j, queue, k, x);
    }
    Relocated(s, t, j.id, c);
  }

  lemma ExpireKeeps(s: RState, queue: string, worker: string, j: Job, c: Cancels)
    requires Partition(s, c) && List(s.queues, queue) != [] && j.id == List(s.queues, queue)[0]
    requires j.status.Dlq? && j.queue == queue
    ensures var key := ProcessingKey(queue, worker); Partition(Unlist(SetJob(Lmove(s, queue, key), j), key, j.id), c)
  {
    hide Occurs, ListCount, QueueCount;
    var key := ProcessingKey(queue, worker);
    var u := SetJob(Lmove(s, queue, key), j);
    var t := Unlist(u, key, j.id);
    HeadWaits(s, queue, c);
    assert Placed(s, j.id, c);
    forall q, x
      ensures QueueCount(t, q, x) == QueueCount(s, q, x) - (if q == queue && x == j.id then 1 else 0)
    {
      MovedCounts(s, queue, key, j, q, key, x);
      QueueCountOnlyUnlist(u, key, j.id, q, x);
    }
    forall k, x
      ensures ListCount(t, k, x) == ListCount(s, k, x)
    {
      MovedCounts(s, queue, key, j, queue, k, x);
      MovedCounts(s, queue, key, j, queue, key, j.id);
      UnlistCounts(u, key, j.id, k, x);
    }
    Relocated(s, t, j.id, c);
  }

  lemma QueueCountOnlyUnlist(u: RState, key: string, id: Uuid, q: string, x: Uuid)
    ensures QueueCount(Unlist(u, key, id), q, x) == QueueCount(u, q, x)
  {
  }

  lemma {:induction false} LremNew(l: seq<Uuid>, id: Uuid)
    requires Occurs(l, id) == 0
    ensures Lrem(l + [id], id) == l
  {
    if l != [] {
      OccursTail(l, id);
      assert (l + [id])[1..] == l[1..] + [id];
      LremNew(l[1..], id);
    }
  }

  /** Moving the head of a queue to a list that does not hold it, and back, leaves every list as it was. */
  lemma ThereAndBack(s: RState, queue: string, key: string)
    requires List(s.queues, queue) != [] && Occurs(List(s.processing, key), List(s.queues, queue)[0]) == 0
    ensures var id := List(s.queues, queue)[0];
      var t := Unlist(PushFront(Lmove(s, queue, key), queue, id), key, id);
      && t.jobs == s.jobs && t.keys == s.keys && t.attempts == s.attempts
      && (forall q :: List(t.queues, q) == List(s.queues, q))
      && (forall k :: List(t.processing, k) == List(s.processing, k))
  {
    hide Lrem, Occurs;
    var l := List(s.queues, queue);
    LremNew(List(s.processing, key), l[0]);
    assert [l[0]] + l[1..] == l;
  }

  /** An id that is not due ends up where it was: every list is as before. */
  lemma PutBackChangesNothing(s: RState, queue: string, key: string, c: Cancels)
    requires Partition(s, c) && List(s.queues, queue) != []
    ensures var id := List(s.queues, queue)[0];
      var t := Unlist(PushFront(Lmove(s, queue, key), queue, id), key, id);
      && t.jobs == s.jobs && t.keys == s.keys && t.attempts == s.attempts
      && (forall q :: List(t.queues, q) == List(s.queues, q))
      && (forall k :: List(t.processing, k) == List(s.processing, k))
  {
    hide Partition, Unlist, PushFront, Lmove, Occurs;
    HeadWaits(s, queue, c);
    assert ListCount(s, key, List(s.queues, queue)[0]) == 0;
    ThereAndBack(s, queue, key);
  }
}
