/** The per-queue ordered index and what it means for it to agree with the job table. */
module Index {
  import opened Model
  import opened Ordering

  type QueueIndex = map<string, seq<QueueEntry>>

  function At(idx: QueueIndex, queue: string): seq<QueueEntry> {
    if queue in idx then idx[queue] else []
  }

  function Put(idx: QueueIndex, queue: string, e: QueueEntry): QueueIndex {
    idx[queue := Insert(Before, At(idx, queue), e)]
  }

  function Drop(idx: QueueIndex, queue: string, e: QueueEntry): QueueIndex {
    if queue in idx then idx[queue := Remove(idx[queue], e)] else idx
  }

  /** The table holds a queued job of `queue` whose current record has the sort key `e`. */
  ghost predicate Indexed(jobs: map<Uuid, Job>, queue: string, e: QueueEntry) {
    e.id in jobs && jobs[e.id].status.Queued? && jobs[e.id].queue == queue && e == FromJob(jobs[e.id])
  }

  ghost predicate AgreesAt(jobs: map<Uuid, Job>, entries: seq<QueueEntry>, queue: string) {
    && Ascending(Before, entries)
    && forall e :: e in entries <==> Indexed(jobs, queue, e)
  }

  /** Every queue's index is in order and lists exactly the queued jobs of that queue. */
  ghost predicate Agrees(jobs: map<Uuid, Job>, idx: QueueIndex) {
    forall queue :: AgreesAt(jobs, At(idx, queue), queue)
  }

  lemma EnterQueue(jobs: map<Uuid, Job>, idx: QueueIndex, j: Job)
    requires Agrees(jobs, idx)
    requires j.status.Queued?
    requires j.id in jobs ==> !jobs[j.id].status.Queued?
    ensures Agrees(jobs[j.id := j], Put(idx, j.queue, FromJob(j)))
  {
    hide Ascending, StrictTotal, Insert, Before;
    BeforeIsStrictTotal();
    var idx', e0 := Put(idx, j.queue, FromJob(j)), FromJob(j);
    forall queue
      ensures AgreesAt(jobs[j.id := j], At(idx', queue), queue)
    {
      assert AgreesAt(jobs, At(idx, queue), queue);
      if queue == j.queue {
        InsertAscending(Before, At(idx, queue), e0);
        forall e
          ensures e in At(idx', queue) <==> e in At(idx, queue) || e == e0
        {
          assert e in Elements(At(idx', queue)) <==> e in Elements(At(idx, queue)) || e == e0;
        }
      }
    }
  }

  lemma LeaveQueue(jobs: map<Uuid, Job>, idx: QueueIndex, id: Uuid, k: Job)
    requires Agrees(jobs, idx)
    requires id in jobs && jobs[id].id == id && jobs[id].status.Queued?
    requires !k.status.Queued?
    ensures Agrees(jobs[id := k], Drop(idx, jobs[id].queue, FromJob(jobs[id])))
  {
    hide Ascending, StrictTotal, Remove, Before;
    BeforeIsStrictTotal();
    var j := jobs[id];
    var idx', e0 := Drop(idx, j.queue, FromJob(j)), FromJob(j);
    forall queue
      ensures AgreesAt(jobs[id := k], At(idx', queue), queue)
    {
      assert AgreesAt(jobs, At(idx, queue), queue);
      assert AgreesAt(jobs, At(idx, j.queue), j.queue);
      if queue == j.queue {
        assert Indexed(jobs, queue, e0);
        RemoveAscending(Before, At(idx, queue), e0);
        forall e
          ensures e in At(idx', queue) <==> e in At(idx, queue) && e != e0
        {
          assert e in Elements(At(idx', queue)) <==> e in Elements(At(idx, queue)) && e != e0;
        }
      }
    }
  }

  /** A running job that does not come back to the queue does not concern the index. */
  lemma RunningLeaves(jobs: map<Uuid, Job>, idx: QueueIndex, id: Uuid, k: Job)
    requires Agrees(jobs, idx) && id in jobs && jobs[id].status.Running? && !k.status.Queued?
    ensures Agrees(jobs[id := k], idx)
  {
    hide Agrees;
    OffQueue(jobs, jobs[id := k], idx);
  }

  /** Changes to jobs that are not queued, before or after, do not concern the index. */
  lemma OffQueue(jobs: map<Uuid, Job>, after: map<Uuid, Job>, idx: QueueIndex)
    requires Agrees(jobs, idx)
    requires forall id | id in jobs || id in after ::
      || (id in jobs && id in after && jobs[id] == after[id])
      || ((id in jobs ==> !jobs[id].status.Queued?) && (id in after ==> !after[id].status.Queued?))
    ensures Agrees(after, idx)
  {
    hide Ascending;
    forall queue
      ensures AgreesAt(after, At(idx, queue), queue)
    {
      assert AgreesAt(jobs, At(idx, queue), queue);
    }
  }
}
