/** The SQLite lease, which has no index: an UPDATE, an ordered SELECT and one UPDATE per selected row. */
module SqliteLease {
  import opened Model
  import opened Ordering
  import opened Store
  import opened Effects

  /** SQL `LIMIT`: a negative limit is no limit. */
  function SqlLimit<T>(s: seq<T>, n: int): seq<T> {
    if n < 0 then s else Take(s, n)
  }

  ghost function Selected(jobs: map<Uuid, Job>, queue: string, batch: int, now: Time): seq<QueueEntry> {
    SqlLimit(Ranking(jobs, queue, now), batch)
  }

  class SqliteJobs {
    var rows: map<Uuid, Job>

    constructor (rows: map<Uuid, Job>)
      ensures this.rows == rows
    {
      this.rows := rows;
    }

    method Lease(queue: string, worker: string, leaseSeconds: int, batchSize: int, now: Time) returns (leased: seq<Job>)
      requires Keyed(rows)
      modifies this
      ensures Keyed(rows)
      ensures rows == MarkLeased(Sweep(old(rows), queue, now), Ids(Selected(old(rows), queue, batchSize, now)), worker,
                                 now + leaseSeconds * SECOND, now)
      ensures |leased| == |Selected(old(rows), queue, batchSize, now)|
      ensures forall i | 0 <= i < |leased| ::
        var id := Selected(old(rows), queue, batchSize, now)[i].id; id in rows && leased[i] == rows[id]
      ensures LeasedInOrder(old(rows), rows, leased, queue, worker, leaseSeconds, now)
      ensures batchSize < 0 ==> NoneLeft(old(rows), leased, queue, now)
      ensures batchSize >= 0 ==>
        |leased| <= batchSize && (|leased| == batchSize || NoneLeft(old(rows), leased, queue, now))
    {
      hide LeasedInOrder, NoneLeft;
      hide Sweep, DueEntries, SortSet, StrictTotal, Before, LeaseJob, Keyed, Ids;
      var swept := Sweep(rows, queue, now);
      SweptIsKeyed(rows, queue, now);
      rows := swept;
      BeforeIsStrictTotal();
      var ranking := Collect(Before, DueEntries(rows, queue, now));
      var candidates := SqlLimit(ranking, batchSize);
      assert candidates == Selected(old(rows), queue, batchSize, now);
      CandidatesAreRows(swept, queue, now, candidates);
      var expires := now + leaseSeconds * SECOND;
      assert candidates[..0] == [];
      NoIds();
      leased := [];
      for k := 0 to |candidates|
        invariant rows == MarkLeased(swept, Ids(candidates[..k]), worker, expires, now)
        invariant |leased| == k
        invariant forall i | 0 <= i < k :: leased[i] == LeaseJob(swept[candidates[i].id], worker, expires, now)
      {
        IdsGrow(candidates, k);
        var job := LeaseJob(swept[candidates[k].id], worker, expires, now);
        rows := rows[candidates[k].id := job];
        leased := leased + [job];
      }
      assert candidates[..|candidates|] == candidates;
      MarkedRows(swept, candidates, worker, expires, now);
      LeasedIsKeyed(swept, Ids(candidates), worker, expires, now);
      LeaseInOrder(old(rows), queue, worker, leaseSeconds, now, candidates, leased);
    }
  }

  lemma NoIds()
    ensures Ids([]) == {}
  {
  }

  lemma MarkedRows(jobs: map<Uuid, Job>, entries: seq<QueueEntry>, worker: string, expires: Time, now: Time)
    ensures forall k | 0 <= k < |entries| && entries[k].id in jobs ::
      MarkLeased(jobs, Ids(entries), worker, expires, now)[entries[k].id]
        == LeaseJob(jobs[entries[k].id], worker, expires, now)
  {
    assert forall k | 0 <= k < |entries| :: entries[k] in entries;
  }

  lemma CandidatesAreRows(jobs: map<Uuid, Job>, queue: string, now: Time, candidates: seq<QueueEntry>)
    requires StrictTotal(Before)
    requires Keyed(jobs)
    requires candidates <= SortSet(Before, DueEntries(jobs, queue, now))
    ensures forall k | 0 <= k < |candidates| :: candidates[k].id in jobs
  {
    hide StrictTotal, Before;
    var ranking := SortSet(Before, DueEntries(jobs, queue, now));
    forall k | 0 <= k < |candidates|
      ensures candidates[k].id in jobs
    {
      assert ranking[k] in Elements(ranking);
    }
  }

  /** The indexed lease and the scan take the same jobs unless the batch size is negative and something is due. */
  lemma IndexMatchesScan(s: State, queue: string, batch: int, now: Time)
    ensures Selected(s.jobs, queue, batch, now) == Chosen(s, queue, batch, now)
        <==> batch >= 0 || Ranking(s.jobs, queue, now) == []
  {
    hide Ranking;
  }
}
