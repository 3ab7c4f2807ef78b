/** What the lease loop of the Redis backend takes off a queue list. */
module RedisLease {
  import opened Model
  import opened RedisKeys
  import opened RedisStore
  import opened RedisPartition

  predicate Late(j: Job, now: Time) {
    j.deadlineAt.Some? && j.deadlineAt.value < now
  }

  /** What becomes of a due job: it is dead-lettered if late, and leased otherwise. */
  function Handled(j: Job, worker: string, expires: Time, now: Time): Job {
    if Late(j, now) then ExpireJob(j, now) else LeaseJob(j, worker, expires, now)
  }

  /** Meeting the same id again makes no difference. */
  lemma HandledTwice(j: Job, worker: string, expires: Time, now: Time)
    ensures var h := Handled(j, worker, expires, now);
      && h.id == j.id && h.runAt == j.runAt && Late(h, now) == Late(j, now)
      && Handled(h, worker, expires, now) == h
      && (!Late(j, now) ==> LeaseJob(h, worker, expires, now) == LeaseJob(j, worker, expires, now) == h)
  {
  }

  /** The records after `id` has been met; an id without a record has none to change. */
  function Met(jobs: map<Uuid, Job>, id: Uuid, worker: string, expires: Time, now: Time): map<Uuid, Job> {
    if id in jobs then jobs[id := Handled(jobs[id], worker, expires, now)] else jobs
  }

  predicate NotDue(jobs: map<Uuid, Job>, id: Uuid, now: Time) {
    id in jobs && jobs[id].runAt > now
  }

  predicate IsLate(jobs: map<Uuid, Job>, id: Uuid, now: Time) {
    id in jobs && Late(jobs[id], now)
  }

  /** How much of the list is taken: up to `n` ids, stopping at the first job that is not due. */
  function Cut(jobs: map<Uuid, Job>, l: seq<Uuid>, now: Time, n: nat): (k: nat)
    ensures k <= n && k <= |l|
    ensures k == n || k == |l| || NotDue(jobs, l[k], now)
    decreases n
  {
    if n == 0 || l == [] || NotDue(jobs, l[0], now) then 0
    else 1 + Cut(jobs, l[1..], now, n - 1)
  }

  lemma {:induction false} CutIsDue(jobs: map<Uuid, Job>, l: seq<Uuid>, now: Time, n: nat)
    ensures forall i | 0 <= i < Cut(jobs, l, now, n) :: !NotDue(jobs, l[i], now)
    decreases n
  {
    if n > 0 && l != [] && !NotDue(jobs, l[0], now) {
      CutIsDue(jobs, l[1..], now, n - 1);
    }
  }

  /** The ids of a taken segment that end up in the worker's list: all but those of late jobs. */
  function Kept(jobs: map<Uuid, Job>, seg: seq<Uuid>, now: Time): seq<Uuid> {
    if seg == [] then []
    else (if IsLate(jobs, seg[0], now) then [] else [seg[0]]) + Kept(jobs, seg[1..], now)
  }

  /** The jobs a taken segment yields, in order, as leased: those that are known and not late. */
  function LeasedOf(jobs: map<Uuid, Job>, seg: seq<Uuid>, worker: string, expires: Time, now: Time): seq<Job> {
    if seg == [] then []
    else
      (if seg[0] in jobs && !IsLate(jobs, seg[0], now) then [LeaseJob(jobs[seg[0]], worker, expires, now)] else []) +
      LeasedOf(jobs, seg[1..], worker, expires, now)
  }

  ghost predicate JobsAfter(jobs: map<Uuid, Job>, after: map<Uuid, Job>, seg: seq<Uuid>, worker: string,
                            expires: Time, now: Time) {
    after.Keys == jobs.Keys &&
    forall id | id in jobs ::
      after[id] == if id in seg then Handled(jobs[id], worker, expires, now) else jobs[id]
  }

  ghost predicate SameLists(l: map<string, seq<Uuid>>, m: map<string, seq<Uuid>>) {
    forall key :: List(m, key) == List(l, key)
  }

  ghost predicate SameListsBut(l: map<string, seq<Uuid>>, m: map<string, seq<Uuid>>, but: string) {
    forall key | key != but :: List(m, key) == List(l, key)
  }

  /** The list `key` of `m` holds the ids of `l` and `more`, in some order. */
  ghost predicate Gained(l: map<string, seq<Uuid>>, m: map<string, seq<Uuid>>, key: string, more: seq<Uuid>) {
    multiset(List(m, key)) == multiset(List(l, key)) + multiset(more) && SameListsBut(l, m, key)
  }

  // One turn, in any state

  lemma LremLast(l: seq<Uuid>, id: Uuid)
    ensures multiset(Lrem(l + [id], id)) == multiset(l)
  {
    forall x
      ensures multiset(Lrem(l + [id], id))[x] == multiset(l)[x]
    {
      OccursLrem(l + [id], id, x);
    }
  }

  /** The head of the queue is not due: it stays at the head, and nothing is leased. */
  lemma TurnStays(s: RState, queue: string, worker: string, expires: Time, now: Time)
    requires List(s.queues, queue) != [] && NotDue(s.jobs, List(s.queues, queue)[0], now)
    ensures var p := PopOne(s, queue, worker, expires, now);
      && p.job.None? && p.state.jobs == s.jobs && SameLists(s.queues, p.state.queues)
      && Gained(s.processing, p.state.processing, ProcessingKey(queue, worker), [])
      && p.state.keys == s.keys && p.state.attempts == s.attempts
  {
    hide ProcessingKey, Lrem;
    var l, key := List(s.queues, queue), ProcessingKey(queue, worker);
    LremLast(List(s.processing, key), l[0]);
    assert [l[0]] + l[1..] == l;
  }

  /** Any other head leaves the queue: unknown, late or leased. */
  lemma TurnTakes(s: RState, queue: string, worker: string, expires: Time, now: Time)
    requires Keyed(s.jobs) && List(s.queues, queue) != [] && !NotDue(s.jobs, List(s.queues, queue)[0], now)
    ensures var l, p := List(s.queues, queue), PopOne(s, queue, worker, expires, now);
      && p.state.jobs == Met(s.jobs, l[0], worker, expires, now)
      && List(p.state.queues, queue) == l[1..] && SameListsBut(s.queues, p.state.queues, queue)
      && Gained(s.processing, p.state.processing, ProcessingKey(queue, worker), Kept(s.jobs, [l[0]], now))
      && (if p.job.Some? then [p.job.value] else []) == LeasedOf(s.jobs, [l[0]], worker, expires, now)
      && p.state.keys == s.keys && p.state.attempts == s.attempts
  {
    hide PopOne, ProcessingKey, Kept, LeasedOf, Gained, LeaseJob, Met, NotDue, Keyed, SameListsBut;
    TurnLists(s, queue, worker, expires, now);
    TurnRecord(s, queue, worker, expires, now);
    TurnQueue(s, queue, worker, expires, now);
  }

  lemma TurnQueue(s: RState, queue: string, worker: string, expires: Time, now: Time)
    requires List(s.queues, queue) != [] && !NotDue(s.jobs, List(s.queues, queue)[0], now)
    ensures var t := PopOne(s, queue, worker, expires, now).state;
      && List(t.queues, queue) == List(s.queues, queue)[1..] && SameListsBut(s.queues, t.queues, queue)
      && t.keys == s.keys && t.attempts == s.attempts
  {
    hide ProcessingKey, Lrem, LeaseJob, ExpireJob;
  }

  lemma TurnRecord(s: RState, queue: string, worker: string, expires: Time, now: Time)
    requires Keyed(s.jobs) && List(s.queues, queue) != [] && !NotDue(s.jobs, List(s.queues, queue)[0], now)
    ensures var l, p := List(s.queues, queue), PopOne(s, queue, worker, expires, now);
      && p.state.jobs == Met(s.jobs, l[0], worker, expires, now)
      && (if p.job.Some? then [p.job.value] else []) == LeasedOf(s.jobs, [l[0]], worker, expires, now)
  {
    hide ProcessingKey, Lrem, LeaseJob, ExpireJob, Kept, LeasedOf, List;
    var l := List(s.queues, queue);
    OneTaken(s.jobs, l[0], worker, expires, now);
    if l[0] in s.jobs {
      HandledTwice(s.jobs[l[0]], worker, expires, now);
    }
  }

  lemma TurnLists(s: RState, queue: string, worker: string, expires: Time, now: Time)
    requires List(s.queues, queue) != [] && !NotDue(s.jobs, List(s.queues, queue)[0], now)
    ensures var l, p := List(s.queues, queue), PopOne(s, queue, worker, expires, now);
      Gained(s.processing, p.state.processing, ProcessingKey(queue, worker), Kept(s.jobs, [l[0]], now))
  {
    var l, key := List(s.queues, queue), ProcessingKey(queue, worker);
    TurnList(s, queue, worker, expires, now);
    hide PopOne, ProcessingKey, Lrem, Kept, LeasedOf, LeaseJob, NotDue, SameListsBut;
    LremLast(List(s.processing, key), l[0]);
    OneTaken(s.jobs, l[0], worker, expires, now);
  }

  lemma TurnList(s: RState, queue: string, worker: string, expires: Time, now: Time)
    requires List(s.queues, queue) != [] && !NotDue(s.jobs, List(s.queues, queue)[0], now)
    ensures var id, key := List(s.queues, queue)[0], ProcessingKey(queue, worker);
      var t, more := PopOne(s, queue, worker, expires, now).state, List(s.processing, key) + [id];
      && List(t.processing, key) == (if IsLate(s.jobs, id, now) then Lrem(more, id) else more)
      && SameListsBut(s.processing, t.processing, key)
  {
    hide ProcessingKey, Lrem, LeaseJob, ExpireJob;
  }

  lemma OneTaken(jobs: map<Uuid, Job>, id: Uuid, worker: string, expires: Time, now: Time)
    ensures Kept(jobs, [id], now) == if IsLate(jobs, id, now) then [] else [id]
    ensures LeasedOf(jobs, [id], worker, expires, now)
         == if id in jobs && !IsLate(jobs, id, now) then [LeaseJob(jobs[id], worker, expires, now)] else []
  {
    hide LeaseJob, IsLate;
    assert Kept(jobs, [], now) == [] && LeasedOf(jobs, [], worker, expires, now) == [];
  }

  // Segments

  lemma MetKeyed(jobs: map<Uuid, Job>, id: Uuid, worker: string, expires: Time, now: Time)
    requires Keyed(jobs)
    ensures Keyed(Met(jobs, id, worker, expires, now))
  {
  }

  /** What a segment yields does not depend on which of its ids, or others, were met before. */
  lemma {:induction false} SegmentFrame(jobs: map<Uuid, Job>, id: Uuid, seg: seq<Uuid>, worker: string, expires: Time,
                                        now: Time)
    ensures Kept(Met(jobs, id, worker, expires, now), seg, now) == Kept(jobs, seg, now)
    ensures LeasedOf(Met(jobs, id, worker, expires, now), seg, worker, expires, now)
         == LeasedOf(jobs, seg, worker, expires, now)
  {
    hide Handled, LeaseJob, Late;
    if seg != [] {
      if id in jobs {
        HandledTwice(jobs[id], worker, expires, now);
      }
      SegmentFrame(jobs, id, seg[1..], worker, expires, now);
    }
  }

  lemma {:induction false} CutFrame(jobs: map<Uuid, Job>, id: Uuid, l: seq<Uuid>, worker: string, expires: Time,
                                    now: Time, n: nat)
    ensures Cut(Met(jobs, id, worker, expires, now), l, now, n) == Cut(jobs, l, now, n)
    decreases n
  {
    hide Handled, Late;
    if id in jobs {
      HandledTwice(jobs[id], worker, expires, now);
    }
    if n > 0 && l != [] {
      CutFrame(jobs, id, l[1..], worker, expires, now, n - 1);
    }
  }

  lemma JobsAfterStep(jobs: map<Uuid, Job>, after: map<Uuid, Job>, seg: seq<Uuid>, worker: string, expires: Time,
                      now: Time)
    requires seg != []
    requires JobsAfter(Met(jobs, seg[0], worker, expires, now), after, seg[1..], worker, expires, now)
    ensures JobsAfter(jobs, after, seg, worker, expires, now)
  {
    hide Handled, Late;
    assert seg == [seg[0]] + seg[1..];
    if seg[0] in jobs {
      HandledTwice(jobs[seg[0]], worker, expires, now);
    }
    assert Met(jobs, seg[0], worker, expires, now).Keys == jobs.Keys;
  }

  // The loop, in any state

  /** `t` and `leased` are what taking the first `k` ids of the queue comes to. */
  ghost predicate TookPrefix(s: RState, t: RState, leased: seq<Job>, acc: seq<Job>, queue: string, worker: string,
                             expires: Time, now: Time, k: nat) {
    var l := List(s.queues, queue);
    && k <= |l| && List(t.queues, queue) == l[k..] && SameListsBut(s.queues, t.queues, queue)
    && Gained(s.processing, t.processing, ProcessingKey(queue, worker), Kept(s.jobs, l[..k], now))
    && JobsAfter(s.jobs, t.jobs, l[..k], worker, expires, now)
    && leased == acc + LeasedOf(s.jobs, l[..k], worker, expires, now)
    && t.keys == s.keys && t.attempts == s.attempts
  }

  lemma TookNothing(s: RState, acc: seq<Job>, queue: string, worker: string, expires: Time, now: Time)
    ensures TookPrefix(s, s, acc, acc, queue, worker, expires, now, 0)
  {
    assert acc + [] == acc;
  }

  lemma TookSame(s: RState, u: RState, t: RState, leased: seq<Job>, acc: seq<Job>, queue: string, worker: string,
                 expires: Time, now: Time, k: nat)
    requires u.jobs == s.jobs && SameLists(s.queues, u.queues) && u.keys == s.keys && u.attempts == s.attempts
    requires Gained(s.processing, u.processing, ProcessingKey(queue, worker), [])
    requires TookPrefix(u, t, leased, acc, queue, worker, expires, now, k)
    ensures TookPrefix(s, t, leased, acc, queue, worker, expires, now, k)
  {
    hide ProcessingKey, Kept, LeasedOf, JobsAfter;
    assert List(u.queues, queue) == List(s.queues, queue);
  }

  /** Taking a head and then a segment is taking the longer segment. */
  lemma SegmentJoins(jobs: map<Uuid, Job>, seg: seq<Uuid>, worker: string, expires: Time, now: Time)
    requires seg != []
    ensures var later := Met(jobs, seg[0], worker, expires, now);
      && Kept(jobs, seg, now) == Kept(jobs, [seg[0]], now) + Kept(later, seg[1..], now)
      && LeasedOf(jobs, seg, worker, expires, now)
         == LeasedOf(jobs, [seg[0]], worker, expires, now) + LeasedOf(later, seg[1..], worker, expires, now)
  {
    hide Kept, LeasedOf, Met;
    SegmentFrame(jobs, seg[0], seg[1..], worker, expires, now);
    SegmentHead(jobs, seg, worker, expires, now);
  }

  lemma SegmentHead(jobs: map<Uuid, Job>, seg: seq<Uuid>, worker: string, expires: Time, now: Time)
    requires seg != []
    ensures Kept(jobs, seg, now) == Kept(jobs, [seg[0]], now) + Kept(jobs, seg[1..], now)
    ensures LeasedOf(jobs, seg, worker, expires, now)
         == LeasedOf(jobs, [seg[0]], worker, expires, now) + LeasedOf(jobs, seg[1..], worker, expires, now)
  {
    hide LeaseJob, IsLate;
    OneTaken(jobs, seg[0], worker, expires, now);
  }

  lemma GainedMore(l: map<string, seq<Uuid>>, m: map<string, seq<Uuid>>, n: map<string, seq<Uuid>>, key: string,
                   a: seq<Uuid>, b: seq<Uuid>)
    requires Gained(l, m, key, a) && Gained(m, n, key, b)
    ensures Gained(l, n, key, a + b)
  {
  }

  lemma TailSlices(l: seq<Uuid>, k: nat)
    requires k < |l|
    ensures l[1..][..k] == l[..k + 1][1..] && l[1..][k..] == l[k + 1..] && l[..k + 1][0] == l[0]
  {
  }

  lemma AppendJobs(a: seq<Job>, b: seq<Job>, c: seq<Job>)
    ensures a + b + c == a + (b + c)
  {
  }

  lemma SameListsChain(l: map<string, seq<Uuid>>, m: map<string, seq<Uuid>>, n: map<string, seq<Uuid>>, but: string)
    requires SameListsBut(l, m, but) && SameListsBut(m, n, but)
    ensures SameListsBut(l, n, but)
  {
  }

  lemma TookOneMore(s: RState, u: RState, t: RState, leased: seq<Job>, acc: seq<Job>, queue: string, worker: string,
                    expires: Time, now: Time, k: nat)
    requires List(s.queues, queue) != []
    requires var l := List(s.queues, queue);
      && u.jobs == Met(s.jobs, l[0], worker, expires, now) && u.keys == s.keys && u.attempts == s.attempts
      && List(u.queues, queue) == l[1..] && SameListsBut(s.queues, u.queues, queue)
      && Gained(s.processing, u.processing, ProcessingKey(queue, worker), Kept(s.jobs, [l[0]], now))
      && TookPrefix(u, t, leased, acc + LeasedOf(s.jobs, [l[0]], worker, expires, now), queue, worker, expires, now, k)
    ensures TookPrefix(s, t, leased, acc, queue, worker, expires, now, k + 1)
  {
    hide ProcessingKey, LeaseJob, Kept, LeasedOf, JobsAfter, Met, Gained, SameListsBut;
    var l := List(s.queues, queue);
    var seg := l[..k + 1];
    TailSlices(l, k);
    AppendJobs(acc, LeasedOf(s.jobs, [l[0]], worker, expires, now),
               LeasedOf(u.jobs, seg[1..], worker, expires, now));
    SameListsChain(s.queues, u.queues, t.queues, queue);
    SegmentJoins(s.jobs, seg, worker, expires, now);
    JobsAfterStep(s.jobs, t.jobs, seg, worker, expires, now);
    GainedMore(s.processing, u.processing, t.processing, ProcessingKey(queue, worker), Kept(s.jobs, [l[0]], now),
               Kept(u.jobs, seg[1..], now));
  }

  /**
   * In any state the lease loop takes exactly an initial segment of the queue list: as many ids as the batch allows, or
   * up to the first job that is not due, which stays at the head. The rest keeps its order. Of the segment, the jobs
   * that are known and not late are returned in order, and every known one is leased or dead-lettered.
   */
  lemma {:induction false} LeaseTakesPrefix(s: RState, queue: string, worker: string, expires: Time, now: Time, n: nat,
                                            acc: seq<Job>)
    requires Keyed(s.jobs)
    ensures var (t, leased) := PopMany(s, queue, worker, expires, now, n, acc);
      TookPrefix(s, t, leased, acc, queue, worker, expires, now, Cut(s.jobs, List(s.queues, queue), now, n))
    decreases n
  {
    hide TookPrefix, PopOne, Handled, LeaseJob, ExpireJob, ProcessingKey, Met, Gained, NotDue, LeasedOf, Kept;
    var l := List(s.queues, queue);
    if n == 0 || l == [] {
      TookNothing(s, acc, queue, worker, expires, now);
    } else {
      var p := PopOne(s, queue, worker, expires, now);
      var acc' := if p.job.Some? then acc + [p.job.value] else acc;
      var (t, leased) := PopMany(p.state, queue, worker, expires, now, n - 1, acc');
      if NotDue(s.jobs, l[0], now) {
        TurnStays(s, queue, worker, expires, now);
        LeaseTakesPrefix(p.state, queue, worker, expires, now, n - 1, acc');
        assert List(p.state.queues, queue) == l;
        TookSame(s, p.state, t, leased, acc, queue, worker, expires, now, 0);
      } else {
        TurnTakes(s, queue, worker, expires, now);
        MetKeyed(s.jobs, l[0], worker, expires, now);
        LeaseTakesPrefix(p.state, queue, worker, expires, now, n - 1, acc');
        CutFrame(s.jobs, l[0], l[1..], worker, expires, now, n - 1);
        assert acc' == acc + LeasedOf(s.jobs, [l[0]], worker, expires, now);
        TookOneMore(s, p.state, t, leased, acc, queue, worker, expires, now, Cut(s.jobs, l[1..], now, n - 1));
      }
    }
  }

  // The loop, in a state in which every id is in its place

  lemma SameListsPartition(s: RState, t: RState, c: Cancels)
    requires Partition(s, c) && t.jobs == s.jobs
    requires SameLists(s.queues, t.queues) && SameLists(s.processing, t.processing)
    ensures Partition(t, c)
  {
    hide Placed, SameFor, SameLists;
    forall id
      ensures Placed(t, id, c)
    {
      SameListsCount(s, t, id);
      StaysPlaced(s, t, id, c);
    }
  }

  lemma SameListsCount(s: RState, t: RState, id: Uuid)
    requires t.jobs == s.jobs && SameLists(s.queues, t.queues) && SameLists(s.processing, t.processing)
    ensures SameFor(s, t, id)
  {
  }

  lemma RecordKeyed(s: RState, id: Uuid, c: Cancels)
    requires Partition(s, c) && id in s.jobs
    ensures s.jobs[id].id == id
  {
  }

  lemma PartitionKeyed(s: RState, c: Cancels)
    requires Partition(s, c)
    ensures Keyed(s.jobs)
  {
  }

  lemma TurnKeepsPartition(s: RState, queue: string, worker: string, expires: Time, now: Time, c: Cancels)
    requires Partition(s, c) && List(s.queues, queue) != []
    ensures var l, key := List(s.queues, queue), ProcessingKey(queue, worker);
      var t := PopOne(s, queue, worker, expires, now).state;
      && Partition(t, c)
      && List(t.processing, key) ==
         List(s.processing, key) + if NotDue(s.jobs, l[0], now) then [] else Kept(s.jobs, [l[0]], now)
  {
    hide Partition, ProcessingKey, Lrem;
    HeadWaits(s, queue, c);
    var l, key := List(s.queues, queue), ProcessingKey(queue, worker);
    var j := s.jobs[l[0]];
    RecordKeyed(s, l[0], c);
    assert ListCount(s, key, l[0]) == 0;
    LremNew(List(s.processing, key), l[0]);
    assert Kept(s.jobs, [], now) == [];
    if j.runAt > now {
      PutBackChangesNothing(s, queue, key, c);
      SameListsPartition(s, PopOne(s, queue, worker, expires, now).state, c);
    } else if Late(j, now) {
      ExpireKeeps(s, queue, worker, ExpireJob(j, now), c);
    } else {
      LeaseKeeps(s, queue, worker, LeaseJob(j, worker, expires, now), c);
    }
  }

  /** From such a state the loop leads to such a state, and the ids are appended to the worker's list in order. */
  lemma {:induction false} LoopKeepsPartition(s: RState, queue: string, worker: string, expires: Time, now: Time,
                                              n: nat, acc: seq<Job>, c: Cancels)
    requires Partition(s, c)
    ensures var t := PopMany(s, queue, worker, expires, now, n, acc).0;
      var l, key := List(s.queues, queue), ProcessingKey(queue, worker);
      && Partition(t, c)
      && List(t.processing, key)
         == List(s.processing, key) + Kept(s.jobs, l[..Cut(s.jobs, l, now, n)], now)
    decreases n
  {
    hide Partition, PopOne, ProcessingKey, Met, Gained, NotDue, Kept, LeasedOf, SameListsBut, Keyed;
    var l := List(s.queues, queue);
    if n == 0 || l == [] {
      NothingKept(s.jobs, l, now);
    } else {
      var p := PopOne(s, queue, worker, expires, now);
      var acc' := if p.job.Some? then acc + [p.job.value] else acc;
      TurnKeepsPartition(s, queue, worker, expires, now, c);
      PartitionKeyed(s, c);
      LoopKeepsPartition(p.state, queue, worker, expires, now, n - 1, acc', c);
      NothingKept(s.jobs, l, now);
      if NotDue(s.jobs, l[0], now) {
        TurnStays(s, queue, worker, expires, now);
        assert List(p.state.queues, queue) == l;
      } else {
        TurnTakes(s, queue, worker, expires, now);
        CutFrame(s.jobs, l[0], l[1..], worker, expires, now, n - 1);
        var k := Cut(s.jobs, l[1..], now, n - 1);
        KeptGrows(s.jobs, l, worker, expires, now, k);
        AppendTwice(List(s.processing, ProcessingKey(queue, worker)), Kept(s.jobs, [l[0]], now),
                    Kept(p.state.jobs, l[1..][..k], now));
      }
    }
  }

  lemma AppendTwice(a: seq<Uuid>, b: seq<Uuid>, c: seq<Uuid>)
    ensures a + b + c == a + (b + c) && a + [] == a
  {
  }

  lemma KeptGrows(jobs: map<Uuid, Job>, l: seq<Uuid>, worker: string, expires: Time, now: Time, k: nat)
    requires k < |l|
    ensures Kept(jobs, l[..k + 1], now)
         == Kept(jobs, [l[0]], now) + Kept(Met(jobs, l[0], worker, expires, now), l[1..][..k], now)
  {
    hide Kept, Met;
    assert l[..k + 1][1..] == l[1..][..k];
    SegmentJoins(jobs, l[..k + 1], worker, expires, now);
  }

  lemma NothingKept(jobs: map<Uuid, Job>, l: seq<Uuid>, now: Time)
    ensures Kept(jobs, l[..0], now) == []
  {
  }
}
