/** The Postgres lease with its in-flight and rate gates, one serialised transaction per call. */
module StormControl {
  import opened Model
  import opened Ordering
  import opened Store
  import opened Locality
  import opened Invariants
  import opened Effects

  datatype Policy = Policy(maxAttemptsPerMinute: int, maxInFlight: int, throttleDelayMs: int)

  datatype Reason = InFlightExceeded | RetryRateExceeded

  datatype Decision = Decision(
    datasetId: string,
    jobId: Uuid,
    reason: Reason,
    measured: int,
    allowed: int,
    delayMs: int)

  datatype Started = Started(jobId: Uuid, datasetId: string, startedAt: Time)

  datatype Table = Table(
    jobs: map<Uuid, Job>,
    attempts: map<Uuid, Started>,
    policies: map<string, Policy>,
    decisions: seq<Decision>)

  /** `Fifo` breaks ties by creation time and id; `Fastest` leaves them to the database. */
  datatype QueueOrdering = Fifo | Fastest

  predicate Precedes(ordering: QueueOrdering, a: QueueEntry, b: QueueEntry) {
    if ordering.Fifo? then Before(a, b) else b.priority < a.priority || (b.priority == a.priority && a.runAt < b.runAt)
  }

  function BatchLimit(batch: int): (n: nat)
    ensures 1 <= n <= 4096
  {
    Clamp(batch, 1, 4096)
  }

  // What the gates look at

  function RunningIn(jobs: map<Uuid, Job>, queue: string): set<Uuid> {
    set id | id in jobs && jobs[id].queue == queue && jobs[id].status.Running?
  }

  function InFlight(jobs: map<Uuid, Job>, queue: string): nat {
    |RunningIn(jobs, queue)|
  }

  /** Attempts at jobs of this queue that started in the last sixty seconds. */
  function RecentStarts(s: Table, queue: string, now: Time): nat {
    |set a | a in s.attempts && s.attempts[a].jobId in s.jobs &&
             s.jobs[s.attempts[a].jobId].datasetId == s.attempts[a].datasetId &&
             s.jobs[s.attempts[a].jobId].queue == queue &&
             s.attempts[a].startedAt >= now - 60 * SECOND|
  }

  /** Why a lease is refused, if it is. A queue without a policy is never refused. */
  function Gate(s: Table, queue: string, now: Time): Option<Reason> {
    if queue !in s.policies then None
    else if InFlight(s.jobs, queue) >= s.policies[queue].maxInFlight then Some(InFlightExceeded)
    else if RecentStarts(s, queue, now) >= s.policies[queue].maxAttemptsPerMinute then Some(RetryRateExceeded)
    else None
  }

  // What a call picks

  function DueIn(jobs: map<Uuid, Job>, queue: string, dataset: string, now: Time): set<QueueEntry> {
    set id | id in jobs && Due(jobs[id], queue, now) && jobs[id].datasetId == dataset :: FromJob(jobs[id])
  }

  predicate NotLater(a: Job, b: Job) {
    a.runAt < b.runAt || (a.runAt == b.runAt && a.createdAt <= b.createdAt)
  }

  /** A due job that no other due job has been waiting longer than; its dataset is the one served. */
  ghost predicate IsHead(jobs: map<Uuid, Job>, queue: string, now: Time, id: Uuid) {
    && id in jobs && Due(jobs[id], queue, now)
    && forall other | other in jobs && Due(jobs[other], queue, now) :: NotLater(jobs[id], jobs[other])
  }

  ghost predicate Unlike(entries: seq<QueueEntry>) {
    forall i, k | 0 <= i < k < |entries| :: entries[i] != entries[k]
  }

  /** `top` is a sorted choice of `n` candidates, or all if they are fewer, and leaves out none that comes before it. */
  ghost predicate IsTop(ordering: QueueOrdering, candidates: set<QueueEntry>, n: nat, top: seq<QueueEntry>) {
    && Unlike(top) && Elements(top) <= candidates
    && |top| == (if n < |candidates| then n else |candidates|)
    && (forall i, k | 0 <= i < k < |top| :: !Precedes(ordering, top[k], top[i]))
    && (forall e, i | e in candidates && e !in top && 0 <= i < |top| :: !Precedes(ordering, e, top[i]))
  }

  /** What the database is free to choose: among equally old heads, and among ties in the order. */
  datatype Choice = Choice(head: Uuid, top: seq<QueueEntry>)

  function Swept(s: Table, queue: string, now: Time): Table {
    s.(jobs := Sweep(s.jobs, queue, now))
  }

  ghost predicate AnyDue(jobs: map<Uuid, Job>, queue: string, now: Time) {
    exists id :: id in jobs && Due(jobs[id], queue, now)
  }

  ghost predicate Possible(s: Table, queue: string, batch: int, ordering: QueueOrdering, now: Time, c: Choice) {
    var t := Swept(s, queue, now);
    AnyDue(t.jobs, queue, now) ==>
      && IsHead(t.jobs, queue, now, c.head)
      && IsTop(ordering, DueIn(t.jobs, queue, t.jobs[c.head].datasetId, now),
               if Gate(t, queue, now).Some? then 1 else BatchLimit(batch), c.top)
  }

  function Deferred(j: Job, delayMs: int, now: Time): Job {
    j.(runAt := now + delayMs * MILLISECOND, updatedAt := now)
  }

  function DecisionFor(t: Table, queue: string, dataset: string, id: Uuid, reason: Reason, now: Time): Decision
    requires queue in t.policies
  {
    var p := t.policies[queue];
    if reason.InFlightExceeded? then
      Decision(dataset, id, reason, InFlight(t.jobs, queue), p.maxInFlight, p.throttleDelayMs)
    else
      Decision(dataset, id, reason, RecentStarts(t, queue, now), p.maxAttemptsPerMinute, p.throttleDelayMs)
  }

  /** Postpones the first candidate and records why. */
  function Throttle(t: Table, queue: string, dataset: string, id: Uuid, reason: Reason, now: Time): Table
    requires queue in t.policies && id in t.jobs
  {
    t.(jobs := t.jobs[id := Deferred(t.jobs[id], t.policies[queue].throttleDelayMs, now)],
       decisions := t.decisions + [DecisionFor(t, queue, dataset, id, reason, now)])
  }

  lemma TopIsDue(jobs: map<Uuid, Job>, ordering: QueueOrdering, queue: string, dataset: string, now: Time, n: nat,
                 top: seq<QueueEntry>)
    requires Keyed(jobs) && IsTop(ordering, DueIn(jobs, queue, dataset, now), n, top)
    ensures forall e | e in top ::
      e.id in jobs && Due(jobs[e.id], queue, now) && jobs[e.id].datasetId == dataset && e == FromJob(jobs[e.id])
  {
    hide Precedes, Unlike;
    forall e | e in top
      ensures e in DueIn(jobs, queue, dataset, now)
    {
      assert e in Elements(top);
    }
  }

  lemma TopNotEmpty(jobs: map<Uuid, Job>, ordering: QueueOrdering, queue: string, now: Time, head: Uuid, n: nat,
                    top: seq<QueueEntry>)
    requires IsHead(jobs, queue, now, head) && n > 0
    requires IsTop(ordering, DueIn(jobs, queue, jobs[head].datasetId, now), n, top)
    ensures top != []
  {
    assert FromJob(jobs[head]) in DueIn(jobs, queue, jobs[head].datasetId, now);
  }

  /** The table after the call. */
  ghost function Outcome(s: Table, queue: string, worker: string, seconds: int, batch: int, ordering: QueueOrdering,
                         now: Time, c: Choice): Table
    requires Keyed(s.jobs) && Possible(s, queue, batch, ordering, now, c)
  {
    var t := Swept(s, queue, now);
    if !AnyDue(t.jobs, queue, now) then t
    else
      var gate, dataset := Gate(t, queue, now), t.jobs[c.head].datasetId;
      SweptIsKeyed(s.jobs, queue, now);
      if gate.Some? then
        TopNotEmpty(t.jobs, ordering, queue, now, c.head, 1, c.top);
        TopIsDue(t.jobs, ordering, queue, dataset, now, 1, c.top);
        assert c.top[0] in c.top;
        Throttle(t, queue, dataset, c.top[0].id, gate.value, now)
      else
        t.(jobs := MarkLeased(t.jobs, Ids(c.top), worker, now + seconds * SECOND, now))
  }

  /** The entries whose jobs the call returns. */
  ghost function LeasedEntries(s: Table, queue: string, now: Time, c: Choice): seq<QueueEntry> {
    var t := Swept(s, queue, now);
    if AnyDue(t.jobs, queue, now) && Gate(t, queue, now).None? then c.top else []
  }

  // How many jobs run

  lemma SweepSparesRunning(jobs: map<Uuid, Job>, queue: string, now: Time, q: string)
    ensures RunningIn(Sweep(jobs, queue, now), q) == RunningIn(jobs, q)
  {
  }

  lemma {:induction false} IdsCount(entries: seq<QueueEntry>)
    requires forall i, k | 0 <= i < k < |entries| :: entries[i].id != entries[k].id
    ensures |Ids(entries)| == |entries|
    decreases |entries|
  {
    if entries == [] {
      assert Ids(entries) == {};
    } else {
      var k := |entries| - 1;
      IdsGrow(entries, k);
      assert entries[..k + 1] == entries;
      IdsCount(entries[..k]);
      assert entries[k].id !in Ids(entries[..k]);
    }
  }

  lemma TopIdsCount(jobs: map<Uuid, Job>, ordering: QueueOrdering, queue: string, dataset: string, now: Time, n: nat,
                    top: seq<QueueEntry>)
    requires Keyed(jobs) && IsTop(ordering, DueIn(jobs, queue, dataset, now), n, top)
    ensures |Ids(top)| == |top|
  {
    TopIsDue(jobs, ordering, queue, dataset, now, n, top);
    hide Precedes, Due, Keyed;
    forall i, k | 0 <= i < k < |top|
      ensures top[i].id != top[k].id
    {
      assert top[i] in top && top[k] in top;
    }
    IdsCount(top);
  }

  /** Leasing queued jobs of one queue adds that many to its running jobs and none to another's. */
  lemma LeasedRun(jobs: map<Uuid, Job>, ids: set<Uuid>, queue: string, worker: string, expires: Time, now: Time,
                  q: string)
    requires forall id | id in ids :: id in jobs && Due(jobs[id], queue, now)
    ensures InFlight(MarkLeased(jobs, ids, worker, expires, now), q)
         == InFlight(jobs, q) + if q == queue then |ids| else 0
  {
    var after := RunningIn(MarkLeased(jobs, ids, worker, expires, now), q);
    if q == queue {
      assert after == RunningIn(jobs, q) + ids;
      assert RunningIn(jobs, q) !! ids;
    } else {
      assert after == RunningIn(jobs, q);
    }
  }

  lemma DeferredIsKeyed(jobs: map<Uuid, Job>, id: Uuid, delayMs: int, now: Time)
    requires Keyed(jobs) && id in jobs
    ensures Keyed(jobs[id := Deferred(jobs[id], delayMs, now)])
  {
  }

  lemma DeferralSparesRunning(jobs: map<Uuid, Job>, id: Uuid, delayMs: int, now: Time, q: string)
    requires id in jobs
    ensures RunningIn(jobs[id := Deferred(jobs[id], delayMs, now)], q) == RunningIn(jobs, q)
  {
  }

  /** A call raises the count of its own queue by what it leases, and no other. */
  lemma CallInFlight(s: Table, queue: string, worker: string, seconds: int, batch: int, ordering: QueueOrdering,
                     now: Time, c: Choice, q: string)
    requires Keyed(s.jobs) && Possible(s, queue, batch, ordering, now, c)
    ensures InFlight(Outcome(s, queue, worker, seconds, batch, ordering, now, c).jobs, q)
         == InFlight(s.jobs, q) + if q == queue then |LeasedEntries(s, queue, now, c)| else 0
    ensures |LeasedEntries(s, queue, now, c)| <= BatchLimit(batch)
  {
    hide RecentStarts, Sweep, RunningIn, MarkLeased, Keyed, DueIn, Precedes, Deferred;
    var t := Swept(s, queue, now);
    SweepSparesRunning(s.jobs, queue, now, q);
    SweepSparesRunning(s.jobs, queue, now, queue);
    if AnyDue(t.jobs, queue, now) {
      SweptIsKeyed(s.jobs, queue, now);
      var dataset := t.jobs[c.head].datasetId;
      var n := if Gate(t, queue, now).Some? then 1 else BatchLimit(batch);
      TopIsDue(t.jobs, ordering, queue, dataset, now, n, c.top);
      if Gate(t, queue, now).Some? {
        TopNotEmpty(t.jobs, ordering, queue, now, c.head, 1, c.top);
        assert c.top[0] in c.top;
        DeferralSparesRunning(t.jobs, c.top[0].id, t.policies[queue].throttleDelayMs, now, q);
      } else {
        TopIdsCount(t.jobs, ordering, queue, dataset, now, n, c.top);
        LeasedRun(t.jobs, Ids(c.top), queue, worker, now + seconds * SECOND, now, q);
      }
    }
  }

  /** Nothing is leased while as many jobs run as the policy allows. */
  lemma GateHolds(s: Table, queue: string, now: Time, c: Choice)
    requires queue in s.policies && InFlight(s.jobs, queue) >= s.policies[queue].maxInFlight
    ensures LeasedEntries(s, queue, now, c) == []
  {
    hide Sweep, RunningIn, RecentStarts;
    SweepSparesRunning(s.jobs, queue, now, queue);
  }

  datatype StormStep =
    | Call(queue: string, worker: string, seconds: int, batch: int, ordering: QueueOrdering, now: Time, choice: Choice)
    | Other

  /** Calls one after another, on any queue, between steps of any kind that start no job of `queue`. */
  ghost predicate IsStormRun(tables: seq<Table>, steps: seq<StormStep>, queue: string, policy: Policy, largest: nat) {
    && |tables| == |steps| + 1
    && Keyed(tables[0].jobs)
    && (forall i | 0 <= i < |tables| :: queue in tables[i].policies && tables[i].policies[queue] == policy)
    && forall i | 0 <= i < |steps| :: StormStepOk(tables[i], tables[i + 1], steps[i], queue, largest)
  }

  ghost predicate StormStepOk(s: Table, t: Table, step: StormStep, queue: string, largest: nat) {
    match step
    case Call(q, worker, seconds, batch, ordering, now, c) =>
      && Possible(s, q, batch, ordering, now, c) && (q == queue ==> BatchLimit(batch) <= largest)
      && (Keyed(s.jobs) ==> t == Outcome(s, q, worker, seconds, batch, ordering, now, c))
    case Other => Keyed(t.jobs) && InFlight(t.jobs, queue) <= InFlight(s.jobs, queue)
  }

  /** A call leaves every row under its own id. */
  lemma OutcomeIsKeyed(s: Table, queue: string, worker: string, seconds: int, batch: int, ordering: QueueOrdering,
                       now: Time, c: Choice)
    requires Keyed(s.jobs) && Possible(s, queue, batch, ordering, now, c)
    ensures Keyed(Outcome(s, queue, worker, seconds, batch, ordering, now, c).jobs)
  {
    hide Sweep, RunningIn, RecentStarts, DueIn, Precedes, MarkLeased, Keyed;
    var t := Swept(s, queue, now);
    SweptIsKeyed(s.jobs, queue, now);
    if AnyDue(t.jobs, queue, now) && Gate(t, queue, now).Some? {
      TopNotEmpty(t.jobs, ordering, queue, now, c.head, 1, c.top);
      TopIsDue(t.jobs, ordering, queue, t.jobs[c.head].datasetId, now, 1, c.top);
      assert c.top[0] in c.top;
      DeferredIsKeyed(t.jobs, c.top[0].id, t.policies[queue].throttleDelayMs, now);
    }
    LeasedIsKeyed(t.jobs, Ids(c.top), worker, now + seconds * SECOND, now);
  }

  lemma {:induction false} KeyedAlways(tables: seq<Table>, steps: seq<StormStep>, queue: string, policy: Policy,
                                       largest: nat, i: nat)
    requires IsStormRun(tables, steps, queue, policy, largest) && i < |tables|
    ensures Keyed(tables[i].jobs)
  {
    hide Keyed, Outcome, Possible, InFlight;
    if i > 0 {
      KeyedAlways(tables, steps, queue, policy, largest, i - 1);
      var step := steps[i - 1];
      assert StormStepOk(tables[i - 1], tables[i - 1 + 1], step, queue, largest);
      if step.Call? {
        OutcomeIsKeyed(tables[i - 1], step.queue, step.worker, step.seconds, step.batch, step.ordering, step.now,
                       step.choice);
      }
    }
  }

  /** Every operation on a job table but a lease is such a step. */
  lemma OnlyLeasesStart(s: State, now: Time, op: Op, queue: string)
    requires KeysOk(s) && Legal(s, op) && !op.OpLease?
    ensures InFlight(Apply(s, now, op).jobs, queue) <= InFlight(s.jobs, queue)
  {
    hide Apply, Legal, KeysOk, MoveOf, ApplyMove;
    var t := Apply(s, now, op);
    forall id | id in RunningIn(t.jobs, queue)
      ensures id in RunningIn(s.jobs, queue)
    {
      if id in s.jobs {
        LocalMove(s, now, op, id);
        MoveCause(s, now, op, id);
        OnlyGrantStarts(s.jobs[id], now, MoveOf(s, now, op, id));
      } else {
        if id in s.archive {
          ArchiveStays(s, now, op, id);
        }
        OnlyAdded(s, now, op, id);
        AddedIsQueued(s, now, op);
      }
    }
    assert RunningIn(s.jobs, queue) == RunningIn(t.jobs, queue) + (RunningIn(s.jobs, queue) - RunningIn(t.jobs, queue));
  }

  lemma OnlyGrantStarts(j: Job, now: Time, m: Move)
    requires !m.Grant? && ApplyMove(j, now, m).status.Running?
    ensures j.status.Running? && ApplyMove(j, now, m).queue == j.queue
  {
  }

  lemma StepInFlight(s: Table, t: Table, step: StormStep, queue: string, largest: nat)
    requires Keyed(s.jobs) && queue in s.policies && StormStepOk(s, t, step, queue, largest)
    ensures InFlight(t.jobs, queue) <= InFlight(s.jobs, queue)
         || (InFlight(s.jobs, queue) < s.policies[queue].maxInFlight &&
             InFlight(t.jobs, queue) <= InFlight(s.jobs, queue) + largest)
  {
    hide Outcome, Possible, LeasedEntries, InFlight, Keyed;
    if step.Call? {
      CallInFlight(s, step.queue, step.worker, step.seconds, step.batch, step.ordering, step.now, step.choice, queue);
      if step.queue == queue && InFlight(s.jobs, queue) >= s.policies[queue].maxInFlight {
        GateHolds(s, queue, step.now, step.choice);
      }
    }
  }

  function Bound(initial: nat, policy: Policy, largest: nat): int {
    if initial > policy.maxInFlight - 1 + largest then initial else policy.maxInFlight - 1 + largest
  }

  /** The running jobs of a queue never exceed what they were at first, or the cap less one plus the largest batch. */
  lemma {:induction false} InFlightBound(tables: seq<Table>, steps: seq<StormStep>, queue: string, policy: Policy,
                                         largest: nat, i: nat)
    requires IsStormRun(tables, steps, queue, policy, largest) && i < |tables|
    ensures InFlight(tables[i].jobs, queue) <= Bound(InFlight(tables[0].jobs, queue), policy, largest)
  {
    hide InFlight, StormStepOk, Keyed;
    if i > 0 {
      InFlightBound(tables, steps, queue, policy, largest, i - 1);
      var t := tables[i - 1];
      KeyedAlways(tables, steps, queue, policy, largest, i - 1);
      assert StormStepOk(tables[i - 1], tables[i - 1 + 1], steps[i - 1], queue, largest);
      StepInFlight(t, tables[i], steps[i - 1], queue, largest);
    }
  }

  /** One call on a queue that is one short of its cap and has enough due jobs in the dataset served meets the bound. */
  lemma BoundIsReached(s: Table, queue: string, worker: string, seconds: int, batch: int, ordering: QueueOrdering,
                       now: Time, c: Choice)
    requires Keyed(s.jobs) && Possible(s, queue, batch, ordering, now, c)
    requires var t := Swept(s, queue, now);
      && queue in s.policies && InFlight(s.jobs, queue) == s.policies[queue].maxInFlight - 1
      && RecentStarts(t, queue, now) < s.policies[queue].maxAttemptsPerMinute
      && AnyDue(t.jobs, queue, now)
      && |DueIn(t.jobs, queue, t.jobs[c.head].datasetId, now)| >= BatchLimit(batch)
    ensures InFlight(Outcome(s, queue, worker, seconds, batch, ordering, now, c).jobs, queue)
         == s.policies[queue].maxInFlight - 1 + BatchLimit(batch)
  {
    hide Outcome, Sweep, RunningIn, RecentStarts, DueIn, Precedes, Keyed;
    SweepSparesRunning(s.jobs, queue, now, queue);
    CallInFlight(s, queue, worker, seconds, batch, ordering, now, c, queue);
  }

  // What a refused call does

  /**
   * A refused call leases nothing and, compared with the table its deadline sweep leaves, changes no status, gives one
   * due job a later time and records one decision about it.
   */
  lemma ThrottledCall(s: Table, queue: string, worker: string, seconds: int, batch: int, ordering: QueueOrdering,
                      now: Time, c: Choice) returns (id: Uuid)
    requires Keyed(s.jobs) && Possible(s, queue, batch, ordering, now, c)
    requires var t := Swept(s, queue, now); AnyDue(t.jobs, queue, now) && Gate(t, queue, now).Some?
    ensures var t, u := Swept(s, queue, now), Outcome(s, queue, worker, seconds, batch, ordering, now, c);
      && LeasedEntries(s, queue, now, c) == []
      && u.jobs.Keys == t.jobs.Keys && id in t.jobs && Due(t.jobs[id], queue, now)
      && (forall x | x in t.jobs :: u.jobs[x].status == t.jobs[x].status)
      && (forall x | x in t.jobs && x != id :: u.jobs[x] == t.jobs[x])
      && u.jobs[id].runAt == now + s.policies[queue].throttleDelayMs * MILLISECOND
      && |u.decisions| == |s.decisions| + 1 && u.decisions[..|s.decisions|] == s.decisions
      && var d := u.decisions[|s.decisions|];
         d.jobId == id && d.datasetId == t.jobs[id].datasetId && d.measured >= d.allowed
  {
    hide Sweep, RunningIn, RecentStarts, DueIn, Precedes, Keyed;
    var t := Swept(s, queue, now);
    SweptIsKeyed(s.jobs, queue, now);
    TopNotEmpty(t.jobs, ordering, queue, now, c.head, 1, c.top);
    TopIsDue(t.jobs, ordering, queue, t.jobs[c.head].datasetId, now, 1, c.top);
    assert c.top[0] in c.top;
    id := c.top[0].id;
  }

  function DueIds(jobs: map<Uuid, Job>, queue: string, now: Time): set<Uuid> {
    set id | id in jobs && Due(jobs[id], queue, now)
  }

  /** A refused call takes a job out of the due ones exactly when the policy's delay is positive. */
  lemma ThrottlingDrains(s: Table, queue: string, worker: string, seconds: int, batch: int, ordering: QueueOrdering,
                         now: Time, c: Choice)
    requires Keyed(s.jobs) && Possible(s, queue, batch, ordering, now, c)
    requires var t := Swept(s, queue, now); AnyDue(t.jobs, queue, now) && Gate(t, queue, now).Some?
    ensures var t, u := Swept(s, queue, now), Outcome(s, queue, worker, seconds, batch, ordering, now, c);
      |DueIds(u.jobs, queue, now)|
      == |DueIds(t.jobs, queue, now)| - if s.policies[queue].throttleDelayMs > 0 then 1 else 0
  {
    hide Sweep, RunningIn, RecentStarts, DueIn, Precedes, Keyed, IsTop;
    var t := Swept(s, queue, now);
    SweptIsKeyed(s.jobs, queue, now);
    TopNotEmpty(t.jobs, ordering, queue, now, c.head, 1, c.top);
    TopIsDue(t.jobs, ordering, queue, t.jobs[c.head].datasetId, now, 1, c.top);
    assert c.top[0] in c.top;
    DeferralDrains(t.jobs, c.top[0].id, queue, s.policies[queue].throttleDelayMs, now);
  }

  lemma DeferralDrains(jobs: map<Uuid, Job>, id: Uuid, queue: string, delayMs: int, now: Time)
    requires id in jobs && Due(jobs[id], queue, now)
    ensures |DueIds(jobs[id := Deferred(jobs[id], delayMs, now)], queue, now)|
         == |DueIds(jobs, queue, now)| - if delayMs > 0 then 1 else 0
  {
    var after := DueIds(jobs[id := Deferred(jobs[id], delayMs, now)], queue, now);
    if delayMs > 0 {
      assert after == DueIds(jobs, queue, now) - {id};
    } else {
      assert after == DueIds(jobs, queue, now);
    }
  }

  // The order of a batch

  lemma Finer(ordering: QueueOrdering, a: QueueEntry, b: QueueEntry)
    requires Before(a, b)
    ensures a != b && !Precedes(ordering, b, a)
  {
  }

  lemma PrefixFirst(ordering: QueueOrdering, all: seq<QueueEntry>, n: nat)
    requires Ascending(Before, all) && n <= |all|
    ensures Unlike(all[..n])
    ensures forall i, k | 0 <= i < k < n :: !Precedes(ordering, all[..n][k], all[..n][i])
    ensures forall e, i | e in all && e !in all[..n] && 0 <= i < n :: !Precedes(ordering, e, all[..n][i])
  {
    hide Before, Precedes;
    forall i, k | 0 <= i < k < |all|
      ensures all[i] != all[k] && !Precedes(ordering, all[k], all[i])
    {
      Finer(ordering, all[i], all[k]);
    }
    forall e, i | e in all && e !in all[..n] && 0 <= i < n
      ensures !Precedes(ordering, e, all[..n][i])
    {
      var k :| 0 <= k < |all| && all[k] == e;
      assert k >= n;
    }
  }

  /** Whatever the ordering, sorting all candidates in full and taking the first `n` is a possible choice. */
  lemma SortedIsTop(ordering: QueueOrdering, candidates: set<QueueEntry>, n: nat)
    ensures StrictTotal(Before)
    ensures IsTop(ordering, candidates, n, Take(SortSet(Before, candidates), n))
  {
    hide Before, Precedes, StrictTotal, Ascending, SortSet, Unlike;
    BeforeIsStrictTotal();
    var all := SortSet(Before, candidates);
    var top := Take(all, n);
    assert top == all[..|top|];
    PrefixFirst(ordering, all, |top|);
    assert forall e :: e in all <==> e in Elements(all);
  }

  lemma FifoUnlessAfter(a: QueueEntry, b: QueueEntry)
    requires a != b && !Precedes(Fifo, b, a)
    ensures Before(a, b)
  {
  }

  lemma JoinAscending(a: seq<QueueEntry>, b: seq<QueueEntry>)
    requires Ascending(Before, a) && Ascending(Before, b)
    requires forall x, y | x in a && y in b :: Before(x, y)
    ensures Ascending(Before, a + b)
  {
    hide Before;
    forall i, k | 0 <= i < k < |a + b|
      ensures Before((a + b)[i], (a + b)[k])
    {
      if i >= |a| {
        assert Before(b[i - |a|], b[k - |a|]);
      } else if k >= |a| {
        assert a[i] in a && b[k - |a|] in b;
      }
    }
  }

  lemma ElementsJoin(a: seq<QueueEntry>, b: seq<QueueEntry>)
    ensures Elements(a + b) == Elements(a) + Elements(b)
  {
  }

  lemma TopAscends(candidates: set<QueueEntry>, n: nat, top: seq<QueueEntry>)
    requires IsTop(Fifo, candidates, n, top)
    ensures Ascending(Before, top)
    ensures forall x, y | x in top && y in candidates && y !in top :: Before(x, y)
  {
    hide Before, Precedes;
    forall i, k | 0 <= i < k < |top|
      ensures Before(top[i], top[k])
    {
      FifoUnlessAfter(top[i], top[k]);
    }
    forall x, y | x in top && y in candidates && y !in top
      ensures Before(x, y)
    {
      FifoUnlessAfter(x, y);
    }
  }

  /** With `Fifo` there is no other choice. */
  lemma FifoTopIsSorted(candidates: set<QueueEntry>, n: nat, top: seq<QueueEntry>)
    requires IsTop(Fifo, candidates, n, top)
    ensures StrictTotal(Before)
    ensures top == Take(SortSet(Before, candidates), n)
  {
    hide Before, Precedes, StrictTotal, Ascending, SortSet;
    BeforeIsStrictTotal();
    var rest := candidates - Elements(top);
    var tail := SortSet(Before, rest);
    TopAscends(candidates, n, top);
    assert forall y | y in tail :: y in Elements(tail);
    JoinAscending(top, tail);
    ElementsJoin(top, tail);
    SortSetUnique(Before, candidates, top + tail);
    assert Take(top + tail, |top|) == top;
  }

  /** Every job of a batch is of one dataset, and no due job of it outside the batch comes before one inside. */
  lemma BatchIsTopOfOneDataset(s: Table, queue: string, batch: int, ordering: QueueOrdering, now: Time, c: Choice)
      returns (dataset: string)
    requires Keyed(s.jobs) && Possible(s, queue, batch, ordering, now, c)
    ensures var t, leased := Swept(s, queue, now), LeasedEntries(s, queue, now, c);
      && (forall e | e in leased :: e.id in t.jobs && e == FromJob(t.jobs[e.id]) && t.jobs[e.id].datasetId == dataset)
      && (leased != [] ==> forall e | e in DueIn(t.jobs, queue, dataset, now) && e !in leased ::
            |leased| == BatchLimit(batch) && forall i | 0 <= i < |leased| :: !Precedes(ordering, e, leased[i]))
      && (ordering.Fifo? && leased != [] ==>
            StrictTotal(Before) &&
            leased == Take(SortSet(Before, DueIn(t.jobs, queue, dataset, now)), BatchLimit(batch)))
  {
    hide Sweep, RunningIn, RecentStarts, Precedes, StrictTotal, Before, DueIn, Due, Keyed;
    var t, leased := Swept(s, queue, now), LeasedEntries(s, queue, now, c);
    dataset := "";
    if leased != [] {
      dataset := t.jobs[c.head].datasetId;
      var candidates := DueIn(t.jobs, queue, dataset, now);
      SweptIsKeyed(s.jobs, queue, now);
      TopIsDue(t.jobs, ordering, queue, dataset, now, BatchLimit(batch), leased);
      if ordering.Fifo? {
        FifoTopIsSorted(candidates, BatchLimit(batch), leased);
      }
      forall e | e in candidates && e !in leased
        ensures |leased| == BatchLimit(batch)
      {
        LeftOut(candidates, leased, e);
      }
    }
  }

  lemma {:induction false} LeftOut(candidates: set<QueueEntry>, top: seq<QueueEntry>, e: QueueEntry)
    requires Elements(top) <= candidates && Unlike(top) && e in candidates && e !in top
    ensures |top| < |candidates|
    decreases |top|
  {
    if top != [] {
      var x := top[|top| - 1];
      var front := top[..|top| - 1];
      assert x in Elements(top);
      forall y | y in front
        ensures y in candidates - {x}
      {
        assert y in Elements(top);
      }
      LeftOut(candidates - {x}, front, e);
    }
  }

  // A call, field by field

  predicate ComesFirst(ordering: QueueOrdering, a: Job, b: Job) {
    match ordering
    case Fifo => RunsFirst(a, b)
    case Fastest => a.priority > b.priority || (a.priority == b.priority && a.runAt < b.runAt)
  }

  /** Each row was eligible and is leased to the worker; no row is returned twice. */
  ghost predicate RowsLeased(before: map<Uuid, Job>, after: map<Uuid, Job>, leased: seq<Job>, queue: string,
                             worker: string, seconds: int, now: Time) {
    && (forall i | 0 <= i < |leased| ::
          var id := leased[i].id;
          && id in before && id in after && Eligible(before[id], queue, now) && after[id] == leased[i]
          && leased[i] == before[id].(
               status := Running, lockedAt := Some(now), lockedBy := Some(worker),
               lockExpiresAt := Some(now + seconds * SECOND), updatedAt := now))
    && (forall i, k | 0 <= i < k < |leased| :: leased[i].id != leased[k].id)
  }

  /** The rows not returned, nor deferred, are as they were, or dead-lettered if late. */
  ghost predicate OthersKept(before: map<Uuid, Job>, after: map<Uuid, Job>, leased: seq<Job>, deferred: set<Uuid>,
                             queue: string, now: Time) {
    && after.Keys == before.Keys
    && forall id | id in before && id !in RowIds(leased) && id !in deferred ::
         after[id] ==
           if TooLate(before[id], queue, now) then
             before[id].(status := Dlq, dlqReason := Some("DEADLINE_EXCEEDED"), dlqAt := Some(now), updatedAt := now)
           else before[id]
  }

  /** An eligible row that no other eligible row of the queue precedes by run time and creation. */
  ghost predicate Oldest(jobs: map<Uuid, Job>, queue: string, now: Time, head: Uuid) {
    && head in jobs && Eligible(jobs[head], queue, now)
    && forall other | other in jobs && Eligible(jobs[other], queue, now) ::
         jobs[head].runAt < jobs[other].runAt ||
         (jobs[head].runAt == jobs[other].runAt && jobs[head].createdAt <= jobs[other].createdAt)
  }

  /** The rows are the first `most` of one dataset, the one of the oldest eligible row. */
  ghost predicate FirstOfOldest(jobs: map<Uuid, Job>, leased: seq<Job>, head: Uuid, queue: string,
                                ordering: QueueOrdering, most: int, now: Time) {
    && Oldest(jobs, queue, now, head) && |leased| <= most
    && (forall i | 0 <= i < |leased| :: leased[i].datasetId == jobs[head].datasetId)
    && (forall i, k | 0 <= i < k < |leased| :: !ComesFirst(ordering, leased[k], leased[i]))
    && (forall id | id in jobs && Eligible(jobs[id], queue, now) && jobs[id].datasetId == jobs[head].datasetId &&
                    id !in RowIds(leased) ::
          |leased| == most && forall i | 0 <= i < |leased| :: !ComesFirst(ordering, jobs[id], leased[i]))
  }

  ghost function RunningRows(s: Table, queue: string): set<Uuid> {
    set id | id in s.jobs && s.jobs[id].queue == queue && s.jobs[id].status == Running
  }

  ghost function LastMinute(s: Table, queue: string, now: Time): set<Uuid> {
    set a | a in s.attempts && s.attempts[a].jobId in s.jobs && s.attempts[a].startedAt >= now - 60 * SECOND
            && s.jobs[s.attempts[a].jobId].queue == queue
            && s.jobs[s.attempts[a].jobId].datasetId == s.attempts[a].datasetId
  }

  /** The decision about a refused row: the cap that was met, in-flight before rate. */
  ghost predicate DecidedOn(d: Decision, s: Table, queue: string, id: Uuid, now: Time)
    requires queue in s.policies && id in s.jobs
  {
    var p, running, recent := s.policies[queue], |RunningRows(s, queue)|, |LastMinute(s, queue, now)|;
    d == if running >= p.maxInFlight then
           Decision(s.jobs[id].datasetId, id, InFlightExceeded, running, p.maxInFlight, p.throttleDelayMs)
         else Decision(s.jobs[id].datasetId, id, RetryRateExceeded, recent, p.maxAttemptsPerMinute, p.throttleDelayMs)
  }

  /** The queue has a policy and one of its caps is met. */
  ghost predicate Capped(s: Table, queue: string, now: Time) {
    queue in s.policies &&
    (|RunningRows(s, queue)| >= s.policies[queue].maxInFlight ||
     |LastMinute(s, queue, now)| >= s.policies[queue].maxAttemptsPerMinute)
  }

  /** The whole of a call: nothing eligible, a refusal that defers the first row, or a lease. */
  ghost predicate CallDone(s: Table, t: Table, leased: seq<Job>, queue: string, worker: string, seconds: int,
                           batch: int, ordering: QueueOrdering, now: Time) {
    && t.attempts == s.attempts && t.policies == s.policies
    && RowsLeased(s.jobs, t.jobs, leased, queue, worker, seconds, now)
    && (if forall id | id in s.jobs :: !Eligible(s.jobs[id], queue, now) then
          leased == [] && OthersKept(s.jobs, t.jobs, leased, {}, queue, now) && t.decisions == s.decisions
        else exists head :: Served(s, t, leased, head, queue, batch, ordering, now))
  }

  ghost predicate Served(s: Table, t: Table, leased: seq<Job>, head: Uuid, queue: string, batch: int,
                         ordering: QueueOrdering, now: Time) {
    && Oldest(s.jobs, queue, now, head)
    && (if Capped(s, queue, now) then leased == [] && exists id :: Refused(s, t, head, id, queue, ordering, now)
        else
          && leased != [] && FirstOfOldest(s.jobs, leased, head, queue, ordering, Clamp(batch, 1, 4096), now)
          && OthersKept(s.jobs, t.jobs, leased, {}, queue, now) && t.decisions == s.decisions)
  }

  /** Row `id`, the first of the dataset of the oldest row, is deferred, and the decision is recorded. */
  ghost predicate Refused(s: Table, t: Table, head: Uuid, id: Uuid, queue: string, ordering: QueueOrdering, now: Time) {
    && queue in s.policies && id in s.jobs && id in t.jobs && head in s.jobs && Eligible(s.jobs[id], queue, now)
    && FirstOfOldest(s.jobs, [s.jobs[id]], head, queue, ordering, 1, now)
    && t.jobs[id] == s.jobs[id].(
         runAt := now + s.policies[queue].throttleDelayMs * MILLISECOND, updatedAt := now)
    && OthersKept(s.jobs, t.jobs, [], {id}, queue, now)
    && |t.decisions| == |s.decisions| + 1 && t.decisions[..|s.decisions|] == s.decisions
    && DecidedOn(t.decisions[|s.decisions|], s, queue, id, now)
  }

  /** What a sweep leaves due is what was eligible, as it was. */
  lemma SweptRow(jobs: map<Uuid, Job>, queue: string, now: Time, id: Uuid)
    requires id in jobs
    ensures var t := Sweep(jobs, queue, now);
      && id in t && (Due(t[id], queue, now) <==> Eligible(jobs[id], queue, now))
      && (Eligible(jobs[id], queue, now) ==> t[id] == jobs[id])
      && t[id] == if TooLate(jobs[id], queue, now) then
                    jobs[id].(status := Dlq, dlqReason := Some("DEADLINE_EXCEEDED"), dlqAt := Some(now),
                         updatedAt := now)
                  else jobs[id]
  {
  }

  lemma HeadIsOldest(s: Table, queue: string, now: Time, head: Uuid)
    requires IsHead(Sweep(s.jobs, queue, now), queue, now, head)
    ensures Oldest(s.jobs, queue, now, head)
    ensures Sweep(s.jobs, queue, now)[head] == s.jobs[head]
  {
    hide Sweep, Eligible, Due;
    forall id | id in s.jobs
      ensures id in Sweep(s.jobs, queue, now)
      ensures Due(Sweep(s.jobs, queue, now)[id], queue, now) <==> Eligible(s.jobs[id], queue, now)
      ensures Eligible(s.jobs[id], queue, now) ==> Sweep(s.jobs, queue, now)[id] == s.jobs[id]
    {
      SweptRow(s.jobs, queue, now, id);
    }
    SweepAddsNone(s.jobs, queue, now);
  }

  lemma SweepAddsNone(jobs: map<Uuid, Job>, queue: string, now: Time)
    ensures Sweep(jobs, queue, now).Keys == jobs.Keys
  {
  }

  lemma PrecedesByFields(ordering: QueueOrdering, a: Job, b: Job)
    ensures Precedes(ordering, FromJob(a), FromJob(b)) <==> ComesFirst(ordering, a, b)
  {
  }

  lemma LeasedKey(j: Job, k: Job, worker: string, seconds: int, now: Time)
    requires k == LeaseJob(j, worker, now + seconds * SECOND, now)
    ensures FromJob(k) == FromJob(j) && k.id == j.id && k.datasetId == j.datasetId
  {
  }

  /** The candidates of a dataset are its eligible rows. */
  lemma Candidate(s: Table, queue: string, dataset: string, now: Time, id: Uuid)
    requires id in s.jobs && Eligible(s.jobs[id], queue, now) && s.jobs[id].datasetId == dataset
    ensures FromJob(s.jobs[id]) in DueIn(Sweep(s.jobs, queue, now), queue, dataset, now)
  {
    hide Sweep;
    SweptRow(s.jobs, queue, now, id);
  }

  /** A possible choice of `n` is, on the fields, the first `n` of the dataset of the oldest row. */
  lemma TopByFields(s: Table, queue: string, ordering: QueueOrdering, n: nat, now: Time, head: Uuid,
                    top: seq<QueueEntry>, rows: seq<Job>)
    requires Keyed(s.jobs) && IsHead(Sweep(s.jobs, queue, now), queue, now, head)
    requires IsTop(ordering, DueIn(Sweep(s.jobs, queue, now), queue, Sweep(s.jobs, queue, now)[head].datasetId, now), n,
                   top)
    requires |rows| == |top| && forall i | 0 <= i < |rows| ::
      && FromJob(rows[i]) == top[i] && top[i].id in s.jobs && rows[i].datasetId == s.jobs[top[i].id].datasetId
    ensures FirstOfOldest(s.jobs, rows, head, queue, ordering, n, now)
    ensures forall e | e in top ::
      && e.id in s.jobs && Eligible(s.jobs[e.id], queue, now) && e == FromJob(s.jobs[e.id])
      && s.jobs[e.id].datasetId == s.jobs[head].datasetId
  {
    hide Precedes, ComesFirst, Due, Eligible, Sweep, IsHead;
    var t := Sweep(s.jobs, queue, now);
    HeadIsRow(t, queue, now, head);
    HeadIsOldest(s, queue, now, head);
    SweptIsKeyed(s.jobs, queue, now);
    TopIsDue(t, ordering, queue, t[head].datasetId, now, n, top);
    SweepAddsNone(s.jobs, queue, now);
    forall e | e in top
      ensures e.id in s.jobs && Eligible(s.jobs[e.id], queue, now) && e == FromJob(s.jobs[e.id])
      ensures s.jobs[e.id].datasetId == s.jobs[head].datasetId
    {
      SweptRow(s.jobs, queue, now, e.id);
    }
    forall i | 0 <= i < |rows|
      ensures rows[i].datasetId == s.jobs[head].datasetId
    {
      assert top[i] in top;
    }
    forall i, k | 0 <= i < k < |rows|
      ensures !ComesFirst(ordering, rows[k], rows[i])
    {
      PrecedesByFields(ordering, rows[k], rows[i]);
    }
    LeftOutByFields(s, queue, ordering, n, now, head, top, rows);
  }

  lemma LeftOutByFields(s: Table, queue: string, ordering: QueueOrdering, n: nat, now: Time, head: Uuid,
                        top: seq<QueueEntry>, rows: seq<Job>)
    requires Keyed(s.jobs) && head in s.jobs
    requires IsTop(ordering, DueIn(Sweep(s.jobs, queue, now), queue, s.jobs[head].datasetId, now), n, top)
    requires |rows| == |top| && forall i | 0 <= i < |rows| :: FromJob(rows[i]) == top[i]
    ensures forall id | id in s.jobs && Eligible(s.jobs[id], queue, now) && id !in RowIds(rows) &&
                        s.jobs[id].datasetId == s.jobs[head].datasetId ::
      |rows| == n && forall i | 0 <= i < |rows| :: !ComesFirst(ordering, s.jobs[id], rows[i])
  {
    hide Precedes, ComesFirst, Eligible, Sweep, DueIn;
    var candidates := DueIn(Sweep(s.jobs, queue, now), queue, s.jobs[head].datasetId, now);
    forall id | id in s.jobs && Eligible(s.jobs[id], queue, now) && id !in RowIds(rows) &&
                s.jobs[id].datasetId == s.jobs[head].datasetId
      ensures |rows| == n && forall i | 0 <= i < |rows| :: !ComesFirst(ordering, s.jobs[id], rows[i])
    {
      var e := FromJob(s.jobs[id]);
      Candidate(s, queue, s.jobs[head].datasetId, now, id);
      assert e !in top by {
        NotAmong(s.jobs, top, rows, id);
      }
      LeftOut(candidates, top, e);
      forall i | 0 <= i < |rows|
        ensures !ComesFirst(ordering, s.jobs[id], rows[i])
      {
        PrecedesByFields(ordering, s.jobs[id], rows[i]);
      }
    }
  }

  lemma NotAmong(jobs: map<Uuid, Job>, top: seq<QueueEntry>, rows: seq<Job>, id: Uuid)
    requires Keyed(jobs) && id in jobs && id !in RowIds(rows)
    requires |rows| == |top| && forall i | 0 <= i < |rows| :: FromJob(rows[i]) == top[i]
    ensures FromJob(jobs[id]) !in top
  {
    forall i | 0 <= i < |top|
      ensures top[i] != FromJob(jobs[id])
    {
      assert rows[i] in rows;
    }
  }

  /** The gate is shut exactly when a cap is met; a sweep does not change what it counts. */
  lemma GateIsCapped(s: Table, queue: string, now: Time)
    ensures Gate(Swept(s, queue, now), queue, now).Some? <==> Capped(s, queue, now)
    ensures InFlight(Swept(s, queue, now).jobs, queue) == |RunningRows(s, queue)|
    ensures RecentStarts(Swept(s, queue, now), queue, now) == |LastMinute(s, queue, now)|
    ensures Capped(s, queue, now) ==>
      (Gate(Swept(s, queue, now), queue, now) == Some(InFlightExceeded) <==>
        |RunningRows(s, queue)| >= s.policies[queue].maxInFlight)
  {
    var t := Swept(s, queue, now);
    SweepSparesRunning(s.jobs, queue, now, queue);
    assert RunningIn(s.jobs, queue) == RunningRows(s, queue);
    SweepAddsNone(s.jobs, queue, now);
    assert LastMinute(s, queue, now) ==
           set a | a in t.attempts && t.attempts[a].jobId in t.jobs &&
                   t.jobs[t.attempts[a].jobId].datasetId == t.attempts[a].datasetId &&
                   t.jobs[t.attempts[a].jobId].queue == queue &&
                   t.attempts[a].startedAt >= now - 60 * SECOND;
  }

  lemma SweptOthers(s: Table, queue: string, now: Time)
    ensures OthersKept(s.jobs, Sweep(s.jobs, queue, now), [], {}, queue, now)
  {
    hide Sweep;
    SweepAddsNone(s.jobs, queue, now);
    forall id | id in s.jobs
      ensures Sweep(s.jobs, queue, now)[id] ==
        if TooLate(s.jobs[id], queue, now) then
          s.jobs[id].(status := Dlq, dlqReason := Some("DEADLINE_EXCEEDED"), dlqAt := Some(now), updatedAt := now)
        else s.jobs[id]
    {
      SweptRow(s.jobs, queue, now, id);
    }
  }

  lemma NothingEligible(s: Table, queue: string, now: Time)
    ensures AnyDue(Sweep(s.jobs, queue, now), queue, now) <==>
      exists id :: id in s.jobs && Eligible(s.jobs[id], queue, now)
  {
    hide Sweep, Eligible, Due;
    SweepAddsNone(s.jobs, queue, now);
    forall id | id in s.jobs
      ensures id in Sweep(s.jobs, queue, now)
      ensures Due(Sweep(s.jobs, queue, now)[id], queue, now) <==> Eligible(s.jobs[id], queue, now)
    {
      SweptRow(s.jobs, queue, now, id);
    }
  }

  lemma LeasedByFields(s: Table, queue: string, worker: string, seconds: int, now: Time, top: seq<QueueEntry>,
                       leased: seq<Job>)
    requires Keyed(s.jobs) && |leased| == |top| && (forall i, k | 0 <= i < k < |top| :: top[i].id != top[k].id)
    requires forall e | e in top :: e.id in s.jobs && Eligible(s.jobs[e.id], queue, now)
    requires var after := MarkLeased(Sweep(s.jobs, queue, now), Ids(top), worker, now + seconds * SECOND, now);
      forall i | 0 <= i < |top| :: top[i].id in after && leased[i] == after[top[i].id]
    ensures var after := MarkLeased(Sweep(s.jobs, queue, now), Ids(top), worker, now + seconds * SECOND, now);
      && RowsLeased(s.jobs, after, leased, queue, worker, seconds, now)
      && OthersKept(s.jobs, after, leased, {}, queue, now)
      && forall i | 0 <= i < |top| :: leased[i] == LeaseJob(s.jobs[top[i].id], worker, now + seconds * SECOND, now)
  {
    hide Sweep, Eligible, TooLate;
    var swept := Sweep(s.jobs, queue, now);
    SweepAddsNone(s.jobs, queue, now);
    forall i | 0 <= i < |top|
      ensures top[i] in top && top[i].id in Ids(top) && swept[top[i].id] == s.jobs[top[i].id]
      ensures leased[i].id == top[i].id
    {
      assert top[i] in top;
      SweptRow(s.jobs, queue, now, top[i].id);
    }
    RowIdsAre(leased, top);
    forall id | id in s.jobs && id !in Ids(top)
      ensures swept[id] ==
        if TooLate(s.jobs[id], queue, now) then
          s.jobs[id].(status := Dlq, dlqReason := Some("DEADLINE_EXCEEDED"), dlqAt := Some(now), updatedAt := now)
        else s.jobs[id]
    {
      SweptRow(s.jobs, queue, now, id);
    }
  }

  /** Everything a call does, on the fields of the rows. */
  lemma CallByFields(s: Table, queue: string, worker: string, seconds: int, batch: int, ordering: QueueOrdering,
                     now: Time, c: Choice, leased: seq<Job>)
    requires Keyed(s.jobs) && Possible(s, queue, batch, ordering, now, c)
    requires var t, entries := Outcome(s, queue, worker, seconds, batch, ordering, now, c), LeasedEntries(s, queue,
         now, c);
      |leased| == |entries| &&
      forall i | 0 <= i < |leased| :: entries[i].id in t.jobs && leased[i] == t.jobs[entries[i].id]
    ensures CallDone(s, Outcome(s, queue, worker, seconds, batch, ordering, now, c), leased, queue, worker, seconds,
                     batch, ordering, now)
  {
    hide Sweep, Gate, Capped, Due, Eligible, IsHead, IsTop, DueIn, MarkLeased, Ids, OthersKept, FirstOfOldest, Oldest;
    hide Refused;
    var t := Swept(s, queue, now);
    NothingEligible(s, queue, now);
    if !AnyDue(t.jobs, queue, now) {
      SweptOthers(s, queue, now);
    } else {
      GateIsCapped(s, queue, now);
      HeadIsOldest(s, queue, now, c.head);
      if Gate(t, queue, now).Some? {
        CallRefused(s, queue, worker, seconds, batch, ordering, now, c);
      } else {
        CallLeases(s, queue, worker, seconds, batch, ordering, now, c, leased);
      }
      assert Served(s, Outcome(s, queue, worker, seconds, batch, ordering, now, c), leased, c.head, queue, batch,
                    ordering, now);
    }
  }

  lemma CallLeases(s: Table, queue: string, worker: string, seconds: int, batch: int, ordering: QueueOrdering,
                   now: Time, c: Choice, leased: seq<Job>)
    requires Keyed(s.jobs) && Possible(s, queue, batch, ordering, now, c)
    requires AnyDue(Swept(s, queue, now).jobs, queue, now) && Gate(Swept(s, queue, now), queue, now).None?
    requires var t := Outcome(s, queue, worker, seconds, batch, ordering, now, c);
      |leased| == |c.top| &&
      forall i | 0 <= i < |leased| :: c.top[i].id in t.jobs && leased[i] == t.jobs[c.top[i].id]
    ensures var t := Outcome(s, queue, worker, seconds, batch, ordering, now, c);
      && leased != [] && RowsLeased(s.jobs, t.jobs, leased, queue, worker, seconds, now)
      && FirstOfOldest(s.jobs, leased, c.head, queue, ordering, Clamp(batch, 1, 4096), now)
      && OthersKept(s.jobs, t.jobs, leased, {}, queue, now)
  {
    hide Sweep, Gate, Due, Eligible, IsHead, DueIn, MarkLeased, Ids, OthersKept, FirstOfOldest, RowsLeased, Precedes;
    var t := Swept(s, queue, now);
    HeadIsRow(t.jobs, queue, now, c.head);
    HeadIsOldest(s, queue, now, c.head);
    SweptIsKeyed(s.jobs, queue, now);
    var n := BatchLimit(batch);
    TopNotEmpty(t.jobs, ordering, queue, now, c.head, n, c.top);
    TopIds(t.jobs, ordering, queue, t.jobs[c.head].datasetId, now, n, c.top);
    hide IsTop;
    TopAreRows(s, queue, ordering, n, now, c.head, c.top);
    LeasedByFields(s, queue, worker, seconds, now, c.top, leased);
    forall i | 0 <= i < |leased|
      ensures FromJob(leased[i]) == c.top[i] && leased[i].datasetId == s.jobs[c.top[i].id].datasetId
    {
      assert c.top[i] in c.top;
      LeasedKey(s.jobs[c.top[i].id], leased[i], worker, seconds, now);
    }
    TopByFields(s, queue, ordering, n, now, c.head, c.top, leased);
  }

  lemma TopIds(jobs: map<Uuid, Job>, ordering: QueueOrdering, queue: string, dataset: string, now: Time, n: nat,
               top: seq<QueueEntry>)
    requires Keyed(jobs) && IsTop(ordering, DueIn(jobs, queue, dataset, now), n, top)
    ensures forall i, k | 0 <= i < k < |top| :: top[i].id != top[k].id
  {
    TopIsDue(jobs, ordering, queue, dataset, now, n, top);
    hide Precedes, Due, Keyed;
    forall i, k | 0 <= i < k < |top|
      ensures top[i].id != top[k].id
    {
      assert top[i] in top && top[k] in top;
    }
  }

  lemma TopAreRows(s: Table, queue: string, ordering: QueueOrdering, n: nat, now: Time, head: Uuid,
                   top: seq<QueueEntry>)
    requires Keyed(s.jobs) && IsHead(Sweep(s.jobs, queue, now), queue, now, head)
    requires IsTop(ordering, DueIn(Sweep(s.jobs, queue, now), queue, Sweep(s.jobs, queue, now)[head].datasetId, now), n,
                   top)
    ensures forall e | e in top ::
      && e.id in s.jobs && Eligible(s.jobs[e.id], queue, now) && e == FromJob(s.jobs[e.id])
      && Sweep(s.jobs, queue, now)[e.id] == s.jobs[e.id]
  {
    hide Precedes, Due, Eligible, Sweep, IsHead, DueIn, IsTop;
    var t := Sweep(s.jobs, queue, now);
    HeadIsRow(t, queue, now, head);
    SweptIsKeyed(s.jobs, queue, now);
    TopIsDue(t, ordering, queue, t[head].datasetId, now, n, top);
    SweepAddsNone(s.jobs, queue, now);
    forall e | e in top
      ensures e.id in s.jobs && Eligible(s.jobs[e.id], queue, now) && e == FromJob(s.jobs[e.id])
      ensures t[e.id] == s.jobs[e.id]
    {
      SweptRow(s.jobs, queue, now, e.id);
    }
  }

  lemma CallRefused(s: Table, queue: string, worker: string, seconds: int, batch: int, ordering: QueueOrdering,
                    now: Time, c: Choice)
    requires Keyed(s.jobs) && Possible(s, queue, batch, ordering, now, c)
    requires AnyDue(Swept(s, queue, now).jobs, queue, now) && Gate(Swept(s, queue, now), queue, now).Some?
    ensures exists id ::
      Refused(s, Outcome(s, queue, worker, seconds, batch, ordering, now, c), c.head, id, queue, ordering, now)
  {
    hide Sweep, Due, Eligible, IsHead, IsTop, DueIn, FirstOfOldest, InFlight, RecentStarts, RunningRows, LastMinute;
    var t := Swept(s, queue, now);
    HeadIsRow(t.jobs, queue, now, c.head);
    HeadIsOldest(s, queue, now, c.head);
    GateIsCapped(s, queue, now);
    TopNotEmpty(t.jobs, ordering, queue, now, c.head, 1, c.top);
    TopSize(t.jobs, ordering, queue, t.jobs[c.head].datasetId, now, c.top);
    TopAreRows(s, queue, ordering, 1, now, c.head, c.top);
    assert c.top[0] in c.top;
    var id := c.top[0].id;
    TopByFields(s, queue, ordering, 1, now, c.head, c.top, [s.jobs[id]]);
    SweptOthers(s, queue, now);
    assert Refused(s, Outcome(s, queue, worker, seconds, batch, ordering, now, c), c.head, id, queue, ordering, now);
  }

  lemma TopSize(jobs: map<Uuid, Job>, ordering: QueueOrdering, queue: string, dataset: string, now: Time,
                top: seq<QueueEntry>)
    requires IsTop(ordering, DueIn(jobs, queue, dataset, now), 1, top) && top != []
    ensures |top| == 1
  {
    hide Precedes, Unlike;
  }

  // The transaction

  class JobsRepo {
    var jobs: map<Uuid, Job>
    var attempts: map<Uuid, Started>
    var policies: map<string, Policy>
    var decisions: seq<Decision>

    ghost function View(): Table
      reads this
    {
      Table(jobs, attempts, policies, decisions)
    }

    constructor (policies: map<string, Policy>)
      ensures View() == Table(map[], map[], policies, [])
    {
      jobs, attempts, this.policies, decisions := map[], map[], policies, [];
    }

    /** `choice` is what the SELECTs came up with. */
    method LeaseJobsBatch(queue: string, worker: string, leaseSeconds: int, batchSize: int, ordering: QueueOrdering,
                          now: Time)
        returns (leased: seq<Job>, ghost choice: Choice)
      requires Keyed(jobs)
      modifies this
      ensures Keyed(jobs)
      ensures Possible(old(View()), queue, batchSize, ordering, now, choice)
      ensures View() == Outcome(old(View()), queue, worker, leaseSeconds, batchSize, ordering, now, choice)
      ensures var entries := LeasedEntries(old(View()), queue, now, choice);
        |leased| == |entries| &&
        forall i | 0 <= i < |leased| :: entries[i].id in jobs && leased[i] == jobs[entries[i].id]
      ensures CallDone(old(View()), View(), leased, queue, worker, leaseSeconds, batchSize, ordering, now)
    {
      hide CallDone;
      hide Sweep, DueIn, Keyed, IsTop, IsHead, Ids, MarkLeased, Deferred, Gate, DecisionFor, Due;
      jobs := Sweep(jobs, queue, now);
      SweptIsKeyed(old(jobs), queue, now);
      leased := [];
      ghost var s := old(View());
      var head := OldestDue(queue, now);
      if head.None? {
        choice := Choice(0, []);
        CallByFields(s, queue, worker, leaseSeconds, batchSize, ordering, now, choice, leased);
        return;
      }
      HeadIsRow(jobs, queue, now, head.value);
      var dataset := jobs[head.value].datasetId;
      var reason, measured, allowed, delay := CheckGate(queue, now);
      if reason.Some? {
        var top := FirstOf(queue, head.value, ordering, 1, now);
        choice := Choice(head.value, top);
        var id := top[0].id;
        assert top[0] in top;
        DeferredIsKeyed(jobs, id, delay, now);
        decisions := decisions + [Decision(dataset, id, reason.value, measured, allowed, delay)];
        jobs := jobs[id := Deferred(jobs[id], delay, now)];
        CallByFields(s, queue, worker, leaseSeconds, batchSize, ordering, now, choice, leased);
        return;
      }
      var top := FirstOf(queue, head.value, ordering, BatchLimit(batchSize), now);
      choice := Choice(head.value, top);
      var expires := now + leaseSeconds * SECOND;
      MarkedHas(jobs, top, worker, expires, now);
      LeasedIsKeyed(jobs, Ids(top), worker, expires, now);
      var rows := MarkLeased(jobs, Ids(top), worker, expires, now);
      jobs := rows;
      leased := seq(|top|, i requires 0 <= i < |top| && top[i].id in rows => rows[top[i].id]);
      CallByFields(s, queue, worker, leaseSeconds, batchSize, ordering, now, choice, leased);
    }

    /** Loads the policy of the queue, counts, and compares. */
    method CheckGate(queue: string, now: Time) returns (reason: Option<Reason>, measured: int, allowed: int, delay: int)
      ensures reason == Gate(View(), queue, now)
      ensures reason.Some? ==> queue in policies && delay == policies[queue].throttleDelayMs
      ensures reason.Some? ==> forall dataset, id ::
        DecisionFor(View(), queue, dataset, id, reason.value, now)
        == Decision(dataset, id, reason.value, measured, allowed, delay)
    {
      hide RunningIn, RecentStarts;
      reason, measured, allowed, delay := None, 0, 0, 250;
      if queue in policies {
        var policy := policies[queue];
        delay := policy.throttleDelayMs;
        var inFlight := InFlight(jobs, queue);
        var recent := RecentStarts(Table(jobs, attempts, policies, decisions), queue, now);
        if inFlight >= policy.maxInFlight {
          reason, measured, allowed := Some(InFlightExceeded), inFlight, policy.maxInFlight;
        } else if recent >= policy.maxAttemptsPerMinute {
          reason, measured, allowed := Some(RetryRateExceeded), recent, policy.maxAttemptsPerMinute;
        }
      }
    }

    /** The first `n` due rows of the dataset of `head`; sorting by all four columns settles ties of `Fastest` too. */
    method FirstOf(queue: string, head: Uuid, ordering: QueueOrdering, n: nat, now: Time) returns (top: seq<QueueEntry>)
      requires Keyed(jobs) && IsHead(jobs, queue, now, head) && n > 0
      ensures IsTop(ordering, DueIn(jobs, queue, jobs[head].datasetId, now), n, top)
      ensures top != [] && forall e | e in top :: e.id in jobs
    {
      hide StrictTotal, Before, IsTop, DueIn, SortSet;
      BeforeIsStrictTotal();
      var candidates := DueIn(jobs, queue, jobs[head].datasetId, now);
      var ranking := Collect(Before, candidates);
      top := Take(ranking, n);
      SortedIsTop(ordering, candidates, n);
      TopNotEmpty(jobs, ordering, queue, now, head, n, top);
      TopIsDue(jobs, ordering, queue, jobs[head].datasetId, now, n, top);
    }

    /** The first due row by `run_at` and `created_at`. */
    method OldestDue(queue: string, now: Time) returns (head: Option<Uuid>)
      ensures head.Some? <==> AnyDue(jobs, queue, now)
      ensures head.Some? ==> IsHead(jobs, queue, now, head.value)
    {
      head := None;
      var rest := DueIds(jobs, queue, now);
      while rest != {}
        invariant rest <= DueIds(jobs, queue, now)
        invariant head.None? ==> rest == DueIds(jobs, queue, now)
        invariant head.Some? ==> head.value in DueIds(jobs, queue, now)
        invariant head.Some? ==> forall id | id in DueIds(jobs, queue, now) && id !in rest ::
          NotLater(jobs[head.value], jobs[id])
        decreases |rest|
      {
        var id :| id in rest;
        if head.None? || !NotLater(jobs[head.value], jobs[id]) {
          head := Some(id);
        }
        rest := rest - {id};
      }
      assert head.None? ==> forall id | id in jobs && Due(jobs[id], queue, now) :: id in DueIds(jobs, queue, now);
    }
  }

  lemma HeadIsRow(jobs: map<Uuid, Job>, queue: string, now: Time, id: Uuid)
    requires IsHead(jobs, queue, now, id)
    ensures id in jobs
  {
  }

  lemma MarkedHas(jobs: map<Uuid, Job>, top: seq<QueueEntry>, worker: string, expires: Time, now: Time)
    requires forall e | e in top :: e.id in jobs
    ensures forall i | 0 <= i < |top| :: top[i].id in MarkLeased(jobs, Ids(top), worker, expires, now)
  {
    assert forall i | 0 <= i < |top| :: top[i] in top;
  }
}
