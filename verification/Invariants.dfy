/** What every operation keeps true of the job table. */
module Invariants {
  import opened Model
  import opened Store
  import opened Locality

  /** The fields no operation may change. */
  predicate SameIdentity(j: Job, k: Job) {
    && j.datasetId == k.datasetId && j.replayOf == k.replayOf && j.key == k.key && j.id == k.id
    && j.queue == k.queue && j.jobType == k.jobType && j.payload == k.payload
    && j.deadlineAt == k.deadlineAt && j.timeoutSeconds == k.timeoutSeconds
    && j.recurringSeconds == k.recurringSeconds && j.priority == k.priority
    && j.maxAttempts == k.maxAttempts && j.createdAt == k.createdAt
  }

  lemma MoveKeepsIdentity(j: Job, now: Time, m: Move)
    ensures SameIdentity(j, ApplyMove(j, now, m))
  {
  }

  /** A lease is recorded exactly while the job runs. */
  predicate LockOk(j: Job) {
    && (j.lockedBy.Some? <==> j.status.Running?)
    && (j.lockedAt.Some? <==> j.status.Running?)
    && (j.lockExpiresAt.Some? <==> j.status.Running?)
    && !j.status.Failed?
  }

  ghost predicate LocksOk(s: State) {
    forall id | Known(s, id) :: LockOk(Record(s, id))
  }

  /** Attempt numbers of one job lie in `1..count` and never repeat. */
  ghost predicate NumbersOk(s: State) {
    && (forall id :: CountOf(s, id) >= 0)
    && (forall a | a in s.attempts :: 1 <= s.attempts[a].attemptNo <= CountOf(s, s.attempts[a].jobId))
    && (forall a, b | a in s.attempts && b in s.attempts && a != b && s.attempts[a].jobId == s.attempts[b].jobId ::
          s.attempts[a].attemptNo != s.attempts[b].attemptNo)
  }

  /** At most one live job carries a given idempotency key. */
  ghost predicate KeysUnique(s: State) {
    forall id, other | id in s.jobs && other in s.jobs && s.jobs[id].key.Some? && s.jobs[id].key == s.jobs[other].key ::
      id == other
  }

  /** A replayed or recurring job points at an older job that is still retrievable. */
  ghost predicate LineageOk(s: State) {
    forall id | Known(s, id) && Record(s, id).replayOf.Some? ::
      var parent := Record(s, id).replayOf.value;
      Known(s, parent) && id in s.born && parent in s.born && s.born[parent] < s.born[id]
  }

  ghost predicate Inv(s: State) {
    KeysOk(s) && LocksOk(s) && NumbersOk(s) && KeysUnique(s) && LineageOk(s)
  }

  lemma EmptyInv()
    ensures Inv(EMPTY)
  {
  }

  lemma KnownStays(s: State, now: Time, op: Op, id: Uuid)
    requires KeysOk(s) && Legal(s, op)
    requires Known(s, id)
    ensures Known(Apply(s, now, op), id)
    ensures SameIdentity(Record(s, id), Record(Apply(s, now, op), id))
    ensures id in Apply(s, now, op).jobs ==> id in s.jobs
    ensures id in s.archive ==> id in Apply(s, now, op).archive
  {
    hide Apply, SameIdentity;
    if id in s.jobs {
      LocalMove(s, now, op, id);
      MoveKeepsIdentity(s.jobs[id], now, MoveOf(s, now, op, id));
    } else {
      ArchiveStays(s, now, op, id);
      assert SameIdentity(Record(s, id), Record(s, id)) by {
        MoveKeepsIdentity(Record(s, id), now, Stay);
      }
    }
  }

  lemma JobKeyKept(s: State, now: Time, op: Op, id: Uuid)
    requires KeysOk(s) && Legal(s, op)
    requires id in Apply(s, now, op).jobs
    ensures var t := Apply(s, now, op); t.jobs[id].id == id && id in t.born && id !in t.archive
  {
    hide Apply, Legal, ApplyMove;
    BornStep(s, now, op);
    if id in s.jobs {
      NeverInBoth(s, now, op, id);
      LocalMove(s, now, op, id);
      MoveKeepsIdentity(s.jobs[id], now, MoveOf(s, now, op, id));
    } else {
      if id in s.archive {
        ArchiveStays(s, now, op, id);
      }
      OnlyAdded(s, now, op, id);
    }
  }

  lemma ArchiveKeyKept(s: State, now: Time, op: Op, id: Uuid)
    requires KeysOk(s) && Legal(s, op)
    requires id in Apply(s, now, op).archive
    ensures var t := Apply(s, now, op); t.archive[id].id == id && id in t.born && t.archive[id].status.Succeeded?
  {
    hide Apply, Legal;
    BornStep(s, now, op);
    if id in s.jobs {
      NeverInBoth(s, now, op, id);
      LocalMove(s, now, op, id);
      MoveIsGuarded(s, now, op, id);
    } else if id in s.archive {
      ArchiveStays(s, now, op, id);
    } else {
      OnlyAdded(s, now, op, id);
    }
  }

  lemma AttemptKeyKept(s: State, now: Time, op: Op, a: Uuid)
    requires KeysOk(s) && Legal(s, op)
    requires a in Apply(s, now, op).attempts
    ensures var t := Apply(s, now, op); t.attempts[a].id == a && a in t.born && Known(t, t.attempts[a].jobId)
  {
    hide Apply, Legal, SameIdentity;
    BornStep(s, now, op);
    if a in s.attempts {
      AttemptStep(s, now, op, a);
      KnownStays(s, now, op, s.attempts[a].jobId);
    } else {
      OnlyOpened(s, now, op, a);
      KnownStays(s, now, op, op.id);
    }
  }

  lemma CountKeyKept(s: State, now: Time, op: Op, id: Uuid)
    requires KeysOk(s) && Legal(s, op)
    requires id in Apply(s, now, op).counts
    ensures Known(Apply(s, now, op), id)
  {
    hide Apply, Legal, SameIdentity;
    CountStep(s, now, op, id);
    KnownStays(s, now, op, id);
  }

  lemma KeysKept(s: State, now: Time, op: Op)
    requires KeysOk(s) && Legal(s, op)
    ensures KeysOk(Apply(s, now, op))
  {
    hide Apply, Legal, ApplyMove;
    var t := Apply(s, now, op);
    BornStep(s, now, op);
    forall id | id in t.jobs
      ensures t.jobs[id].id == id && id in t.born && id !in t.archive
    {
      JobKeyKept(s, now, op, id);
    }
    forall id | id in t.archive
      ensures t.archive[id].id == id && id in t.born && t.archive[id].status.Succeeded?
    {
      ArchiveKeyKept(s, now, op, id);
    }
    forall a | a in t.attempts
      ensures t.attempts[a].id == a && a in t.born && Known(t, t.attempts[a].jobId)
    {
      AttemptKeyKept(s, now, op, a);
    }
    forall id | id in t.counts
      ensures Known(t, id)
    {
      CountKeyKept(s, now, op, id);
    }
  }

  lemma MoveKeepsLock(j: Job, now: Time, m: Move)
    requires LockOk(j) && Guarded(j, now, m)
    ensures LockOk(ApplyMove(j, now, m))
  {
  }

  lemma LocksKept(s: State, now: Time, op: Op)
    requires KeysOk(s) && LocksOk(s) && Legal(s, op)
    ensures LocksOk(Apply(s, now, op))
  {
    hide Apply, Legal, ApplyMove, LockOk, KeysOk;
    var t := Apply(s, now, op);
    forall id | Known(t, id)
      ensures LockOk(Record(t, id))
    {
      if id in s.jobs {
        assert LockOk(Record(s, id));
        LocalMove(s, now, op, id);
        MoveIsGuarded(s, now, op, id);
        MoveKeepsLock(s.jobs[id], now, MoveOf(s, now, op, id));
      } else if id in s.archive {
        assert LockOk(Record(s, id));
        ArchiveStays(s, now, op, id);
      } else {
        OnlyAdded(s, now, op, id);
        AddedIsQueued(s, now, op);
      }
    }
  }

  lemma AddedIsQueued(s: State, now: Time, op: Op)
    requires Added(s, now, op).Some?
    ensures LockOk(Added(s, now, op).value)
    ensures Added(s, now, op).value.status.Queued?
  {
  }

  lemma NumbersKept(s: State, now: Time, op: Op)
    requires KeysOk(s) && NumbersOk(s) && Legal(s, op)
    ensures NumbersOk(Apply(s, now, op))
  {
    hide Apply, Legal, KeysOk, CountOf;
    var t := Apply(s, now, op);
    forall id
      ensures CountOf(t, id) >= 0
    {
      CountStep(s, now, op, id);
    }
    forall a | a in t.attempts
      ensures 1 <= t.attempts[a].attemptNo <= CountOf(t, t.attempts[a].jobId)
    {
      CountStep(s, now, op, t.attempts[a].jobId);
      NumberSource(s, now, op, a);
    }
    forall a, b | a in t.attempts && b in t.attempts && a != b && t.attempts[a].jobId == t.attempts[b].jobId
      ensures t.attempts[a].attemptNo != t.attempts[b].attemptNo
    {
      NumberSource(s, now, op, a);
      NumberSource(s, now, op, b);
    }
  }

  /** Where the number of an attempt comes from: it is old, or it is one more than the counter. */
  lemma NumberSource(s: State, now: Time, op: Op, a: Uuid)
    requires KeysOk(s) && Legal(s, op)
    requires a in Apply(s, now, op).attempts
    ensures var after := Apply(s, now, op).attempts[a];
      if a in s.attempts then after.jobId == s.attempts[a].jobId && after.attemptNo == s.attempts[a].attemptNo
      else op.OpStart? && op.newId == a && Opens(s, op, after.jobId) && after.attemptNo == CountOf(s, after.jobId) + 1
  {
    hide Apply, Legal, KeysOk;
    if a in s.attempts {
      AttemptStep(s, now, op, a);
    } else {
      OnlyOpened(s, now, op, a);
    }
  }

  lemma KeysUniqueKept(s: State, now: Time, op: Op)
    requires KeysOk(s) && KeysUnique(s) && Legal(s, op)
    ensures KeysUnique(Apply(s, now, op))
  {
    hide Apply, Legal, SameIdentity;
    var t := Apply(s, now, op);
    forall id, other | id in t.jobs && other in t.jobs && t.jobs[id].key.Some? && t.jobs[id].key == t.jobs[other].key
      ensures id == other
    {
      KeySource(s, now, op, id);
      KeySource(s, now, op, other);
    }
  }

  lemma KeySource(s: State, now: Time, op: Op, id: Uuid)
    requires KeysOk(s) && Legal(s, op)
    requires id in Apply(s, now, op).jobs
    ensures var key := Apply(s, now, op).jobs[id].key;
      if id in s.jobs then key == s.jobs[id].key
      else (key.Some? ==> op.OpEnqueue? && op.newId == id && !KeyTaken(s, key))
  {
    hide Apply, Legal;
    if id in s.jobs {
      LocalMove(s, now, op, id);
      MoveKeepsIdentity(s.jobs[id], now, MoveOf(s, now, op, id));
    } else {
      if id in s.archive {
        ArchiveStays(s, now, op, id);
      }
      OnlyAdded(s, now, op, id);
    }
  }

  lemma LineageKept(s: State, now: Time, op: Op)
    requires KeysOk(s) && LineageOk(s) && Legal(s, op)
    ensures LineageOk(Apply(s, now, op))
  {
    hide Apply, Legal, KeysOk;
    var t := Apply(s, now, op);
    forall id | Known(t, id) && Record(t, id).replayOf.Some?
      ensures var parent := Record(t, id).replayOf.value;
        Known(t, parent) && id in t.born && parent in t.born && t.born[parent] < t.born[id]
    {
      ParentOlder(s, now, op, id);
    }
  }

  lemma ParentOlder(s: State, now: Time, op: Op, id: Uuid)
    requires KeysOk(s) && LineageOk(s) && Legal(s, op)
    requires Known(Apply(s, now, op), id) && Record(Apply(s, now, op), id).replayOf.Some?
    ensures var t := Apply(s, now, op); var parent := Record(t, id).replayOf.value;
      Known(t, parent) && id in t.born && parent in t.born && t.born[parent] < t.born[id]
  {
    hide Apply, Legal;
    BornStep(s, now, op);
    if Known(s, id) {
      KnownStays(s, now, op, id);
      KnownStays(s, now, op, Record(s, id).replayOf.value);
    } else {
      OnlyAdded(s, now, op, id);
      AddedParent(s, now, op);
      KnownStays(s, now, op, Added(s, now, op).value.replayOf.value);
    }
  }

  lemma AddedParent(s: State, now: Time, op: Op)
    requires KeysOk(s)
    requires Added(s, now, op).Some? && Added(s, now, op).value.replayOf.Some?
    ensures Known(s, Added(s, now, op).value.replayOf.value)
  {
  }

  /** Every operation keeps the whole invariant. */
  lemma InvKept(s: State, now: Time, op: Op)
    requires Inv(s) && Legal(s, op)
    ensures Inv(Apply(s, now, op))
  {
    hide Apply, Legal, KeysOk, LocksOk, NumbersOk, KeysUnique, LineageOk;
    KeysKept(s, now, op);
    LocksKept(s, now, op);
    NumbersKept(s, now, op);
    KeysUniqueKept(s, now, op);
    LineageKept(s, now, op);
  }

  lemma OnlyHolder(s: State, key: Option<string>, id: Uuid)
    requires KeysUnique(s) && key.Some?
    requires id in s.jobs && s.jobs[id].key == key
    ensures KeyTaken(s, key) && KeyHolder(s, key) == id
  {
  }
}
