/** One stream's event log with its consumer groups, as a state machine; and what a consumer sees over a run. */
module EventLog {
  import opened Model
  import opened Ordering

  datatype NewEvent = NewEvent(eventType: string, payload: string)

  datatype Event = Event(no: int, stream: string, content: NewEvent, createdAt: Time)

  /** How a backend numbers a new event: Redis keeps a counter, the in-memory log looks at its own length. */
  datatype Numbering = ByCounter | ByLength

  /** `counter` is the number of events ever published; only Redis stores it. */
  datatype Log = Log(counter: nat, events: seq<Event>, offsets: map<string, int>)

  const EMPTY_LOG := Log(0, [], map[])

  function Max(a: int, b: int): int {
    if a < b then b else a
  }

  /** How many events a read may return. */
  function ReadLimit(limit: int): (n: nat)
    ensures 1 <= n <= 1000
  {
    Clamp(limit, 1, 1000)
  }

  /** The events numbered above `n`, in log order. */
  function Above(events: seq<Event>, n: int): (r: seq<Event>)
    ensures |r| <= |events|
    ensures forall e | e in r :: e in events && e.no > n
  {
    if events == [] then []
    else (if events[0].no > n then [events[0]] else []) + Above(events[1..], n)
  }

  function Offset(g: Log, group: string): int {
    if group in g.offsets then g.offsets[group] else 0
  }

  function Read(g: Log, after: int, limit: int): seq<Event> {
    Take(Above(g.events, after), ReadLimit(limit))
  }

  function ReadNext(g: Log, group: string, limit: int): seq<Event> {
    Read(g, Offset(g, group), limit)
  }

  function NextNo(kind: Numbering, g: Log): int {
    if kind.ByCounter? then g.counter + 1 else |g.events| + 1
  }

  /** A group unknown so far starts at zero in memory, and wherever its first `ack` says in Redis. */
  function AckedOffset(kind: Numbering, g: Log, group: string, no: int): int {
    if group in g.offsets then Max(g.offsets[group], no) else if kind.ByCounter? then no else Max(0, no)
  }

  /** The lesser of `through` and the lowest known offset. */
  ghost predicate IsCutoff(offsets: map<string, int>, through: int, c: int) {
    && c <= through && (forall group | group in offsets :: c <= offsets[group])
    && (c == through || exists group :: group in offsets && c == offsets[group])
  }

  ghost function Cutoff(offsets: map<string, int>, through: int): (c: int)
    ensures IsCutoff(offsets, through, c)
    decreases |offsets|
  {
    if offsets == map[] then through
    else
      var group :| group in offsets;
      var rest := offsets - {group};
      var c := Cutoff(rest, through);
      assert forall k | k in offsets && k != group :: k in rest && rest[k] == offsets[k];
      if c <= offsets[group] then c else offsets[group]
  }

  lemma CutoffUnique(offsets: map<string, int>, through: int, c: int)
    requires IsCutoff(offsets, through, c)
    ensures c == Cutoff(offsets, through)
  {
  }

  datatype LogOp =
    | Publish(stream: string, content: NewEvent, at: Time)
    | Ack(group: string, no: int)
    | Prune(through: int)
    | ReadEvents(group: string, limit: int)

  function Published(kind: Numbering, g: Log, op: LogOp): Event
    requires op.Publish?
  {
    Event(NextNo(kind, g), op.stream, op.content, op.at)
  }

  ghost function Step(kind: Numbering, g: Log, op: LogOp): Log {
    match op
    case Publish(_, _, _) => g.(counter := g.counter + 1, events := g.events + [Published(kind, g, op)])
    case Ack(group, no) => g.(offsets := g.offsets[group := AckedOffset(kind, g, group, no)])
    case Prune(through) => g.(events := Above(g.events, Cutoff(g.offsets, through)))
    case ReadEvents(_, _) => g
  }

  ghost function Run(kind: Numbering, g: Log, ops: seq<LogOp>): Log
    decreases ops
  {
    if ops == [] then g else Run(kind, Step(kind, g, ops[0]), ops[1..])
  }

  // Offsets and pruning

  lemma {:induction false} OffsetsNeverFall(kind: Numbering, g: Log, ops: seq<LogOp>, group: string)
    requires group in g.offsets
    ensures group in Run(kind, g, ops).offsets && g.offsets[group] <= Run(kind, g, ops).offsets[group]
    decreases ops
  {
    if ops != [] {
      OffsetsNeverFall(kind, Step(kind, g, ops[0]), ops[1..], group);
    }
  }

  lemma {:induction false} AboveKeeps(events: seq<Event>, n: int, e: Event)
    ensures e in Above(events, n) <==> e in events && e.no > n
  {
    if events != [] {
      assert events == [events[0]] + events[1..];
      AboveKeeps(events[1..], n, e);
    }
  }

  /** An event that some known group has not passed by the end of a run has not been pruned on the way. */
  lemma {:induction false} UnreadIsRetained(kind: Numbering, g: Log, ops: seq<LogOp>, group: string, e: Event)
    requires group in g.offsets && e in g.events
    requires Offset(Run(kind, g, ops), group) < e.no
    ensures e in Run(kind, g, ops).events
    decreases ops
  {
    if ops != [] {
      OffsetsNeverFall(kind, g, ops, group);
      var h := Step(kind, g, ops[0]);
      if ops[0].Prune? {
        AboveKeeps(g.events, Cutoff(g.offsets, ops[0].through), e);
      }
      UnreadIsRetained(kind, h, ops[1..], group, e);
    }
  }

  // The log as a suffix of what was published

  /** `history` is everything ever published, numbered from one; the log holds its last part. */
  ghost predicate SuffixOf(g: Log, history: seq<Event>) {
    && g.counter == |history| && |g.events| <= |history|
    && (forall i | 0 <= i < |history| :: history[i].no == i + 1)
    && g.events == history[|history| - |g.events|..]
  }

  /** How many events have been pruned. */
  function Pruned(g: Log): int {
    g.counter - |g.events|
  }

  /** In a consecutively numbered log, the events above `n` are its end. */
  lemma {:induction false} AboveIsSuffix(events: seq<Event>, first: int, n: int)
    requires forall i | 0 <= i < |events| :: events[i].no == first + i
    ensures Above(events, n) == events[Clamp(n - first + 1, 0, |events|)..]
    decreases events
  {
    if events != [] {
      AboveIsSuffix(events[1..], first + 1, n);
      var k := Clamp(n - first + 1, 0, |events|);
      if events[0].no > n {
        assert [events[0]] + events[1..] == events;
        assert events[1..][0..] == events[1..] && events[0..] == events;
      } else {
        assert events[1..][k - 1..] == events[k..];
      }
    }
  }

  lemma AboveOfHistory(g: Log, history: seq<Event>, n: int)
    requires SuffixOf(g, history)
    ensures Above(g.events, n) == history[Clamp(n, Pruned(g), |history|)..]
  {
    hide Above;
    AboveIsSuffix(g.events, Pruned(g) + 1, n);
  }

  /** What a read returns: from just above the offset or the pruning point, whichever is later. */
  lemma ReadIsSlice(g: Log, history: seq<Event>, after: int, limit: int)
    requires SuffixOf(g, history)
    ensures var from := Clamp(after, Pruned(g), |history|);
      Read(g, after, limit) == history[from..Clamp(from + ReadLimit(limit), from, |history|)]
  {
    hide Above;
    AboveOfHistory(g, history, after);
  }

  /** A group's next read goes on exactly where it left off if and only if nothing past its offset has been pruned. */
  lemma NoGapIffRetained(g: Log, history: seq<Event>, group: string, limit: int)
    requires SuffixOf(g, history) && 0 <= Offset(g, group) < |history| && g.events != []
    ensures var r := ReadNext(g, group, limit);
      r != [] && (r[0] == history[Offset(g, group)] <==> Pruned(g) <= Offset(g, group))
  {
    hide Read;
    ReadIsSlice(g, history, Offset(g, group), limit);
  }

  /** The event gets the number that counting all publications would give it. */
  predicate Numbered(kind: Numbering, g: Log, op: LogOp) {
    op.Publish? ==> NextNo(kind, g) == g.counter + 1
  }

  function Extended(kind: Numbering, g: Log, history: seq<Event>, op: LogOp): seq<Event> {
    if op.Publish? then history + [Published(kind, g, op)] else history
  }

  lemma SuffixKept(kind: Numbering, g: Log, history: seq<Event>, op: LogOp)
    requires SuffixOf(g, history) && Numbered(kind, g, op)
    ensures SuffixOf(Step(kind, g, op), Extended(kind, g, history, op))
  {
    hide Above, Cutoff;
    if op.Prune? {
      AboveOfHistory(g, history, Cutoff(g.offsets, op.through));
    }
  }

  // A consumer

  /** What a consumer of one group has read but not acknowledged, and what it has acknowledged so far. */
  datatype Session = Session(log: Log, history: seq<Event>, group: string, pending: seq<Event>, delivered: seq<Event>)

  /** The consumer acknowledges nothing it has not read. */
  predicate Honest(s: Session, op: LogOp) {
    op.Ack? && op.group == s.group ==> op.no <= Offset(s.log, s.group) + |s.pending|
  }

  /** How many pending events an acknowledgement covers. */
  function Covered(s: Session, op: LogOp): (k: nat)
    ensures k <= |s.pending|
  {
    if op.Ack? && op.group == s.group then Clamp(op.no - Offset(s.log, s.group), 0, |s.pending|) else 0
  }

  ghost function SessionStep(kind: Numbering, s: Session, op: LogOp): Session {
    Session(Step(kind, s.log, op), Extended(kind, s.log, s.history, op), s.group,
            if op.ReadEvents? && op.group == s.group then ReadNext(s.log, s.group, op.limit)
            else s.pending[Covered(s, op)..],
            s.delivered + s.pending[..Covered(s, op)])
  }

  ghost function SessionRun(kind: Numbering, s: Session, ops: seq<LogOp>): Session
    decreases ops
  {
    if ops == [] then s else SessionRun(kind, SessionStep(kind, s, ops[0]), ops[1..])
  }

  ghost predicate HonestRun(kind: Numbering, s: Session, ops: seq<LogOp>)
    decreases ops
  {
    ops == [] || (Honest(s, ops[0]) && HonestRun(kind, SessionStep(kind, s, ops[0]), ops[1..]))
  }

  ghost predicate NumberedRun(kind: Numbering, g: Log, ops: seq<LogOp>)
    decreases ops
  {
    ops == [] || (Numbered(kind, g, ops[0]) && NumberedRun(kind, Step(kind, g, ops[0]), ops[1..]))
  }

  /** The consumer has been given exactly the events from `start` to its offset, and what it holds comes next. */
  ghost predicate Delivered(s: Session, start: nat) {
    && SuffixOf(s.log, s.history) && s.group in s.log.offsets
    && var o := Offset(s.log, s.group);
      && start <= o <= |s.history| && Pruned(s.log) <= o
      && o + |s.pending| <= |s.history| && s.pending == s.history[o..o + |s.pending|]
      && s.delivered == s.history[start..o]
  }

  lemma PruneSparesKnown(kind: Numbering, g: Log, history: seq<Event>, through: int, group: string)
    requires SuffixOf(g, history) && group in g.offsets && Pruned(g) <= g.offsets[group] <= |history|
    ensures Pruned(Step(kind, g, Prune(through))) <= g.offsets[group]
  {
    hide Above;
    AboveOfHistory(g, history, Cutoff(g.offsets, through));
  }

  lemma OffsetAfterAck(kind: Numbering, s: Session, op: LogOp)
    requires s.group in s.log.offsets && Honest(s, op)
    ensures s.group in Step(kind, s.log, op).offsets
    ensures Offset(Step(kind, s.log, op), s.group) == Offset(s.log, s.group) + Covered(s, op)
  {
  }

  /** A slice of a sequence is the same slice of any extension of it. */
  lemma SliceOfPrefix(h: seq<Event>, longer: seq<Event>, from: nat, to: nat)
    requires h <= longer && from <= to <= |h|
    ensures longer[from..to] == h[from..to]
  {
  }

  /** Handing over the first `k` of a slice moves its start. */
  lemma SliceMoves(h: seq<Event>, start: nat, o: nat, to: nat, k: nat)
    requires start <= o <= o + k <= to <= |h|
    ensures h[start..o] + h[o..to][..k] == h[start..o + k]
    ensures h[o..to][k..] == h[o + k..to]
  {
  }

  lemma PendingKept(kind: Numbering, s: Session, op: LogOp, start: nat)
    requires Delivered(s, start) && Honest(s, op)
    ensures var t, o := SessionStep(kind, s, op), Offset(s.log, s.group) + Covered(s, op);
      && s.history <= t.history && o + |t.pending| <= |s.history|
      && t.pending == s.history[o..o + |t.pending|] && t.delivered == s.history[start..o]
  {
    hide Above, Cutoff, Read, Covered, SuffixOf, Step, Extended, Offset;
    HistoryGrows(kind, s, op);
    var o, k := Offset(s.log, s.group), Covered(s, op);
    SliceMoves(s.history, start, o, o + |s.pending|, k);
    if op.ReadEvents? && op.group == s.group {
      ReadIsSlice(s.log, s.history, o, op.limit);
      NoneCovered(s, op);
    }
  }

  lemma NoneCovered(s: Session, op: LogOp)
    requires !op.Ack?
    ensures Covered(s, op) == 0
  {
  }

  /** The same slices, of the history as it then is. */
  lemma PendingStays(kind: Numbering, s: Session, op: LogOp, start: nat)
    requires Delivered(s, start) && Honest(s, op)
    ensures var t, o := SessionStep(kind, s, op), Offset(s.log, s.group) + Covered(s, op);
      && start <= o <= |t.history| && o + |t.pending| <= |t.history|
      && t.pending == t.history[o..o + |t.pending|] && t.delivered == t.history[start..o]
  {
    hide Read, ReadNext, Covered, SuffixOf, Step, Extended, Offset, Pruned;
    PendingKept(kind, s, op, start);
    var t, o := SessionStep(kind, s, op), Offset(s.log, s.group) + Covered(s, op);
    SliceOfPrefix(s.history, t.history, o, o + |t.pending|);
    SliceOfPrefix(s.history, t.history, start, o);
  }

  lemma DeliveredKept(kind: Numbering, s: Session, op: LogOp, start: nat)
    requires Delivered(s, start) && Honest(s, op) && Numbered(kind, s.log, op)
    ensures Delivered(SessionStep(kind, s, op), start)
  {
    hide SessionStep, Covered, SuffixOf, Step, Extended, Offset, Pruned, Honest, Numbered;
    SessionParts(kind, s, op);
    PendingStays(kind, s, op, start);
    RetainedAfter(kind, s, op, start);
    SuffixKept(kind, s.log, s.history, op);
    OffsetAfterAck(kind, s, op);
  }

  lemma SessionParts(kind: Numbering, s: Session, op: LogOp)
    ensures var t := SessionStep(kind, s, op);
      t.log == Step(kind, s.log, op) && t.history == Extended(kind, s.log, s.history, op) && t.group == s.group
  {
  }

  lemma HistoryGrows(kind: Numbering, s: Session, op: LogOp)
    ensures var t := SessionStep(kind, s, op);
      s.history <= t.history
  {
  }

  lemma RetainedAfter(kind: Numbering, s: Session, op: LogOp, start: nat)
    requires Delivered(s, start) && Honest(s, op)
    ensures Pruned(Step(kind, s.log, op)) <= Offset(Step(kind, s.log, op), s.group)
  {
    hide Above, Cutoff;
    if op.Prune? {
      PruneSparesKnown(kind, s.log, s.history, op.through, s.group);
    }
    OffsetAfterAck(kind, s, op);
  }

  /**
   * Whatever is published, pruned and acknowledged by others meanwhile, a group that acknowledges only what it has
   * read is given every event after its first offset, once and in order, and finds the next one still in the log.
   */
  lemma {:induction false} DeliveryWithoutGaps(kind: Numbering, s: Session, ops: seq<LogOp>, start: nat)
    requires Delivered(s, start) && HonestRun(kind, s, ops) && NumberedRun(kind, s.log, ops)
    ensures Delivered(SessionRun(kind, s, ops), start)
    decreases ops
  {
    hide Delivered, Honest, Step, Extended, Covered, ReadNext;
    if ops != [] {
      DeliveredKept(kind, s, ops[0], start);
      DeliveryWithoutGaps(kind, SessionStep(kind, s, ops[0]), ops[1..], start);
    }
  }

  /**
   * The next read starts right after the offset and stops only at its limit or at the end of all that was published.
   */
  lemma NextReadGoesOn(s: Session, start: nat, limit: int)
    requires Delivered(s, start)
    ensures var o := Offset(s.log, s.group);
      ReadNext(s.log, s.group, limit) == s.history[o..Clamp(o + ReadLimit(limit), o, |s.history|)]
  {
    ReadIsSlice(s.log, s.history, Offset(s.log, s.group), limit);
  }

  // Numbering by length

  predicate NoPublish(ops: seq<LogOp>) {
    forall i | 0 <= i < |ops| :: !ops[i].Publish?
  }

  /** Nothing is published after the first prune that removes an event. */
  ghost predicate QuietAfterPrune(kind: Numbering, g: Log, ops: seq<LogOp>)
    decreases ops
  {
    ops == [] ||
    var h := Step(kind, g, ops[0]);
    if |h.events| < |g.events| then NoPublish(ops[1..]) else QuietAfterPrune(kind, h, ops[1..])
  }

  /** A counter never misnumbers. */
  lemma {:induction false} CounterNumbersAll(g: Log, ops: seq<LogOp>)
    ensures NumberedRun(ByCounter, g, ops)
    decreases ops
  {
    if ops != [] {
      CounterNumbersAll(Step(ByCounter, g, ops[0]), ops[1..]);
    }
  }

  /** Once events are missing, a log numbered by its length gets no new number right. */
  lemma {:induction false} ShortLogMisnumbers(g: Log, ops: seq<LogOp>)
    requires |g.events| < g.counter
    ensures NumberedRun(ByLength, g, ops) <==> NoPublish(ops)
    decreases ops
  {
    hide Above, Cutoff;
    if ops != [] {
      if !ops[0].Publish? {
        ShortLogMisnumbers(Step(ByLength, g, ops[0]), ops[1..]);
        assert NoPublish(ops) <==> NoPublish(ops[1..]);
      }
    }
  }

  /**
   * The in-memory log numbers a run as a counter would if and only if no publish follows a prune that removed events.
   */
  lemma {:induction false} LengthNumbersIffQuiet(g: Log, ops: seq<LogOp>)
    requires |g.events| == g.counter
    ensures NumberedRun(ByLength, g, ops) <==> QuietAfterPrune(ByLength, g, ops)
    decreases ops
  {
    hide Above, Cutoff;
    if ops != [] {
      var h := Step(ByLength, g, ops[0]);
      if |h.events| < |g.events| {
        ShortLogMisnumbers(h, ops[1..]);
      } else {
        LengthNumbersIffQuiet(h, ops[1..]);
      }
    }
  }

  // Runs from the empty log

  /** Everything a run publishes, in order. */
  ghost function History(kind: Numbering, g: Log, ops: seq<LogOp>): seq<Event>
    decreases ops
  {
    if ops == [] then []
    else
      (if ops[0].Publish? then [Published(kind, g, ops[0])] else []) + History(kind, Step(kind, g, ops[0]), ops[1..])
  }

  lemma {:induction false} SuffixOverRun(kind: Numbering, g: Log, history: seq<Event>, ops: seq<LogOp>)
    requires SuffixOf(g, history) && NumberedRun(kind, g, ops)
    ensures SuffixOf(Run(kind, g, ops), history + History(kind, g, ops))
    decreases ops
  {
    hide SuffixOf, Step;
    if ops == [] {
      assert history + [] == history;
    } else {
      SuffixKept(kind, g, history, ops[0]);
      var h := Step(kind, g, ops[0]);
      var longer := Extended(kind, g, history, ops[0]);
      SuffixOverRun(kind, h, longer, ops[1..]);
      assert longer + History(kind, h, ops[1..]) == history + History(kind, g, ops);
    }
  }

  /** In every state a Redis log can reach, it is the end of all that was published, numbered from one. */
  lemma RedisLogIsSuffix(ops: seq<LogOp>)
    ensures SuffixOf(Run(ByCounter, EMPTY_LOG, ops), History(ByCounter, EMPTY_LOG, ops))
  {
    hide Run, History, NumberedRun, SuffixOf;
    CounterNumbersAll(EMPTY_LOG, ops);
    EmptySuffix();
    SuffixOverRun(ByCounter, EMPTY_LOG, [], ops);
    assert [] + History(ByCounter, EMPTY_LOG, ops) == History(ByCounter, EMPTY_LOG, ops);
  }

  lemma {:induction false} NumberedSplit(kind: Numbering, g: Log, ops: seq<LogOp>, more: seq<LogOp>)
    ensures NumberedRun(kind, g, ops + more) <==>
      NumberedRun(kind, g, ops) && NumberedRun(kind, Run(kind, g, ops), more)
    decreases ops
  {
    hide Step;
    if ops == [] {
      assert ops + more == more;
    } else {
      assert (ops + more)[1..] == ops[1..] + more;
      NumberedSplit(kind, Step(kind, g, ops[0]), ops[1..], more);
    }
  }

  // How a group comes in

  /**
   * A group that nobody knew acknowledges `no` first: nothing is missing from there on exactly if this much is left.
   */
  lemma EntryIffRetained(kind: Numbering, g: Log, history: seq<Event>, group: string, no: nat)
    requires SuffixOf(g, history) && group !in g.offsets
    ensures Delivered(Session(Step(kind, g, Ack(group, no)), history, group, [], []), no)
        <==> Pruned(g) <= no <= |history|
  {
    if no <= |history| {
      assert history[no..no] == [];
    }
  }

  /**
   * An unknown group has read the events after `from` up to `to`, and its first acknowledgement covers those up to
   * `no`. Until then nothing protects what it reads from being pruned.
   */
  ghost function Entered(kind: Numbering, g: Log, history: seq<Event>, group: string, from: nat, no: nat,
                         to: nat): Session
    requires from <= no <= to <= |history|
  {
    Session(Step(kind, g, Ack(group, no)), history, group, history[no..to], history[from..no])
  }

  /** It then gets everything after `from` if and only if the log still holds all events after `no`. */
  lemma FirstAckIffRetained(kind: Numbering, g: Log, history: seq<Event>, group: string, from: nat, no: nat, to: nat)
    requires SuffixOf(g, history) && group !in g.offsets && from <= no <= to <= |history|
    ensures Delivered(Entered(kind, g, history, group, from, no, to), from) <==> Pruned(g) <= no
  {
    if no > 0 {
      FirstAckLog(kind, g, history, group, no);
    }
    assert Offset(Step(kind, g, Ack(group, no)), group) == no;
    assert SuffixOf(Step(kind, g, Ack(group, no)), history);
    hide SuffixOf, Offset, AckedOffset;
  }

  lemma RunStaysSuffix(kind: Numbering, g: Log, history: seq<Event>, ops: seq<LogOp>)
    requires SuffixOf(g, history) && NumberedRun(kind, g, ops)
    ensures SuffixOf(Run(kind, g, ops), history + History(kind, g, ops)) && history <= history + History(kind, g, ops)
  {
    SuffixOverRun(kind, g, history, ops);
  }

  /**
   * A group that nobody knows reads at `g`; whatever happens until `g2`, it then acknowledges the last event it read.
   * Its next read goes on with the following event if and only if that event has not been pruned meanwhile.
   */
  lemma FirstReadThenAck(kind: Numbering, g: Log, history: seq<Event>, ops: seq<LogOp>, group: string, limit: int,
                         nextLimit: int)
    requires SuffixOf(g, history) && NumberedRun(kind, g, ops) && group !in Run(kind, g, ops).offsets
    requires ReadNext(g, group, limit) != []
    ensures var read, g2, all := ReadNext(g, group, limit), Run(kind, g, ops), history + History(kind, g, ops);
      var last := read[|read| - 1].no;
      var next := ReadNext(Step(kind, g2, Ack(group, last)), group, nextLimit);
      && |read| <= last <= |all| && read == all[last - |read|..last]
      && (last < |all| ==> (next != [] && next[0] == all[last] <==> Pruned(g2) <= last))
  {
    hide Read, Run, History, NumberedRun;
    var g2, all := Run(kind, g, ops), history + History(kind, g, ops);
    RunStaysSuffix(kind, g, history, ops);
    if group in g.offsets {
      OffsetsNeverFall(kind, g, ops, group);
    }
    FirstReadEnds(g, history, group, limit);
    var read := ReadNext(g, group, limit);
    var last := read[|read| - 1].no;
    FirstAckLog(kind, g2, all, group, last);
    hide SuffixOf, Step, Offset;
    if last < |all| {
      NextReadStarts(Step(kind, g2, Ack(group, last)), all, group, last, nextLimit);
    }
    assert all[last - |read|..last] == history[last - |read|..last];
  }

  lemma FirstReadEnds(g: Log, history: seq<Event>, group: string, limit: int)
    requires SuffixOf(g, history) && group !in g.offsets && ReadNext(g, group, limit) != []
    ensures var read := ReadNext(g, group, limit);
      var last := read[|read| - 1].no;
      |read| <= last <= |history| && read == history[last - |read|..last]
  {
    hide Read;
    ReadIsSlice(g, history, 0, limit);
  }

  lemma FirstAckLog(kind: Numbering, g: Log, history: seq<Event>, group: string, no: int)
    requires SuffixOf(g, history) && group !in g.offsets && no > 0
    ensures var t := Step(kind, g, Ack(group, no));
      SuffixOf(t, history) && Offset(t, group) == no && Pruned(t) == Pruned(g)
  {
  }

  lemma NextReadStarts(g: Log, history: seq<Event>, group: string, o: int, limit: int)
    requires SuffixOf(g, history) && Offset(g, group) == o && 0 <= o < |history|
    ensures var next := ReadNext(g, group, limit); next != [] && next[0] == history[o] <==> Pruned(g) <= o
  {
    hide Read;
    ReadIsSlice(g, history, o, limit);
  }

  /**
   * Delivery in any run of a Redis log, from the empty one on: whatever `ops` a group has come after, once its first
   * acknowledgement finds the later events still there, no event after `from` ever passes it by.
   */
  lemma RedisDelivery(ops: seq<LogOp>, group: string, from: nat, no: nat, to: nat, more: seq<LogOp>)
    requires group !in Run(ByCounter, EMPTY_LOG, ops).offsets
    requires from <= no <= to <= |History(ByCounter, EMPTY_LOG, ops)| && Pruned(Run(ByCounter, EMPTY_LOG, ops)) <= no
    requires var g, h := Run(ByCounter, EMPTY_LOG, ops), History(ByCounter, EMPTY_LOG, ops);
      HonestRun(ByCounter, Entered(ByCounter, g, h, group, from, no, to), more)
    ensures var g, h := Run(ByCounter, EMPTY_LOG, ops), History(ByCounter, EMPTY_LOG, ops);
      Delivered(SessionRun(ByCounter, Entered(ByCounter, g, h, group, from, no, to), more), from)
  {
    hide Delivered, Run, History, HonestRun, SessionRun, Step;
    var g, h := Run(ByCounter, EMPTY_LOG, ops), History(ByCounter, EMPTY_LOG, ops);
    RedisLogIsSuffix(ops);
    FirstAckIffRetained(ByCounter, g, h, group, from, no, to);
    var s := Entered(ByCounter, g, h, group, from, no, to);
    CounterNumbersAll(s.log, more);
    DeliveryWithoutGaps(ByCounter, s, more, from);
  }

  lemma {:induction false} RunSplit(kind: Numbering, g: Log, ops: seq<LogOp>, more: seq<LogOp>)
    ensures Run(kind, g, ops + more) == Run(kind, Run(kind, g, ops), more)
    ensures History(kind, g, ops + more) == History(kind, g, ops) + History(kind, Run(kind, g, ops), more)
    decreases ops
  {
    hide Step;
    if ops == [] {
      assert ops + more == more;
    } else {
      assert (ops + more)[1..] == ops[1..] + more;
      RunSplit(kind, Step(kind, g, ops[0]), ops[1..], more);
    }
  }

  /**
   * A group reads for the first time after `ops`, and acknowledges the last event it read after `between`. If what
   * follows is then still in the log, what it read and all it reads later is everything from its first event on, once
   * and in order.
   */
  lemma ReaderDelivery(ops: seq<LogOp>, between: seq<LogOp>, group: string, limit: int, more: seq<LogOp>)
    requires group !in Run(ByCounter, EMPTY_LOG, ops + between).offsets
    requires ReadNext(Run(ByCounter, EMPTY_LOG, ops), group, limit) != []
    requires StartsWell(ops, between, group, limit, more)
    ensures var read := ReadNext(Run(ByCounter, EMPTY_LOG, ops), group, limit);
      read[0].no > 0 &&
      Delivered(SessionRun(ByCounter, AfterFirstRead(ops, between, group, read), more), read[0].no - 1)
  {
    hide Delivered, Run, History, HonestRun, SessionRun, Read, SuffixOf;
    var g, history := Run(ByCounter, EMPTY_LOG, ops), History(ByCounter, EMPTY_LOG, ops);
    var read := ReadNext(g, group, limit);
    var last := read[|read| - 1].no;
    RunSplit(ByCounter, EMPTY_LOG, ops, between);
    RedisLogIsSuffix(ops);
    CounterNumbersAll(g, between);
    FirstReadThenAck(ByCounter, g, history, between, group, limit, 1);
    ReadIsNumbered(g, history, group, limit);
    var all := History(ByCounter, EMPTY_LOG, ops + between);
    assert all[last..last] == [];
    RedisDelivery(ops + between, group, last - |read|, last, last, more);
  }

  lemma ReadIsNumbered(g: Log, history: seq<Event>, group: string, limit: int)
    requires SuffixOf(g, history) && ReadNext(g, group, limit) != []
    ensures var read := ReadNext(g, group, limit); 0 < read[0].no == read[|read| - 1].no - |read| + 1
  {
    hide Read;
    ReadIsSlice(g, history, Offset(g, group), limit);
  }

  /** The session of a group that has read `read` and has just acknowledged the last event of it. */
  ghost function AfterFirstRead(ops: seq<LogOp>, between: seq<LogOp>, group: string, read: seq<Event>): Session
    requires read != []
  {
    Session(Step(ByCounter, Run(ByCounter, EMPTY_LOG, ops + between), Ack(group, read[|read| - 1].no)),
            History(ByCounter, EMPTY_LOG, ops + between), group, [], read)
  }

  /** Nothing the group has yet to read was pruned before it was known, and from then on it is honest. */
  ghost predicate StartsWell(ops: seq<LogOp>, between: seq<LogOp>, group: string, limit: int, more: seq<LogOp>)
    requires ReadNext(Run(ByCounter, EMPTY_LOG, ops), group, limit) != []
  {
    var read := ReadNext(Run(ByCounter, EMPTY_LOG, ops), group, limit);
    && Pruned(Run(ByCounter, EMPTY_LOG, ops + between)) <= read[|read| - 1].no
    && HonestRun(ByCounter, AfterFirstRead(ops, between, group, read), more)
  }

  lemma RunOfTwo(kind: Numbering, g: Log, op: LogOp, more: seq<LogOp>)
    ensures NumberedRun(kind, g, [op] + more) <==> Numbered(kind, g, op) && NumberedRun(kind, Step(kind, g, op), more)
  {
    assert ([op] + more)[1..] == more;
  }

  /** The same of an in-memory log, in runs in which no publish follows a prune that removed events. */
  lemma MemoryDelivery(ops: seq<LogOp>, group: string, from: nat, no: nat, to: nat, more: seq<LogOp>)
    requires QuietAfterPrune(ByLength, EMPTY_LOG, ops + ([Ack(group, no)] + more))
    requires group !in Run(ByLength, EMPTY_LOG, ops).offsets
    requires from <= no <= to <= |History(ByLength, EMPTY_LOG, ops)| && Pruned(Run(ByLength, EMPTY_LOG, ops)) <= no
    requires var g, h := Run(ByLength, EMPTY_LOG, ops), History(ByLength, EMPTY_LOG, ops);
      HonestRun(ByLength, Entered(ByLength, g, h, group, from, no, to), more)
    ensures var g, h := Run(ByLength, EMPTY_LOG, ops), History(ByLength, EMPTY_LOG, ops);
      Delivered(SessionRun(ByLength, Entered(ByLength, g, h, group, from, no, to), more), from)
  {
    hide Delivered, Run, History, HonestRun, SessionRun, Step, QuietAfterPrune, NumberedRun;
    var g, h := Run(ByLength, EMPTY_LOG, ops), History(ByLength, EMPTY_LOG, ops);
    LengthNumbersIffQuiet(EMPTY_LOG, ops + ([Ack(group, no)] + more));
    NumberedSplit(ByLength, EMPTY_LOG, ops, [Ack(group, no)] + more);
    RunOfTwo(ByLength, g, Ack(group, no), more);
    EmptySuffix();
    SuffixOverRun(ByLength, EMPTY_LOG, [], ops);
    assert [] + h == h;
    FirstAckIffRetained(ByLength, g, h, group, from, no, to);
    DeliveryWithoutGaps(ByLength, Entered(ByLength, g, h, group, from, no, to), more, from);
  }

  lemma EmptySuffix()
    ensures SuffixOf(EMPTY_LOG, [])
  {
  }

  /** A group's reads can reach a new event exactly when its number is above the group's offset. */
  lemma VisibleIffAbove(kind: Numbering, g: Log, op: LogOp, group: string)
    requires op.Publish?
    ensures var t := Step(kind, g, op);
      Published(kind, g, op) in Above(t.events, Offset(t, group)) <==> Offset(g, group) < NextNo(kind, g)
  {
    var t := Step(kind, g, op);
    AboveKeeps(t.events, Offset(t, group), Published(kind, g, op));
  }

  /** A group that has read everything misses what is published after a prune: the new event gets an old number. */
  lemma PrunedLogLosesEvent(g: Log, history: seq<Event>, group: string, op: LogOp)
    requires SuffixOf(g, history) && group in g.offsets && g.offsets[group] == |history|
    requires op.Publish?
    ensures var t := Step(ByLength, g, op);
      Published(ByLength, g, op) in Above(t.events, Offset(t, group)) <==> Pruned(g) == 0
    ensures var t := Step(ByCounter, g, op);
      Published(ByCounter, g, op) in Above(t.events, Offset(t, group))
  {
    VisibleIffAbove(ByLength, g, op, group);
    VisibleIffAbove(ByCounter, g, op, group);
  }

  /**
   * The shortest run that loses an event: one is published, acknowledged and pruned; the next one is numbered one
   * again, and the group that is past number one never gets it.
   */
  lemma LostEvent(stream: string, group: string, first: NewEvent, second: NewEvent, at: Time, limit: int)
    ensures var g := Run(ByLength, EMPTY_LOG, [Publish(stream, first, at), Ack(group, 1), Prune(1)]);
      var t := Step(ByLength, g, Publish(stream, second, at));
      && g.offsets == map[group := 1] && g.events == [] && g.counter == 1
      && t.events == [Event(1, stream, second, at)] && ReadNext(t, group, limit) == []
  {
    var a := Step(ByLength, EMPTY_LOG, Publish(stream, first, at));
    assert a.events == [Event(1, stream, first, at)];
    var b := Step(ByLength, a, Ack(group, 1));
    assert b.offsets == map[group := 1];
    CutoffUnique(b.offsets, 1, 1);
    var c := Step(ByLength, b, Prune(1));
    assert c.events == [];
    assert Run(ByLength, c, []) == c;
    assert Run(ByLength, b, [Prune(1)]) == c;
    assert Run(ByLength, a, [Ack(group, 1), Prune(1)]) == c;
    var ops := [Publish(stream, first, at), Ack(group, 1), Prune(1)];
    assert ops[1..] == [Ack(group, 1), Prune(1)];
    assert Run(ByLength, EMPTY_LOG, ops) == c;
  }
}
