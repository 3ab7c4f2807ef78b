/** The two event-log backends: lists and hashes of Redis, and tables held in memory. */
module Streams {
  import opened Model
  import opened Ordering
  import opened EventLog

  lemma {:induction false} AboveSplit(a: seq<Event>, b: seq<Event>, n: int)
    ensures Above(a + b, n) == Above(a, n) + Above(b, n)
  {
    if a == [] {
      assert a + b == b;
    } else {
      assert (a + b)[1..] == a[1..] + b;
      AboveSplit(a[1..], b, n);
    }
  }

  lemma AboveOneMore(events: seq<Event>, k: nat, n: int)
    requires k < |events|
    ensures Above(events[..k + 1], n) == Above(events[..k], n) + if events[k].no > n then [events[k]] else []
  {
    assert events[..k + 1] == events[..k] + [events[k]];
    AboveSplit(events[..k], [events[k]], n);
  }

  /** Collects the first `limit` events above `after` and stops. */
  method FirstAbove(events: seq<Event>, after: int, limit: nat) returns (r: seq<Event>)
    requires limit > 0
    ensures r == Take(Above(events, after), limit)
  {
    hide Above;
    r := [];
    var k := 0;
    assert Above(events[..0], after) == [];
    while k < |events|
      invariant k <= |events| && |r| < limit
      invariant r == Above(events[..k], after)
    {
      AboveOneMore(events, k, after);
      if events[k].no > after {
        r := r + [events[k]];
        if |r| >= limit {
          assert events == events[..k + 1] + events[k + 1..];
          AboveSplit(events[..k + 1], events[k + 1..], after);
          return;
        }
      }
      k := k + 1;
    }
    assert events[..k] == events;
  }

  method Retain(events: seq<Event>, cutoff: int) returns (r: seq<Event>)
    ensures r == Above(events, cutoff)
  {
    hide Above;
    r := [];
    var k := 0;
    assert Above(events[..0], cutoff) == [];
    while k < |events|
      invariant k <= |events|
      invariant r == Above(events[..k], cutoff)
    {
      AboveOneMore(events, k, cutoff);
      if events[k].no > cutoff {
        r := r + [events[k]];
      }
      k := k + 1;
    }
    assert events[..k] == events;
  }

  method LowestOffset(offsets: map<string, int>, through: int) returns (c: int)
    ensures c == Cutoff(offsets, through)
  {
    c := through;
    var rest := offsets.Keys;
    while rest != {}
      invariant rest <= offsets.Keys
      invariant c <= through && forall group | group in offsets && group !in rest :: c <= offsets[group]
      invariant c == through || exists group :: group in offsets && c == offsets[group]
      decreases |rest|
    {
      var group :| group in rest;
      if offsets[group] < c {
        c := offsets[group];
      }
      rest := rest - {group};
    }
    CutoffUnique(offsets, through, c);
  }

  /** What stays is what lies above the request, or above the offset of some group. */
  ghost predicate Spares(events: seq<Event>, offsets: map<string, int>, through: int, after: seq<Event>) {
    forall e :: e in after <==>
      e in events && (e.no > through || exists group :: group in offsets && e.no > offsets[group])
  }

  lemma PruneSpares(events: seq<Event>, offsets: map<string, int>, through: int)
    ensures Spares(events, offsets, through, Above(events, Cutoff(offsets, through)))
  {
    hide Above, Cutoff;
    forall e
      ensures e in Above(events, Cutoff(offsets, through)) <==> e in events && e.no > Cutoff(offsets, through)
    {
      AboveKeeps(events, Cutoff(offsets, through), e);
    }
  }

  /** The offsets of one stream out of the table of all. */
  function OfStream(offsets: map<(string, string), int>, stream: string): map<string, int> {
    var groups := set k | k in offsets && k.0 == stream :: k.1;
    map group | group in groups :: offsets[(stream, group)]
  }

  lemma OfStreamUpdate(offsets: map<(string, string), int>, stream: string, group: string, no: int, other: string)
    ensures OfStream(offsets[(stream, group) := no], other)
         == if other == stream then OfStream(offsets, stream)[group := no] else OfStream(offsets, other)
  {
    var before, after := OfStream(offsets, other), OfStream(offsets[(stream, group) := no], other);
    forall g
      ensures g in before <==> (other, g) in offsets
      ensures g in after <==> (other, g) in offsets || (other, g) == (stream, group)
    {
      if (other, g) in offsets {
        assert (other, g).1 in before;
      }
      if (other, g) in offsets[(stream, group) := no] {
        assert (other, g).1 in after;
      }
    }
  }

  lemma InStream(offsets: map<(string, string), int>, stream: string, group: string)
    ensures group in OfStream(offsets, stream) <==> (stream, group) in offsets
    ensures group in OfStream(offsets, stream) ==> OfStream(offsets, stream)[group] == offsets[(stream, group)]
  {
    if (stream, group) in offsets {
      assert (stream, group).1 in OfStream(offsets, stream);
    }
  }

  class RedisStreams {
    var counters: map<string, nat>
    var events: map<string, seq<Event>>
    var offsets: map<string, map<string, int>>

    function Events(stream: string): seq<Event>
      reads this
    {
      if stream in events then events[stream] else []
    }

    function Offsets(stream: string): map<string, int>
      reads this
    {
      if stream in offsets then offsets[stream] else map[]
    }

    ghost function View(stream: string): Log
      reads this
    {
      Log(if stream in counters then counters[stream] else 0, Events(stream), Offsets(stream))
    }

    constructor ()
      ensures forall stream :: View(stream) == EMPTY_LOG
    {
      counters, events, offsets := map[], map[], map[];
    }

    method Publish(stream: string, content: NewEvent, now: Time) returns (no: int)
      modifies this
      ensures View(stream) == Step(ByCounter, old(View(stream)), EventLog.Publish(stream, content, now))
      ensures View(stream).events == old(View(stream)).events + [Event(no, stream, content, now)]
      ensures no == old(View(stream)).counter + 1
      ensures forall other | other != stream :: View(other) == old(View(other))
    {
      var n: nat := (if stream in counters then counters[stream] else 0) + 1;
      counters := counters[stream := n];
      no := n;
      events := events[stream := Events(stream) + [Event(no, stream, content, now)]];
    }

    method Ack(stream: string, group: string, no: int)
      modifies this
      ensures View(stream) == Step(ByCounter, old(View(stream)), EventLog.Ack(group, no))
      ensures View(stream).offsets == old(View(stream)).offsets[group :=
        if group in old(View(stream)).offsets && old(View(stream)).offsets[group] > no then
          old(View(stream)).offsets[group]
        else no]
      ensures forall other | other != stream :: View(other) == old(View(other))
    {
      var known := Offsets(stream);
      var offset := if group in known then Max(known[group], no) else no;
      offsets := offsets[stream := known[group := offset]];
    }

    method ReadEvents(stream: string, after: int, limit: int) returns (r: seq<Event>)
      ensures r == Read(View(stream), after, limit)
      ensures r == Take(Above(View(stream).events, after), Clamp(limit, 1, 1000))
    {
      r := FirstAbove(Events(stream), after, ReadLimit(limit));
    }

    method ReadNext(stream: string, group: string, limit: int) returns (r: seq<Event>)
      ensures r == EventLog.ReadNext(View(stream), group, limit)
    {
      var known := Offsets(stream);
      r := ReadEvents(stream, if group in known then known[group] else 0, limit);
    }

    method PruneEvents(stream: string, through: int) returns (removed: nat)
      modifies this
      ensures View(stream) == Step(ByCounter, old(View(stream)), Prune(through))
      ensures Spares(old(View(stream)).events, old(View(stream)).offsets, through, View(stream).events)
      ensures removed == Pruned(View(stream)) - old(Pruned(View(stream)))
      ensures forall other | other != stream :: View(other) == old(View(other))
    {
      PruneSpares(Events(stream), Offsets(stream), through);
      hide Spares, Above;
      var cutoff := LowestOffset(Offsets(stream), through);
      var before := |Events(stream)|;
      var retained := Retain(Events(stream), cutoff);
      events := events - {stream};
      if retained != [] {
        events := events[stream := retained];
      }
      removed := before - |Events(stream)|;
    }
  }

  class MemoryStreams {
    var streams: map<string, seq<Event>>
    var offsets: map<(string, string), int>
    /** How many events each stream has been given; the backend itself does not keep this. */
    ghost var published: map<string, nat>

    function Events(stream: string): seq<Event>
      reads this
    {
      if stream in streams then streams[stream] else []
    }

    function Offsets(stream: string): map<string, int>
      reads this
    {
      OfStream(offsets, stream)
    }

    ghost function View(stream: string): Log
      reads this
    {
      Log(if stream in published then published[stream] else 0, Events(stream), Offsets(stream))
    }

    constructor ()
      ensures forall stream :: View(stream) == EMPTY_LOG
    {
      streams, offsets, published := map[], map[], map[];
    }

    method Publish(stream: string, content: NewEvent, now: Time) returns (no: int)
      modifies this
      ensures View(stream) == Step(ByLength, old(View(stream)), EventLog.Publish(stream, content, now))
      ensures View(stream).events == old(View(stream)).events + [Event(no, stream, content, now)]
      ensures no == |old(View(stream)).events| + 1
      ensures forall other | other != stream :: View(other) == old(View(other))
    {
      no := |Events(stream)| + 1;
      streams := streams[stream := Events(stream) + [Event(no, stream, content, now)]];
      published := published[stream := (if stream in published then published[stream] else 0) + 1];
    }

    method Ack(stream: string, group: string, no: int)
      modifies this
      ensures View(stream) == Step(ByLength, old(View(stream)), EventLog.Ack(group, no))
      ensures View(stream).offsets == old(View(stream)).offsets[group :=
        var before := if group in old(View(stream)).offsets then old(View(stream)).offsets[group] else 0;
        if before > no then before else no]
      ensures forall other | other != stream :: View(other) == old(View(other))
    {
      hide OfStream;
      var key := (stream, group);
      InStream(offsets, stream, group);
      var offset := if key in offsets then offsets[key] else 0;
      forall other
        ensures OfStream(offsets[key := Max(offset, no)], other)
             == if other == stream then OfStream(offsets, stream)[group := Max(offset, no)]
                else OfStream(offsets, other)
      {
        OfStreamUpdate(offsets, stream, group, Max(offset, no), other);
      }
      if no > offset {
        offset := no;
      }
      offsets := offsets[key := offset];
    }

    method ReadEvents(stream: string, after: int, limit: int) returns (r: seq<Event>)
      ensures r == Read(View(stream), after, limit)
      ensures r == Take(Above(View(stream).events, after), Clamp(limit, 1, 1000))
    {
      r := FirstAbove(Events(stream), after, ReadLimit(limit));
    }

    method ReadNext(stream: string, group: string, limit: int) returns (r: seq<Event>)
      ensures r == EventLog.ReadNext(View(stream), group, limit)
    {
      var known := Offsets(stream);
      r := ReadEvents(stream, if group in known then known[group] else 0, limit);
    }

    method PruneEvents(stream: string, through: int) returns (removed: nat)
      modifies this
      ensures View(stream) == Step(ByLength, old(View(stream)), Prune(through))
      ensures Spares(old(View(stream)).events, old(View(stream)).offsets, through, View(stream).events)
      ensures removed == Pruned(View(stream)) - old(Pruned(View(stream)))
      ensures forall other | other != stream :: View(other) == old(View(other))
    {
      PruneSpares(Events(stream), Offsets(stream), through);
      hide Spares, Above;
      var cutoff := LowestOffset(Offsets(stream), through);
      if stream !in streams {
        return 0;
      }
      var before := |streams[stream]|;
      var retained := Retain(streams[stream], cutoff);
      streams := streams[stream := retained];
      removed := before - |streams[stream]|;
    }
  }
}
