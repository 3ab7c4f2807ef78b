/** The list keys of the Redis backend, and the queue name a reaper reads back out of one. */
module RedisKeys {

  predicate ColonFree(s: string) {
    ':' !in s
  }

  /** `split(':')`. */
  function Split(s: string): (parts: seq<string>)
    ensures |parts| > 0
    ensures forall i | 0 <= i < |parts| :: ColonFree(parts[i])
  {
    if s == "" then [""]
    else
      var rest := Split(s[1..]);
      if s[0] == ':' then [""] + rest else [[s[0]] + rest[0]] + rest[1..]
  }

  lemma {:induction false} SplitAtColon(a: string, b: string)
    requires ColonFree(a)
    ensures Split(a + ":" + b) == [a] + Split(b)
  {
    var s := a + ":" + b;
    if a == "" {
      assert s[1..] == b;
    } else {
      assert s[1..] == a[1..] + ":" + b;
      SplitAtColon(a[1..], b);
      assert [a[0]] + a[1..] == a;
    }
  }

  /** The list of ids that a worker has taken from a queue and not yet settled. */
  function ProcessingKey(queue: string, worker: string): string {
    "azums" + ":" + ("processing" + ":" + (queue + ":" + worker))
  }

  /** The queue a reaper puts the ids of a processing list back into, if the key has enough parts. */
  function QueueOfKey(key: string): string {
    var parts := Split(key);
    if |parts| < 4 then "" else parts[2]
  }

  predicate Reapable(key: string) {
    |Split(key)| >= 4
  }

  lemma SplitKey(queue: string, worker: string)
    ensures Split(ProcessingKey(queue, worker)) == ["azums", "processing"] + Split(queue + ":" + worker)
  {
    hide Split;
    SplitTwice("azums", "processing", queue + ":" + worker);
  }

  lemma SplitTwice(a: string, b: string, rest: string)
    requires ColonFree(a) && ColonFree(b)
    ensures Split(a + ":" + (b + ":" + rest)) == [a, b] + Split(rest)
  {
    hide Split;
    SplitAtColon(a, b + ":" + rest);
    SplitAtColon(b, rest);
  }

  lemma {:induction false} SplitSize(a: string, b: string)
    ensures |Split(a + ":" + b)| >= 2
  {
    var s := a + ":" + b;
    if a == "" {
      assert s[1..] == b;
    } else {
      assert s[1..] == a[1..] + ":" + b;
      SplitSize(a[1..], b);
    }
  }

  /** The reaper finds the queue it should exactly when the queue name has no colon in it. */
  lemma QueueRoundTrip(queue: string, worker: string)
    ensures Reapable(ProcessingKey(queue, worker))
    ensures QueueOfKey(ProcessingKey(queue, worker)) == queue <==> ColonFree(queue)
  {
    SplitKey(queue, worker);
    SplitSize(queue, worker);
    if ColonFree(queue) {
      SplitAtColon(queue, worker);
    }
  }

  /** Distinct queues and workers have distinct lists, if the queue names have no colon. */
  lemma KeyInjective(q: string, w: string, q2: string, w2: string)
    requires ColonFree(q) && ColonFree(q2)
    requires ProcessingKey(q, w) == ProcessingKey(q2, w2)
    ensures q == q2 && w == w2
  {
    QueueRoundTrip(q, w);
    QueueRoundTrip(q2, w2);
    var n := |"azums:processing:"| + |q| + 1;
    assert ProcessingKey(q, w)[n..] == w;
    assert ProcessingKey(q2, w2)[n..] == w2;
  }
}
