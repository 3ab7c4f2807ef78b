/** Finite sets enumerated in a strict total order: what a `BTreeSet` iterates and what `ORDER BY` returns. */
module Ordering {

  ghost predicate StrictTotal<T(!new)>(lt: (T, T) -> bool) {
    && (forall x :: !lt(x, x))
    && (forall x, y, z :: lt(x, y) && lt(y, z) ==> lt(x, z))
    && (forall x, y :: x != y ==> lt(x, y) || lt(y, x))
  }

  ghost predicate Ascending<T>(lt: (T, T) -> bool, s: seq<T>) {
    forall i, j | 0 <= i < j < |s| :: lt(s[i], s[j])
  }

  ghost predicate Least<T>(lt: (T, T) -> bool, s: set<T>, m: T) {
    m in s && forall x | x in s && x != m :: lt(m, x)
  }

  function Elements<T>(s: seq<T>): set<T> {
    set x | x in s
  }

  lemma ElementsCons<T>(x: T, s: seq<T>)
    ensures Elements([x] + s) == {x} + Elements(s)
  {
    forall y
      ensures y in [x] + s <==> y == x || y in s
    {
    }
  }

  lemma NoElements<T>(s: seq<T>)
    ensures Elements(s) == {} ==> s == []
  {
    if s != [] {
      assert s[0] in Elements(s);
    }
  }

  lemma {:induction false} LeastExists<T(!new)>(lt: (T, T) -> bool, s: set<T>)
    requires StrictTotal(lt)
    requires s != {}
    ensures exists m :: Least(lt, s, m)
    decreases |s|
  {
    var x :| x in s;
    var rest := s - {x};
    if rest == {} {
      assert s == {x};
      assert Least(lt, s, x);
    } else {
      LeastExists(lt, rest);
      var m :| Least(lt, rest, m);
      if lt(x, m) {
        assert forall y | y in s && y != x :: y in rest;
        assert Least(lt, s, x);
      } else {
        assert Least(lt, s, m);
      }
    }
  }

  /** The elements of `s`, each once, in increasing order. */
  ghost function SortSet<T(!new)>(lt: (T, T) -> bool, s: set<T>): (r: seq<T>)
    requires StrictTotal(lt)
    ensures Ascending(lt, r)
    ensures Elements(r) == s
    ensures |r| == |s|
    decreases |s|
  {
    if s == {} then []
    else
      LeastExists(lt, s);
      var m :| Least(lt, s, m);
      var rest := SortSet(lt, s - {m});
      SortStep(lt, s, m, rest);
      [m] + rest
  }

  lemma SortStep<T>(lt: (T, T) -> bool, s: set<T>, m: T, rest: seq<T>)
    requires Least(lt, s, m)
    requires Ascending(lt, rest) && Elements(rest) == s - {m}
    ensures Ascending(lt, [m] + rest)
    ensures Elements([m] + rest) == s
  {
    ElementsCons(m, rest);
    forall x | x in rest
      ensures lt(m, x)
    {
      assert x in Elements(rest);
    }
  }

  /** An ascending sequence is determined by its elements. */
  lemma {:induction false} AscendingUnique<T(!new)>(lt: (T, T) -> bool, s: seq<T>, t: seq<T>)
    requires StrictTotal(lt)
    requires Ascending(lt, s) && Ascending(lt, t)
    requires Elements(s) == Elements(t)
    ensures s == t
    decreases |s|
  {
    if s == [] {
      NoElements(t);
    } else {
      assert s[0] in Elements(t);
      assert t != [];
      assert t[0] in Elements(s);
      assert s[0] == t[0];
      forall x
        ensures x in Elements(s[1..]) <==> x in Elements(t[1..])
      {
        TailElements(lt, s, x);
        TailElements(lt, t, x);
        assert x in s <==> x in Elements(s);
        assert x in t <==> x in Elements(t);
      }
      AscendingUnique(lt, s[1..], t[1..]);
      assert s == [s[0]] + s[1..];
      assert t == [t[0]] + t[1..];
    }
  }

  lemma TailElements<T(!new)>(lt: (T, T) -> bool, s: seq<T>, x: T)
    requires StrictTotal(lt)
    requires Ascending(lt, s)
    requires s != []
    ensures x in s[1..] <==> x in s && x != s[0]
  {
    if x in s && x != s[0] {
      var i :| 0 <= i < |s| && s[i] == x;
      assert s[1..][i - 1] == x;
    }
  }

  lemma SortSetUnique<T(!new)>(lt: (T, T) -> bool, s: set<T>, t: seq<T>)
    requires StrictTotal(lt)
    requires Ascending(lt, t) && Elements(t) == s
    ensures t == SortSet(lt, s)
  {
    AscendingUnique(lt, t, SortSet(lt, s));
  }

  /** Insertion into an ascending sequence; an element already present is not duplicated. */
  function Insert<T(==)>(lt: (T, T) -> bool, s: seq<T>, x: T): (r: seq<T>)
    ensures Elements(r) == Elements(s) + {x}
  {
    if s == [] then [x]
    else if s[0] == x then s
    else if lt(x, s[0]) then
      ElementsCons(x, s);
      [x] + s
    else
      ElementsCons(s[0], s[1..]);
      assert s == [s[0]] + s[1..];
      ElementsCons(s[0], Insert(lt, s[1..], x));
      [s[0]] + Insert(lt, s[1..], x)
  }

  lemma {:induction false} InsertAscending<T(!new)>(lt: (T, T) -> bool, s: seq<T>, x: T)
    requires StrictTotal(lt)
    requires Ascending(lt, s)
    ensures Ascending(lt, Insert(lt, s, x))
  {
    if s == [] || s[0] == x {
    } else if lt(x, s[0]) {
    } else {
      InsertAscending(lt, s[1..], x);
      var r := Insert(lt, s[1..], x);
      forall y | y in r
        ensures lt(s[0], y)
      {
        assert y in Elements(r);
        assert y == x || y in Elements(s[1..]);
      }
    }
  }

  function Remove<T(==)>(s: seq<T>, x: T): (r: seq<T>)
    ensures forall y :: y in r ==> y in s
  {
    if s == [] then []
    else if s[0] == x then s[1..]
    else [s[0]] + Remove(s[1..], x)
  }

  lemma {:induction false} RemoveAscending<T(!new)>(lt: (T, T) -> bool, s: seq<T>, x: T)
    requires StrictTotal(lt)
    requires Ascending(lt, s)
    ensures Ascending(lt, Remove(s, x))
    ensures Elements(Remove(s, x)) == Elements(s) - {x}
  {
    if s != [] {
      assert s == [s[0]] + s[1..];
      ElementsCons(s[0], s[1..]);
      if s[0] == x {
        TailElements(lt, s, x);
        assert x !in Elements(s[1..]);
      } else {
        RemoveAscending(lt, s[1..], x);
        var r := Remove(s[1..], x);
        ElementsCons(s[0], r);
        PrependAscending(lt, s[0], s[1..], r);
      }
    }
  }

  lemma PrependAscending<T(!new)>(lt: (T, T) -> bool, x: T, s: seq<T>, r: seq<T>)
    requires Ascending(lt, [x] + s)
    requires Ascending(lt, r)
    requires forall y | y in r :: y in s
    ensures Ascending(lt, [x] + r)
  {
    forall y | y in r
      ensures lt(x, y)
    {
      var i :| 0 <= i < |s| && s[i] == y;
      assert ([x] + s)[0] == x && ([x] + s)[i + 1] == y;
    }
  }

  /** The elements that satisfy `keep`, in the order in which they stand. */
  function Select<T(!new)>(s: seq<T>, keep: T -> bool): (r: seq<T>)
    ensures forall x :: x in r <==> x in s && keep(x)
  {
    if s == [] then []
    else
      assert forall x :: x in s <==> x == s[0] || x in s[1..];
      (if keep(s[0]) then [s[0]] else []) + Select(s[1..], keep)
  }

  lemma {:induction false} SelectAscending<T(!new)>(lt: (T, T) -> bool, s: seq<T>, keep: T -> bool)
    requires Ascending(lt, s)
    ensures Ascending(lt, Select(s, keep))
  {
    if s != [] {
      SelectAscending(lt, s[1..], keep);
      assert [s[0]] + s[1..] == s;
      PrependAscending(lt, s[0], s[1..], Select(s[1..], keep));
    }
  }

  function Take<T>(s: seq<T>, n: int): (r: seq<T>)
    ensures |r| == if n < 0 then 0 else if n < |s| then n else |s|
    ensures r <= s
  {
    if n < 0 then [] else if n < |s| then s[..n] else s
  }

  /** Reads a set out in order, one element at a time. */
  method Collect<T(!new, ==)>(lt: (T, T) -> bool, s: set<T>) returns (r: seq<T>)
    requires StrictTotal(lt)
    ensures r == SortSet(lt, s)
  {
    r := [];
    var rest := s;
    while rest != {}
      invariant rest <= s
      invariant Ascending(lt, r)
      invariant Elements(r) == s - rest
      decreases |rest|
    {
      var x :| x in rest;
      InsertAscending(lt, r, x);
      r := Insert(lt, r, x);
      rest := rest - {x};
    }
    SortSetUnique(lt, s, r);
  }
}
