/** Filtering, joining and scanning of sequences. */
module Sequences {
  import opened Wrappers

  /** What `f` makes of the items it applies to, in order. */
  function FilterMap<S, T>(items: seq<S>, f: S -> Option<T>): seq<T> {
    if items == [] then []
    else (if f(items[0]).Some? then [f(items[0]).value] else []) + FilterMap(items[1..], f)
  }

  lemma {:induction false} FilterMapConcat<S, T>(first: seq<S>, second: seq<S>, f: S -> Option<T>)
    ensures FilterMap(first + second, f) == FilterMap(first, f) + FilterMap(second, f)
  {
    if first == [] {
      assert first + second == second;
    } else {
      var head := if f(first[0]).Some? then [f(first[0]).value] else [];
      assert (first + second)[1..] == first[1..] + second;
      FilterMapConcat(first[1..], second, f);
      assert FilterMap(first + second, f) == head + FilterMap(first[1..] + second, f);
    }
  }

  /** The filter that keeps the values there are. */
  function Same<T>(option: Option<T>): Option<T> {
    option
  }

  /** An option as a sequence. */
  function Known<T>(option: Option<T>): seq<T> {
    if option.Some? then [option.value] else []
  }

  lemma FilterMapLast<S, T>(items: seq<S>, last: S, f: S -> Option<T>)
    ensures FilterMap(items + [last], f) == FilterMap(items, f) + Known(f(last))
  {
    FilterMapConcat(items, [last], f);
  }

  /** The first item from `from` on that `f` applies to, or the end. */
  method Advance<S, T>(items: seq<S>, from: nat, f: S -> Option<T>) returns (at: nat)
    requires from <= |items|
    ensures from <= at <= |items|
    ensures at < |items| ==> f(items[at]).Some?
    ensures FilterMap(items[from..], f) == FilterMap(items[at..], f)
  {
    at := from;
    while at < |items| && f(items[at]).None?
      invariant from <= at <= |items|
      invariant FilterMap(items[from..], f) == FilterMap(items[at..], f)
    {
      assert items[at..][1..] == items[at + 1..];
      at := at + 1;
    }
  }

  /** Where scanning stops, the rest is the item there and what follows. */
  lemma FilterMapHead<S, T>(items: seq<S>, at: nat, f: S -> Option<T>)
    requires at < |items| && f(items[at]).Some?
    ensures FilterMap(items[at..], f) == [f(items[at]).value] + FilterMap(items[at + 1..], f)
  {
    assert items[at..][1..] == items[at + 1..];
  }

  /** Every item by `f`. */
  function Mapped<S, T>(items: seq<S>, f: S -> T): (r: seq<T>)
    ensures |r| == |items| && forall i :: 0 <= i < |items| ==> r[i] == f(items[i])
  {
    seq(|items|, i requires 0 <= i < |items| => f(items[i]))
  }

  /** Two lists whose items contribute the same, one by one. */
  lemma {:induction false} FilterMapAligned<S, T, U, V>(
    first: seq<S>, f: S -> Option<T>, g: T -> V, second: seq<U>, h: U -> Option<V>)
    requires |first| == |second|
    requires forall k :: 0 <= k < |first| ==>
      h(second[k]) == if f(first[k]).Some? then Some(g(f(first[k]).value)) else None
    ensures Mapped(FilterMap(first, f), g) == FilterMap(second, h)
  {
    if first != [] {
      FilterMapAligned(first[1..], f, g, second[1..], h);
    }
  }

  lemma {:induction false} FilterMapSize<S, T>(items: seq<S>, f: S -> Option<T>)
    ensures |FilterMap(items, f)| <= |items|
  {
    if items != [] {
      FilterMapSize(items[1..], f);
    }
  }

  /** Two lists whose items contribute the same. */
  lemma {:induction false} FilterMapAgrees<S, T, U>(first: seq<S>, f: S -> Option<T>, second: seq<U>, h: U -> Option<T>)
    requires |first| == |second| && forall k :: 0 <= k < |first| ==> f(first[k]) == h(second[k])
    ensures FilterMap(first, f) == FilterMap(second, h)
  {
    if first != [] {
      FilterMapAgrees(first[1..], f, second[1..], h);
    }
  }

  /** Filtering twice is filtering once by the composition. */
  lemma {:induction false} FilterMapComposes<S, T, U>(
    items: seq<S>, f: S -> Option<T>, g: T -> Option<U>, h: S -> Option<U>)
    requires forall k :: 0 <= k < |items| ==>
      h(items[k]) == if f(items[k]).Some? then g(f(items[k]).value) else None
    ensures FilterMap(FilterMap(items, f), g) == FilterMap(items, h)
  {
    if items != [] {
      FilterMapComposes(items[1..], f, g, h);
      FilterMapConcat(if f(items[0]).Some? then [f(items[0]).value] else [], FilterMap(items[1..], f), g);
    }
  }

  lemma {:induction false} FilterMapMembers<S, T>(items: seq<S>, f: S -> Option<T>, value: T)
    ensures value in FilterMap(items, f) <==> exists k :: 0 <= k < |items| && f(items[k]) == Some(value)
  {
    if items != [] {
      FilterMapMembers(items[1..], f, value);
      var head := if f(items[0]).Some? then [f(items[0]).value] else [];
      assert FilterMap(items, f) == head + FilterMap(items[1..], f);
      if value in FilterMap(items[1..], f) {
        var k :| 0 <= k < |items[1..]| && f(items[1..][k]) == Some(value);
        assert f(items[k + 1]) == Some(value);
      }
      if exists k :: 1 <= k < |items| && f(items[k]) == Some(value) {
        var k :| 1 <= k < |items| && f(items[k]) == Some(value);
        assert f(items[1..][k - 1]) == Some(value);
      }
    }
  }

  /** The pieces one after another. */
  function Concat<T>(pieces: seq<seq<T>>): seq<T> {
    if pieces == [] then [] else pieces[0] + Concat(pieces[1..])
  }

  lemma {:induction false} ConcatConcat<T>(first: seq<seq<T>>, second: seq<seq<T>>)
    ensures Concat(first + second) == Concat(first) + Concat(second)
  {
    if first == [] {
      assert first + second == second;
    } else {
      assert (first + second)[1..] == first[1..] + second;
      ConcatConcat(first[1..], second);
      assert first[0] + (Concat(first[1..]) + Concat(second)) == first[0] + Concat(first[1..]) + Concat(second);
    }
  }

  // ---------------------------------------------------------- increasing lists

  predicate Increasing(order: seq<nat>) {
    forall j, k :: 0 <= j < k < |order| ==> order[j] < order[k]
  }

  /** The largest index below the limit comes last, and the others are below it. */
  lemma LastIs(order: seq<nat>, limit: nat) returns (last: nat)
    requires limit > 0 && Increasing(order) && limit - 1 in order
    requires forall k :: 0 <= k < |order| ==> order[k] < limit
    ensures last == |order| - 1 && order == order[..last] + [limit - 1] && Increasing(order[..last])
    ensures forall k :: 0 <= k < last ==> order[k] < limit - 1
    ensures forall i :: i in order && i < limit - 1 ==> i in order[..last]
  {
    var k :| 0 <= k < |order| && order[k] == limit - 1;
    last := |order| - 1;
    assert forall j :: 0 <= j < last ==> order[j] < order[last];
    assert order[last] < limit;
  }

  lemma SizeWithin<T>(small: set<T>, large: set<T>)
    requires small <= large
    ensures |small| <= |large|
  {
    assert large == small + (large - small);
  }
}
