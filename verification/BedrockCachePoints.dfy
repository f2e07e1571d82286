/** Validation of the Bedrock cache strategy, and the points an encoder finds turn by turn. */
module BedrockCachePoints {
  import opened Wrappers
  import opened Json
  import opened Parts
  import opened Sequences

  datatype Ttl = FiveMinutes | OneHour

  /** A point without a lifetime lives five minutes. */
  datatype CachePoint = CachePoint(ttl: Option<Ttl>) {
    predicate Short() {
      ttl != Some(OneHour)
    }
  }

  datatype MessagePoint = MessagePoint(index: nat, point: CachePoint)

  datatype Strategy = Strategy(tools: Option<CachePoint>, system: Option<CachePoint>, messages: seq<MessagePoint>)

  const NO_STRATEGY := Strategy(None, None, [])

  const MAX_POINTS := 4

  // ------------------------------------------------------- points by history index

  /** The first point listed for a turn. */
  function PointAt(messages: seq<MessagePoint>, index: nat): Option<CachePoint> {
    if messages == [] then None
    else if messages[0].index == index then Some(messages[0].point)
    else PointAt(messages[1..], index)
  }

  method FindPoint(messages: seq<MessagePoint>, index: nat) returns (point: Option<CachePoint>)
    ensures point == PointAt(messages, index)
  {
    assert messages[0..] == messages;
    for i := 0 to |messages|
      invariant PointAt(messages, index) == PointAt(messages[i..], index)
    {
      assert messages[i..][1..] == messages[i + 1..];
      if messages[i].index == index {
        return Some(messages[i].point);
      }
    }
    return None;
  }

  /** The points an encoder finds at the turns from `from` on, below `limit`. */
  function PointsFound(messages: seq<MessagePoint>, from: nat, limit: nat): seq<CachePoint>
    requires from <= limit
    decreases limit - from
  {
    if from == limit then [] else Known(PointAt(messages, from)) + PointsFound(messages, from + 1, limit)
  }

  // -------------------------------------------------------------------- sorting

  function Inserted(point: MessagePoint, sorted: seq<MessagePoint>): seq<MessagePoint> {
    if sorted == [] || point.index <= sorted[0].index then [point] + sorted
    else [sorted[0]] + Inserted(point, sorted[1..])
  }

  /** The points by ascending history index. */
  function Sorted(messages: seq<MessagePoint>): seq<MessagePoint> {
    if messages == [] then [] else Inserted(messages[0], Sorted(messages[1..]))
  }

  predicate Increasing(messages: seq<MessagePoint>) {
    forall i, j :: 0 <= i < j < |messages| ==> messages[i].index < messages[j].index
  }

  predicate DistinctIndices(messages: seq<MessagePoint>) {
    forall i, j :: 0 <= i < j < |messages| ==> messages[i].index != messages[j].index
  }

  lemma {:induction false} InsertedIs(point: MessagePoint, sorted: seq<MessagePoint>)
    requires Increasing(sorted) && forall i :: 0 <= i < |sorted| ==> sorted[i].index != point.index
    ensures Increasing(Inserted(point, sorted))
    ensures forall p :: p in Inserted(point, sorted) <==> p == point || p in sorted
  {
    if sorted != [] && point.index > sorted[0].index {
      var rest := Inserted(point, sorted[1..]);
      InsertedIs(point, sorted[1..]);
      assert sorted == [sorted[0]] + sorted[1..];
      forall i | 0 <= i < |rest| ensures sorted[0].index < rest[i].index {
        assert rest[i] in rest;
      }
    } else {
      assert Inserted(point, sorted) == [point] + sorted;
    }
  }

  lemma {:induction false} SortedIs(messages: seq<MessagePoint>)
    requires DistinctIndices(messages)
    ensures Increasing(Sorted(messages))
    ensures forall p :: p in Sorted(messages) <==> p in messages
  {
    if messages != [] {
      var rest := Sorted(messages[1..]);
      SortedIs(messages[1..]);
      forall i | 0 <= i < |rest| ensures rest[i].index != messages[0].index {
        assert rest[i] in messages[1..];
      }
      InsertedIs(messages[0], rest);
      assert messages == [messages[0]] + messages[1..];
    }
  }

  lemma {:induction false} PointAtIs(messages: seq<MessagePoint>, index: nat, point: CachePoint)
    requires DistinctIndices(messages)
    ensures PointAt(messages, index) == Some(point) <==> MessagePoint(index, point) in messages
  {
    if messages != [] {
      PointAtIs(messages[1..], index, point);
      assert messages == [messages[0]] + messages[1..];
    }
  }

  /** Sorted points whose indices lie in a range are the points found there, in order. */
  lemma {:induction false} FoundInOrder(messages: seq<MessagePoint>, sorted: seq<MessagePoint>, from: nat, limit: nat)
    requires DistinctIndices(messages) && Increasing(sorted) && from <= limit
    requires forall p :: p in sorted <==> p in messages && p.index >= from
    requires forall p :: p in messages ==> p.index < limit
    ensures PointsFound(messages, from, limit) == Mapped(sorted, PointOf)
    decreases limit - from
  {
    if from == limit {
      NonEmptyHas(sorted);
    } else {
      if sorted != [] && sorted[0].index == from {
        var rest := sorted[1..];
        assert sorted[0] in sorted;
        PointAtIs(messages, from, sorted[0].point);
        RestAfter(messages, sorted, from);
        FoundInOrder(messages, rest, from + 1, limit);
        assert Mapped(sorted, PointOf) == [sorted[0].point] + Mapped(rest, PointOf);
      } else {
        NoneHere(messages, sorted, from);
        FoundInOrder(messages, sorted, from + 1, limit);
        assert [] + PointsFound(messages, from + 1, limit) == PointsFound(messages, from + 1, limit);
      }
    }
  }

  lemma NonEmptyHas(points: seq<MessagePoint>)
    ensures points != [] ==> exists p :: p in points
  {
    if points != [] {
      assert points[0] in points;
    }
  }

  lemma NoneHere(messages: seq<MessagePoint>, sorted: seq<MessagePoint>, from: nat)
    requires DistinctIndices(messages) && Increasing(sorted) && (sorted == [] || sorted[0].index != from)
    requires forall p :: p in sorted <==> p in messages && p.index >= from
    ensures PointAt(messages, from).None?
    ensures forall p :: p in sorted <==> p in messages && p.index >= from + 1
  {
    if PointAt(messages, from).Some? {
      PointAtIs(messages, from, PointAt(messages, from).value);
      NotFirst(messages, sorted, from, PointAt(messages, from).value);
    }
    forall p ensures p in sorted <==> p in messages && p.index >= from + 1 {
      if p in sorted && p.index == from {
        NotFirst(messages, sorted, from, p.point);
      }
    }
  }

  function PointOf(message: MessagePoint): CachePoint {
    message.point
  }

  /** A point for the least index would be the first of the sorted ones. */
  lemma NotFirst(messages: seq<MessagePoint>, sorted: seq<MessagePoint>, from: nat, point: CachePoint)
    requires Increasing(sorted) && forall p :: p in sorted <==> p in messages && p.index >= from
    requires MessagePoint(from, point) in messages
    ensures sorted != [] && sorted[0].index == from
  {
    assert MessagePoint(from, point) in sorted;
    assert sorted[0] in sorted;
  }

  lemma RestAfter(messages: seq<MessagePoint>, sorted: seq<MessagePoint>, from: nat)
    requires DistinctIndices(messages) && Increasing(sorted) && sorted != [] && sorted[0].index == from
    requires forall p :: p in sorted <==> p in messages && p.index >= from
    ensures forall p :: p in sorted[1..] <==> p in messages && p.index >= from + 1
  {
    forall p ensures p in sorted[1..] <==> p in messages && p.index >= from + 1 {
      if p in sorted[1..] {
        var k :| 0 <= k < |sorted[1..]| && sorted[1..][k] == p;
        assert sorted[k + 1] == p && p in sorted;
      }
      if p in messages && p.index >= from + 1 {
        assert p in sorted;
        var k :| 0 <= k < |sorted| && sorted[k] == p;
        assert sorted[1..][k - 1] == p;
      }
    }
  }

  // ------------------------------------------------------------------ validation

  function CountOf(strategy: Strategy): nat {
    |Known(strategy.tools)| + |Known(strategy.system)| + |strategy.messages|
  }

  /** The points in wire order: tools, system, then the messages by history index. */
  function Points(strategy: Strategy): seq<CachePoint> {
    Known(strategy.tools) + Known(strategy.system) + Mapped(Sorted(strategy.messages), PointOf)
  }

  /** No one-hour point follows a five-minute one. */
  predicate LongestFirst(points: seq<CachePoint>) {
    forall i, j :: 0 <= i < j < |points| && points[i].Short() ==> points[j].Short()
  }

  predicate HasSystemText(history: seq<Turn>) {
    exists i :: 0 <= i < |history| && history[i].SystemTurn? && SaysSomething(history[i].system)
  }

  predicate SaysSomething(parts: seq<SystemPart>) {
    exists k :: 0 <= k < |parts| && parts[k].SystemText? && parts[k].text != ""
  }

  predicate PointsPlaced(history: seq<Turn>, messages: seq<MessagePoint>) {
    forall i :: 0 <= i < |messages| ==>
      messages[i].index < |history| && !history[messages[i].index].SystemTurn?
  }

  /** What the strategy must satisfy beside being within its limits. */
  predicate StrategyValid(history: seq<Turn>, hasTools: bool, strategy: Strategy, caching: bool) {
    CountOf(strategy) == 0 || (
      && caching && CountOf(strategy) <= MAX_POINTS
      && (strategy.system.Some? ==> HasSystemText(history))
      && (strategy.tools.Some? ==> hasTools)
      && DistinctIndices(strategy.messages) && PointsPlaced(history, strategy.messages)
      && LongestFirst(Points(strategy)))
  }

  method ValidateCacheStrategy(history: seq<Turn>, hasTools: bool, strategy: Strategy, caching: bool)
    returns (ok: bool)
    ensures ok <==> StrategyValid(history, hasTools, strategy, caching)
  {
    hide HasSystemText, Sorted;
    var count := CountOf(strategy);
    if count == 0 {
      return true;
    }
    if !caching || count > MAX_POINTS {
      return false;
    }
    if strategy.system.Some? && !HasSystemText(history) {
      return false;
    }
    if strategy.tools.Some? && !hasTools {
      return false;
    }
    var indices: set<nat> := {};
    for i := 0 to |strategy.messages|
      invariant forall n :: n in indices <==> exists k :: 0 <= k < i && strategy.messages[k].index == n
      invariant DistinctIndices(strategy.messages[..i]) && PointsPlaced(history, strategy.messages[..i])
    {
      var index := strategy.messages[i].index;
      if index in indices {
        return false;
      }
      if index >= |history| || history[index].SystemTurn? {
        return false;
      }
      indices := indices + {index};
    }
    assert strategy.messages[..|strategy.messages|] == strategy.messages;
    ok := ValidateLifetimes(Points(strategy));
  }

  method ValidateLifetimes(points: seq<CachePoint>) returns (ok: bool)
    ensures ok <==> LongestFirst(points)
  {
    var sawShort := false;
    for i := 0 to |points|
      invariant sawShort <==> exists j :: 0 <= j < i && points[j].Short()
      invariant LongestFirst(points[..i])
    {
      if points[i].Short() {
        sawShort := true;
      } else if sawShort {
        return false;
      }
    }
    assert points[..|points|] == points;
    return true;
  }

  /** In a valid strategy the points found turn by turn are the validated ones, in the same order. */
  lemma ValidPointsAreFound(history: seq<Turn>, hasTools: bool, strategy: Strategy, caching: bool)
    requires StrategyValid(history, hasTools, strategy, caching)
    ensures PointsFound(strategy.messages, 0, |history|) == Mapped(Sorted(strategy.messages), PointOf)
  {
    SortedIs(strategy.messages);
    FoundInOrder(strategy.messages, Sorted(strategy.messages), 0, |history|);
  }
}
