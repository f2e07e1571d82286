/** The markers that reach the Anthropic wire are the validated plan's, in its order. */
module AnthropicMarkers {
  import opened Wrappers
  import opened Json
  import opened Parts
  import opened Sequences
  import opened AnthropicCache
  import opened AnthropicWire
  import opened AnthropicEncode

  // ---------------------------------------------------------------- subsequences

  /** `short` can be had from `long` by leaving items out. */
  ghost predicate Subsequence<T>(short: seq<T>, long: seq<T>)
    decreases |short|
  {
    short == [] ||
    exists k :: 0 <= k < |long| && long[k] == short[0] && Subsequence(short[1..], long[k + 1..])
  }

  lemma {:induction false} SubsequenceOfSelf<T>(s: seq<T>)
    ensures Subsequence(s, s)
  {
    if s != [] {
      SubsequenceOfSelf(s[1..]);
      var k := 0;
      assert s[k] == s[0] && Subsequence(s[1..], s[k + 1..]);
    }
  }

  lemma SubsequenceAfter<T>(short: seq<T>, before: seq<T>, long: seq<T>)
    requires Subsequence(short, long)
    ensures Subsequence(short, before + long)
  {
    if short != [] {
      var k :| 0 <= k < |long| && long[k] == short[0] && Subsequence(short[1..], long[k + 1..]);
      var whole := before + long;
      assert whole[|before| + k] == short[0] && whole[|before| + k + 1..] == long[k + 1..];
    }
  }

  /** Where the first item is found. */
  lemma FirstPick<T>(short: seq<T>, long: seq<T>) returns (k: nat)
    requires Subsequence(short, long) && short != []
    ensures k < |long| && long[k] == short[0] && Subsequence(short[1..], long[k + 1..])
  {
    k :| 0 <= k < |long| && long[k] == short[0] && Subsequence(short[1..], long[k + 1..]);
  }

  lemma PickFirst<T>(short: seq<T>, long: seq<T>, k: nat)
    requires short != [] && k < |long| && long[k] == short[0] && Subsequence(short[1..], long[k + 1..])
    ensures Subsequence(short, long)
  {
  }

  lemma {:induction false} SubsequenceThen<T>(short: seq<T>, long: seq<T>, more: seq<T>)
    requires Subsequence(short, long)
    ensures Subsequence(short + more, long + more)
    decreases |short|
  {
    hide Subsequence;
    if short == [] {
      SubsequenceOfSelf(more);
      SubsequenceAfter(more, long, more);
      assert [] + more == more;
    } else {
      var k := FirstPick(short, long);
      SubsequenceThen(short[1..], long[k + 1..], more);
      assert (short + more)[1..] == short[1..] + more;
      assert (long + more)[k + 1..] == long[k + 1..] + more;
      PickFirst(short + more, long + more, k);
    }
  }

  lemma {:induction false} SubsequenceMember<T>(short: seq<T>, long: seq<T>, i: nat)
    requires Subsequence(short, long) && i < |short|
    ensures exists k :: i <= k < |long| && long[k] == short[i]
    decreases |short|
  {
    var k :| 0 <= k < |long| && long[k] == short[0] && Subsequence(short[1..], long[k + 1..]);
    if i > 0 {
      SubsequenceMember(short[1..], long[k + 1..], i - 1);
      var j :| i - 1 <= j < |long[k + 1..]| && long[k + 1..][j] == short[1..][i - 1];
      assert long[k + 1 + j] == short[i];
    }
  }

  /** Leaving markers out keeps a plan valid. */
  lemma {:induction false} SubsequenceIsValid(short: seq<Marker>, long: seq<Marker>)
    requires Subsequence(short, long) && PlanValid(long)
    ensures PlanValid(short)
    decreases |short|
  {
    if short != [] {
      SubsequenceMember(short, long, |short| - 1);
      OrderKept(short, long);
    }
  }

  lemma {:induction false} OrderKept(short: seq<Marker>, long: seq<Marker>)
    requires Subsequence(short, long) && LongestFirst(long)
    ensures LongestFirst(short)
    decreases |short|
  {
    if short != [] {
      var k :| 0 <= k < |long| && long[k] == short[0] && Subsequence(short[1..], long[k + 1..]);
      var rest := long[k + 1..];
      assert forall i :: 0 <= i < |rest| ==> rest[i] == long[k + 1 + i];
      OrderKept(short[1..], rest);
      forall i, j | 0 <= i < j < |short| && short[i].ttl.FiveMinutes? ensures short[j].ttl.FiveMinutes? {
        if i == 0 {
          SubsequenceMember(short[1..], rest, j - 1);
          assert short[1..][j - 1] == short[j];
        } else {
          assert short[1..][i - 1] == short[i] && short[1..][j - 1] == short[j];
        }
      }
    }
  }

  // ------------------------------------------------------------------ tool markers

  /** A marker on the eager tool `t` may have come from `from`: itself, a deferred tool next to it. */
  ghost predicate Near(tools: seq<Tool>, t: nat, from: nat) {
    && t < |tools| && from < |tools| && !tools[t].deferred
    && (|| from == t
        || (from > t && forall k :: t < k <= from ==> tools[k].deferred)
        || (from < t && forall k :: 0 <= k < t ==> tools[k].deferred))
  }

  /** Where the markers of a partly moved row come from. */
  ghost predicate Origins(
    tools: seq<Tool>, markers: seq<Option<Marker>>, moved: seq<Option<Marker>>, count: nat, from: seq<nat>)
  {
    && |tools| == |markers| == |moved| == |from|
    && (forall t :: 0 <= t < |tools| && tools[t].deferred ==>
          moved[t] == if t < count then None else markers[t])
    && (forall t :: 0 <= t < |tools| && !tools[t].deferred && moved[t].Some? ==>
          Near(tools, t, from[t]) && moved[t] == markers[from[t]])
    && (forall t :: 0 <= t < |tools| && !tools[t].deferred && markers[t].Some? ==> moved[t] == markers[t])
  }

  lemma {:induction false} MovedOrigins(tools: seq<Tool>, markers: seq<Option<Marker>>, count: nat)
    returns (from: seq<nat>)
    requires |tools| == |markers| && count <= |tools|
    ensures Origins(tools, markers, Moved(tools, markers, count), count, from)
  {
    hide Origins, MovedOne;
    if count == 0 {
      from := seq(|tools|, t => t);
      assert Origins(tools, markers, markers, 0, from) by { StaysPut(tools, markers, from); }
    } else {
      var before := MovedOrigins(tools, markers, count - 1);
      from := MovesOn(tools, markers, Moved(tools, markers, count - 1), count - 1, before);
    }
  }

  lemma StaysPut(tools: seq<Tool>, markers: seq<Option<Marker>>, from: seq<nat>)
    requires |tools| == |markers| == |from| && forall t :: 0 <= t < |tools| ==> from[t] == t
    ensures Origins(tools, markers, markers, 0, from)
  {
  }

  lemma MovesOn(
    tools: seq<Tool>, markers: seq<Option<Marker>>, sofar: seq<Option<Marker>>, index: nat, before: seq<nat>)
    returns (from: seq<nat>)
    requires index < |tools| == |markers| == |sofar| && Origins(tools, markers, sofar, index, before)
    ensures Origins(tools, markers, MovedOne(tools, sofar, index), index + 1, from)
  {
    hide Near, Target;
    from := before;
    if tools[index].deferred && sofar[index].Some? {
      var target := Target(tools, index);
      if target.Some? && sofar[target.value].None? {
        from := before[target.value := index];
        TargetIsNear(tools, index);
      }
    }
  }

  lemma TargetIsNear(tools: seq<Tool>, index: nat)
    requires index < |tools| && tools[index].deferred && Target(tools, index).Some?
    ensures Near(tools, Target(tools, index).value, index)
  {
  }

  lemma {:induction false} OriginsAreOrdered(
    tools: seq<Tool>, markers: seq<Option<Marker>>, moved: seq<Option<Marker>>, from: seq<nat>, i: nat, j: nat)
    requires Origins(tools, markers, moved, |tools|, from) && i <= |tools| && j <= |tools|
    requires forall t :: i <= t < |tools| && moved[t].Some? ==> from[t] >= j
    ensures Subsequence(FilterMap(moved[i..], Same), FilterMap(markers[j..], Same))
    decreases |tools| - i
  {
    if i == |tools| {
      assert moved[i..] == [];
    } else {
      assert moved[i..][1..] == moved[i + 1..];
      if moved[i].None? {
        SkipsNone(moved, i);
        OriginsAreOrdered(tools, markers, moved, from, i + 1, j);
      } else {
        var o := from[i];
        LaterOrigins(tools, markers, moved, from, i);
        OriginsAreOrdered(tools, markers, moved, from, i + 1, o + 1);
        HeadPicked(moved, markers, i, j, o);
      }
    }
  }

  lemma SkipsNone(moved: seq<Option<Marker>>, i: nat)
    requires i < |moved| && moved[i].None?
    ensures FilterMap(moved[i..], Same) == FilterMap(moved[i + 1..], Same)
  {
    var rest := FilterMap(moved[i + 1..], Same);
    assert moved[i..] == [moved[i]] + moved[i + 1..];
    FilterMapConcat([moved[i]], moved[i + 1..], Same);
    assert [] + rest == rest;
  }

  lemma LaterOrigins(
    tools: seq<Tool>, markers: seq<Option<Marker>>, moved: seq<Option<Marker>>, from: seq<nat>, i: nat)
    requires Origins(tools, markers, moved, |tools|, from) && i < |tools| && moved[i].Some?
    ensures from[i] < |tools| && moved[i] == markers[from[i]]
    ensures forall t :: i + 1 <= t < |tools| && moved[t].Some? ==> from[t] >= from[i] + 1
  {
    forall t | i + 1 <= t < |tools| && moved[t].Some? ensures from[t] >= from[i] + 1 {
      assert Near(tools, i, from[i]) && Near(tools, t, from[t]);
    }
  }

  lemma HeadPicked(moved: seq<Option<Marker>>, markers: seq<Option<Marker>>, i: nat, j: nat, o: nat)
    requires i < |moved| && j <= o < |markers| && moved[i].Some? && moved[i] == markers[o]
    requires Subsequence(FilterMap(moved[i + 1..], Same), FilterMap(markers[o + 1..], Same))
    ensures Subsequence(FilterMap(moved[i..], Same), FilterMap(markers[j..], Same))
  {
    FilterMapHead(moved, i, Same);
    FilterMapHead(markers, o, Same);
    var rest, more := FilterMap(moved[i + 1..], Same), FilterMap(markers[o + 1..], Same);
    var v := moved[i].value;
    assert ([v] + rest)[1..] == rest && ([v] + more)[1..] == more;
    assert ([v] + more)[0] == ([v] + rest)[0];
    assert Subsequence([v] + rest, [v] + more);
    assert markers[j..] == markers[j..o] + markers[o..];
    FilterMapConcat(markers[j..o], markers[o..], Same);
    SubsequenceAfter([v] + rest, FilterMap(markers[j..o], Same), [v] + more);
  }

  lemma MovedIsSubsequence(tools: seq<Tool>, markers: seq<Option<Marker>>)
    requires |tools| == |markers|
    ensures Subsequence(FilterMap(Moved(tools, markers, |tools|), Same), FilterMap(markers, Same))
  {
    var from := MovedOrigins(tools, markers, |tools|);
    var moved := Moved(tools, markers, |tools|);
    OriginsAreOrdered(tools, markers, moved, from, 0, 0);
    assert moved[0..] == moved && markers[0..] == markers;
  }

  lemma {:induction false} EagerToolsKeepMarkers(tools: seq<Tool>, markers: seq<Option<Marker>>, count: nat)
    requires |tools| == |markers| && count <= |tools|
    requires forall t :: 0 <= t < |tools| ==> !tools[t].deferred
    ensures Moved(tools, markers, count) == markers
  {
    if count > 0 {
      EagerToolsKeepMarkers(tools, markers, count - 1);
    }
  }
}
