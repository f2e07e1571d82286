/** The lifecycle rules of a stream, said of positions instead of checked along the way. */
module ConformanceRules {
  import opened Wrappers
  import opened Parts
  import opened Conformance

  datatype Channel = TextChannel | ReasoningChannel | ToolChannel

  predicate Starts(part: StreamPart, c: Channel, id: string) {
    match c
    case TextChannel => part.TextStart? && part.id == id
    case ReasoningChannel => part.ReasoningStart? && part.id == id
    case ToolChannel => part.ToolCallStart? && part.id == id
  }

  predicate Stops(part: StreamPart, c: Channel, id: string) {
    match c
    case TextChannel => part.TextEnd? && part.id == id
    case ReasoningChannel => part.ReasoningEnd? && part.id == id
    case ToolChannel => part.ToolCallEnd? && part.id == id
  }

  predicate Continues(part: StreamPart, c: Channel, id: string) {
    match c
    case TextChannel => part.TextDelta? && part.id == id
    case ReasoningChannel => part.ReasoningDelta? && part.id == id
    case ToolChannel => part.ToolCallDelta? && part.id == id
  }

  predicate Finalizes(part: StreamPart, id: string) {
    part.ToolCallDone? && part.call.id == id
  }

  /** A block has started before the position and has not ended since. */
  ghost predicate OpenAt(parts: seq<StreamPart>, k: nat, c: Channel, id: string)
    requires k <= |parts|
  {
    exists j :: 0 <= j < k && Starts(parts[j], c, id) && forall m :: j < m < k ==> !Stops(parts[m], c, id)
  }

  /** A call has ended before the position and has not been finalized since. */
  ghost predicate AwaitedAt(parts: seq<StreamPart>, k: nat, id: string)
    requires k <= |parts|
  {
    exists j :: 0 <= j < k && Stops(parts[j], ToolChannel, id) && forall m :: j < m < k ==> !Finalizes(parts[m], id)
  }

  /** What a part after the first must meet. */
  ghost predicate Allowed(parts: seq<StreamPart>, k: nat)
    requires 1 <= k < |parts|
  {
    && !parts[k].StreamStart? && !parts[k - 1].Finished? && (parts[k - 1].ErrorRaised? ==> parts[k].Finished?)
    && (forall c, id :: Starts(parts[k], c, id) ==> !OpenAt(parts, k, c, id))
    && (forall c, id :: Continues(parts[k], c, id) || Stops(parts[k], c, id) ==> OpenAt(parts, k, c, id))
    && (forall id :: Finalizes(parts[k], id) ==> AwaitedAt(parts, k, id) || !OpenAt(parts, k, ToolChannel, id))
    && (parts[k].Finished? ==>
          && (forall c, id :: !OpenAt(parts, k, c, id)) && (forall id :: !AwaitedAt(parts, k, id))
          && (parts[k - 1].ErrorRaised? ==> parts[k].finish.reason == Failed))
  }

  /** One start at the front, one finish at the back, and all between in order. */
  ghost predicate WellOrdered(parts: seq<StreamPart>) {
    && parts != [] && parts[0].StreamStart? && parts[|parts| - 1].Finished?
    && forall k :: 1 <= k < |parts| ==> Allowed(parts, k)
  }

  // -------------------------------------------------------------- one more part

  lemma OpenNext(parts: seq<StreamPart>, k: nat, c: Channel, id: string)
    requires k < |parts|
    ensures OpenAt(parts, k + 1, c, id) <==>
      Starts(parts[k], c, id) || (OpenAt(parts, k, c, id) && !Stops(parts[k], c, id))
  {
    if Starts(parts[k], c, id) {
      assert OpenAt(parts, k + 1, c, id);
    } else if OpenAt(parts, k, c, id) && !Stops(parts[k], c, id) {
      var j :| 0 <= j < k && Starts(parts[j], c, id) && forall m :: j < m < k ==> !Stops(parts[m], c, id);
      assert forall m :: j < m < k + 1 ==> !Stops(parts[m], c, id);
    }
  }

  lemma AwaitedNext(parts: seq<StreamPart>, k: nat, id: string)
    requires k < |parts|
    ensures AwaitedAt(parts, k + 1, id) <==>
      Stops(parts[k], ToolChannel, id) || (AwaitedAt(parts, k, id) && !Finalizes(parts[k], id))
  {
    if Stops(parts[k], ToolChannel, id) {
      assert AwaitedAt(parts, k + 1, id);
    } else if AwaitedAt(parts, k, id) && !Finalizes(parts[k], id) {
      var j :| 0 <= j < k && Stops(parts[j], ToolChannel, id) && forall m :: j < m < k ==> !Finalizes(parts[m], id);
      assert forall m :: j < m < k + 1 ==> !Finalizes(parts[m], id);
    }
  }

  function Among(l: Life, c: Channel): set<string> {
    match c
    case TextChannel => l.text
    case ReasoningChannel => l.reasoning
    case ToolChannel => l.tool
  }

  /** What the check knows before the part at `k`. */
  ghost predicate Knows(parts: seq<StreamPart>, k: nat, l: Life)
    requires 1 <= k <= |parts|
  {
    && (forall c, id :: id in Among(l, c) <==> OpenAt(parts, k, c, id))
    && (forall id :: id in l.ended <==> AwaitedAt(parts, k, id))
    && l.finish == (if parts[k - 1].Finished? then Some(parts[k - 1].finish) else None)
    && (l.finish.None? ==> (l.inBandError <==> parts[k - 1].ErrorRaised?))
  }

  lemma NothingOpen(parts: seq<StreamPart>, k: nat, l: Life)
    requires 1 <= k <= |parts| && Knows(parts, k, l)
    ensures l.text == {} && l.reasoning == {} && l.tool == {} <==> forall c, id :: !OpenAt(parts, k, c, id)
    ensures l.ended == {} <==> forall id :: !AwaitedAt(parts, k, id)
  {
    hide OpenAt, AwaitedAt;
    if forall c, id :: !OpenAt(parts, k, c, id) {
      forall c ensures Among(l, c) == {} {
        assert forall id :: id !in Among(l, c);
      }
      assert Among(l, TextChannel) == {} && Among(l, ReasoningChannel) == {} && Among(l, ToolChannel) == {};
    } else {
      var c, id :| OpenAt(parts, k, c, id);
      assert id in Among(l, c);
    }
  }

  lemma StepAllows(parts: seq<StreamPart>, k: nat, l: Life)
    requires 1 <= k < |parts| && Knows(parts, k, l)
    ensures LifeStep(l, parts[k]).Ok? <==> Allowed(parts, k)
  {
    hide OpenAt, AwaitedAt;
    NothingOpen(parts, k, l);
    assert forall id :: id in l.text <==> OpenAt(parts, k, TextChannel, id) by {
      assert forall id :: id in Among(l, TextChannel) <==> OpenAt(parts, k, TextChannel, id);
    }
    assert forall id :: id in l.reasoning <==> OpenAt(parts, k, ReasoningChannel, id) by {
      assert forall id :: id in Among(l, ReasoningChannel) <==> OpenAt(parts, k, ReasoningChannel, id);
    }
    assert forall id :: id in l.tool <==> OpenAt(parts, k, ToolChannel, id) by {
      assert forall id :: id in Among(l, ToolChannel) <==> OpenAt(parts, k, ToolChannel, id);
    }
    hide Among;
    PartRules(parts, k);
  }

  /** The rules that concern the part at `k`, by its kind. */
  lemma PartRules(parts: seq<StreamPart>, k: nat)
    requires 1 <= k < |parts|
    ensures Allowed(parts, k) <==>
      && !parts[k].StreamStart? && !parts[k - 1].Finished? && (parts[k - 1].ErrorRaised? ==> parts[k].Finished?)
      && match parts[k]
         case TextStart(id, _) => !OpenAt(parts, k, TextChannel, id)
         case TextDelta(id, _, _) => OpenAt(parts, k, TextChannel, id)
         case TextEnd(id, _) => OpenAt(parts, k, TextChannel, id)
         case ReasoningStart(id, _) => !OpenAt(parts, k, ReasoningChannel, id)
         case ReasoningDelta(id, _, _) => OpenAt(parts, k, ReasoningChannel, id)
         case ReasoningEnd(id, _) => OpenAt(parts, k, ReasoningChannel, id)
         case ToolCallStart(id, _) => !OpenAt(parts, k, ToolChannel, id)
         case ToolCallDelta(id, _) => OpenAt(parts, k, ToolChannel, id)
         case ToolCallEnd(id) => OpenAt(parts, k, ToolChannel, id)
         case ToolCallDone(call) => AwaitedAt(parts, k, call.id) || !OpenAt(parts, k, ToolChannel, call.id)
         case Finished(finish) =>
           && (forall c, id :: !OpenAt(parts, k, c, id)) && (forall id :: !AwaitedAt(parts, k, id))
           && (parts[k - 1].ErrorRaised? ==> finish.reason == Failed)
         case _ => true
  {
    hide OpenAt, AwaitedAt;
    match parts[k]
    case TextStart(id, _) => assert Starts(parts[k], TextChannel, id);
    case TextDelta(id, _, _) => assert Continues(parts[k], TextChannel, id);
    case TextEnd(id, _) => assert Stops(parts[k], TextChannel, id);
    case ReasoningStart(id, _) => assert Starts(parts[k], ReasoningChannel, id);
    case ReasoningDelta(id, _, _) => assert Continues(parts[k], ReasoningChannel, id);
    case ReasoningEnd(id, _) => assert Stops(parts[k], ReasoningChannel, id);
    case ToolCallStart(id, _) => assert Starts(parts[k], ToolChannel, id);
    case ToolCallDelta(id, _) => assert Continues(parts[k], ToolChannel, id);
    case ToolCallEnd(id) => assert Stops(parts[k], ToolChannel, id);
    case ToolCallDone(call) => assert Finalizes(parts[k], call.id);
    case _ =>
  }

  lemma StepKnows(parts: seq<StreamPart>, k: nat, l: Life)
    requires 1 <= k < |parts| && Knows(parts, k, l) && LifeStep(l, parts[k]).Ok?
    ensures Knows(parts, k + 1, LifeStep(l, parts[k]).value)
  {
    hide OpenAt, AwaitedAt;
    var after := LifeStep(l, parts[k]).value;
    forall c, id ensures id in Among(after, c) <==> OpenAt(parts, k + 1, c, id) {
      OpenNext(parts, k, c, id);
      assert id in Among(l, c) <==> OpenAt(parts, k, c, id);
      StepOpens(l, parts[k], c, id);
    }
    forall id ensures id in after.ended <==> AwaitedAt(parts, k + 1, id) {
      AwaitedNext(parts, k, id);
    }
  }

  lemma StepOpens(l: Life, part: StreamPart, c: Channel, id: string)
    requires LifeStep(l, part).Ok?
    ensures id in Among(LifeStep(l, part).value, c) <==>
      Starts(part, c, id) || (id in Among(l, c) && !Stops(part, c, id))
  {
  }

  lemma {:induction false} LifeLast(l: Life, parts: seq<StreamPart>, last: StreamPart)
    ensures
      var before := LifeAll(l, parts);
      LifeAll(l, parts + [last]) == if before.Err? then before else LifeStep(before.value, last)
    decreases |parts|
  {
    hide LifeStep;
    if parts == [] {
      assert [] + [last] == [last] && [last][1..] == [];
    } else {
      assert (parts + [last])[1..] == parts[1..] + [last];
      var first := LifeStep(l, parts[0]);
      if first.Ok? {
        LifeLast(first.value, parts[1..], last);
      }
    }
  }

  lemma {:induction false} PrefixKnows(parts: seq<StreamPart>, k: nat)
    requires 1 <= k <= |parts| && parts[0].StreamStart?
    ensures LifeAll(BORN, parts[1..k]).Ok? <==> forall j :: 1 <= j < k ==> Allowed(parts, j)
    ensures LifeAll(BORN, parts[1..k]).Ok? ==> Knows(parts, k, LifeAll(BORN, parts[1..k]).value)
  {
    hide LifeStep, Allowed, Knows;
    if k == 1 {
      assert parts[1..1] == [];
      NothingYet(parts);
    } else {
      PrefixKnows(parts, k - 1);
      assert parts[1..k] == parts[1..k - 1] + [parts[k - 1]];
      LifeLast(BORN, parts[1..k - 1], parts[k - 1]);
      var before := LifeAll(BORN, parts[1..k - 1]);
      if before.Ok? {
        StepAllows(parts, k - 1, before.value);
        if LifeStep(before.value, parts[k - 1]).Ok? {
          StepKnows(parts, k - 1, before.value);
        }
      }
    }
  }

  lemma NothingYet(parts: seq<StreamPart>)
    requires parts != [] && parts[0].StreamStart?
    ensures Knows(parts, 1, BORN)
  {
  }

  /** The lifecycle check accepts exactly the well-ordered streams, with the finish at their end. */
  lemma LifecycleIsOrder(parts: seq<StreamPart>)
    ensures Lifecycle(parts).Ok? <==> WellOrdered(parts)
    ensures Lifecycle(parts).Ok? ==> Finished(Lifecycle(parts).value) == parts[|parts| - 1]
  {
    hide LifeAll, LifeStep, Allowed;
    if parts != [] && parts[0].StreamStart? {
      PrefixKnows(parts, |parts|);
      assert parts[1..|parts|] == parts[1..];
      hide OpenAt, AwaitedAt;
    }
  }
}
