/**
 The content a stream has built so far, one entry for every slot. A stream that changes its
 ledger only in the ways below keeps the lifecycle rules and can be assembled.
 */
module Ledger {
  import opened Wrappers
  import opened Json
  import opened Parts
  import opened Conformance

  datatype Kind = KText | KReasoning | KTool

  datatype Entry =
    | Closed(part: AssistantPart)
    | Active(kind: Kind, id: string, text: string, metadata: Metadata)

  predicate IsActive(entries: seq<Entry>, k: nat, kind: Kind, id: string) {
    k < |entries| && entries[k].Active? && entries[k].kind == kind && entries[k].id == id
  }

  // -------------------------------------------------- the two readers in step

  ghost predicate Slots(entries: seq<Entry>, content: seq<Option<AssistantPart>>) {
    |content| == |entries|
    && forall k :: 0 <= k < |entries| ==>
         content[k] == if entries[k].Closed? then Some(entries[k].part) else None
  }

  ghost predicate TextTrack(entries: seq<Entry>, blocks: map<string, OpenContent>, kind: Kind) {
    && (forall k :: 0 <= k < |entries| && entries[k].Active? && entries[k].kind == kind ==>
          entries[k].id in blocks
          && blocks[entries[k].id] == OpenContent(k, entries[k].text, entries[k].metadata))
    && (forall id :: id in blocks ==> IsActive(entries, blocks[id].slot, kind, id))
  }

  ghost predicate ToolTrack(entries: seq<Entry>, tools: map<string, nat>) {
    && (forall k :: 0 <= k < |entries| && entries[k].Active? && entries[k].kind.KTool? ==>
          entries[k].id in tools && tools[entries[k].id] == k)
    && (forall id :: id in tools ==> IsActive(entries, tools[id], KTool, id))
  }

  ghost predicate LifeTrack(l: Life, a: Assembly) {
    && l.text == a.text.Keys && l.reasoning == a.reasoning.Keys && l.tool == a.tools.Keys
    && l.ended == {} && l.finish.None? && !l.inBandError
  }

  ghost predicate Track(entries: seq<Entry>, l: Life, a: Assembly) {
    && Slots(entries, a.content)
    && TextTrack(entries, a.text, KText) && TextTrack(entries, a.reasoning, KReasoning)
    && ToolTrack(entries, a.tools) && LifeTrack(l, a)
  }

  lemma TrackIsValid(entries: seq<Entry>, l: Life, a: Assembly)
    requires Track(entries, l, a)
    ensures a.Valid()
  {
  }

  /** Both readers accept the parts and are in step with the ledger after. */
  ghost predicate Follows(l: Life, a: Assembly, parts: seq<StreamPart>, entries: seq<Entry>) {
    a.Valid() && LifeAll(l, parts).Ok? && AssembleAll(a, parts).Ok?
    && Track(entries, LifeAll(l, parts).value, AssembleAll(a, parts).value)
  }

  lemma One(l: Life, a: Assembly, part: StreamPart)
    requires a.Valid()
    ensures LifeAll(l, [part]) == LifeStep(l, part)
    ensures AssembleAll(a, [part]) == AssembleStep(a, part)
  {
    hide LifeStep, AssembleStep;
    assert [part][1..] == [];
    assert LifeStep(l, part).Ok? ==> LifeAll(LifeStep(l, part).value, []) == LifeStep(l, part);
    assert AssembleStep(a, part).Ok? ==> AssembleAll(AssembleStep(a, part).value, []) == AssembleStep(a, part);
  }

  lemma Chain(l: Life, a: Assembly, first: seq<StreamPart>, middle: seq<Entry>, second: seq<StreamPart>,
    entries: seq<Entry>)
    requires Follows(l, a, first, middle)
    requires Follows(LifeAll(l, first).value, AssembleAll(a, first).value, second, entries)
    ensures Follows(l, a, first + second, entries)
  {
    hide Track;
    LifeAllConcat(l, first, second);
    AssembleAllConcat(a, first, second);
  }

  lemma Stays(l: Life, a: Assembly, entries: seq<Entry>)
    requires Track(entries, l, a)
    ensures Follows(l, a, [], entries)
  {
    TrackIsValid(entries, l, a);
  }

  // ----------------------------------------------------------------- changes

  function StartPart(kind: Kind, id: string, name: string, metadata: Metadata): StreamPart {
    match kind
    case KText => TextStart(id, metadata)
    case KReasoning => ReasoningStart(id, metadata)
    case KTool => ToolCallStart(id, name)
  }

  function DeltaPart(kind: Kind, id: string, delta: string, metadata: Metadata): StreamPart {
    match kind
    case KText => TextDelta(id, delta, metadata)
    case KReasoning => ReasoningDelta(id, delta, metadata)
    case KTool => ToolCallDelta(id, delta)
  }

  predicate Unused(entries: seq<Entry>, kind: Kind, id: string) {
    forall k :: 0 <= k < |entries| ==> !IsActive(entries, k, kind, id)
  }

  function Start(entries: seq<Entry>, kind: Kind, id: string, metadata: Metadata): seq<Entry> {
    entries + [Active(kind, id, "", metadata)]
  }

  // What one new or changed entry does to the tracks of each kind.

  predicate Concerns(e: Entry, kind: Kind) {
    e.Active? && e.kind == kind
  }

  lemma TextIgnores(before: seq<Entry>, after: seq<Entry>, k: nat, blocks: map<string, OpenContent>, kind: Kind)
    requires TextTrack(before, blocks, kind) && k < |after| && !Concerns(after[k], kind)
    requires after == before + [after[k]] || (|before| == |after| && after == before[k := after[k]])
    requires k < |before| ==> !Concerns(before[k], kind)
    requires |after| > |before| ==> k == |before|
    ensures TextTrack(after, blocks, kind)
  {
  }

  lemma ToolIgnores(before: seq<Entry>, after: seq<Entry>, k: nat, tools: map<string, nat>)
    requires ToolTrack(before, tools) && k < |after| && !Concerns(after[k], KTool)
    requires after == before + [after[k]] || (|before| == |after| && after == before[k := after[k]])
    requires k < |before| ==> !Concerns(before[k], KTool)
    requires |after| > |before| ==> k == |before|
    ensures ToolTrack(after, tools)
  {
  }

  lemma TextStarts(entries: seq<Entry>, blocks: map<string, OpenContent>, kind: Kind, id: string, metadata: Metadata)
    requires TextTrack(entries, blocks, kind) && Unused(entries, kind, id)
    ensures id !in blocks
    ensures TextTrack(Start(entries, kind, id, metadata), blocks[id := OpenContent(|entries|, "", metadata)], kind)
  {
  }

  lemma TextGrows(entries: seq<Entry>, blocks: map<string, OpenContent>, k: nat, delta: string)
    requires k < |entries| && entries[k].Active? && TextTrack(entries, blocks, entries[k].kind)
    ensures
      var id := entries[k].id;
      && id in blocks
      && TextTrack(Grow(entries, k, delta), blocks[id := blocks[id].(text := blocks[id].text + delta)], entries[k].kind)
  {
  }

  lemma TextEnds(entries: seq<Entry>, blocks: map<string, OpenContent>, k: nat)
    requires k < |entries| && entries[k].Active? && TextTrack(entries, blocks, entries[k].kind)
    ensures entries[k].id in blocks
    ensures TextTrack(End(entries, k), blocks - {entries[k].id}, entries[k].kind)
  {
  }

  lemma ToolStarts(entries: seq<Entry>, tools: map<string, nat>, id: string, metadata: Metadata)
    requires ToolTrack(entries, tools) && Unused(entries, KTool, id)
    ensures id !in tools
    ensures ToolTrack(Start(entries, KTool, id, metadata), tools[id := |entries|])
  {
  }

  lemma ToolGrows(entries: seq<Entry>, tools: map<string, nat>, k: nat, delta: string)
    requires k < |entries| && Concerns(entries[k], KTool) && ToolTrack(entries, tools)
    ensures entries[k].id in tools && ToolTrack(Grow(entries, k, delta), tools)
  {
  }

  lemma Starts(
    entries: seq<Entry>, l: Life, a: Assembly, kind: Kind, id: string, name: string, metadata: Metadata)
    requires Track(entries, l, a) && Unused(entries, kind, id)
    ensures Follows(l, a, [StartPart(kind, id, name, metadata)], Start(entries, kind, id, metadata))
  {
    TrackIsValid(entries, l, a);
    One(l, a, StartPart(kind, id, name, metadata));
    hide TextTrack, ToolTrack, Unused;
    var after := Start(entries, kind, id, metadata);
    match kind {
      case KText =>
        TextStarts(entries, a.text, kind, id, metadata);
        TextIgnores(entries, after, |entries|, a.reasoning, KReasoning);
        ToolIgnores(entries, after, |entries|, a.tools);
      case KReasoning =>
        TextStarts(entries, a.reasoning, kind, id, metadata);
        TextIgnores(entries, after, |entries|, a.text, KText);
        ToolIgnores(entries, after, |entries|, a.tools);
      case KTool =>
        ToolStarts(entries, a.tools, id, metadata);
        TextIgnores(entries, after, |entries|, a.text, KText);
        TextIgnores(entries, after, |entries|, a.reasoning, KReasoning);
    }
  }

  function Grow(entries: seq<Entry>, k: nat, delta: string): seq<Entry>
    requires k < |entries| && entries[k].Active?
  {
    entries[k := entries[k].(text := entries[k].text + delta)]
  }

  lemma Grows(entries: seq<Entry>, l: Life, a: Assembly, k: nat, delta: string, metadata: Metadata)
    requires Track(entries, l, a) && k < |entries| && entries[k].Active?
    ensures Follows(l, a, [DeltaPart(entries[k].kind, entries[k].id, delta, metadata)], Grow(entries, k, delta))
  {
    hide Track, Follows;
    match entries[k].kind {
      case KText => GrowsText(entries, l, a, k, delta, metadata);
      case KReasoning => GrowsReasoning(entries, l, a, k, delta, metadata);
      case KTool => GrowsTool(entries, l, a, k, delta);
    }
  }

  lemma GrowsText(entries: seq<Entry>, l: Life, a: Assembly, k: nat, delta: string, metadata: Metadata)
    requires Track(entries, l, a) && k < |entries| && Concerns(entries[k], KText)
    ensures Follows(l, a, [TextDelta(entries[k].id, delta, metadata)], Grow(entries, k, delta))
  {
    TrackIsValid(entries, l, a);
    One(l, a, TextDelta(entries[k].id, delta, metadata));
    hide TextTrack, ToolTrack;
    TextGrows(entries, a.text, k, delta);
    TextIgnores(entries, Grow(entries, k, delta), k, a.reasoning, KReasoning);
    ToolIgnores(entries, Grow(entries, k, delta), k, a.tools);
  }

  lemma GrowsReasoning(entries: seq<Entry>, l: Life, a: Assembly, k: nat, delta: string, metadata: Metadata)
    requires Track(entries, l, a) && k < |entries| && Concerns(entries[k], KReasoning)
    ensures Follows(l, a, [ReasoningDelta(entries[k].id, delta, metadata)], Grow(entries, k, delta))
  {
    TrackIsValid(entries, l, a);
    One(l, a, ReasoningDelta(entries[k].id, delta, metadata));
    hide TextTrack, ToolTrack;
    TextGrows(entries, a.reasoning, k, delta);
    TextIgnores(entries, Grow(entries, k, delta), k, a.text, KText);
    ToolIgnores(entries, Grow(entries, k, delta), k, a.tools);
  }

  lemma GrowsTool(entries: seq<Entry>, l: Life, a: Assembly, k: nat, delta: string)
    requires Track(entries, l, a) && k < |entries| && Concerns(entries[k], KTool)
    ensures Follows(l, a, [ToolCallDelta(entries[k].id, delta)], Grow(entries, k, delta))
  {
    TrackIsValid(entries, l, a);
    One(l, a, ToolCallDelta(entries[k].id, delta));
    hide TextTrack, ToolTrack;
    ToolGrows(entries, a.tools, k, delta);
    TextIgnores(entries, Grow(entries, k, delta), k, a.text, KText);
    TextIgnores(entries, Grow(entries, k, delta), k, a.reasoning, KReasoning);
  }

  /** Ending a text or reasoning block. */
  function End(entries: seq<Entry>, k: nat): seq<Entry>
    requires k < |entries| && entries[k].Active?
  {
    var e := entries[k];
    entries[k := Closed(if e.kind.KText? then Text(e.text, e.metadata) else Reasoning(e.text, e.metadata))]
  }

  lemma Ends(entries: seq<Entry>, l: Life, a: Assembly, k: nat, metadata: Metadata)
    requires Track(entries, l, a) && k < |entries| && entries[k].Active? && !entries[k].kind.KTool?
    ensures
      var id := entries[k].id;
      Follows(l, a, [if entries[k].kind.KText? then TextEnd(id, metadata) else ReasoningEnd(id, metadata)],
              End(entries, k))
  {
    TrackIsValid(entries, l, a);
    hide TextTrack, ToolTrack;
    var id := entries[k].id;
    One(l, a, if entries[k].kind.KText? then TextEnd(id, metadata) else ReasoningEnd(id, metadata));
    var after := End(entries, k);
    ToolIgnores(entries, after, k, a.tools);
    if entries[k].kind.KText? {
      EndsText(entries, l, a, k);
    } else {
      EndsReasoning(entries, l, a, k);
    }
  }

  lemma EndsText(entries: seq<Entry>, l: Life, a: Assembly, k: nat)
    requires Track(entries, l, a) && k < |entries| && Concerns(entries[k], KText)
    ensures TextTrack(End(entries, k), a.text - {entries[k].id}, KText)
    ensures TextTrack(End(entries, k), a.reasoning, KReasoning)
    ensures entries[k].id in a.text
    ensures a.text[entries[k].id] == OpenContent(k, entries[k].text, entries[k].metadata)
  {
    TextEnds(entries, a.text, k);
    TextIgnores(entries, End(entries, k), k, a.reasoning, KReasoning);
  }

  lemma EndsReasoning(entries: seq<Entry>, l: Life, a: Assembly, k: nat)
    requires Track(entries, l, a) && k < |entries| && Concerns(entries[k], KReasoning)
    ensures TextTrack(End(entries, k), a.reasoning - {entries[k].id}, KReasoning)
    ensures TextTrack(End(entries, k), a.text, KText)
    ensures entries[k].id in a.reasoning
    ensures a.reasoning[entries[k].id] == OpenContent(k, entries[k].text, entries[k].metadata)
  {
    TextEnds(entries, a.reasoning, k);
    TextIgnores(entries, End(entries, k), k, a.text, KText);
  }

  lemma Calls(entries: seq<Entry>, l: Life, a: Assembly, k: nat, call: ToolCallPart)
    requires Track(entries, l, a) && IsActive(entries, k, KTool, call.id)
    ensures Follows(l, a, [ToolCallEnd(call.id), ToolCallDone(call)], entries[k := Closed(ToolCall(call))])
  {
    TrackIsValid(entries, l, a);
    var end, done := ToolCallEnd(call.id), ToolCallDone(call);
    One(l, a, end);
    var l2, a2 := LifeStep(l, end).value, AssembleStep(a, end).value;
    One(l2, a2, done);
    LifeAllConcat(l, [end], [done]);
    AssembleAllConcat(a, [end], [done]);
    assert [end] + [done] == [end, done];
  }

  /** Parts that are whole on their own. */
  lemma Adds(entries: seq<Entry>, l: Life, a: Assembly, part: StreamPart, added: AssistantPart)
    requires Track(entries, l, a)
    requires (part.SourceFound? && added == Source(part.source))
      || (part.CustomDone? && added == Custom(part.kind, part.data))
    ensures Follows(l, a, [part], entries + [Closed(added)])
  {
    TrackIsValid(entries, l, a);
    One(l, a, part);
  }

  /** Parts that carry no content. */
  lemma Passes(entries: seq<Entry>, l: Life, a: Assembly, part: StreamPart)
    requires Track(entries, l, a) && (part.ProviderEvent? || part.Raw?)
    ensures Follows(l, a, [part], entries)
  {
    TrackIsValid(entries, l, a);
    One(l, a, part);
  }

  // --------------------------------------------------------------- conclusions

  predicate AllClosed(entries: seq<Entry>) {
    forall k :: 0 <= k < |entries| ==> entries[k].Closed?
  }

  function PartsOf(entries: seq<Entry>): seq<AssistantPart>
    requires AllClosed(entries)
  {
    seq(|entries|, k requires 0 <= k < |entries| => entries[k].part)
  }

  /** A stream that ends with every entry closed conforms and assembles to the ledger. */
  lemma Concludes(parts: seq<StreamPart>, entries: seq<Entry>, finish: Finish, error: Option<Fault>)
    requires Follows(BORN, NOTHING, parts, entries) && AllClosed(entries)
    requires error.Some? ==> finish.reason.Failed?
    ensures
      var tail := (if error.Some? then [ErrorRaised(error.value)] else []) + [Finished(finish)];
      && Lifecycle([StreamStart] + (parts + tail)) == Ok(finish)
      && Assembled([StreamStart] + (parts + tail)) == Ok(PartsOf(entries))
  {
    hide LifeStep, AssembleStep;
    var tail := (if error.Some? then [ErrorRaised(error.value)] else []) + [Finished(finish)];
    var l, a := LifeAll(BORN, parts).value, AssembleAll(NOTHING, parts).value;
    NothingOpen(entries, l, a);
    TailEnds(l, a, finish, error);
    LifeAllConcat(BORN, parts, tail);
    AssembleAllConcat(NOTHING, parts, tail);
    var all := [StreamStart] + (parts + tail);
    assert all[1..] == parts + tail;
    One(BORN, NOTHING, StreamStart);
    assert AssembleStep(NOTHING, StreamStart) == Ok(NOTHING) by { StartIsSilent(); }
    assert Values(a.content) == PartsOf(entries);
  }

  lemma StartIsSilent()
    ensures AssembleStep(NOTHING, StreamStart) == Ok(NOTHING)
  {
  }

  lemma NothingOpen(entries: seq<Entry>, l: Life, a: Assembly)
    requires Track(entries, l, a) && AllClosed(entries)
    ensures a.text == map[] && a.reasoning == map[] && a.tools == map[] && Filled(a.content)
    ensures l == BORN
  {
    assert forall id :: id !in a.text;
    assert forall id :: id !in a.reasoning;
    assert forall id :: id !in a.tools;
  }

  lemma TailEnds(l: Life, a: Assembly, finish: Finish, error: Option<Fault>)
    requires l == BORN && a.Valid() && (error.Some? ==> finish.reason.Failed?)
    ensures
      var tail := (if error.Some? then [ErrorRaised(error.value)] else []) + [Finished(finish)];
      && AssembleAll(a, tail) == Ok(a)
      && LifeAll(l, tail).Ok? && LifeAll(l, tail).value.finish == Some(finish)
  {
    var last := Finished(finish);
    One(l, a, last);
    if error.Some? {
      var raised := ErrorRaised(error.value);
      One(l, a, raised);
      One(LifeStep(l, raised).value, a, last);
      LifeAllConcat(l, [raised], [last]);
      AssembleAllConcat(a, [raised], [last]);
    } else {
      assert [] + [last] == [last];
    }
  }
}
