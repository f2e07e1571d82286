/** Content told part by part assembles to itself. */
module ConformanceTelling {
  import opened Wrappers
  import opened Json
  import opened Parts
  import opened Sequences
  import opened Conformance

  /** A part of content and how it is told: the ID of its block and the pieces of its text. */
  datatype Telling = Telling(part: AssistantPart, id: string, name: string, pieces: seq<string>)

  predicate Faithful(t: Telling) {
    match t.part
    case Text(text, _) => Concat(t.pieces) == text
    case Reasoning(text, _) => Concat(t.pieces) == text
    case _ => true
  }

  function TextPieces(id: string, pieces: seq<string>): seq<StreamPart> {
    Mapped(pieces, (piece: string) => TextDelta(id, piece, None))
  }

  function ReasoningPieces(id: string, pieces: seq<string>): seq<StreamPart> {
    Mapped(pieces, (piece: string) => ReasoningDelta(id, piece, None))
  }

  function CallPieces(id: string, pieces: seq<string>): seq<StreamPart> {
    Mapped(pieces, (piece: string) => ToolCallDelta(id, piece))
  }

  function Tell(t: Telling): seq<StreamPart> {
    match t.part
    case Text(_, metadata) => [TextStart(t.id, metadata)] + TextPieces(t.id, t.pieces) + [TextEnd(t.id, None)]
    case Reasoning(_, metadata) =>
      [ReasoningStart(t.id, metadata)] + ReasoningPieces(t.id, t.pieces) + [ReasoningEnd(t.id, None)]
    case ToolCall(call) =>
      [ToolCallStart(call.id, t.name)] + CallPieces(call.id, t.pieces) + [ToolCallEnd(call.id), ToolCallDone(call)]
    case ToolResult(result) => [ToolResultDone(result)]
    case Source(source) => [SourceFound(source)]
    case File(file) => [FileDone(file)]
    case Custom(kind, data) => [CustomDone(kind, data)]
    case ToolApproval(approval) => [ApprovalRequested(approval)]
  }

  function PartOf(t: Telling): AssistantPart {
    t.part
  }

  /** Content with nothing open. */
  function Content(parts: seq<AssistantPart>): Assembly {
    Assembly(Mapped(parts, (part: AssistantPart) => Some(part)), map[], map[], map[])
  }

  lemma ContentGrows(parts: seq<AssistantPart>, part: AssistantPart)
    ensures Content(parts + [part]) == Assembly(Content(parts).content + [Some(part)], map[], map[], map[])
  {
    assert Mapped(parts + [part], (part: AssistantPart) => Some(part))
      == Mapped(parts, (part: AssistantPart) => Some(part)) + [Some(part)];
  }

  function InText(a: Assembly, id: string, text: string, metadata: Metadata): Assembly {
    Assembly(a.content + [None], map[id := OpenContent(|a.content|, text, metadata)], map[], map[])
  }

  function InReasoning(a: Assembly, id: string, text: string, metadata: Metadata): Assembly {
    Assembly(a.content + [None], map[], map[id := OpenContent(|a.content|, text, metadata)], map[])
  }

  function InCall(a: Assembly, id: string): Assembly {
    Assembly(a.content + [None], map[], map[], map[id := |a.content|])
  }

  lemma {:induction false} TextGrows(a: Assembly, id: string, text: string, metadata: Metadata, pieces: seq<string>)
    requires a.text == map[] && a.reasoning == map[] && a.tools == map[]
    ensures
      AssembleAll(InText(a, id, text, metadata), TextPieces(id, pieces))
        == Ok(InText(a, id, text + Concat(pieces), metadata))
    decreases |pieces|
  {
    var start := InText(a, id, text, metadata);
    if pieces == [] {
      assert text + [] == text;
    } else {
      var next := InText(a, id, text + pieces[0], metadata);
      assert start.text[id := OpenContent(|a.content|, text + pieces[0], metadata)] == next.text;
      assert AssembleStep(start, TextDelta(id, pieces[0], None)) == Ok(next);
      TextGrows(a, id, text + pieces[0], metadata, pieces[1..]);
      assert TextPieces(id, pieces)[1..] == TextPieces(id, pieces[1..]);
      assert text + pieces[0] + Concat(pieces[1..]) == text + Concat(pieces);
    }
  }

  lemma ReasoningTakes(a: Assembly, id: string, text: string, metadata: Metadata, piece: string)
    requires a.text == map[] && a.reasoning == map[] && a.tools == map[]
    ensures InReasoning(a, id, text, metadata).Valid()
    ensures AssembleStep(InReasoning(a, id, text, metadata), ReasoningDelta(id, piece, None))
      == Ok(InReasoning(a, id, text + piece, metadata))
  {
    var start, next := InReasoning(a, id, text, metadata), InReasoning(a, id, text + piece, metadata);
    assert start.reasoning[id := OpenContent(|a.content|, text + piece, metadata)] == next.reasoning;
  }

  lemma {:induction false} ReasoningGrows(a: Assembly, id: string, text: string, metadata: Metadata,
    pieces: seq<string>)
    requires a.text == map[] && a.reasoning == map[] && a.tools == map[]
    ensures
      AssembleAll(InReasoning(a, id, text, metadata), ReasoningPieces(id, pieces))
        == Ok(InReasoning(a, id, text + Concat(pieces), metadata))
    decreases |pieces|
  {
    var start := InReasoning(a, id, text, metadata);
    if pieces == [] {
      assert text + [] == text;
    } else {
      var next := InReasoning(a, id, text + pieces[0], metadata);
      ReasoningTakes(a, id, text, metadata, pieces[0]);
      hide AssembleStep, InReasoning;
      ReasoningGrows(a, id, text + pieces[0], metadata, pieces[1..]);
      assert ReasoningPieces(id, pieces)[1..] == ReasoningPieces(id, pieces[1..]);
      assert text + pieces[0] + Concat(pieces[1..]) == text + Concat(pieces);
    }
  }

  lemma {:induction false} CallGrows(a: Assembly, id: string, pieces: seq<string>)
    requires a.text == map[] && a.reasoning == map[] && a.tools == map[]
    ensures AssembleAll(InCall(a, id), CallPieces(id, pieces)) == Ok(InCall(a, id))
    decreases |pieces|
  {
    if pieces != [] {
      assert AssembleStep(InCall(a, id), ToolCallDelta(id, pieces[0])) == Ok(InCall(a, id));
      CallGrows(a, id, pieces[1..]);
      assert CallPieces(id, pieces)[1..] == CallPieces(id, pieces[1..]);
    }
  }

  lemma One(a: Assembly, part: StreamPart)
    requires a.Valid()
    ensures AssembleAll(a, [part]) == AssembleStep(a, part)
  {
    hide AssembleStep;
    assert [part][1..] == [];
    if AssembleStep(a, part).Ok? {
      assert AssembleAll(AssembleStep(a, part).value, []) == AssembleStep(a, part);
    }
  }

  /** First one part, then some, then the last ones. */
  lemma InThree(
    a: Assembly, first: StreamPart, b: Assembly, middle: seq<StreamPart>, c: Assembly, last: seq<StreamPart>)
    requires a.Valid() && AssembleStep(a, first) == Ok(b) && AssembleAll(b, middle) == Ok(c)
    ensures AssembleAll(a, [first] + middle + last) == AssembleAll(c, last)
  {
    hide AssembleStep, AssembleAll;
    assert [first] + middle + last == [first] + (middle + last);
    AssembleCons(a, first, middle + last, b);
    AssembleAllConcat(b, middle, last);
  }

  lemma TextIsTold(a: Assembly, t: Telling)
    requires t.part.Text? && Faithful(t) && a.text == map[] && a.reasoning == map[] && a.tools == map[]
    ensures AssembleAll(a, Tell(t)) == Ok(Assembly(a.content + [Some(t.part)], map[], map[], map[]))
  {
    hide AssembleAll, AssembleReasoning, Add, Concat;
    var metadata := t.part.metadata;
    var open, full := InText(a, t.id, "", metadata), InText(a, t.id, t.part.text, metadata);
    assert AssembleStep(a, TextStart(t.id, metadata)) == Ok(open);
    TextGrows(a, t.id, "", metadata, t.pieces);
    assert "" + Concat(t.pieces) == t.part.text;
    One(full, TextEnd(t.id, None));
    assert full.text - {t.id} == map[];
    assert full.content[|a.content| := Some(t.part)] == a.content + [Some(t.part)];
    InThree(a, TextStart(t.id, metadata), open, TextPieces(t.id, t.pieces), full, [TextEnd(t.id, None)]);
  }

  lemma ReasoningIsTold(a: Assembly, t: Telling)
    requires t.part.Reasoning? && Faithful(t) && a.text == map[] && a.reasoning == map[] && a.tools == map[]
    ensures AssembleAll(a, Tell(t)) == Ok(Assembly(a.content + [Some(t.part)], map[], map[], map[]))
  {
    hide AssembleAll, AssembleText, Add, Concat;
    var metadata := t.part.metadata;
    var open, full := InReasoning(a, t.id, "", metadata), InReasoning(a, t.id, t.part.text, metadata);
    assert AssembleStep(a, ReasoningStart(t.id, metadata)) == Ok(open);
    ReasoningGrows(a, t.id, "", metadata, t.pieces);
    assert "" + Concat(t.pieces) == t.part.text;
    One(full, ReasoningEnd(t.id, None));
    assert full.reasoning - {t.id} == map[];
    assert full.content[|a.content| := Some(t.part)] == a.content + [Some(t.part)];
    InThree(a, ReasoningStart(t.id, metadata), open, ReasoningPieces(t.id, t.pieces), full, [ReasoningEnd(t.id, None)]);
  }

  lemma CallIsTold(a: Assembly, t: Telling)
    requires t.part.ToolCall? && a.text == map[] && a.reasoning == map[] && a.tools == map[]
    ensures AssembleAll(a, Tell(t)) == Ok(Assembly(a.content + [Some(t.part)], map[], map[], map[]))
  {
    hide AssembleAll, AssembleText, AssembleReasoning;
    var call := t.part.call;
    var open := InCall(a, call.id);
    assert AssembleStep(a, ToolCallStart(call.id, t.name)) == Ok(open);
    CallGrows(a, call.id, t.pieces);
    assert AssembleStep(open, ToolCallEnd(call.id)) == Ok(open);
    One(open, ToolCallDone(call));
    AssembleCons(open, ToolCallEnd(call.id), [ToolCallDone(call)], open);
    assert [ToolCallEnd(call.id)] + [ToolCallDone(call)] == [ToolCallEnd(call.id), ToolCallDone(call)];
    assert open.tools - {call.id} == map[];
    assert open.content[|a.content| := Some(t.part)] == a.content + [Some(t.part)];
    InThree(a, ToolCallStart(call.id, t.name), open, CallPieces(call.id, t.pieces), open,
            [ToolCallEnd(call.id), ToolCallDone(call)]);
  }

  lemma OtherIsTold(a: Assembly, t: Telling)
    requires !t.part.Text? && !t.part.Reasoning? && !t.part.ToolCall?
    requires Faithful(t) && a.text == map[] && a.reasoning == map[] && a.tools == map[]
    ensures AssembleAll(a, Tell(t)) == Ok(Assembly(a.content + [Some(t.part)], map[], map[], map[]))
  {
    hide AssembleAll, AssembleText, AssembleReasoning, Concat;
    var told: StreamPart;
    match t.part {
      case ToolResult(result) => told := ToolResultDone(result);
      case Source(source) => told := SourceFound(source);
      case File(file) => told := FileDone(file);
      case Custom(kind, data) => told := CustomDone(kind, data);
      case ToolApproval(approval) => told := ApprovalRequested(approval);
    }
    assert Tell(t) == [told];
    assert AssembleStep(a, told) == Ok(Assembly(a.content + [Some(t.part)], map[], map[], map[]));
    hide AssembleStep, Tell;
    One(a, told);
  }

  lemma IsTold(a: Assembly, t: Telling)
    requires Faithful(t) && a.text == map[] && a.reasoning == map[] && a.tools == map[]
    ensures AssembleAll(a, Tell(t)) == Ok(Assembly(a.content + [Some(t.part)], map[], map[], map[]))
  {
    hide AssembleAll, AssembleStep, Concat, Tell;
    match t.part
    case Text(_, _) => TextIsTold(a, t);
    case Reasoning(_, _) => ReasoningIsTold(a, t);
    case ToolCall(_) => CallIsTold(a, t);
    case _ => OtherIsTold(a, t);
  }

  lemma ToldFirst(tellings: seq<Telling>)
    requires tellings != []
    ensures Concat(Mapped(tellings, Tell)) == Tell(tellings[0]) + Concat(Mapped(tellings[1..], Tell))
  {
    hide Tell;
    assert Mapped(tellings, Tell)[1..] == Mapped(tellings[1..], Tell);
  }

  lemma NothingTold(a: Assembly)
    requires a.Valid()
    ensures AssembleAll(a, Concat(Mapped([], Tell))) == Ok(a)
  {
    hide Tell;
  }

  lemma {:induction false} AllAreTold(sofar: seq<AssistantPart>, tellings: seq<Telling>)
    requires forall i :: 0 <= i < |tellings| ==> Faithful(tellings[i])
    ensures AssembleAll(Content(sofar), Concat(Mapped(tellings, Tell))) == Ok(Content(sofar + Mapped(tellings, PartOf)))
    decreases |tellings|
  {
    hide AssembleStep, Faithful, Tell, Concat;
    if tellings == [] {
      assert sofar + Mapped(tellings, PartOf) == sofar;
      NothingTold(Content(sofar));
    } else {
      var first, rest := tellings[0], tellings[1..];
      var next := sofar + [first.part];
      IsTold(Content(sofar), first);
      ContentGrows(sofar, first.part);
      AllAreTold(next, rest);
      ToldFirst(tellings);
      AssembleAllConcat(Content(sofar), Tell(first), Concat(Mapped(rest, Tell)));
      assert next + Mapped(rest, PartOf) == sofar + Mapped(tellings, PartOf);
    }
  }

  /** Content told part by part, each text in any pieces, assembles to exactly that content. */
  lemma ToldContentAssembles(tellings: seq<Telling>, finish: Finish)
    requires forall i :: 0 <= i < |tellings| ==> Faithful(tellings[i])
    ensures Assembled([StreamStart] + Concat(Mapped(tellings, Tell)) + [Finished(finish)])
      == Ok(Mapped(tellings, PartOf))
  {
    hide Tell, Faithful, Concat, AssembleAll;
    var told, parts := Concat(Mapped(tellings, Tell)), Mapped(tellings, PartOf);
    AllAreTold([], tellings);
    assert Content([]) == NOTHING && [] + parts == parts;
    One(Content(parts), Finished(finish));
    InThree(NOTHING, StreamStart, NOTHING, told, Content(parts), [Finished(finish)]);
    ContentHas(parts);
    hide Values;
  }

  lemma ContentHas(parts: seq<AssistantPart>)
    ensures Values(Content(parts).content) == parts
  {
  }
}
