/** The conformance suite's executable specification of a normalized stream. */
module Conformance {
  import opened Wrappers
  import opened Json
  import opened Parts

  datatype Violation =
    | NoStreamStart
    | ManyStreamStarts
    | PartAfterFinish
    | ErrorNotFollowedByFinish
    | DuplicateStart
    | NoOpenBlock
    | FinalizedBeforeEnd
    | FinishWithOpenBlocks
    | FinishAfterErrorIsNotError
    | NoFinish
    | LeftOpen
    | UnfilledSlot

  // --------------------------------------------------------------- lifecycle

  /** What `validate_lifecycle` knows after a prefix of the parts. */
  datatype Life = Life(
    text: set<string>, reasoning: set<string>, tool: set<string>, ended: set<string>,
    finish: Option<Finish>, inBandError: bool)

  const BORN := Life({}, {}, {}, {}, None, false)

  function OpenId(open: set<string>, id: string): Result<set<string>, Violation> {
    if id in open then Err(DuplicateStart) else Ok(open + {id})
  }

  function CloseId(open: set<string>, id: string): Result<set<string>, Violation> {
    if id in open then Ok(open - {id}) else Err(NoOpenBlock)
  }

  /** One part after the first, which must be the only `StreamStart`. */
  function LifeStep(l: Life, part: StreamPart): Result<Life, Violation> {
    if part.StreamStart? then Err(ManyStreamStarts)
    else if l.finish.Some? then Err(PartAfterFinish)
    else if l.inBandError && !part.Finished? then Err(ErrorNotFollowedByFinish)
    else match part
      case TextStart(id, _) =>
        var r := OpenId(l.text, id);
        if r.Err? then Err(r.error) else Ok(l.(text := r.value))
      case TextDelta(id, _, _) => if id in l.text then Ok(l) else Err(NoOpenBlock)
      case TextEnd(id, _) =>
        var r := CloseId(l.text, id);
        if r.Err? then Err(r.error) else Ok(l.(text := r.value))
      case ReasoningStart(id, _) =>
        var r := OpenId(l.reasoning, id);
        if r.Err? then Err(r.error) else Ok(l.(reasoning := r.value))
      case ReasoningDelta(id, _, _) => if id in l.reasoning then Ok(l) else Err(NoOpenBlock)
      case ReasoningEnd(id, _) =>
        var r := CloseId(l.reasoning, id);
        if r.Err? then Err(r.error) else Ok(l.(reasoning := r.value))
      case ToolCallStart(id, _) =>
        var r := OpenId(l.tool, id);
        if r.Err? then Err(r.error) else Ok(l.(tool := r.value))
      case ToolCallDelta(id, _) => if id in l.tool then Ok(l) else Err(NoOpenBlock)
      case ToolCallEnd(id) =>
        var r := CloseId(l.tool, id);
        if r.Err? then Err(r.error) else Ok(l.(tool := r.value, ended := l.ended + {id}))
      case ToolCallDone(call) =>
        if call.id !in l.ended && call.id in l.tool then Err(FinalizedBeforeEnd)
        else Ok(l.(ended := l.ended - {call.id}))
      case ErrorRaised(_) => Ok(l.(inBandError := true))
      case Finished(finish) =>
        if l.text != {} || l.reasoning != {} || l.tool != {} || l.ended != {}
        then Err(FinishWithOpenBlocks)
        else if l.inBandError && finish.reason != Failed then Err(FinishAfterErrorIsNotError)
        else Ok(l.(finish := Some(finish)))
      case _ => Ok(l)
  }

  function LifeAll(l: Life, parts: seq<StreamPart>): Result<Life, Violation>
    decreases |parts|
  {
    if parts == [] then Ok(l) else
      var r := LifeStep(l, parts[0]);
      if r.Err? then r else LifeAll(r.value, parts[1..])
  }

  /** The finish of a stream whose parts follow the lifecycle rules. */
  function Lifecycle(parts: seq<StreamPart>): Result<Finish, Violation> {
    if parts == [] || !parts[0].StreamStart? then Err(NoStreamStart) else
      var r := LifeAll(BORN, parts[1..]);
      if r.Err? then Err(r.error)
      else if r.value.finish.None? then Err(NoFinish)
      else Ok(r.value.finish.value)
  }

  method ValidateLifecycle(parts: seq<StreamPart>) returns (r: Result<Finish, Violation>)
    ensures r == Lifecycle(parts)
  {
    if parts == [] || !parts[0].StreamStart? {
      return Err(NoStreamStart);
    }
    var l := BORN;
    for index := 0 to |parts|
      invariant index == 0 ==> l == BORN
      invariant index > 0 ==> LifeAll(l, parts[index..]) == LifeAll(BORN, parts[1..])
    {
      if index > 0 {
        assert parts[index..][1..] == parts[index + 1..];
        var next := LifeStep(l, parts[index]);
        if next.Err? {
          return Err(next.error);
        }
        l := next.value;
      }
    }
    if l.finish.None? {
      return Err(NoFinish);
    }
    return Ok(l.finish.value);
  }

  lemma {:induction false} LifeAllConcat(l: Life, first: seq<StreamPart>, second: seq<StreamPart>)
    requires LifeAll(l, first).Ok?
    ensures LifeAll(l, first + second) == LifeAll(LifeAll(l, first).value, second)
    decreases |first|
  {
    if first == [] {
      assert first + second == second;
    } else {
      assert (first + second)[1..] == first[1..] + second;
      LifeAllConcat(LifeStep(l, first[0]).value, first[1..], second);
    }
  }

  // ---------------------------------------------------------------- assembly

  datatype OpenContent = OpenContent(slot: nat, text: string, metadata: Metadata)

  /** Content slots in order of appearance and the blocks that will fill the empty ones. */
  datatype Assembly = Assembly(
    content: seq<Option<AssistantPart>>,
    text: map<string, OpenContent>, reasoning: map<string, OpenContent>, tools: map<string, nat>)
  {
    ghost predicate Valid() {
      && (forall id :: id in text ==> text[id].slot < |content|)
      && (forall id :: id in reasoning ==> reasoning[id].slot < |content|)
      && (forall id :: id in tools ==> tools[id] < |content|)
    }
  }

  const NOTHING := Assembly([], map[], map[], map[])

  function Add(a: Assembly, part: AssistantPart): (r: Assembly)
    requires a.Valid()
    ensures r.Valid()
  {
    a.(content := a.content + [Some(part)])
  }

  function AssembleText(a: Assembly, part: StreamPart): (r: Result<Assembly, Violation>)
    requires a.Valid() && (part.TextStart? || part.TextDelta? || part.TextEnd?)
    ensures r.Ok? ==> r.value.Valid()
  {
    match part
    case TextStart(id, metadata) =>
      Ok(a.(content := a.content + [None],
            text := a.text[id := OpenContent(|a.content|, "", metadata)]))
    case TextDelta(id, delta, _) =>
      if id !in a.text then Err(NoOpenBlock)
      else Ok(a.(text := a.text[id := a.text[id].(text := a.text[id].text + delta)]))
    case TextEnd(id, _) =>
      if id !in a.text then Err(NoOpenBlock) else
        var block := a.text[id];
        Ok(a.(content := a.content[block.slot := Some(Text(block.text, block.metadata))],
              text := a.text - {id}))
  }

  function AssembleReasoning(a: Assembly, part: StreamPart): (r: Result<Assembly, Violation>)
    requires a.Valid() && (part.ReasoningStart? || part.ReasoningDelta? || part.ReasoningEnd?)
    ensures r.Ok? ==> r.value.Valid()
  {
    match part
    case ReasoningStart(id, metadata) =>
      Ok(a.(content := a.content + [None],
            reasoning := a.reasoning[id := OpenContent(|a.content|, "", metadata)]))
    case ReasoningDelta(id, delta, _) =>
      if id !in a.reasoning then Err(NoOpenBlock)
      else Ok(a.(reasoning := a.reasoning[id := a.reasoning[id].(text := a.reasoning[id].text + delta)]))
    case ReasoningEnd(id, _) =>
      if id !in a.reasoning then Err(NoOpenBlock) else
        var block := a.reasoning[id];
        Ok(a.(content := a.content[block.slot := Some(Reasoning(block.text, block.metadata))],
              reasoning := a.reasoning - {id}))
  }

  function AssembleStep(a: Assembly, part: StreamPart): (r: Result<Assembly, Violation>)
    requires a.Valid()
    ensures r.Ok? ==> r.value.Valid()
  {
    if part.TextStart? || part.TextDelta? || part.TextEnd? then AssembleText(a, part)
    else if part.ReasoningStart? || part.ReasoningDelta? || part.ReasoningEnd? then
      AssembleReasoning(a, part)
    else match part
      case ToolCallStart(id, _) =>
        Ok(a.(content := a.content + [None], tools := a.tools[id := |a.content|]))
      case ToolCallDone(call) =>
        if call.id in a.tools then
          Ok(a.(content := a.content[a.tools[call.id] := Some(ToolCall(call))],
                tools := a.tools - {call.id}))
        else Ok(Add(a, ToolCall(call)))
      case ToolResultDone(result) => Ok(Add(a, ToolResult(result)))
      case SourceFound(source) => Ok(Add(a, Source(source)))
      case FileDone(file) => Ok(Add(a, File(file)))
      case CustomDone(kind, data) => Ok(Add(a, Custom(kind, data)))
      case ApprovalRequested(approval) => Ok(Add(a, ToolApproval(approval)))
      case _ => Ok(a)
  }

  function AssembleAll(a: Assembly, parts: seq<StreamPart>): (r: Result<Assembly, Violation>)
    requires a.Valid()
    ensures r.Ok? ==> r.value.Valid()
    decreases |parts|
  {
    if parts == [] then Ok(a) else
      var r := AssembleStep(a, parts[0]);
      if r.Err? then r else AssembleAll(r.value, parts[1..])
  }

  predicate Filled(content: seq<Option<AssistantPart>>) {
    forall i :: 0 <= i < |content| ==> content[i].Some?
  }

  function Values(content: seq<Option<AssistantPart>>): (parts: seq<AssistantPart>)
    requires Filled(content)
    ensures |parts| == |content|
  {
    seq(|content|, i requires 0 <= i < |content| => content[i].value)
  }

  /** The assistant content a stream of parts amounts to. */
  function Assembled(parts: seq<StreamPart>): Result<seq<AssistantPart>, Violation> {
    var r := AssembleAll(NOTHING, parts);
    if r.Err? then Err(r.error)
    else if r.value.text != map[] || r.value.reasoning != map[] || r.value.tools != map[]
    then Err(LeftOpen)
    else if !Filled(r.value.content) then Err(UnfilledSlot)
    else Ok(Values(r.value.content))
  }

  method AssembledContent(parts: seq<StreamPart>) returns (r: Result<seq<AssistantPart>, Violation>)
    ensures r == Assembled(parts)
  {
    var a := NOTHING;
    assert parts[0..] == parts;
    for index := 0 to |parts|
      invariant a.Valid()
      invariant AssembleAll(a, parts[index..]) == AssembleAll(NOTHING, parts)
    {
      assert parts[index..][1..] == parts[index + 1..];
      var next := AssembleStep(a, parts[index]);
      if next.Err? {
        return Err(next.error);
      }
      a := next.value;
    }
    if a.text != map[] || a.reasoning != map[] || a.tools != map[] {
      return Err(LeftOpen);
    }
    if !Filled(a.content) {
      return Err(UnfilledSlot);
    }
    return Ok(Values(a.content));
  }

  lemma {:induction false} AssembleAllConcat(a: Assembly, first: seq<StreamPart>, second: seq<StreamPart>)
    requires a.Valid() && AssembleAll(a, first).Ok?
    ensures AssembleAll(a, first + second) == AssembleAll(AssembleAll(a, first).value, second)
    decreases |first|
  {
    hide AssembleStep;
    if first == [] {
      assert first + second == second;
    } else {
      assert (first + second)[1..] == first[1..] + second;
      AssembleAllConcat(AssembleStep(a, first[0]).value, first[1..], second);
    }
  }

  lemma NothingMore(a: Assembly)
    requires a.Valid()
    ensures AssembleAll(a, []) == Ok(a)
  {
  }

  lemma AssembleCons(a: Assembly, part: StreamPart, rest: seq<StreamPart>, after: Assembly)
    requires a.Valid() && AssembleStep(a, part) == Ok(after)
    ensures AssembleAll(a, [part] + rest) == AssembleAll(after, rest)
  {
    hide AssembleStep;
    assert ([part] + rest)[1..] == rest;
  }
}
