/** A whole Bedrock response as the service streams it, and the parts it is told as. */
module BedrockScript {
  import opened Wrappers
  import opened Json
  import opened Parts
  import opened Sequences
  import opened BedrockStream
  import opened BedrockRuns
  import opened BedrockFinish
  import opened BedrockSingle
  import opened BedrockSingleCapture

  /** One event and what it makes the state machine emit. */
  datatype Beat = Beat(event: Synthetic, parts: seq<StreamPart>)

  /** What a response is made of, one block after another; texts and inputs come in pieces. */
  datatype Item =
    | Says(index: U64, first: string, pieces: seq<string>)
    | Thinks(index: U64, first: string, pieces: seq<string>, signature: Option<string>)
    | Redacts(index: U64, key: string, data: string)
    | Calls(index: U64, id: string, name: string, pieces: seq<string>, input: map<string, Json>)
    | Cites(index: U64, citation: Json)
    | Shows(index: U64, key: string, value: Json)
    | Reports(kind: string, payload: Json)

  // -------------------------------------------------------------- written and told

  function Piece(text: string, part: StreamPart): seq<StreamPart> {
    if text == "" then [] else [part]
  }

  function TextBeat(index: U64, text: string, before: seq<StreamPart>): Beat {
    Beat(Delta(index, Obj(map["text" := Str(text)])),
         before + Piece(text, TextDelta("text-" + Decimal(index), text, None)))
  }

  function ThinkingBeat(index: U64, text: string, before: seq<StreamPart>): Beat {
    Beat(ReasoningDeltaEvent(index, "text", Str(text)),
         before + Piece(text, ReasoningDelta("reasoning-" + Decimal(index), text, None)))
  }

  function InputBeat(index: U64, id: string, input: string): Beat {
    Beat(Delta(index, Obj(map["toolUse" := Obj(map["input" := Str(input)])])), Piece(input, ToolCallDelta(id, input)))
  }

  function StartCall(index: U64, id: string, name: string): Synthetic {
    Synthetic("contentBlockStart", Obj(map[
      "contentBlockIndex" := Num(Unsigned(index)),
      "start" := Obj(map["toolUse" := Obj(map["toolUseId" := Str(id), "name" := Str(name)])])]))
  }

  function TextBeats(index: U64, pieces: seq<string>): seq<Beat> {
    Mapped(pieces, (piece: string) => TextBeat(index, piece, []))
  }

  function ThinkingBeats(index: U64, pieces: seq<string>): seq<Beat> {
    Mapped(pieces, (piece: string) => ThinkingBeat(index, piece, []))
  }

  function InputBeats(index: U64, id: string, pieces: seq<string>): seq<Beat> {
    Mapped(pieces, (piece: string) => InputBeat(index, id, piece))
  }

  function SignatureBeats(index: U64, signature: Option<string>): seq<Beat> {
    match signature
    case Some(text) => [Beat(ReasoningDeltaEvent(index, "signature", Str(text)), [])]
    case None => []
  }

  /** Title, first excerpt and the citation itself. */
  function CitedAs(citation: Json): SourcePart {
    SourcePart(
      citation.GetStr("title"),
      match citation.Get("sourceContent")
      case Some(Arr(sources)) => if sources == [] then None else sources[0].GetStr("text")
      case _ => None,
      Some(map["bedrock.citation" := citation]))
  }

  /** The text of a call's input; nothing said stands for an empty object. */
  function Said(pieces: seq<string>): string {
    if Concat(pieces) == "" then "{}" else Concat(pieces)
  }

  function Beats(item: Item): seq<Beat> {
    match item
    case Says(index, first, pieces) =>
      var id := "text-" + Decimal(index);
      [TextBeat(index, first, [TextStart(id, None)])] + TextBeats(index, pieces)
      + [Beat(StopEvent(index), [TextEnd(id, None)])]
    case Thinks(index, first, pieces, signature) =>
      var id := "reasoning-" + Decimal(index);
      [ThinkingBeat(index, first, [ReasoningStart(id, None)])] + (ThinkingBeats(index, pieces)
      + SignatureBeats(index, signature)) + [Beat(StopEvent(index), [ReasoningEnd(id, None)])]
    case Redacts(index, key, data) =>
      [Beat(ReasoningDeltaEvent(index, key, Str(data)), [])] + [Beat(StopEvent(index), [])]
    case Calls(index, id, name, pieces, input) =>
      var call := ToolCallPart(id, name, Obj(input), Some(id), Some(Said(pieces)), None);
      [Beat(StartCall(index, id, name), [ToolCallStart(id, name)])] + InputBeats(index, id, pieces)
      + [Beat(StopEvent(index), [ToolCallEnd(id), ToolCallDone(call)])]
    case Cites(index, citation) =>
      [Beat(Delta(index, Obj(map["citation" := citation])), [SourceFound(CitedAs(citation))])]
    case Shows(index, key, value) =>
      var delta := Obj(map[key := value]);
      [Beat(Delta(index, delta), [ProviderEvent("bedrock.content_delta", delta)])]
    case Reports(kind, payload) => [Beat(Synthetic(kind, payload), [ProviderEvent(kind, payload)])]
  }

  const KNOWN := {
    "messageStart", "contentBlockStart", "contentBlockDelta", "contentBlockStop", "messageStop", "metadata"}

  /** An item that the configuration allows and that can be written. */
  predicate Writable(cfg: Config, item: Item) {
    match item
    case Thinks(_, _, _, signature) => cfg.reasoning && signature != Some("")
    case Redacts(_, key, data) =>
      cfg.reasoning && cfg.signedReasoning && data != "" && key in {"redactedContent", "data"}
    case Calls(_, id, name, pieces, input) =>
      id != "" && name != "" && cfg.codec.parse(Said(pieces)) == Some(Obj(input))
    case Shows(_, key, _) => key in {"image", "toolResult"}
    case Reports(kind, _) => kind !in KNOWN && kind !in SERVICE_ERRORS
    case _ => true
  }

  predicate Clash(first: Item, second: Item) {
    first.Calls? && second.Calls? && first.id == second.id
  }

  /** What the message holds for the item. */
  function NativeOf(item: Item): Option<Native> {
    match item
    case Says(_, first, pieces) => Some(NText(first + Concat(pieces)))
    case Thinks(_, first, pieces, signature) => Some(NReasoning(first + Concat(pieces), signature))
    case Redacts(_, _, data) => Some(NRedacted(data))
    case Calls(_, id, name, _, input) => Some(NTool(id, name, input))
    case _ => None
  }

  /** Nothing open, in a message that has started and not stopped. */
  predicate Idle(s: Snapshot) {
    Open(s) && !s.done && s.blocks == map[] && s.blockOrder == map[]
  }

  function After(cfg: Config, s: Snapshot, item: Item): Snapshot {
    var native := NativeOf(item);
    if native.None? then s
    else s.(native := s.native[s.nextBlockOrder := ToJson(Kept(cfg, native.value))],
            nextBlockOrder := SaturatingInc(s.nextBlockOrder),
            stoppedIndices := s.stoppedIndices - {item.index} + {item.index},
            callIds := if item.Calls? then s.callIds + {item.id} else s.callIds)
  }

  // ------------------------------------------------------------------ performing

  predicate Takes(cfg: Config, s: Snapshot, beat: Beat, after: Snapshot) {
    !s.done && ApplyEvent(cfg, s, beat.event.kind, beat.event.payload) == Ok((after, beat.parts))
  }

  /** The raw form a reader gives an event, if it is to. */
  type Rawness = Synthetic -> Option<Json>

  function EventOf(raw: Rawness): Beat -> Event {
    (beat: Beat) => Regular(beat.event.kind, beat.event.payload, raw(beat.event))
  }

  function PartsOf(raw: Rawness): Beat -> seq<StreamPart> {
    (beat: Beat) => Raws(raw(beat.event)) + beat.parts
  }

  /** The beats bring one state to the other and are told as they should. */
  ghost predicate Performs(cfg: Config, raw: Rawness, s: Snapshot, beats: seq<Beat>, after: Snapshot) {
    Run(cfg, s, Mapped(beats, EventOf(raw))) == Ok((after, Concat(Mapped(beats, PartsOf(raw)))))
  }

  lemma PerformsNothing(cfg: Config, raw: Rawness, s: Snapshot)
    ensures Performs(cfg, raw, s, [], s)
  {
  }

  lemma PerformsFirst(
    cfg: Config, raw: Rawness, s: Snapshot, beat: Beat, middle: Snapshot, rest: seq<Beat>, after: Snapshot)
    requires Takes(cfg, s, beat, middle) && Performs(cfg, raw, middle, rest, after)
    ensures Performs(cfg, raw, s, [beat] + rest, after)
  {
    hide ApplyEvent;
    var beats, event := [beat] + rest, EventOf(raw)(beat);
    assert Accept(cfg, s, event) == Ok((middle, PartsOf(raw)(beat)));
    assert Mapped(beats, EventOf(raw)) == [event] + Mapped(rest, EventOf(raw));
    assert Mapped(beats, PartsOf(raw)) == [PartsOf(raw)(beat)] + Mapped(rest, PartsOf(raw));
    assert ([event] + Mapped(rest, EventOf(raw)))[1..] == Mapped(rest, EventOf(raw));
    assert ([PartsOf(raw)(beat)] + Mapped(rest, PartsOf(raw)))[1..] == Mapped(rest, PartsOf(raw));
  }

  lemma PerformsOne(cfg: Config, raw: Rawness, s: Snapshot, beat: Beat, after: Snapshot)
    requires Takes(cfg, s, beat, after)
    ensures Performs(cfg, raw, s, [beat], after)
  {
    hide Takes, Performs;
    PerformsNothing(cfg, raw, after);
    PerformsFirst(cfg, raw, s, beat, after, [], after);
    assert [beat] + [] == [beat];
  }

  lemma PerformsThen(
    cfg: Config, raw: Rawness, s: Snapshot, first: seq<Beat>, middle: Snapshot, second: seq<Beat>, after: Snapshot)
    requires Performs(cfg, raw, s, first, middle) && Performs(cfg, raw, middle, second, after)
    ensures Performs(cfg, raw, s, first + second, after)
  {
    RunConcat(cfg, s, Mapped(first, EventOf(raw)), Mapped(second, EventOf(raw)));
    assert Mapped(first + second, EventOf(raw)) == Mapped(first, EventOf(raw)) + Mapped(second, EventOf(raw));
    assert Mapped(first + second, PartsOf(raw)) == Mapped(first, PartsOf(raw)) + Mapped(second, PartsOf(raw));
    ConcatConcat(Mapped(first, PartsOf(raw)), Mapped(second, PartsOf(raw)));
  }

  lemma {:induction false} RunConcat(cfg: Config, s: Snapshot, first: seq<Event>, second: seq<Event>)
    requires Run(cfg, s, first).Ok?
    ensures
      var (middle, parts) := Run(cfg, s, first).value;
      var rest := Run(cfg, middle, second);
      Run(cfg, s, first + second) == if rest.Err? then rest else Ok((rest.value.0, parts + rest.value.1))
    decreases |first|
  {
    hide Accept;
    if first == [] {
      assert [] + second == second;
      var rest := Run(cfg, s, second);
      if rest.Ok? {
        assert [] + rest.value.1 == rest.value.1;
      }
    } else {
      assert (first + second)[1..] == first[1..] + second;
      var (next, parts) := Accept(cfg, s, first[0]).value;
      RunConcat(cfg, next, first[1..], second);
      var (middle, more) := Run(cfg, next, first[1..]).value;
      var rest := Run(cfg, middle, second);
      if rest.Ok? {
        assert parts + (more + rest.value.1) == parts + more + rest.value.1;
      }
    }
  }

  /** A beginning, pieces and an end. */
  lemma PerformsThree(
    cfg: Config, raw: Rawness, s: Snapshot, first: Beat, a: Snapshot, middle: seq<Beat>, b: Snapshot, last: Beat,
    after: Snapshot)
    requires Takes(cfg, s, first, a) && Performs(cfg, raw, a, middle, b) && Takes(cfg, b, last, after)
    ensures Performs(cfg, raw, s, [first] + middle + [last], after)
  {
    hide Takes, Performs;
    PerformsOne(cfg, raw, b, last, after);
    PerformsThen(cfg, raw, a, middle, b, [last], after);
    PerformsFirst(cfg, raw, s, first, a, middle + [last], after);
    assert [first] + middle + [last] == [first] + (middle + [last]);
  }

  // ----------------------------------------------------------------- single events

  /** The state with one open block at its place. */
  function With(s: Snapshot, index: U64, block: Block): Snapshot {
    s.(blocks := map[index := block], blockOrder := map[index := s.nextBlockOrder],
       nextBlockOrder := SaturatingInc(s.nextBlockOrder), stoppedIndices := s.stoppedIndices - {index})
  }

  lemma TextOpens(cfg: Config, s: Snapshot, index: U64, text: string)
    requires Idle(s)
    ensures
      var id := "text-" + Decimal(index);
      Takes(cfg, s, TextBeat(index, text, [TextStart(id, None)]), With(s, index, BedrockStream.TextBlock(id, text)))
  {
    hide ApplyEvent;
    TextEvent(cfg, s, index, text);
  }

  lemma TextGrows(cfg: Config, s: Snapshot, index: U64, sofar: string, text: string)
    requires Idle(s)
    ensures
      var id := "text-" + Decimal(index);
      Takes(cfg, With(s, index, BedrockStream.TextBlock(id, sofar)), TextBeat(index, text, []),
            With(s, index, BedrockStream.TextBlock(id, sofar + text)))
  {
    hide ApplyEvent;
    var id := "text-" + Decimal(index);
    var before, after := With(s, index, BedrockStream.TextBlock(id, sofar)),
      With(s, index, BedrockStream.TextBlock(id, sofar + text));
    TextEvent(cfg, before, index, text);
    assert before.blocks[index := BedrockStream.TextBlock(id, sofar + text)] == after.blocks;
    assert [] + Piece(text, TextDelta(id, text, None)) == Piece(text, TextDelta(id, text, None));
  }

  /** The state after the only open block has been closed. */
  function Without(s: Snapshot, index: U64, native: Json, callIds: set<string>): Snapshot {
    s.(native := s.native[s.nextBlockOrder := native], nextBlockOrder := SaturatingInc(s.nextBlockOrder),
       stoppedIndices := s.stoppedIndices - {index} + {index}, callIds := callIds)
  }

  lemma BlockCloses(cfg: Config, s: Snapshot, index: U64, block: Block, closed: Closed)
    requires Idle(s) && CloseBlock(cfg, s.callIds, block) == Ok(closed)
    ensures Takes(cfg, With(s, index, block), Beat(StopEvent(index), closed.parts),
                  Without(s, index, closed.native, closed.callIds))
  {
    hide CloseBlock;
    var before := With(s, index, block);
    assert BedrockStream.Index(StopEvent(index).payload) == Ok(index);
    assert before.blocks - {index} == map[] && before.blockOrder - {index} == map[];
  }

  lemma ReasoningTakes(
    cfg: Config, s: Snapshot, index: U64, key: string, value: string, block: Block, grown: Block,
    parts: seq<StreamPart>)
    requires Idle(s) && cfg.reasoning && key in REASONING_MEMBERS && block.ReasoningBlock?
    requires GrowReasoning(block, Obj(map[key := Str(value)])) == Ok((grown, parts))
    ensures Takes(cfg, With(s, index, block), Beat(ReasoningDeltaEvent(index, key, Str(value)), parts),
      With(s, index, grown))
    ensures
      block == ReasoningBlock("reasoning-" + Decimal(index), "", None, None, false) ==>
        Takes(cfg, s, Beat(ReasoningDeltaEvent(index, key, Str(value)), parts), With(s, index, grown))
  {
    hide ApplyEvent, GrowReasoning;
    var before := With(s, index, block);
    OneMember(map[key := Str(value)], key);
    ReasoningEvent(cfg, before, index, key, value);
    assert before.blocks[index := grown] == With(s, index, grown).blocks;
    ReasoningEvent(cfg, s, index, key, value);
    assert s.blocks[index := block][index := grown] == With(s, index, grown).blocks;
  }

  function Thinking(index: U64, text: string, signature: Option<string>): Block {
    ReasoningBlock("reasoning-" + Decimal(index), text, signature, None, true)
  }

  lemma ThinkingOpens(cfg: Config, s: Snapshot, index: U64, text: string)
    requires Idle(s) && cfg.reasoning
    ensures
      Takes(cfg, s, ThinkingBeat(index, text, [ReasoningStart("reasoning-" + Decimal(index), None)]),
            With(s, index, Thinking(index, text, None)))
  {
    hide Takes;
    var newborn := ReasoningBlock("reasoning-" + Decimal(index), "", None, None, false);
    assert "" + text == text;
    var beat := ThinkingBeat(index, text, [ReasoningStart(newborn.id, None)]);
    assert GrowReasoning(newborn, Obj(map["text" := Str(text)])) == Ok((Thinking(index, text, None), beat.parts));
    ReasoningTakes(cfg, s, index, "text", text, newborn, Thinking(index, text, None), beat.parts);
  }

  lemma ThinkingGrows(cfg: Config, s: Snapshot, index: U64, sofar: string, text: string)
    requires Idle(s) && cfg.reasoning
    ensures
      Takes(cfg, With(s, index, Thinking(index, sofar, None)), ThinkingBeat(index, text, []),
            With(s, index, Thinking(index, sofar + text, None)))
  {
    hide Takes;
    var beat := ThinkingBeat(index, text, []);
    assert GrowReasoning(Thinking(index, sofar, None), Obj(map["text" := Str(text)]))
      == Ok((Thinking(index, sofar + text, None), beat.parts));
    ReasoningTakes(cfg, s, index, "text", text, Thinking(index, sofar, None), Thinking(index, sofar + text, None),
                    beat.parts);
  }

  lemma Signs(cfg: Config, s: Snapshot, index: U64, text: string, signature: string)
    requires Idle(s) && cfg.reasoning && signature != ""
    ensures
      Takes(cfg, With(s, index, Thinking(index, text, None)),
            Beat(ReasoningDeltaEvent(index, "signature", Str(signature)), []),
            With(s, index, Thinking(index, text, Some(signature))))
  {
    hide Takes;
    assert GrowReasoning(Thinking(index, text, None), Obj(map["signature" := Str(signature)]))
      == Ok((Thinking(index, text, Some(signature)), []));
    ReasoningTakes(cfg, s, index, "signature", signature, Thinking(index, text, None),
                    Thinking(index, text, Some(signature)), []);
  }

  lemma RedactionOpens(cfg: Config, s: Snapshot, index: U64, key: string, data: string)
    requires key in {"redactedContent", "data"} && Idle(s) && cfg.reasoning && data != ""
    ensures
      Takes(cfg, s, Beat(ReasoningDeltaEvent(index, key, Str(data)), []),
            With(s, index, ReasoningBlock("reasoning-" + Decimal(index), "", None, Some(data), false)))
  {
    hide Takes;
    var newborn := ReasoningBlock("reasoning-" + Decimal(index), "", None, None, false);
    var redacted := newborn.(redacted := Some(data));
    assert GrowReasoning(newborn, Obj(map[key := Str(data)])) == Ok((redacted, []));
    ReasoningTakes(cfg, s, index, key, data, newborn, redacted, []);
  }

  lemma CallOpens(cfg: Config, s: Snapshot, index: U64, id: string, name: string)
    requires Idle(s) && id != "" && name != "" && id !in s.callIds
    ensures
      Takes(cfg, s, Beat(StartCall(index, id, name), [ToolCallStart(id, name)]),
        With(s, index, ToolBlock(id, name, "")))
  {
    var e := StartCall(index, id, name);
    var path := ["start", "toolUse"];
    assert path[1..] == ["toolUse"] && path[1..][1..] == [];
    assert e.payload.Get("start").value.Pointer(["toolUse"]).Some?;
    assert BedrockStream.Index(e.payload) == Ok(index);
  }

  lemma CallGrows(cfg: Config, s: Snapshot, index: U64, id: string, name: string, sofar: string, text: string)
    requires Idle(s)
    ensures
      Takes(cfg, With(s, index, ToolBlock(id, name, sofar)), InputBeat(index, id, text),
            With(s, index, ToolBlock(id, name, sofar + text)))
  {
    hide ApplyEvent;
    var before, after := With(s, index, ToolBlock(id, name, sofar)), With(s, index, ToolBlock(id, name, sofar + text));
    ToolEvent(cfg, before, index, text);
    assert before.blocks[index := ToolBlock(id, name, sofar + text)] == after.blocks;
  }

  lemma CitationTold(cfg: Config, s: Snapshot, index: U64, citation: Json)
    requires Open(s) && !s.done
    ensures Takes(cfg, s, Beat(Delta(index, Obj(map["citation" := citation])), [SourceFound(CitedAs(citation))]), s)
  {
    hide TextStep, ToolStep, ReasoningStep;
    var e := Delta(index, Obj(map["citation" := citation]));
    OneVariant(map["citation" := citation], "citation");
    assert BedrockStream.Index(e.payload) == Ok(index);
    assert Citation(citation) == CitedAs(citation) by { CitedAlike(citation); }
  }

  lemma CitedAlike(citation: Json)
    ensures Citation(citation) == CitedAs(citation)
  {
  }

  lemma OtherTold(cfg: Config, s: Snapshot, index: U64, key: string, value: Json)
    requires Open(s) && !s.done && key in {"image", "toolResult"}
    ensures
      var delta := Obj(map[key := value]);
      Takes(cfg, s, Beat(Delta(index, delta), [ProviderEvent("bedrock.content_delta", delta)]), s)
  {
    hide TextStep, ToolStep, ReasoningStep;
    OneVariant(map[key := value], key);
    assert BedrockStream.Index(Delta(index, Obj(map[key := value])).payload) == Ok(index);
  }

  lemma ReportTold(cfg: Config, s: Snapshot, kind: string, payload: Json)
    requires !s.done && kind !in KNOWN && kind !in SERVICE_ERRORS
    ensures Takes(cfg, s, Beat(Synthetic(kind, payload), [ProviderEvent(kind, payload)]), s)
  {
  }

  // ---------------------------------------------------------------------- pieces

  lemma {:induction false} TextPerforms(cfg: Config, raw: Rawness, s: Snapshot, index: U64, sofar: string,
    pieces: seq<string>)
    requires Idle(s)
    ensures
      var id := "text-" + Decimal(index);
      Performs(cfg, raw, With(s, index, BedrockStream.TextBlock(id, sofar)), TextBeats(index, pieces),
               With(s, index, BedrockStream.TextBlock(id, sofar + Concat(pieces))))
    decreases |pieces|
  {
    hide Takes, Performs, With;
    var id := "text-" + Decimal(index);
    var before := With(s, index, BedrockStream.TextBlock(id, sofar));
    if pieces == [] {
      PerformsNothing(cfg, raw, before);
      assert sofar + [] == sofar;
    } else {
      TextGrows(cfg, s, index, sofar, pieces[0]);
      TextPerforms(cfg, raw, s, index, sofar + pieces[0], pieces[1..]);
      assert sofar + pieces[0] + Concat(pieces[1..]) == sofar + Concat(pieces);
      PerformsFirst(cfg, raw, before, TextBeat(index, pieces[0], []),
        With(s, index, BedrockStream.TextBlock(id, sofar + pieces[0])),
                    TextBeats(index, pieces[1..]), With(s, index, BedrockStream.TextBlock(id, sofar + Concat(pieces))));
      assert TextBeats(index, pieces) == [TextBeat(index, pieces[0], [])] + TextBeats(index, pieces[1..]);
    }
  }

  lemma {:induction false} ThinkingPerforms(
    cfg: Config, raw: Rawness, s: Snapshot, index: U64, sofar: string, pieces: seq<string>)
    requires Idle(s) && cfg.reasoning
    ensures
      Performs(cfg, raw, With(s, index, Thinking(index, sofar, None)), ThinkingBeats(index, pieces),
               With(s, index, Thinking(index, sofar + Concat(pieces), None)))
    decreases |pieces|
  {
    hide Takes, Performs, With, Thinking;
    var before := With(s, index, Thinking(index, sofar, None));
    if pieces == [] {
      PerformsNothing(cfg, raw, before);
      assert sofar + [] == sofar;
    } else {
      ThinkingGrows(cfg, s, index, sofar, pieces[0]);
      ThinkingPerforms(cfg, raw, s, index, sofar + pieces[0], pieces[1..]);
      assert sofar + pieces[0] + Concat(pieces[1..]) == sofar + Concat(pieces);
      PerformsFirst(cfg, raw, before, ThinkingBeat(index, pieces[0], []),
                    With(s, index, Thinking(index, sofar + pieces[0], None)), ThinkingBeats(index, pieces[1..]),
                    With(s, index, Thinking(index, sofar + Concat(pieces), None)));
      assert ThinkingBeats(index, pieces) == [ThinkingBeat(index, pieces[0], [])] + ThinkingBeats(index, pieces[1..]);
    }
  }

  lemma {:induction false} InputPerforms(
    cfg: Config, raw: Rawness, s: Snapshot, index: U64, id: string, name: string, sofar: string, pieces: seq<string>)
    requires Idle(s)
    ensures
      Performs(cfg, raw, With(s, index, ToolBlock(id, name, sofar)), InputBeats(index, id, pieces),
               With(s, index, ToolBlock(id, name, sofar + Concat(pieces))))
    decreases |pieces|
  {
    hide Takes, Performs, With;
    var before := With(s, index, ToolBlock(id, name, sofar));
    if pieces == [] {
      PerformsNothing(cfg, raw, before);
      assert sofar + [] == sofar;
    } else {
      CallGrows(cfg, s, index, id, name, sofar, pieces[0]);
      InputPerforms(cfg, raw, s, index, id, name, sofar + pieces[0], pieces[1..]);
      assert sofar + pieces[0] + Concat(pieces[1..]) == sofar + Concat(pieces);
      PerformsFirst(cfg, raw, before, InputBeat(index, id, pieces[0]),
                    With(s, index, ToolBlock(id, name, sofar + pieces[0])), InputBeats(index, id, pieces[1..]),
                    With(s, index, ToolBlock(id, name, sofar + Concat(pieces))));
      assert InputBeats(index, id, pieces) == [InputBeat(index, id, pieces[0])] + InputBeats(index, id, pieces[1..]);
    }
  }

  // ----------------------------------------------------------------------- items

  lemma SaysPerforms(cfg: Config, raw: Rawness, s: Snapshot, item: Item)
    requires Idle(s) && item.Says?
    ensures Performs(cfg, raw, s, Beats(item), After(cfg, s, item))
  {
    hide Takes, Performs;
    var index, text := item.index, item.first + Concat(item.pieces);
    var id := "text-" + Decimal(index);
    TextOpens(cfg, s, index, item.first);
    TextPerforms(cfg, raw, s, index, item.first, item.pieces);
    var native := Obj(map["text" := Str(text)]);
    BlockCloses(cfg, s, index, BedrockStream.TextBlock(id, text), Closed(native, s.callIds, [TextEnd(id, None)]));
    PerformsThree(cfg, raw, s, TextBeat(index, item.first, [TextStart(id, None)]),
                  With(s, index, BedrockStream.TextBlock(id, item.first)), TextBeats(index, item.pieces),
                  With(s, index, BedrockStream.TextBlock(id, text)), Beat(StopEvent(index), [TextEnd(id, None)]),
                  After(cfg, s, item));
  }

  lemma ThinksPerforms(cfg: Config, raw: Rawness, s: Snapshot, item: Item)
    requires Idle(s) && item.Thinks? && Writable(cfg, item)
    ensures Performs(cfg, raw, s, Beats(item), After(cfg, s, item))
  {
    hide Takes, Performs;
    var index, text, signature := item.index, item.first + Concat(item.pieces), item.signature;
    var id := "reasoning-" + Decimal(index);
    ThinkingOpens(cfg, s, index, item.first);
    ThinkingPerforms(cfg, raw, s, index, item.first, item.pieces);
    var plain, full := With(s, index, Thinking(index, text, None)), With(s, index, Thinking(index, text, signature));
    if signature.Some? {
      Signs(cfg, s, index, text, signature.value);
      PerformsOne(cfg, raw, plain, SignatureBeats(index, signature)[0], full);
      assert SignatureBeats(index, signature) == [SignatureBeats(index, signature)[0]];
    } else {
      PerformsNothing(cfg, raw, plain);
    }
    var begun := With(s, index, Thinking(index, item.first, None));
    PerformsThen(cfg, raw, begun, ThinkingBeats(index, item.pieces), plain, SignatureBeats(index, signature), full);
    ThinkingCloses(cfg, s, item);
    PerformsThree(cfg, raw, s, ThinkingBeat(index, item.first, [ReasoningStart(id, None)]), begun,
                  ThinkingBeats(index, item.pieces) + SignatureBeats(index, signature), full,
                  Beat(StopEvent(index), [ReasoningEnd(id, None)]), After(cfg, s, item));
  }

  lemma ThinkingCloses(cfg: Config, s: Snapshot, item: Item)
    requires Idle(s) && item.Thinks? && Writable(cfg, item)
    ensures
      var index, text := item.index, item.first + Concat(item.pieces);
      Takes(cfg, With(s, index, Thinking(index, text, item.signature)),
            Beat(StopEvent(index), [ReasoningEnd("reasoning-" + Decimal(index), None)]), After(cfg, s, item))
  {
    hide Takes;
    var index, text := item.index, item.first + Concat(item.pieces);
    var block := Thinking(index, text, item.signature);
    var native := ToJson(Kept(cfg, NReasoning(text, item.signature)));
    assert NativeReasoning(cfg, block) == native.members["reasoningContent"] by { ReasoningIsKept(cfg, block); }
    assert native == Obj(map["reasoningContent" := NativeReasoning(cfg, block)]);
    BlockCloses(cfg, s, index, block, Closed(native, s.callIds, [ReasoningEnd(block.id, None)]));
  }

  lemma ReasoningIsKept(cfg: Config, block: Block)
    requires block.ReasoningBlock? && block.redacted.None?
    ensures
      ToJson(Kept(cfg, NReasoning(block.text, block.signature)))
        == Obj(map["reasoningContent" := NativeReasoning(cfg, block)])
  {
  }

  lemma RedactsPerforms(cfg: Config, raw: Rawness, s: Snapshot, item: Item)
    requires Idle(s) && item.Redacts? && Writable(cfg, item)
    ensures Performs(cfg, raw, s, Beats(item), After(cfg, s, item))
  {
    hide Takes, Performs;
    var index := item.index;
    var block := ReasoningBlock("reasoning-" + Decimal(index), "", None, Some(item.data), false);
    RedactionOpens(cfg, s, index, item.key, item.data);
    BlockCloses(cfg, s, index, block, Closed(ToJson(NRedacted(item.data)), s.callIds, []));
    PerformsOne(cfg, raw, With(s, index, block), Beat(StopEvent(index), []), After(cfg, s, item));
    PerformsFirst(cfg, raw, s, Beat(ReasoningDeltaEvent(index, item.key, Str(item.data)), []),
                  With(s, index, block), [Beat(StopEvent(index), [])], After(cfg, s, item));
  }

  lemma CallsPerforms(cfg: Config, raw: Rawness, s: Snapshot, item: Item)
    requires Idle(s) && item.Calls? && Writable(cfg, item) && item.id !in s.callIds
    ensures Performs(cfg, raw, s, Beats(item), After(cfg, s, item))
  {
    hide Takes, Performs;
    var index, id, name, text := item.index, item.id, item.name, Concat(item.pieces);
    CallOpens(cfg, s, index, id, name);
    InputPerforms(cfg, raw, s, index, id, name, "", item.pieces);
    assert "" + text == text;
    var call := ToolCallPart(id, name, Obj(item.input), Some(id), Some(Said(item.pieces)), None);
    var told := [ToolCallEnd(id), ToolCallDone(call)];
    BlockCloses(cfg, s, index, ToolBlock(id, name, text),
      Closed(ToJson(NTool(id, name, item.input)), s.callIds + {id}, told));
    PerformsThree(cfg, raw, s, Beat(StartCall(index, id, name), [ToolCallStart(id, name)]),
                  With(s, index, ToolBlock(id, name, "")), InputBeats(index, id, item.pieces),
                  With(s, index, ToolBlock(id, name, text)), Beat(StopEvent(index), told), After(cfg, s, item));
  }

  lemma ItemPerforms(cfg: Config, raw: Rawness, s: Snapshot, item: Item)
    requires Idle(s) && Writable(cfg, item) && (item.Calls? ==> item.id !in s.callIds)
    ensures Performs(cfg, raw, s, Beats(item), After(cfg, s, item)) && Idle(After(cfg, s, item))
  {
    hide Performs, Takes, ToJson, Kept, Delta;
    match item
    case Says(_, _, _) => SaysPerforms(cfg, raw, s, item);
    case Thinks(_, _, _, _) => ThinksPerforms(cfg, raw, s, item);
    case Redacts(_, _, _) => RedactsPerforms(cfg, raw, s, item);
    case Calls(_, _, _, _, _) => CallsPerforms(cfg, raw, s, item);
    case Cites(index, citation) =>
      CitationTold(cfg, s, index, citation);
      AlonePerforms(cfg, raw, s, item);
    case Shows(index, key, value) =>
      OtherTold(cfg, s, index, key, value);
      AlonePerforms(cfg, raw, s, item);
    case Reports(kind, payload) =>
      ReportTold(cfg, s, kind, payload);
      AlonePerforms(cfg, raw, s, item);
  }

  lemma AlonePerforms(cfg: Config, raw: Rawness, s: Snapshot, item: Item)
    requires |Beats(item)| == 1 && Takes(cfg, s, Beats(item)[0], s)
    ensures Performs(cfg, raw, s, Beats(item), s)
  {
    hide Takes, Performs;
    PerformsOne(cfg, raw, s, Beats(item)[0], s);
    assert Beats(item) == [Beats(item)[0]];
  }

  // ------------------------------------------------------------- whole responses

  function AllAfter(cfg: Config, s: Snapshot, items: seq<Item>): Snapshot
    decreases |items|
  {
    if items == [] then s else AllAfter(cfg, After(cfg, s, items[0]), items[1..])
  }

  function AllBeats(items: seq<Item>): seq<Beat> {
    Concat(Mapped(items, Beats))
  }

  /** Items that can make up one response. */
  predicate Playable(cfg: Config, items: seq<Item>) {
    && (forall i :: 0 <= i < |items| ==> Writable(cfg, items[i]))
    && forall j, k :: 0 <= j < k < |items| ==> !Clash(items[j], items[k])
  }

  predicate Room(s: Snapshot, item: Item) {
    item.Calls? ==> item.id !in s.callIds
  }

  lemma RoomAfter(cfg: Config, s: Snapshot, item: Item, other: Item)
    requires Room(s, other) && !Clash(item, other)
    ensures Room(After(cfg, s, item), other)
  {
    hide ToJson, Kept;
  }

  lemma {:induction false} ItemsPerform(cfg: Config, raw: Rawness, s: Snapshot, items: seq<Item>)
    requires Idle(s) && Playable(cfg, items) && forall i :: 0 <= i < |items| ==> Room(s, items[i])
    ensures Performs(cfg, raw, s, AllBeats(items), AllAfter(cfg, s, items)) && Idle(AllAfter(cfg, s, items))
    decreases |items|
  {
    hide Performs, Beats, Writable, Clash, After;
    if items == [] {
      PerformsNothing(cfg, raw, s);
    } else {
      var next := After(cfg, s, items[0]);
      ItemPerforms(cfg, raw, s, items[0]);
      forall i | 0 <= i < |items[1..]| ensures Room(next, items[1..][i]) {
        assert items[1..][i] == items[i + 1];
        RoomAfter(cfg, s, items[0], items[i + 1]);
      }
      ItemsPerform(cfg, raw, next, items[1..]);
      assert Mapped(items, Beats) == [Beats(items[0])] + Mapped(items[1..], Beats);
      PerformsThen(cfg, raw, s, Beats(items[0]), next, AllBeats(items[1..]), AllAfter(cfg, s, items));
    }
  }

  function Started(requestId: Option<string>): Snapshot {
    Initial(requestId).(messageStarted := true)
  }

  const START_BEAT := Beat(MESSAGE_START, [])

  function StopBeat(name: string): Beat {
    Beat(Synthetic("messageStop", Obj(map["stopReason" := Str(name)])), [])
  }

  /** All events of a response before its metadata. */
  function ResponseBeats(items: seq<Item>, name: string): seq<Beat> {
    [START_BEAT] + AllBeats(items) + [StopBeat(name)]
  }

  lemma StartIsTaken(cfg: Config, requestId: Option<string>)
    ensures Takes(cfg, Initial(requestId), START_BEAT, Started(requestId))
  {
  }

  lemma StopIsTaken(cfg: Config, s: Snapshot, name: string)
    requires Idle(s) && name != ""
    ensures Takes(cfg, s, StopBeat(name), s.(stopReason := Some(name), messageStopped := true))
  {
    hide BlockDelta, BlockStart, BlockStop;
  }

  lemma {:induction false} NoStopAmong(raw: Rawness, items: seq<Item>, k: nat)
    requires forall i :: 0 <= i < |items| && items[i].Reports? ==> items[i].kind !in KNOWN
    requires k < |AllBeats(items)|
    ensures AllBeats(items)[k].event.kind != "messageStop"
    decreases |items|
  {
    hide Beats;
    assert items != [];
    var first := Beats(items[0]);
    assert Mapped(items, Beats) == [first] + Mapped(items[1..], Beats);
    assert AllBeats(items) == first + AllBeats(items[1..]);
    if k < |first| {
      NoStopIn(items[0], k);
    } else {
      NoStopAmong(raw, items[1..], k - |first|);
    }
  }

  lemma NoStopIn(item: Item, k: nat)
    requires k < |Beats(item)| && (item.Reports? ==> item.kind !in KNOWN)
    ensures Beats(item)[k].event.kind != "messageStop"
  {
  }

  lemma {:induction false} FirstStop(events: seq<Event>, last: Event)
    requires forall k :: 0 <= k < |events| ==> !StopsMessage(events[k])
    requires StopsMessage(last)
    ensures StopPayload(events + [last]) == Some(last.payload)
    decreases |events|
  {
    if events == [] {
      assert [] + [last] == [last];
    } else {
      assert (events + [last])[1..] == events[1..] + [last];
      FirstStop(events[1..], last);
    }
  }

  lemma ResponseStops(cfg: Config, raw: Rawness, items: seq<Item>, name: string)
    requires Playable(cfg, items)
    ensures StopPayload(Mapped(ResponseBeats(items, name), EventOf(raw))) == Some(StopBeat(name).event.payload)
  {
    hide AllBeats;
    var before := Mapped([START_BEAT] + AllBeats(items), EventOf(raw));
    forall k | 0 <= k < |before| ensures !StopsMessage(before[k]) {
      if k > 0 {
        NoStopAmong(raw, items, k - 1);
      }
    }
    FirstStop(before, EventOf(raw)(StopBeat(name)));
    assert Mapped(ResponseBeats(items, name), EventOf(raw)) == before + [EventOf(raw)(StopBeat(name))];
  }

  lemma ResponsePerforms(cfg: Config, raw: Rawness, requestId: Option<string>, items: seq<Item>, name: string)
    requires Playable(cfg, items) && name != ""
    ensures
      var held := AllAfter(cfg, Started(requestId), items);
      Performs(cfg, raw, Initial(requestId), ResponseBeats(items, name),
               held.(stopReason := Some(name), messageStopped := true))
  {
    hide Takes, Performs, Playable, AllBeats;
    var started := Started(requestId);
    var held := AllAfter(cfg, started, items);
    StartIsTaken(cfg, requestId);
    ItemsPerform(cfg, raw, started, items);
    StopIsTaken(cfg, held, name);
    PerformsThree(cfg, raw, Initial(requestId), START_BEAT, started, AllBeats(items), held, StopBeat(name),
                  held.(stopReason := Some(name), messageStopped := true));
  }

  /** The blocks of the items, as the message keeps them. */
  function NativesOf(cfg: Config, items: seq<Item>): seq<Json> {
    FilterMap(items, (item: Item) => if NativeOf(item).Some? then Some(ToJson(Kept(cfg, NativeOf(item).value)))
      else None)
  }

  /** The first places of the message hold the blocks, and no others. */
  ghost predicate Dense(s: Snapshot, natives: seq<Json>) {
    && s.nextBlockOrder == |natives|
    && (forall o: nat :: o in s.native <==> o < |natives|) && forall o :: o in s.native ==> s.native[o] == natives[o]
  }

  lemma {:induction false} ItemsStayDense(cfg: Config, s: Snapshot, items: seq<Item>, natives: seq<Json>)
    requires Dense(s, natives) && |natives| + |items| < U64_SPAN
    ensures Dense(AllAfter(cfg, s, items), natives + NativesOf(cfg, items))
    decreases |items|
  {
    hide ToJson, Kept, NativeOf;
    if items == [] {
      assert natives + [] == natives;
    } else {
      var native := NativeOf(items[0]);
      var more: seq<Json> := if native.Some? then [ToJson(Kept(cfg, native.value))] else [];
      assert Dense(After(cfg, s, items[0]), natives + more);
      ItemsStayDense(cfg, After(cfg, s, items[0]), items[1..], natives + more);
      assert natives + more + NativesOf(cfg, items[1..]) == natives + NativesOf(cfg, items);
    }
  }

  lemma DenseInOrder(s: Snapshot, natives: seq<Json>)
    requires Dense(s, natives) && |natives| < U64_SPAN
    ensures Ascending(s.native, U64_SPAN) == natives
  {
    hide Ascending;
    AscendingStops(s.native, |natives|, U64_SPAN);
    AscendingDense(s.native, |natives|);
  }

  /** Every response is captured as the blocks of its items, in their order. */
  lemma ItemsAreCaptured(cfg: Config, requestId: Option<string>, items: seq<Item>)
    requires |items| + 1 < U64_SPAN
    ensures Ascending(AllAfter(cfg, Started(requestId), items).native, U64_SPAN) == NativesOf(cfg, items)
  {
    hide Ascending, ToJson, Kept, NativeOf;
    ItemsStayDense(cfg, Started(requestId), items, []);
    assert [] + NativesOf(cfg, items) == NativesOf(cfg, items);
    FilterMapSize(items, (item: Item) => if NativeOf(item).Some? then Some(ToJson(Kept(cfg, NativeOf(item).value)))
      else None);
    DenseInOrder(AllAfter(cfg, Started(requestId), items), NativesOf(cfg, items));
  }

  /** The finish carries the blocks of the items, unless it failed or nothing is to be captured. */
  predicate CapturedAs(cfg: Config, items: seq<Item>, name: string, replay: Option<Artifact>) {
    if name in FAILURES || cfg.policy == Never then replay.None?
    else replay == Some(Artifact("oven.bedrock.converse", cfg.scope, ReplayPayload(NativesOf(cfg, items))))
  }

  /**
   From events to parts. A response made of any items, with different call IDs and texts and inputs
   in any pieces, streamed as Converse streams it, is told part for part as it should be, up to the
   finish with its counts, reason and details and the blocks it is captured as.
   */
  lemma StreamedResponseIsTold(
    cfg: Config, raw: Rawness, requestId: Option<string>, items: seq<Item>, name: string, payload: Json,
    counts: Counts)
    requires Playable(cfg, items) && name != "" && |items| + 1 < U64_SPAN
    requires payload.Get("usage").Some? ==> BedrockFinish.Reports(payload.Get("usage").value, counts)
    ensures
      var beats := ResponseBeats(items, name);
      var last := raw(Synthetic("metadata", payload));
      var all := Run(cfg, Initial(requestId), Mapped(beats, EventOf(raw)) + [Regular("metadata", payload, last)]);
      && (all.Ok? <==>
            && (payload.Get("usage").None? || counts.Total() < U64_SPAN)
            && (name in FAILURES || cfg.policy == Never || cfg.fits(ReplayPayload(NativesOf(cfg, items)))))
      && (all.Ok? ==>
            exists finish ::
              && all.value.0.done
              && all.value.1 == Concat(Mapped(beats, PartsOf(raw))) + (Raws(last)
                + (if name in FAILURES then [ErrorRaised(Provider(name))] else []) + [Finished(finish)])
              && Closes(finish, requestId, Some(StopBeat(name).event.payload), Some(payload),
                        Counted(payload.Get("usage"), counts), name)
              && CapturedAs(cfg, items, name, finish.nativeReplay))
  {
    hide Takes, Performs, Playable, AllBeats, Closes, Counted, Run, BedrockFinish.Reports, StopPayload, Concat, Means;
    hide ReplayPayload, Ascending, NativesOf;
    ResponsePerforms(cfg, raw, requestId, items, name);
    var beats := ResponseBeats(items, name);
    var events := Mapped(beats, EventOf(raw));
    var held := AllAfter(cfg, Started(requestId), items);
    var stopped := held.(stopReason := Some(name), messageStopped := true);
    var told := Concat(Mapped(beats, PartsOf(raw)));
    assert Run(cfg, Initial(requestId), events) == Ok((stopped, told)) by {
      PerformsIs(cfg, raw, Initial(requestId), beats, stopped);
    }
    ItemsIdle(cfg, raw, requestId, items);
    ResponseStops(cfg, raw, items, name);
    ItemsAreCaptured(cfg, requestId, items);
    var last := raw(Synthetic("metadata", payload));
    MetadataEndsRun(cfg, requestId, events, payload, last, counts);
    var all := Run(cfg, Initial(requestId), events + [Regular("metadata", payload, last)]);
    if all.Ok? {
      var finish, ending :| all.value.0.done && all.value.1 == told + ending
        && BedrockFinish.Ending(cfg, stopped, last, name, finish, ending)
        && Closes(finish, requestId, Some(StopBeat(name).event.payload), Some(payload),
                  Counted(payload.Get("usage"), counts), name);
      EndingCaptures(cfg, stopped, last, items, name, finish, ending);
    }
  }

  lemma EndingCaptures(
    cfg: Config, s: Snapshot, raw: Option<Json>, items: seq<Item>, name: string, finish: Finish,
      ending: seq<StreamPart>)
    requires BedrockFinish.Ending(cfg, s, raw, name, finish, ending)
    requires Ascending(s.native, U64_SPAN) == NativesOf(cfg, items)
    ensures CapturedAs(cfg, items, name, finish.nativeReplay)
    ensures ending == Raws(raw) + (if name in FAILURES then [ErrorRaised(Provider(name))] else []) + [Finished(finish)]
  {
    hide ReplayPayload, Ascending, NativesOf;
  }

  lemma PerformsIs(cfg: Config, raw: Rawness, s: Snapshot, beats: seq<Beat>, after: Snapshot)
    requires Performs(cfg, raw, s, beats, after)
    ensures Run(cfg, s, Mapped(beats, EventOf(raw))) == Ok((after, Concat(Mapped(beats, PartsOf(raw)))))
  {
  }

  lemma ItemsIdle(cfg: Config, raw: Rawness, requestId: Option<string>, items: seq<Item>)
    requires Playable(cfg, items)
    ensures !AllAfter(cfg, Started(requestId), items).done
  {
    hide Performs;
    ItemsPerform(cfg, raw, Started(requestId), items);
  }
}
