/** Encoding of a Bedrock request: roles, blocks, cache points and media on the wire. */
module BedrockRequest {
  import opened Wrappers
  import opened Json
  import opened Parts
  import opened Sequences
  import opened BedrockCachePoints
  import opened BedrockMedia
  import opened ReplayLog
  import BedrockReplay

  /**
   `fileEncodes` says whether a file's block, with its document name, can be built; `explain` is
   the text of a decoding fault.
   */
  datatype Config = Config(
    policy: ReplayPolicy, features: BedrockReplay.Features, signedReasoning: bool, reasoning: bool,
    sameModel: Artifact -> bool, fileEncodes: FilePart -> bool,
    explain: BedrockReplay.ReplayFault -> string)

  datatype Block =
    | TextBlock(text: string)
    | MediaBlock(file: FilePart)
    | ToolUseBlock(call: ToolCallPart)
    | ResultBlock(result: ToolResultPart)
    | NativeBlock(value: Json)
    | PointBlock(point: CachePoint)

  datatype Message = Message(role: string, content: seq<Block>)

  datatype Refusal = MediaUnsupported | ReplayUnsupported | ReasoningLost

  // ---------------------------------------------------------------- the messages

  function Pushed(messages: seq<Message>, role: string, content: seq<Block>): seq<Message> {
    var last := |messages| - 1;
    if content == [] then messages
    else if messages != [] && messages[last].role == role then
      messages[..last] + [messages[last].(content := messages[last].content + content)]
    else messages + [Message(role, content)]
  }

  /** The vector of messages that encoding pushes into. */
  class Conversation {
    var messages: seq<Message>

    constructor ()
      ensures messages == []
    {
      messages := [];
    }

    method PushMessage(role: string, content: seq<Block>)
      modifies this
      ensures messages == Pushed(old(messages), role, content)
    {
      if content == [] {
        return;
      }
      var last := |messages| - 1;
      if messages != [] && messages[last].role == role {
        messages := messages[..last] + [messages[last].(content := messages[last].content + content)];
      } else {
        messages := messages + [Message(role, content)];
      }
    }
  }

  /** Messages hold something and take turns. */
  predicate Alternating(messages: seq<Message>) {
    && (forall i :: 0 <= i < |messages| ==> messages[i].content != [])
    && (forall i :: 0 < i < |messages| ==> messages[i].role != messages[i - 1].role)
  }

  function ContentOf(message: Message): seq<Block> {
    message.content
  }

  /** All blocks in wire order. */
  function Flat(messages: seq<Message>): seq<Block> {
    Concat(Mapped(messages, ContentOf))
  }

  lemma PushedAlternates(messages: seq<Message>, role: string, content: seq<Block>)
    requires Alternating(messages)
    ensures Alternating(Pushed(messages, role, content))
  {
  }

  lemma PushedFlat(messages: seq<Message>, role: string, content: seq<Block>)
    ensures Flat(Pushed(messages, role, content)) == Flat(messages) + content
  {
    var last := |messages| - 1;
    if content == [] {
      assert Flat(messages) + [] == Flat(messages);
    } else if messages != [] && messages[last].role == role {
      var before, own := Mapped(messages[..last], ContentOf), messages[last].content;
      assert Mapped(messages, ContentOf) == before + [own];
      assert Mapped(Pushed(messages, role, content), ContentOf) == before + [own + content];
      ConcatConcat(before, [own]);
      ConcatConcat(before, [own + content]);
      assert Concat([own]) == own && Concat([own + content]) == own + content;
      assert Concat(before) + (own + content) == Concat(before) + own + content;
    } else {
      assert Mapped(messages + [Message(role, content)], ContentOf) == Mapped(messages, ContentOf) + [content];
      ConcatConcat(Mapped(messages, ContentOf), [content]);
      assert Concat([content]) == content;
    }
  }

  // ------------------------------------------------------------- blocks of a turn

  function SystemBlock(part: SystemPart): Option<Block> {
    if part.SystemText? && part.text != "" then Some(TextBlock(part.text)) else None
  }

  function InputBlock(part: InputPart): Option<Block> {
    match part
    case InputText(text, _) => if text == "" then None else Some(TextBlock(text))
    case InputFile(file) => Some(MediaBlock(file))
    case InputCustom => None
  }

  function AssistantBlock(part: AssistantPart): Option<Block> {
    match part
    case Text(text, _) => if text == "" then None else Some(TextBlock(text))
    case ToolCall(call) => Some(ToolUseBlock(call))
    case _ => None
  }

  function NewNative(value: Json): Block {
    NativeBlock(value)
  }

  function NewResult(result: ToolResultPart): Block {
    ResultBlock(result)
  }

  predicate Supported(block: Json) {
    block.Obj? && |block.members| == 1 && block.members.Keys <= {"text", "toolUse", "reasoningContent"}
  }

  predicate Redacted(block: Json) {
    block.Pointer(["reasoningContent", "redactedContent"]).Some?
  }

  /** Reasoning needs support; redacted reasoning also the same model and signed reasoning. */
  predicate Eligible(reasoning: bool, encrypted: bool, block: Json) {
    (block.Get("reasoningContent").Some? ==> reasoning) && (Redacted(block) ==> encrypted)
  }

  function KeepEligible(reasoning: bool, encrypted: bool): Json -> Option<Json> {
    block => if Eligible(reasoning, encrypted, block) then Some(block) else None
  }

  /** Reasoning that may not be sent stands among tool calls, which cannot do without it. */
  predicate LosesReasoning(reasoning: bool, encrypted: bool, blocks: seq<Json>) {
    && (exists k :: 0 <= k < |blocks| && !Eligible(reasoning, encrypted, blocks[k]))
    && (exists k :: 0 <= k < |blocks| && blocks[k].Get("toolUse").Some?)
  }

  function EligibleBlocks(reasoning: bool, encrypted: bool, blocks: seq<Json>): Result<seq<Json>, Refusal> {
    if exists k :: 0 <= k < |blocks| && !Supported(blocks[k]) then Err(ReplayUnsupported)
    else if LosesReasoning(reasoning, encrypted, blocks) then Err(ReasoningLost)
    else Ok(FilterMap(blocks, KeepEligible(reasoning, encrypted)))
  }

  method SelectEligibleBlocks(reasoning: bool, encrypted: bool, blocks: seq<Json>)
    returns (r: Result<seq<Json>, Refusal>)
    ensures r == EligibleBlocks(reasoning, encrypted, blocks)
  {
    hide Eligible, Supported;
    var omitted, hasCalls := false, false;
    var kept: seq<Json> := [];
    for k := 0 to |blocks|
      invariant kept == FilterMap(blocks[..k], KeepEligible(reasoning, encrypted))
      invariant omitted <==> exists j :: 0 <= j < k && !Eligible(reasoning, encrypted, blocks[j])
      invariant hasCalls <==> exists j :: 0 <= j < k && blocks[j].Get("toolUse").Some?
      invariant forall j :: 0 <= j < k ==> Supported(blocks[j])
    {
      assert blocks[..k + 1] == blocks[..k] + [blocks[k]];
      FilterMapLast(blocks[..k], blocks[k], KeepEligible(reasoning, encrypted));
      if !Supported(blocks[k]) {
        return Err(ReplayUnsupported);
      }
      if blocks[k].Get("toolUse").Some? {
        hasCalls := true;
      }
      if Eligible(reasoning, encrypted, blocks[k]) {
        kept := kept + [blocks[k]];
      } else {
        omitted := true;
      }
    }
    assert blocks[..|blocks|] == blocks;
    if omitted && hasCalls {
      return Err(ReasoningLost);
    }
    return Ok(kept);
  }

  function Decoded(cfg: Config, artifact: Artifact, parts: seq<AssistantPart>)
    : Result<seq<Json>, BedrockReplay.ReplayFault>
  {
    BedrockReplay.Decode(artifact.payload, parts, cfg.features.(reasoning := true), true)
  }

  /** The captured blocks, when the artifact decodes against the turn. */
  function Replayed(cfg: Config, artifact: Option<Artifact>, parts: seq<AssistantPart>): (r: Option<seq<Json>>)
    ensures r.Some? ==> artifact.Some?
  {
    if cfg.policy == Never || artifact.None? then None
    else
      var decoded := Decoded(cfg, artifact.value, parts);
      if decoded.Ok? then Some(decoded.value) else None
  }

  /** What is wrong with an artifact, if anything. */
  function DecodeFault(cfg: Config, artifact: Option<Artifact>, parts: seq<AssistantPart>): Option<string> {
    if artifact.None? || Decoded(cfg, artifact.value, parts).Ok? then None
    else Some(cfg.explain(Decoded(cfg, artifact.value, parts).error))
  }

  function TurnFault(cfg: Config): Turn -> Option<string> {
    (turn: Turn) => if turn.AssistantTurn? then DecodeFault(cfg, turn.artifact, turn.content) else None
  }

  /** The decisions for one turn. */
  function TurnLog(cfg: Config, index: nat, turn: Turn): seq<Decision> {
    Labelled(index, if turn.AssistantTurn? then Outcome(cfg.policy, turn.artifact, TurnFault(cfg)(turn)) else [])
  }

  /** Whether redacted reasoning may be sent: to the same model, with signed reasoning. */
  predicate Encrypted(cfg: Config, artifact: Artifact) {
    cfg.reasoning && cfg.sameModel(artifact) && cfg.signedReasoning
  }

  function AssistantBlocks(cfg: Config, artifact: Option<Artifact>, parts: seq<AssistantPart>)
    : Result<seq<Block>, Refusal>
  {
    var replayed := Replayed(cfg, artifact, parts);
    if replayed.None? then Ok(FilterMap(parts, AssistantBlock))
    else
      var kept := EligibleBlocks(cfg.reasoning, Encrypted(cfg, artifact.value), replayed.value);
      if kept.Err? then Err(kept.error) else Ok(Mapped(kept.value, NewNative))
  }

  lemma {:induction false} CheckedAreSupported(
    blocks: seq<Json>, features: BedrockReplay.Features, seen: set<string>, k: nat)
    requires BedrockReplay.CheckBlocks(blocks, features, true, seen).Ok? && k < |blocks|
    ensures Supported(blocks[k])
    decreases |blocks|
  {
    if k > 0 {
      var next := BedrockReplay.CheckBlock(blocks[0], features, true, seen).value;
      CheckedAreSupported(blocks[1..], features, next, k - 1);
    } else {
      CheckedIsSupported(blocks[0], features, seen);
    }
  }

  lemma CheckedIsSupported(block: Json, features: BedrockReplay.Features, seen: set<string>)
    requires BedrockReplay.CheckBlock(block, features, true, seen).Ok?
    ensures Supported(block)
  {
    hide BedrockReplay.CheckTool, BedrockReplay.CheckReasoning;
    OnlyKeys(block.members, {if block.Get("text").Some? then "text"
                             else if block.Get("toolUse").Some? then "toolUse" else "reasoningContent"});
  }

  lemma {:induction false} AllKept(blocks: seq<Json>)
    ensures FilterMap(blocks, KeepEligible(true, true)) == blocks
  {
    if blocks != [] {
      AllKept(blocks[1..]);
      assert blocks == [blocks[0]] + blocks[1..];
    }
  }

  /**
   A payload that decodes is sent without the reasoning that may not be sent, and refused for that
   reason alone; with signed reasoning to the same model it is sent whole.
   */
  lemma DecodedIsSent(cfg: Config, artifact: Artifact, parts: seq<AssistantPart>)
    requires cfg.policy != Never
    requires BedrockReplay.Decode(artifact.payload, parts, cfg.features.(reasoning := true), true).Ok?
    ensures
      var blocks := BedrockReplay.Decode(artifact.payload, parts, cfg.features.(reasoning := true), true).value;
      var encrypted := Encrypted(cfg, artifact);
      var sent := AssistantBlocks(cfg, Some(artifact), parts);
      && sent == (if LosesReasoning(cfg.reasoning, encrypted, blocks) then Err(ReasoningLost)
                  else Ok(Mapped(FilterMap(blocks, KeepEligible(cfg.reasoning, encrypted)), NewNative)))
      && (encrypted ==> sent == Ok(Mapped(blocks, NewNative)))
  {
    hide BedrockReplay.CheckBlocks, Supported;
    var features := cfg.features.(reasoning := true);
    var blocks := BedrockReplay.Decode(artifact.payload, parts, features, true).value;
    forall k | 0 <= k < |blocks| ensures Supported(blocks[k]) {
      CheckedAreSupported(blocks, features, {}, k);
    }
    AllKept(blocks);
  }

  /** The files of a turn that must be encoded. */
  predicate FilesEncode(cfg: Config, turn: Turn) {
    && (forall i :: 0 <= i < |TurnInput(turn)| ==> cfg.fileEncodes(TurnInput(turn)[i]))
    && (forall i, k :: 0 <= i < |TurnResults(turn)| && 0 <= k < |ResultFiles(TurnResults(turn)[i])| ==>
          cfg.fileEncodes(ResultFiles(TurnResults(turn)[i])[k]))
  }

  function PointBlocks(strategy: Strategy, index: nat): seq<Block> {
    var point := PointAt(strategy.messages, index);
    if point.Some? then [PointBlock(point.value)] else []
  }

  /** The blocks a turn adds to the messages, and those that go under the other role after them. */
  function TurnBlocks(cfg: Config, strategy: Strategy, index: nat, turn: Turn)
    : Result<(seq<Block>, seq<Block>), Refusal>
  {
    if !FilesEncode(cfg, turn) then Err(MediaUnsupported) else
      match turn
      case SystemTurn(_, _) => Ok(([], []))
      case UserTurn(parts, _) => Ok((FilterMap(parts, InputBlock) + PointBlocks(strategy, index), []))
      case AssistantTurn(parts, _, artifact) =>
        var own := AssistantBlocks(cfg, artifact, parts);
        if own.Err? then Err(own.error)
        else Ok((own.value + PointBlocks(strategy, index), Mapped(InlineResults(parts), NewResult)))
      case ToolTurn(results, _) => Ok((Mapped(results, NewResult) + PointBlocks(strategy, index), []))
  }

  function TurnRole(turn: Turn): string {
    if turn.AssistantTurn? then "assistant" else "user"
  }

  function EncodeTurns(cfg: Config, strategy: Strategy, history: seq<Turn>, from: nat, messages: seq<Message>)
    : Result<seq<Message>, Refusal>
    requires from <= |history|
    decreases |history| - from
  {
    if from == |history| then Ok(messages) else
      var blocks := TurnBlocks(cfg, strategy, from, history[from]);
      if blocks.Err? then Err(blocks.error)
      else
        var own := Pushed(messages, TurnRole(history[from]), blocks.value.0);
        EncodeTurns(cfg, strategy, history, from + 1, Pushed(own, "user", blocks.value.1))
  }

  function SystemOf(turn: Turn): seq<Block> {
    if turn.SystemTurn? then FilterMap(turn.system, SystemBlock) else []
  }

  /** The system blocks of all turns, followed by the system's own point. */
  function SystemBlocks(history: seq<Turn>, strategy: Strategy): seq<Block> {
    var blocks := Concat(Mapped(history, SystemOf));
    if blocks != [] && strategy.system.Some? then blocks + [PointBlock(strategy.system.value)] else blocks
  }

  datatype Body = Body(tools: Option<CachePoint>, system: seq<Block>, messages: seq<Message>)

  function Encode(cfg: Config, strategy: Strategy, hasTools: bool, history: seq<Turn>): Result<Body, Refusal> {
    var messages := EncodeTurns(cfg, strategy, history, 0, []);
    if messages.Err? then Err(messages.error)
    else Ok(Body(if hasTools then strategy.tools else None, SystemBlocks(history, strategy), messages.value))
  }

  /** An assistant turn is replayed when its artifact decodes, and rebuilt when not. */
  method EncodeAssistant(cfg: Config, artifact: Option<Artifact>, parts: seq<AssistantPart>)
    returns (r: Result<seq<Block>, Refusal>, taken: seq<Disposition>)
    ensures r == AssistantBlocks(cfg, artifact, parts)
    ensures r.Ok? ==> taken == Outcome(cfg.policy, artifact, DecodeFault(cfg, artifact, parts))
  {
    hide BedrockReplay.Decode, EligibleBlocks;
    taken := [];
    if cfg.policy == Never {
      taken := [Disposition.Reconstructed];
    } else if artifact.Some? {
      var decoded := BedrockReplay.DecodeReplay(artifact.value.payload, parts, cfg.features.(reasoning := true), true);
      if decoded.Ok? {
        taken := [Disposition.Replayed];
        var encrypted := cfg.reasoning && cfg.sameModel(artifact.value) && cfg.signedReasoning;
        var kept := SelectEligibleBlocks(cfg.reasoning, encrypted, decoded.value);
        if kept.Err? {
          return Err(kept.error), taken;
        }
        return Ok(Mapped(kept.value, NewNative)), taken;
      }
      taken := [InvalidPayload(cfg.explain(decoded.error))];
    } else {
      taken := [NoArtifact];
    }
    if cfg.policy != Never {
      taken := taken + [Disposition.Reconstructed];
    }
    return Ok(FilterMap(parts, AssistantBlock)), taken;
  }

  method EncodeTurn(cfg: Config, strategy: Strategy, index: nat, turn: Turn, conversation: Conversation)
    returns (r: Result<(), Refusal>, replay: seq<Decision>)
    modifies conversation
    ensures
      var blocks := TurnBlocks(cfg, strategy, index, turn);
      if r.Err? then blocks == Err(r.error)
      else
        blocks.Ok? && conversation.messages ==
          Pushed(Pushed(old(conversation.messages), TurnRole(turn), blocks.value.0), "user", blocks.value.1)
    ensures r.Ok? ==> replay == TurnLog(cfg, index, turn)
  {
    hide Pushed, FilesEncode, AssistantBlocks, Outcome, DecodeFault;
    replay := [];
    if !FilesEncode(cfg, turn) {
      return Err(MediaUnsupported), replay;
    }
    var point := FindPoint(strategy.messages, index);
    var marks: seq<Block> := if point.Some? then [PointBlock(point.value)] else [];
    var own: seq<Block>, results: seq<Block> := [], [];
    match turn {
      case SystemTurn(_, _) =>
      case UserTurn(parts, _) => own := FilterMap(parts, InputBlock) + marks;
      case AssistantTurn(parts, _, artifact) =>
        var blocks, taken := EncodeAssistant(cfg, artifact, parts);
        if blocks.Err? {
          return Err(blocks.error), replay;
        }
        replay := Labelled(index, taken);
        own := blocks.value + marks;
        results := Mapped(InlineResults(parts), NewResult);
      case ToolTurn(values, _) => own := Mapped(values, NewResult) + marks;
    }
    conversation.PushMessage(TurnRole(turn), own);
    conversation.PushMessage("user", results);
    return Ok(()), replay;
  }

  /** The body with the decisions taken on the way. */
  method EncodeRequest(cfg: Config, strategy: Strategy, hasTools: bool, history: seq<Turn>)
    returns (r: Result<Body, Refusal>, replay: seq<Decision>)
    ensures r == Encode(cfg, strategy, hasTools, history)
    ensures r.Ok? ==> replay == OutcomeLog(cfg.policy, history, TurnFault(cfg))
  {
    var system: seq<Block> := [];
    assert system == Concat(Mapped(history[..0], SystemOf));
    hide TurnBlocks, Pushed, FilterMap, Concat, TurnFault, Outcome;
    replay := [];
    var conversation := new Conversation();
    for index := 0 to |history|
      invariant system == Concat(Mapped(history[..index], SystemOf))
      invariant replay == OutcomeLog(cfg.policy, history[..index], TurnFault(cfg))
      invariant EncodeTurns(cfg, strategy, history, index, conversation.messages)
        == EncodeTurns(cfg, strategy, history, 0, [])
    {
      assert Mapped(history[..index + 1], SystemOf) == Mapped(history[..index], SystemOf) + [SystemOf(history[index])];
      ConcatLast(Mapped(history[..index], SystemOf), SystemOf(history[index]));
      system := system + SystemOf(history[index]);
      var encoded, taken := EncodeTurn(cfg, strategy, index, history[index], conversation);
      if encoded.Err? {
        return Err(encoded.error), replay;
      }
      OutcomeLogGrows(cfg.policy, history, TurnFault(cfg), index);
      replay := replay + taken;
    }
    assert history[..|history|] == history;
    if system != [] && strategy.system.Some? {
      system := system + [PointBlock(strategy.system.value)];
    }
    return Ok(Body(if hasTools then strategy.tools else None, system, conversation.messages)), replay;
  }

  lemma ConcatLast<T>(pieces: seq<seq<T>>, last: seq<T>)
    ensures Concat(pieces + [last]) == Concat(pieces) + last
  {
    ConcatConcat(pieces, [last]);
    assert Concat([last]) == last;
  }

  // ---------------------------------------------------------- what reaches the wire

  lemma {:induction false} EncodedAlternates(
    cfg: Config, strategy: Strategy, history: seq<Turn>, from: nat, messages: seq<Message>)
    requires from <= |history| && Alternating(messages)
    requires EncodeTurns(cfg, strategy, history, from, messages).Ok?
    ensures Alternating(EncodeTurns(cfg, strategy, history, from, messages).value)
    decreases |history| - from
  {
    hide Pushed, TurnBlocks;
    if from < |history| {
      var blocks := TurnBlocks(cfg, strategy, from, history[from]).value;
      var own := Pushed(messages, TurnRole(history[from]), blocks.0);
      PushedAlternates(messages, TurnRole(history[from]), blocks.0);
      PushedAlternates(own, "user", blocks.1);
      EncodedAlternates(cfg, strategy, history, from + 1, Pushed(own, "user", blocks.1));
    }
  }

  /** The blocks of a turn in wire order. */
  function WireBlocks(cfg: Config, strategy: Strategy, index: nat, turn: Turn): seq<Block> {
    var blocks := TurnBlocks(cfg, strategy, index, turn);
    if blocks.Err? then [] else blocks.value.0 + blocks.value.1
  }

  function AllBlocks(cfg: Config, strategy: Strategy, history: seq<Turn>, from: nat): seq<Block>
    requires from <= |history|
    decreases |history| - from
  {
    if from == |history| then []
    else WireBlocks(cfg, strategy, from, history[from]) + AllBlocks(cfg, strategy, history, from + 1)
  }

  lemma {:induction false} EncodedFlat(
    cfg: Config, strategy: Strategy, history: seq<Turn>, from: nat, messages: seq<Message>)
    requires from <= |history| && EncodeTurns(cfg, strategy, history, from, messages).Ok?
    ensures Flat(EncodeTurns(cfg, strategy, history, from, messages).value)
      == Flat(messages) + AllBlocks(cfg, strategy, history, from)
    ensures forall i :: from <= i < |history| ==> TurnBlocks(cfg, strategy, i, history[i]).Ok?
    decreases |history| - from
  {
    hide Pushed, TurnBlocks, Flat;
    if from == |history| {
      assert Flat(messages) + [] == Flat(messages);
    } else {
      var blocks := TurnBlocks(cfg, strategy, from, history[from]).value;
      var own := Pushed(messages, TurnRole(history[from]), blocks.0);
      PushedFlat(messages, TurnRole(history[from]), blocks.0);
      PushedFlat(own, "user", blocks.1);
      EncodedFlat(cfg, strategy, history, from + 1, Pushed(own, "user", blocks.1));
      var rest := AllBlocks(cfg, strategy, history, from + 1);
      assert Flat(messages) + blocks.0 + blocks.1 + rest == Flat(messages) + (blocks.0 + blocks.1 + rest);
    }
  }

  // ------------------------------------------------------------------ cache points

  function PointIn(block: Block): Option<CachePoint> {
    if block.PointBlock? then Some(block.point) else None
  }

  function PointsIn(blocks: seq<Block>): seq<CachePoint> {
    FilterMap(blocks, PointIn)
  }

  lemma {:induction false} NoPoints(blocks: seq<Block>)
    requires forall i :: 0 <= i < |blocks| ==> !blocks[i].PointBlock?
    ensures PointsIn(blocks) == []
  {
    if blocks != [] {
      NoPoints(blocks[1..]);
    }
  }

  lemma {:induction false} FilterMapYields<S, T>(items: seq<S>, f: S -> Option<T>, i: nat)
    requires i < |FilterMap(items, f)|
    ensures exists k :: 0 <= k < |items| && f(items[k]) == Some(FilterMap(items, f)[i])
  {
    FilterMapMembers(items, f, FilterMap(items, f)[i]);
  }

  /** Content blocks are never points. */
  lemma ContentHasNoPoints(cfg: Config, turn: Turn)
    ensures turn.UserTurn? ==> PointsIn(FilterMap(turn.input, InputBlock)) == []
    ensures turn.AssistantTurn? && AssistantBlocks(cfg, turn.artifact, turn.content).Ok? ==>
      PointsIn(AssistantBlocks(cfg, turn.artifact, turn.content).value) == []
    ensures forall results :: PointsIn(Mapped(results, NewResult)) == []
  {
    hide Replayed, EligibleBlocks;
    if turn.UserTurn? {
      var blocks := FilterMap(turn.input, InputBlock);
      forall i | 0 <= i < |blocks| ensures !blocks[i].PointBlock? {
        FilterMapYields(turn.input, InputBlock, i);
      }
      NoPoints(blocks);
    }
    if turn.AssistantTurn? && AssistantBlocks(cfg, turn.artifact, turn.content).Ok? {
      var blocks := AssistantBlocks(cfg, turn.artifact, turn.content).value;
      forall i | 0 <= i < |blocks| ensures !blocks[i].PointBlock? {
        if Replayed(cfg, turn.artifact, turn.content).None? {
          FilterMapYields(turn.content, AssistantBlock, i);
        }
      }
      NoPoints(blocks);
    }
    forall results ensures PointsIn(Mapped(results, NewResult)) == [] {
      NoPoints(Mapped(results, NewResult));
    }
  }

  lemma TurnPoints(cfg: Config, strategy: Strategy, index: nat, turn: Turn)
    requires TurnBlocks(cfg, strategy, index, turn).Ok?
    ensures PointsIn(WireBlocks(cfg, strategy, index, turn))
      == if turn.SystemTurn? then [] else Known(PointAt(strategy.messages, index))
  {
    hide AssistantBlocks, FilesEncode, FilterMap;
    ContentHasNoPoints(cfg, turn);
    var marks := PointBlocks(strategy, index);
    PointsInMarks(strategy, index);
    var known := Known(PointAt(strategy.messages, index));
    assert [] + known == known && known + [] == known;
    match turn {
      case SystemTurn(_, _) =>
        NoPoints([]);
        assert WireBlocks(cfg, strategy, index, turn) == [];
      case UserTurn(parts, _) =>
        FilterMapConcat(FilterMap(parts, InputBlock), marks, PointIn);
        assert FilterMap(parts, InputBlock) + marks + [] == FilterMap(parts, InputBlock) + marks;
      case AssistantTurn(parts, _, artifact) =>
        var own := AssistantBlocks(cfg, artifact, parts).value;
        FilterMapConcat(own, marks, PointIn);
        FilterMapConcat(own + marks, Mapped(InlineResults(parts), NewResult), PointIn);
      case ToolTurn(results, _) =>
        FilterMapConcat(Mapped(results, NewResult), marks, PointIn);
        assert Mapped(results, NewResult) + marks + [] == Mapped(results, NewResult) + marks;
    }
  }

  lemma PointsInMarks(strategy: Strategy, index: nat)
    ensures PointsIn(PointBlocks(strategy, index)) == Known(PointAt(strategy.messages, index))
  {
    var point := PointAt(strategy.messages, index);
    if point.Some? {
      assert PointBlocks(strategy, index) == [] + [PointBlock(point.value)];
      FilterMapLast([], PointBlock(point.value), PointIn);
    }
  }

  /** The points of the messages are the ones found turn by turn. */
  lemma {:induction false} MessagePoints(cfg: Config, strategy: Strategy, history: seq<Turn>, from: nat)
    requires from <= |history| && PointsPlaced(history, strategy.messages)
    requires forall i :: from <= i < |history| ==> TurnBlocks(cfg, strategy, i, history[i]).Ok?
    ensures PointsIn(AllBlocks(cfg, strategy, history, from)) == PointsFound(strategy.messages, from, |history|)
    decreases |history| - from
  {
    hide TurnBlocks, WireBlocks, PointAt;
    if from < |history| {
      MessagePoints(cfg, strategy, history, from + 1);
      TurnPoints(cfg, strategy, from, history[from]);
      FilterMapConcat(WireBlocks(cfg, strategy, from, history[from]), AllBlocks(cfg, strategy, history, from + 1),
        PointIn);
      if history[from].SystemTurn? {
        NoPointForSystem(history, strategy.messages, from);
      }
    }
  }

  lemma {:induction false} NoPointForSystem(history: seq<Turn>, messages: seq<MessagePoint>, index: nat)
    requires PointsPlaced(history, messages) && index < |history| && history[index].SystemTurn?
    ensures PointAt(messages, index).None?
  {
    if messages != [] {
      NoPointForSystem(history, messages[1..], index);
    }
  }

  lemma {:induction false} NoneBefore(messages: seq<MessagePoint>, from: nat, limit: nat)
    requires messages == [] && from <= limit
    ensures PointsFound(messages, from, limit) == []
    decreases limit - from
  {
    if from < limit {
      NoneBefore(messages, from + 1, limit);
    }
  }

  lemma {:induction false} SystemPoints(history: seq<Turn>)
    ensures PointsIn(Concat(Mapped(history, SystemOf))) == []
    ensures HasSystemText(history) ==> Concat(Mapped(history, SystemOf)) != []
  {
    if history != [] {
      var first, rest := SystemOf(history[0]), Concat(Mapped(history[1..], SystemOf));
      SystemPoints(history[1..]);
      assert Mapped(history, SystemOf) == [first] + Mapped(history[1..], SystemOf);
      SystemTurnPoints(history[0]);
      FilterMapConcat(first, rest, PointIn);
      if HasSystemText(history) {
        var i :| 0 <= i < |history| && history[i].SystemTurn? && SaysSomething(history[i].system);
        if i > 0 {
          assert history[1..][i - 1] == history[i];
        }
      }
    }
  }

  lemma SystemTurnPoints(turn: Turn)
    ensures PointsIn(SystemOf(turn)) == []
    ensures turn.SystemTurn? && SaysSomething(turn.system) ==> SystemOf(turn) != []
  {
    forall i | 0 <= i < |SystemOf(turn)| ensures !SystemOf(turn)[i].PointBlock? {
      FilterMapYields(turn.system, SystemBlock, i);
    }
    NoPoints(SystemOf(turn));
    if turn.SystemTurn? && SaysSomething(turn.system) {
      var k :| 0 <= k < |turn.system| && turn.system[k].SystemText? && turn.system[k].text != "";
      FilterMapMembers(turn.system, SystemBlock, TextBlock(turn.system[k].text));
      assert SystemBlock(turn.system[k]) == Some(TextBlock(turn.system[k].text));
    }
  }

  /** The points on the wire: tools, system, messages. */
  function WirePoints(body: Body): seq<CachePoint> {
    Known(body.tools) + PointsIn(body.system) + PointsIn(Flat(body.messages))
  }

  // ------------------------------------------------------------------------- media

  function CountBlock(lib: Library): Block -> Counts {
    (block: Block) =>
      match block
      case MediaBlock(file) => OneOf(lib.kind(file))
      case ResultBlock(result) => CountResult(lib)(result)
      case _ => NO_MEDIA
  }

  /** Items that become blocks carry their media along. */
  lemma {:induction false} TotalFiltered<S>(lib: Library, items: seq<S>, f: S -> Option<Block>,
    g: S -> Option<FilePart>)
    requires forall i :: 0 <= i < |items| ==>
      (if f(items[i]).Some? then CountBlock(lib)(f(items[i]).value) else NO_MEDIA)
        == if g(items[i]).Some? then OneOf(lib.kind(g(items[i]).value)) else NO_MEDIA
    ensures Total(FilterMap(items, f), CountBlock(lib)) == Total(FilterMap(items, g), CountFile(lib))
  {
    hide CountBlock, Plus;
    if items != [] {
      TotalFiltered(lib, items[1..], f, g);
      var blocks, files := FilterMap(items[1..], f), FilterMap(items[1..], g);
      TotalFirst(Known(f(items[0])), blocks, CountBlock(lib));
      TotalFirst(Known(g(items[0])), files, CountFile(lib));
    }
  }

  lemma TotalFirst<T>(head: seq<T>, rest: seq<T>, count: T -> Counts)
    requires |head| <= 1
    ensures Total(head + rest, count)
      == Plus(if head == [] then NO_MEDIA else count(head[0]), Total(rest, count))
  {
    hide Plus;
    TotalConcat(head, rest, count);
    if head != [] {
      assert head == [] + [head[0]];
      TotalLast([], head[0], count);
      PlusLaws(count(head[0]), NO_MEDIA, NO_MEDIA);
    }
  }

  lemma {:induction false} TotalResults(lib: Library, results: seq<ToolResultPart>)
    ensures Total(Mapped(results, NewResult), CountBlock(lib)) == Total(results, CountResult(lib))
  {
    hide Plus;
    if results != [] {
      TotalResults(lib, results[1..]);
      assert Mapped(results, NewResult)[1..] == Mapped(results[1..], NewResult);
    }
  }

  lemma {:induction false} NoMedia(lib: Library, blocks: seq<Block>)
    requires forall i :: 0 <= i < |blocks| ==> !blocks[i].MediaBlock? && !blocks[i].ResultBlock?
    ensures Total(blocks, CountBlock(lib)) == NO_MEDIA
  {
    hide Plus;
    PlusLaws(NO_MEDIA, NO_MEDIA, NO_MEDIA);
    if blocks != [] {
      assert CountBlock(lib)(blocks[0]) == NO_MEDIA;
      NoMedia(lib, blocks[1..]);
    }
  }

  lemma AssistantHasNoMedia(cfg: Config, lib: Library, artifact: Option<Artifact>, parts: seq<AssistantPart>)
    requires AssistantBlocks(cfg, artifact, parts).Ok?
    ensures Total(AssistantBlocks(cfg, artifact, parts).value, CountBlock(lib)) == NO_MEDIA
  {
    hide Replayed, EligibleBlocks;
    var blocks := AssistantBlocks(cfg, artifact, parts).value;
    forall i | 0 <= i < |blocks| ensures !blocks[i].MediaBlock? && !blocks[i].ResultBlock? {
      if Replayed(cfg, artifact, parts).None? {
        FilterMapYields(parts, AssistantBlock, i);
      }
    }
    NoMedia(lib, blocks);
  }

  /** A turn's blocks carry the turn's media. */
  lemma TurnMedia(cfg: Config, lib: Library, strategy: Strategy, index: nat, turn: Turn)
    requires TurnBlocks(cfg, strategy, index, turn).Ok?
    ensures Total(WireBlocks(cfg, strategy, index, turn), CountBlock(lib)) == CountTurn(lib)(turn)
  {
    hide AssistantBlocks, FilesEncode, FilterMap, Total, Plus, CountBlock;
    var count := CountBlock(lib);
    var marks := PointBlocks(strategy, index);
    NoMedia(lib, marks);
    TotalNone(count);
    TotalNone(CountFile(lib));
    TotalNone(CountResult(lib));
    var files, results := Total(TurnInput(turn), CountFile(lib)), Total(TurnResults(turn), CountResult(lib));
    PlusLaws(files, results, NO_MEDIA);
    PlusLaws(results, NO_MEDIA, NO_MEDIA);
    match turn {
      case SystemTurn(_, _) =>
        assert WireBlocks(cfg, strategy, index, turn) == [];
      case UserTurn(parts, _) =>
        InputMedia(lib, parts);
        TotalConcat(FilterMap(parts, InputBlock), marks, count);
        assert FilterMap(parts, InputBlock) + marks + [] == FilterMap(parts, InputBlock) + marks;
      case AssistantTurn(parts, _, artifact) =>
        var own := AssistantBlocks(cfg, artifact, parts).value;
        AssistantHasNoMedia(cfg, lib, artifact, parts);
        TotalResults(lib, InlineResults(parts));
        TotalConcat(own, marks, count);
        TotalConcat(own + marks, Mapped(InlineResults(parts), NewResult), count);
      case ToolTurn(values, _) =>
        TotalResults(lib, values);
        TotalConcat(Mapped(values, NewResult), marks, count);
        assert Mapped(values, NewResult) + marks + [] == Mapped(values, NewResult) + marks;
    }
  }

  lemma InputMedia(lib: Library, parts: seq<InputPart>)
    ensures Total(FilterMap(parts, InputBlock), CountBlock(lib))
      == Total(FilterMap(parts, InputFileOf), CountFile(lib))
  {
    TotalFiltered(lib, parts, InputBlock, InputFileOf);
  }

  lemma {:induction false} WireMedia(cfg: Config, lib: Library, strategy: Strategy, history: seq<Turn>, from: nat)
    requires from <= |history|
    requires forall i :: from <= i < |history| ==> TurnBlocks(cfg, strategy, i, history[i]).Ok?
    ensures Total(AllBlocks(cfg, strategy, history, from), CountBlock(lib))
      == Total(history[from..], CountTurn(lib))
    decreases |history| - from
  {
    hide TurnBlocks, WireBlocks, CountBlock, CountTurn, Plus;
    if from < |history| {
      WireMedia(cfg, lib, strategy, history, from + 1);
      TurnMedia(cfg, lib, strategy, from, history[from]);
      TotalConcat(WireBlocks(cfg, strategy, from, history[from]), AllBlocks(cfg, strategy, history, from + 1),
        CountBlock(lib));
      assert history[from..][1..] == history[from + 1..];
    }
  }

  // ------------------------------------------------------------------ the whole request

  /**
   An encoded request takes turns with non-empty messages that hold the turns' blocks in history
   order. Under a valid cache strategy its cache points are exactly the validated ones, and for
   valid media its own media are the counted ones, within the limits.
   */
  lemma EncodedRequest(
    cfg: Config, lib: Library, strategy: Strategy, hasTools: bool, caching: bool, history: seq<Turn>)
    requires Encode(cfg, strategy, hasTools, history).Ok?
    requires StrategyValid(history, hasTools, strategy, caching) && MediaValid(lib, history)
    ensures
      var body := Encode(cfg, strategy, hasTools, history).value;
      && Alternating(body.messages)
      && Flat(body.messages) == AllBlocks(cfg, strategy, history, 0)
      && WirePoints(body) == Points(strategy) && |WirePoints(body)| <= MAX_POINTS && LongestFirst(WirePoints(body))
      && Within(Total(Flat(body.messages), CountBlock(lib)))
  {
    hide EncodeTurns, TurnValid, CountTurn, CountBlock, Total, HasSystemText, FilterMap, Sorted, AllBlocks, Flat,
      PointsIn;
    var body := Encode(cfg, strategy, hasTools, history).value;
    EncodedAlternates(cfg, strategy, history, 0, []);
    EncodedFlat(cfg, strategy, history, 0, []);
    assert Flat([]) + AllBlocks(cfg, strategy, history, 0) == AllBlocks(cfg, strategy, history, 0) by { FlatNone(); }
    WireMedia(cfg, lib, strategy, history, 0);
    assert history[0..] == history;
    MessagePoints(cfg, strategy, history, 0);
    ValidPointsAreFound(history, hasTools, strategy, caching);
    SystemWirePoints(history, hasTools, strategy, caching);
    ShortStrategy(history, hasTools, strategy, caching);
  }

  lemma FlatNone()
    ensures Flat([]) == []
  {
  }

  lemma SystemWirePoints(history: seq<Turn>, hasTools: bool, strategy: Strategy, caching: bool)
    requires StrategyValid(history, hasTools, strategy, caching)
    ensures PointsIn(SystemBlocks(history, strategy)) == Known(strategy.system)
    ensures (if hasTools then strategy.tools else None) == strategy.tools
  {
    hide HasSystemText;
    SystemPoints(history);
    var blocks := Concat(Mapped(history, SystemOf));
    if strategy.system.Some? {
      FilterMapLast(blocks, PointBlock(strategy.system.value), PointIn);
    }
  }

  lemma {:induction false} SortedLength(messages: seq<MessagePoint>)
    ensures |Sorted(messages)| == |messages|
  {
    if messages != [] {
      SortedLength(messages[1..]);
      InsertedLength(messages[0], Sorted(messages[1..]));
    }
  }

  lemma {:induction false} InsertedLength(point: MessagePoint, sorted: seq<MessagePoint>)
    ensures |Inserted(point, sorted)| == |sorted| + 1
  {
    if sorted != [] && point.index > sorted[0].index {
      InsertedLength(point, sorted[1..]);
    }
  }

  lemma ShortStrategy(history: seq<Turn>, hasTools: bool, strategy: Strategy, caching: bool)
    requires StrategyValid(history, hasTools, strategy, caching)
    ensures |Points(strategy)| <= MAX_POINTS && LongestFirst(Points(strategy))
    ensures PointsPlaced(history, strategy.messages)
  {
    SortedLength(strategy.messages);
  }

  // ------------------------------------------------------------ the replay log

  /** The blocks of one turn stand between those of the turns before and after it. */
  lemma {:induction false} SplitBlocks(cfg: Config, strategy: Strategy, history: seq<Turn>, from: nat, i: nat)
    requires from <= i < |history|
    ensures AllBlocks(cfg, strategy, history, from)
      == AllBlocks(cfg, strategy, history[..i], from) + WireBlocks(cfg, strategy, i, history[i])
      + AllBlocks(cfg, strategy, history, i + 1)
    decreases i - from
  {
    hide WireBlocks;
    var own, after := WireBlocks(cfg, strategy, i, history[i]), AllBlocks(cfg, strategy, history, i + 1);
    if from == i {
      assert [] + own == own;
    } else {
      SplitBlocks(cfg, strategy, history, from + 1, i);
      assert history[..i][from] == history[from];
      var first := WireBlocks(cfg, strategy, from, history[from]);
      var before := AllBlocks(cfg, strategy, history[..i], from + 1);
      assert first + (before + own + after) == (first + before) + own + after;
    }
  }

  /**
   What an assistant turn is sent as, by whether it is logged as replayed, and where: its blocks,
   its cache point and its inline results follow the blocks of the turns before it and come before
   those of the turns after it.
   */
  predicate SentAsLogged(
    cfg: Config, strategy: Strategy, history: seq<Turn>, i: nat, messages: seq<Message>, replayed: bool)
    requires i < |history| && history[i].AssistantTurn?
  {
    var turn := history[i];
    && (replayed <==> cfg.policy != Never && turn.artifact.Some? && Decoded(cfg, turn.artifact.value, turn.content).Ok?)
    && var kept :=
         if !replayed then Ok([])
         else
           EligibleBlocks(cfg.reasoning, Encrypted(cfg, turn.artifact.value),
                          Decoded(cfg, turn.artifact.value, turn.content).value);
    kept.Ok?
    && var own := if replayed then Mapped(kept.value, NewNative) else FilterMap(turn.content, AssistantBlock);
    Flat(messages)
      == AllBlocks(cfg, strategy, history[..i], 0)
      + (own + PointBlocks(strategy, i) + Mapped(InlineResults(turn.content), NewResult))
      + AllBlocks(cfg, strategy, history, i + 1)
  }

  /** A turn that encodes stands in the messages between the turns before and after it. */
  lemma TurnStands(cfg: Config, strategy: Strategy, history: seq<Turn>, i: nat)
    requires i < |history| && EncodeTurns(cfg, strategy, history, 0, []).Ok?
    ensures TurnBlocks(cfg, strategy, i, history[i]).Ok?
    ensures Flat(EncodeTurns(cfg, strategy, history, 0, []).value)
      == AllBlocks(cfg, strategy, history[..i], 0) + WireBlocks(cfg, strategy, i, history[i])
      + AllBlocks(cfg, strategy, history, i + 1)
  {
    hide EncodeTurns, AllBlocks, Flat, TurnBlocks;
    EncodedFlat(cfg, strategy, history, 0, []);
    assert Flat([]) + AllBlocks(cfg, strategy, history, 0) == AllBlocks(cfg, strategy, history, 0) by { FlatNone(); }
    SplitBlocks(cfg, strategy, history, 0, i);
  }

  lemma AssistantStands(cfg: Config, strategy: Strategy, history: seq<Turn>, i: nat)
    requires i < |history| && history[i].AssistantTurn? && EncodeTurns(cfg, strategy, history, 0, []).Ok?
    ensures
      var turn := history[i];
      var own := AssistantBlocks(cfg, turn.artifact, turn.content);
      && own.Ok?
      && Flat(EncodeTurns(cfg, strategy, history, 0, []).value)
        == AllBlocks(cfg, strategy, history[..i], 0)
        + (own.value + PointBlocks(strategy, i) + Mapped(InlineResults(turn.content), NewResult))
        + AllBlocks(cfg, strategy, history, i + 1)
  {
    hide AssistantBlocks, FilesEncode, EncodeTurns, AllBlocks, Flat;
    TurnStands(cfg, strategy, history, i);
  }

  lemma BlocksAsLogged(cfg: Config, strategy: Strategy, history: seq<Turn>, i: nat)
    requires i < |history| && history[i].AssistantTurn? && EncodeTurns(cfg, strategy, history, 0, []).Ok?
    ensures
      var turn := history[i];
      SentAsLogged(cfg, strategy, history, i, EncodeTurns(cfg, strategy, history, 0, []).value,
                   cfg.policy != Never && turn.artifact.Some? && TurnFault(cfg)(turn).None?)
  {
    hide BedrockReplay.Decode, EligibleBlocks, EncodeTurns, AllBlocks, Flat, FilterMap;
    AssistantStands(cfg, strategy, history, i);
  }

  /**
   The log kept by a request that encodes is accepted, and it is true of the messages sent: each
   assistant turn is logged once as replayed or as reconstructed; a replayed turn stands in the
   messages as the eligible blocks of its decoded artifact, and only those; a reconstructed one as
   its normalized parts; each in its place.
   */
  lemma RequestLogIsTrue(
    cfg: Config, model: Model, strategy: Strategy, hasTools: bool, history: seq<Turn>)
    requires Encode(cfg, strategy, hasTools, history).Ok? && model.declaration.policy == cfg.policy
    ensures Accepts(model, Mapped(history, EntryOf), OutcomeLog(cfg.policy, history, TurnFault(cfg)), 0, 0)
    ensures forall i :: 0 <= i < |history| && history[i].AssistantTurn? ==>
      SentAsLogged(cfg, strategy, history, i, Encode(cfg, strategy, hasTools, history).value.messages,
                   Decision(i, Disposition.Replayed) in OutcomeLog(cfg.policy, history, TurnFault(cfg)))
    ensures forall i :: 0 <= i < |history| && history[i].AssistantTurn? ==>
      (Decision(i, Reconstructed) in OutcomeLog(cfg.policy, history, TurnFault(cfg)) <==>
        Decision(i, Disposition.Replayed) !in OutcomeLog(cfg.policy, history, TurnFault(cfg)))
  {
    hide Accepts, OutcomeLog, EncodeTurns, BedrockReplay.Decode, EligibleBlocks, SentAsLogged, SystemBlocks, TurnFault;
    OutcomesAreAccepted(model, history, TurnFault(cfg));
    forall i | 0 <= i < |history| && history[i].AssistantTurn?
      ensures SentAsLogged(cfg, strategy, history, i, Encode(cfg, strategy, hasTools, history).value.messages,
                           Decision(i, Disposition.Replayed) in OutcomeLog(cfg.policy, history, TurnFault(cfg)))
      ensures Decision(i, Reconstructed) in OutcomeLog(cfg.policy, history, TurnFault(cfg)) <==>
        Decision(i, Disposition.Replayed) !in OutcomeLog(cfg.policy, history, TurnFault(cfg))
    {
      LoggedOnce(cfg.policy, history, TurnFault(cfg), i);
      BlocksAsLogged(cfg, strategy, history, i);
    }
  }
}
