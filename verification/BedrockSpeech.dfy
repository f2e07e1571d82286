/** What the assistant says in a Bedrock request is the same, replayed or rebuilt. */
module BedrockSpeech {
  import opened Wrappers
  import opened Json
  import opened Parts
  import opened Sequences
  import opened BedrockCachePoints
  import opened BedrockRequest
  import Captures = BedrockCaptures
  import Roles = BedrockRoles

  // ------------------------------------------------------------------ what is sent on

  /** Thinking is sent to models that reason, redacted thinking only to the one it came from, signed. */
  predicate Sendable(reasoning: bool, encrypted: bool, n: Captures.Native) {
    match n
    case Thinks(_, _) => reasoning
    case Redacts(_) => reasoning && encrypted
    case _ => true
  }

  function Sent(reasoning: bool, encrypted: bool): Captures.Native -> Option<Captures.Native> {
    n => if Sendable(reasoning, encrypted, n) then Some(n) else None
  }

  lemma WrittenKind(reasoning: bool, encrypted: bool, n: Captures.Native)
    ensures Supported(Captures.Write(n))
    ensures Eligible(reasoning, encrypted, Captures.Write(n)) <==> Sendable(reasoning, encrypted, n)
    ensures Captures.Write(n).Get("toolUse").Some? <==> n.Calls?
  {
    TwoSteps(Captures.Write(n), "reasoningContent", "redactedContent");
  }

  lemma KeptAreSent(reasoning: bool, encrypted: bool, natives: seq<Captures.Native>)
    ensures FilterMap(Mapped(natives, Captures.Write), KeepEligible(reasoning, encrypted))
      == Mapped(FilterMap(natives, Sent(reasoning, encrypted)), Captures.Write)
  {
    var f, blocks := Sent(reasoning, encrypted), Mapped(natives, Captures.Write);
    forall k | 0 <= k < |natives|
      ensures KeepEligible(reasoning, encrypted)(blocks[k])
        == if f(natives[k]).Some? then Some(Captures.Write(f(natives[k]).value)) else None {
      WrittenKind(reasoning, encrypted, natives[k]);
    }
    hide Captures.Write, Eligible, Sendable;
    FilterMapAligned(natives, f, Captures.Write, blocks, KeepEligible(reasoning, encrypted));
  }

  /**
   Of a captured message everything is sent on but the thinking that may not be; calls are not sent
   on without it.
   */
  lemma CaptureIsSentOn(reasoning: bool, encrypted: bool, natives: seq<Captures.Native>)
    ensures
      var lost := exists k :: 0 <= k < |natives| && !Sendable(reasoning, encrypted, natives[k]);
      var calls := exists k :: 0 <= k < |natives| && natives[k].Calls?;
      EligibleBlocks(reasoning, encrypted, Mapped(natives, Captures.Write))
        == if lost && calls then Err(ReasoningLost)
           else Ok(Mapped(FilterMap(natives, Sent(reasoning, encrypted)), Captures.Write))
  {
    var blocks := Mapped(natives, Captures.Write);
    forall k | 0 <= k < |natives|
      ensures Supported(blocks[k])
      ensures Eligible(reasoning, encrypted, blocks[k]) <==> Sendable(reasoning, encrypted, natives[k])
      ensures blocks[k].Get("toolUse").Some? <==> natives[k].Calls? {
      WrittenKind(reasoning, encrypted, natives[k]);
    }
    KeptAreSent(reasoning, encrypted, natives);
    var lost := exists k :: 0 <= k < |natives| && !Sendable(reasoning, encrypted, natives[k]);
    var calls := exists k :: 0 <= k < |natives| && natives[k].Calls?;
    hide Captures.Write, Eligible, Sendable, Supported, FilterMap, Sent, KeepEligible, EligibleBlocks;
    if lost {
      var k :| 0 <= k < |natives| && !Sendable(reasoning, encrypted, natives[k]);
      assert !Eligible(reasoning, encrypted, blocks[k]);
    }
    if calls {
      var k :| 0 <= k < |natives| && natives[k].Calls?;
      assert blocks[k].Get("toolUse").Some?;
    }
    Selected(reasoning, encrypted, blocks, lost, calls);
  }

  lemma Selected(reasoning: bool, encrypted: bool, blocks: seq<Json>, lost: bool, calls: bool)
    requires forall k :: 0 <= k < |blocks| ==> Supported(blocks[k])
    requires lost <==> exists k :: 0 <= k < |blocks| && !Eligible(reasoning, encrypted, blocks[k])
    requires calls <==> exists k :: 0 <= k < |blocks| && blocks[k].Get("toolUse").Some?
    ensures EligibleBlocks(reasoning, encrypted, blocks)
      == if lost && calls then Err(ReasoningLost) else Ok(FilterMap(blocks, KeepEligible(reasoning, encrypted)))
  {
    hide Eligible, Supported, FilterMap, KeepEligible;
  }

  // ------------------------------------------------------------------ what is spoken

  /** Texts that are not empty, and calls. */
  datatype Speech = SpokenText(text: string) | SpokenCall(id: string, name: string, input: Json)

  function TextSpoken(text: string): Option<Speech> {
    if text == "" then None else Some(SpokenText(text))
  }

  /** A text or call in the form the provider sent it. */
  function Heard(value: Json): Option<Speech> {
    if value.GetStr("text").Some? then TextSpoken(value.GetStr("text").value)
    else if value.Get("toolUse").Some? then
      var tool := value.Get("toolUse").value;
      if tool.GetStr("toolUseId").Some? && tool.GetStr("name").Some? && tool.Get("input").Some? then
        Some(SpokenCall(tool.GetStr("toolUseId").value, tool.GetStr("name").value, tool.Get("input").value))
      else None
    else None
  }

  function Speaks(block: Block): Option<Speech> {
    match block
    case TextBlock(text) => TextSpoken(text)
    case ToolUseBlock(call) => Some(SpokenCall(call.id, call.name, call.input))
    case NativeBlock(value) => Heard(value)
    case _ => None
  }

  function PartSpeaks(part: AssistantPart): Option<Speech> {
    if part.Text? then TextSpoken(part.text)
    else if part.ToolCall? then Some(SpokenCall(part.call.id, part.call.name, part.call.input))
    else None
  }

  function TurnSpeaks(turn: Turn): seq<Speech> {
    if turn.AssistantTurn? then FilterMap(turn.content, PartSpeaks) else []
  }

  function SpokenBy(blocks: seq<Block>): seq<Speech> {
    FilterMap(blocks, Speaks)
  }

  function NativeSpeaks(n: Captures.Native): Option<Speech> {
    match n
    case Says(text) => TextSpoken(text)
    case Calls(id, name, input) => Some(SpokenCall(id, name, Obj(input)))
    case _ => None
  }

  lemma WrittenIsHeard(n: Captures.Native)
    ensures Heard(Captures.Write(n)) == NativeSpeaks(n)
  {
    if n.Calls? {
      var tool := Captures.Write(n).Get("toolUse").value;
      assert tool.GetStr("toolUseId") == Some(n.id) && tool.GetStr("name") == Some(n.name);
    }
  }

  lemma NativesSpeak(natives: seq<Captures.Native>)
    ensures SpokenBy(Mapped(Mapped(natives, Captures.Write), NewNative)) == FilterMap(natives, NativeSpeaks)
  {
    hide Heard, Captures.Write;
    var blocks := Mapped(Mapped(natives, Captures.Write), NewNative);
    forall k | 0 <= k < |natives| ensures Speaks(blocks[k]) == NativeSpeaks(natives[k]) {
      WrittenIsHeard(natives[k]);
    }
    FilterMapAgrees(blocks, Speaks, natives, NativeSpeaks);
  }

  function SemanticSpeaks(semantic: BedrockReplay.Semantic): Option<Speech> {
    match semantic
    case SaysText(text) => TextSpoken(text)
    case SaysCall(id, name, input) => Some(SpokenCall(id, name, input))
    case SaysReasoning(_) => None
  }

  /** Blocks and parts that state the same speak the same. */
  lemma StatedSpeak(natives: seq<Captures.Native>, parts: seq<AssistantPart>)
    requires FilterMap(natives, Captures.Stated) == FilterMap(parts, Captures.States)
    ensures FilterMap(natives, NativeSpeaks) == FilterMap(parts, PartSpeaks)
  {
    FilterMapComposes(natives, Captures.Stated, SemanticSpeaks, NativeSpeaks);
    FilterMapComposes(parts, Captures.States, SemanticSpeaks, PartSpeaks);
  }

  /** What is not sent on says nothing. */
  lemma SentSpeak(reasoning: bool, encrypted: bool, natives: seq<Captures.Native>)
    ensures FilterMap(FilterMap(natives, Sent(reasoning, encrypted)), NativeSpeaks) == FilterMap(natives, NativeSpeaks)
  {
    FilterMapComposes(natives, Sent(reasoning, encrypted), NativeSpeaks, NativeSpeaks);
  }

  lemma PartsSpeak(parts: seq<AssistantPart>)
    ensures SpokenBy(FilterMap(parts, AssistantBlock)) == FilterMap(parts, PartSpeaks)
  {
    FilterMapComposes(parts, AssistantBlock, Speaks, PartSpeaks);
  }

  /** Replayed or rebuilt, an assistant turn speaks its texts and calls. */
  lemma AssistantSpeaks(cfg: Config, artifact: Option<Artifact>, parts: seq<AssistantPart>)
    requires AssistantBlocks(cfg, artifact, parts).Ok?
    ensures SpokenBy(AssistantBlocks(cfg, artifact, parts).value) == FilterMap(parts, PartSpeaks)
  {
    hide BedrockReplay.Decode, EligibleBlocks, Captures.Capture, SpokenBy, FilterMap, Captures.Write, NativeSpeaks;
    hide Captures.AllUsable, Captures.OwnIds;
    if Replayed(cfg, artifact, parts).Some? {
      var payload, features := artifact.value.payload, cfg.features.(reasoning := true);
      Captures.DecodedIsCapture(payload, parts, features, true);
      var natives :| payload == Captures.Capture(natives) && Captures.Fitting(natives, parts, features, true);
      var encrypted := Encrypted(cfg, artifact.value);
      CaptureIsSentOn(cfg.reasoning, encrypted, natives);
      NativesSpeak(FilterMap(natives, Sent(cfg.reasoning, encrypted)));
      SentSpeak(cfg.reasoning, encrypted, natives);
      StatedSpeak(natives, parts);
    } else {
      PartsSpeak(parts);
    }
  }

  lemma SpokenConcat(first: seq<Block>, second: seq<Block>)
    ensures SpokenBy(first + second) == SpokenBy(first) + SpokenBy(second)
  {
    FilterMapConcat(first, second, Speaks);
  }

  lemma PointsSpeakNothing(strategy: Strategy, index: nat)
    ensures SpokenBy(PointBlocks(strategy, index)) == [] && SpokenBy([]) == []
  {
    var point := PointAt(strategy.messages, index);
    if point.Some? {
      FilterMapLast([], PointBlock(point.value), Speaks);
      assert [] + [PointBlock(point.value)] == [PointBlock(point.value)];
    }
  }

  lemma {:induction false} SideSpeaks(cfg: Config, strategy: Strategy, history: seq<Turn>, from: nat)
    requires from <= |history|
    requires forall i :: from <= i < |history| && history[i].AssistantTurn? ==>
      AssistantBlocks(cfg, history[i].artifact, history[i].content).Ok?
    ensures SpokenBy(Roles.AssistantSide(cfg, strategy, history, from)) == Concat(Mapped(history[from..], TurnSpeaks))
    decreases |history| - from
  {
    hide AssistantBlocks, TurnSpeaks, SpokenBy;
    PointsSpeakNothing(strategy, from);
    if from == |history| {
      assert history[from..] == [];
    } else {
      var turn, rest := history[from], history[from + 1..];
      SideSpeaks(cfg, strategy, history, from + 1);
      TurnIsSpoken(cfg, strategy, from, turn);
      SpokenConcat(Roles.AssistantBlocksOf(cfg, strategy, from, turn),
        Roles.AssistantSide(cfg, strategy, history, from + 1));
      assert history[from..][0] == turn && history[from..][1..] == rest;
      assert Mapped(history[from..], TurnSpeaks)[1..] == Mapped(rest, TurnSpeaks);
    }
  }

  lemma TurnIsSpoken(cfg: Config, strategy: Strategy, index: nat, turn: Turn)
    requires turn.AssistantTurn? ==> AssistantBlocks(cfg, turn.artifact, turn.content).Ok?
    ensures SpokenBy(Roles.AssistantBlocksOf(cfg, strategy, index, turn)) == TurnSpeaks(turn)
  {
    hide AssistantBlocks, PointBlocks, SpokenBy, FilterMap;
    PointsSpeakNothing(strategy, index);
    if turn.AssistantTurn? {
      AssistantSpeaks(cfg, turn.artifact, turn.content);
      var own := AssistantBlocks(cfg, turn.artifact, turn.content).value;
      SpokenConcat(own, PointBlocks(strategy, index));
      assert SpokenBy(own) + [] == SpokenBy(own);
    }
  }

  /**
   Whatever is replayed or rebuilt, the assistant's messages speak the texts and calls of the assistant
   turns, in history order: replay changes how they are sent, never what they say.
   */
  lemma RequestSpeaksHistory(cfg: Config, strategy: Strategy, hasTools: bool, history: seq<Turn>)
    requires Encode(cfg, strategy, hasTools, history).Ok?
    ensures
      var messages := Encode(cfg, strategy, hasTools, history).value.messages;
      SpokenBy(Roles.InRole(messages, "assistant")) == Concat(Mapped(history, TurnSpeaks))
  {
    hide EncodeTurns, SpokenBy, Roles.InRole, Roles.AssistantSide, Roles.UserSide, AssistantBlocks, TurnSpeaks;
    Roles.BlocksByRole(cfg, strategy, hasTools, history);
    forall i | 0 <= i < |history| && history[i].AssistantTurn?
      ensures AssistantBlocks(cfg, history[i].artifact, history[i].content).Ok? {
      AssistantStands(cfg, strategy, history, i);
    }
    SideSpeaks(cfg, strategy, history, 0);
    assert history[0..] == history;
  }
}
