/** Who says what in an Anthropic request, replayed or rebuilt. */
module AnthropicSayings {
  import opened Wrappers
  import opened Json
  import opened Parts
  import opened Sequences
  import opened AnthropicCache
  import opened AnthropicWire
  import opened AnthropicEncode
  import Replay = AnthropicReplay

  // ------------------------------------------------------------------ what is said

  /** What a block or a part says, markers and reasoning apart; the input of a call is an object. */
  datatype Said =
    | SaidText(text: string)
    | SaidFile(file: FilePart)
    | SaidCall(id: string, name: string, input: Json)
    | SaidResult(result: ToolResultPart)

  function ObjectInput(input: Json): Json {
    if input.Obj? then input else Obj(map["rawInvalidInput" := input])
  }

  /** A text or call in the form the provider sent it. */
  function Heard(value: Json): Option<Said> {
    if value.Get("type") == Some(Str("text")) && value.GetStr("text").Some? then
      Some(SaidText(value.GetStr("text").value))
    else if value.Get("type") == Some(Str("tool_use"))
      && value.GetStr("id").Some? && value.GetStr("name").Some? && value.Get("input").Some? then
      Some(SaidCall(value.GetStr("id").value, value.GetStr("name").value, value.Get("input").value))
    else None
  }

  function Says(block: Block): Option<Said> {
    match block
    case TextBlock(text, _) => Some(SaidText(text))
    case FileBlock(file, _) => Some(SaidFile(file))
    case ToolUseBlock(call, _) => Some(SaidCall(call.id, call.name, ObjectInput(call.input)))
    case ResultBlock(result, _) => Some(SaidResult(result))
    case NativeBlock(_, _, Some(text)) => Some(SaidText(text))
    case NativeBlock(value, _, None) => Heard(value)
  }

  function SaidBy(blocks: seq<Block>): seq<Said> {
    FilterMap(blocks, Says)
  }

  function InputSays(part: InputPart): Option<Said> {
    if part.InputFile? then Some(SaidFile(part.file))
    else if part.InputText? && part.text != "" then Some(SaidText(part.text))
    else None
  }

  function PartSays(part: AssistantPart): Option<Said> {
    if part.ToolCall? then Some(SaidCall(part.call.id, part.call.name, ObjectInput(part.call.input)))
    else if part.Text? && part.text != "" then Some(SaidText(part.text))
    else None
  }

  function SystemPartSays(part: SystemPart): Option<Said> {
    if part.SystemText? && part.text != "" then Some(SaidText(part.text)) else None
  }

  function ResultSaid(result: ToolResultPart): Said {
    SaidResult(result)
  }

  function UserSays(turn: Turn): seq<Said> {
    match turn
    case UserTurn(parts, _) => FilterMap(parts, InputSays)
    case ToolTurn(results, _) => Mapped(results, ResultSaid)
    case _ => []
  }

  function AssistantSays(turn: Turn): seq<Said> {
    if turn.AssistantTurn? then FilterMap(turn.content, PartSays) else []
  }

  function SystemSays(turn: Turn): seq<Said> {
    if turn.SystemTurn? then FilterMap(turn.system, SystemPartSays) else []
  }

  /** The last text loses the white space at its end. */
  function TrimLast(said: seq<Said>): seq<Said> {
    if said == [] then []
    else
      var before, last := said[..|said| - 1], said[|said| - 1];
      if last.SaidText? then before + [SaidText(TrimEnd(last.text))] else TrimLast(before) + [last]
  }

  /** What is trimmed is white space, and all of it at the end. */
  lemma {:induction false} TrimEndIsExact(s: string)
    ensures
      var kept := TrimEnd(s);
      && |kept| <= |s| && s[..|kept|] == kept && IsBlank(s[|kept|..])
      && (kept != "" ==> !IsSpace(kept[|kept| - 1]))
  {
    if s != "" && IsSpace(s[|s| - 1]) {
      var before := s[..|s| - 1];
      TrimEndIsExact(before);
      var kept := TrimEnd(before);
      hide IsSpace;
      assert s[|kept|..] == before[|kept|..] + [s[|s| - 1]];
    }
  }

  // ------------------------------------------------------------------- one turn

  lemma SaidConcat(first: seq<Block>, second: seq<Block>)
    ensures SaidBy(first + second) == SaidBy(first) + SaidBy(second)
  {
    FilterMapConcat(first, second, Says);
  }

  function SaysIfAny(block: Option<Block>): Option<Said> {
    if block.Some? then Says(block.value) else None
  }

  lemma SlotsSay(blocks: seq<Option<Block>>)
    ensures SaidBy(FilterMap(blocks, Same)) == FilterMap(blocks, SaysIfAny)
  {
    FilterMapComposes(blocks, Same, Says, SaysIfAny);
  }

  lemma InputSaid(parts: seq<InputPart>, plan: TurnPlan)
    ensures SaidBy(FilterMap(InputBlocks(parts, plan), Same)) == FilterMap(parts, InputSays)
  {
    SlotsSay(InputBlocks(parts, plan));
    FilterMapAgrees(InputBlocks(parts, plan), SaysIfAny, parts, InputSays);
  }

  lemma SystemSaid(parts: seq<SystemPart>, plan: TurnPlan)
    ensures SaidBy(FilterMap(SystemBlocks(parts, plan), Same)) == FilterMap(parts, SystemPartSays)
  {
    SlotsSay(SystemBlocks(parts, plan));
    FilterMapAgrees(SystemBlocks(parts, plan), SaysIfAny, parts, SystemPartSays);
  }

  function ResultIsSaid(result: ToolResultPart): Option<Said> {
    Some(SaidResult(result))
  }

  lemma ResultsSaid(results: seq<ToolResultPart>, plan: TurnPlan)
    ensures SaidBy(FilterMap(ResultBlocks(results, plan), Same)) == Mapped(results, ResultSaid)
  {
    SlotsSay(ResultBlocks(results, plan));
    FilterMapAgrees(ResultBlocks(results, plan), SaysIfAny, results, ResultIsSaid);
    AllKept(results);
  }

  lemma {:induction false} AllKept(results: seq<ToolResultPart>)
    ensures FilterMap(results, ResultIsSaid) == Mapped(results, ResultSaid)
  {
    if results != [] {
      AllKept(results[1..]);
      assert Mapped(results, ResultSaid) == [SaidResult(results[0])] + Mapped(results[1..], ResultSaid);
    }
  }

  // ---------------------------------------------------------------- assistant turns

  function NativeSays(n: Replay.Native): Option<Said> {
    match n
    case Says(text) => Some(SaidText(text))
    case Calls(id, name, input) => Some(SaidCall(id, name, Obj(input)))
    case _ => None
  }

  lemma WrittenIsHeard(n: Replay.Native)
    ensures Heard(Replay.Write(n)) == NativeSays(n)
  {
  }

  lemma {:induction false} NativesSay(natives: seq<Replay.Native>)
    ensures SaidBy(Mapped(Mapped(natives, Replay.Write), NewNative)) == FilterMap(natives, NativeSays)
  {
    hide Heard, Replay.Write;
    var blocks := Mapped(Mapped(natives, Replay.Write), NewNative);
    forall k | 0 <= k < |natives| ensures Says(blocks[k]) == NativeSays(natives[k]) {
      WrittenIsHeard(natives[k]);
    }
    FilterMapAgrees(blocks, Says, natives, NativeSays);
  }

  /** What a part stands as in a captured message says what the part says. */
  lemma StandsSay(parts: seq<AssistantPart>)
    ensures FilterMap(Replay.StandsAs(parts), NativeSays) == FilterMap(parts, PartSays)
  {
    FilterMapComposes(parts, Replay.Stands, NativeSays, PartSays);
  }

  lemma UnsignedSay(natives: seq<Replay.Native>)
    ensures FilterMap(Mapped(natives, Replay.Unsigned), NativeSays) == FilterMap(natives, NativeSays)
  {
    FilterMapAgrees(Mapped(natives, Replay.Unsigned), NativeSays, natives, NativeSays);
  }

  /** What is not sent on says nothing. */
  lemma SentSay(reasoning: bool, sameModel: bool, natives: seq<Replay.Native>)
    ensures FilterMap(FilterMap(natives, Replay.Sent(reasoning, sameModel)), NativeSays)
      == FilterMap(natives, NativeSays)
  {
    FilterMapComposes(natives, Replay.Sent(reasoning, sameModel), NativeSays, NativeSays);
  }

  lemma PartsSaid(parts: seq<AssistantPart>)
    ensures SaidBy(FilterMap(parts, AssistantBlock)) == FilterMap(parts, PartSays)
  {
    FilterMapComposes(parts, AssistantBlock, Says, PartSays);
  }

  /** Blocks that are built from parts, or natives as they were captured. */
  ghost predicate Plain(blocks: seq<Block>) {
    forall k :: 0 <= k < |blocks| && blocks[k].NativeBlock? ==>
      blocks[k].trimmed.None? && exists n :: blocks[k].value == Replay.Write(n)
  }

  lemma BuiltArePlain(parts: seq<AssistantPart>)
    ensures Plain(FilterMap(parts, AssistantBlock))
  {
    forall k | 0 <= k < |FilterMap(parts, AssistantBlock)| ensures !FilterMap(parts, AssistantBlock)[k].NativeBlock? {
      FilterMapMembers(parts, AssistantBlock, FilterMap(parts, AssistantBlock)[k]);
    }
  }

  /** Replayed or rebuilt, an assistant turn says its texts and calls. */
  lemma AssistantSaid(cfg: Config, artifact: Option<Artifact>, parts: seq<AssistantPart>, later: seq<Turn>)
    requires AssistantBlocks(cfg, artifact, parts, later).Ok?
    ensures
      var blocks := AssistantBlocks(cfg, artifact, parts, later).value;
      SaidBy(blocks) == FilterMap(parts, PartSays) && Plain(blocks)
  {
    hide Decode, EligibleBlocks, Replay.Captures, SaidBy, FilterMap, Replay.Write, Replay.Unsigned, NativeSays;
    if Replayed(cfg, artifact, parts).Some? {
      var payload := artifact.value.payload;
      Replay.DecodedIsCapture(payload, parts);
      var natives :| Replay.Captures(payload, natives) && Mapped(natives, Replay.Unsigned) == Replay.StandsAs(parts);
      var reasoning, same := cfg.reasoning, cfg.sameModel(artifact.value);
      Replay.CaptureIsSentOn(reasoning, same, natives);
      var sent := FilterMap(natives, Replay.Sent(reasoning, same));
      NativesSay(sent);
      SentSay(reasoning, same, natives);
      UnsignedSay(natives);
      StandsSay(parts);
    } else {
      PartsSaid(parts);
      BuiltArePlain(parts);
    }
  }

  /** Markers say nothing. */
  lemma {:induction false} AttachedSays(blocks: seq<Block>, parts: seq<AssistantPart>, plan: TurnPlan, i: nat)
    requires i <= |parts|
    ensures SaidBy(Attached(blocks, parts, plan, i)) == SaidBy(blocks)
    ensures Plain(blocks) ==> Plain(Attached(blocks, parts, plan, i))
    decreases |blocks|, |parts| - i
  {
    hide PartType, BlockType, Says;
    if i < |parts| && blocks != [] {
      if PartType(parts[i]).None? {
        AttachedSays(blocks, parts, plan, i + 1);
      } else if BlockType(blocks[0]) != PartType(parts[i]) {
        AttachedSays(blocks[1..], parts, plan, i);
      } else {
        AttachedSays(blocks[1..], parts, plan, i + 1);
        MarkedSays(blocks[0], plan.MarkerFor(i));
      }
    }
  }

  lemma MarkedSays(block: Block, marker: Option<Marker>)
    ensures Says(Marked(block, marker)) == Says(block)
    ensures Marked(block, marker).NativeBlock? == block.NativeBlock?
    ensures block.NativeBlock? ==>
      Marked(block, marker).value == block.value && Marked(block, marker).trimmed == block.trimmed
  {
  }

  lemma TrimTextSays(block: Block)
    requires block.NativeBlock? ==> block.trimmed.None? && exists n :: block.value == Replay.Write(n)
    ensures BlockType(block) == Some("text") ==>
      Says(block).Some? && Says(block).value.SaidText?
      && Says(TrimText(block)) == Some(SaidText(TrimEnd(Says(block).value.text)))
    ensures BlockType(block) != Some("text") ==> Says(block).None? || !Says(block).value.SaidText?
  {
    if block.NativeBlock? {
      var n :| block.value == Replay.Write(n);
      WrittenIsHeard(n);
      Replay.WrittenType(n);
      hide Heard;
      if n.Says? {
        assert block.value.GetStr("text") == Some(n.text);
      }
    }
  }

  lemma {:induction false} TrimmingSays(blocks: seq<Block>)
    requires Plain(blocks)
    ensures SaidBy(TrimPrefill(blocks)) == TrimLast(SaidBy(blocks))
  {
    hide BlockType, TrimText, Says, TrimEnd;
    if blocks != [] {
      var last, before := blocks[|blocks| - 1], blocks[..|blocks| - 1];
      assert blocks == before + [last];
      TrimTextSays(last);
      FilterMapLast(before, last, Says);
      FilterMapLast(before, TrimText(last), Says);
      FilterMapLast(TrimPrefill(before), last, Says);
      if BlockType(last) == Some("text") {
        assert SaidBy(blocks)[..|SaidBy(blocks)| - 1] == SaidBy(before);
      } else {
        TrimmingSays(before);
        if Says(last).Some? {
          assert SaidBy(blocks)[..|SaidBy(blocks)| - 1] == SaidBy(before);
        } else {
          assert SaidBy(before) + [] == SaidBy(before);
          assert TrimLast(SaidBy(before)) + [] == TrimLast(SaidBy(before));
        }
      }
    }
  }

  // -------------------------------------------------------------------- all turns

  function ContentBy(role: string): Message -> Option<seq<Block>> {
    (message: Message) => if message.role == role then Some(message.content) else None
  }

  /** All blocks of the messages of a role, in order. */
  function InRole(messages: seq<Message>, role: string): seq<Block> {
    Concat(FilterMap(messages, ContentBy(role)))
  }

  lemma InRoleFirst(own: string, content: seq<Block>, rest: seq<Message>, role: string)
    ensures InRole(Push([], own, content) + rest, role) == (if own == role then content else []) + InRole(rest, role)
  {
    if content == [] {
      assert Push([], own, content) + rest == rest;
      assert content + InRole(rest, role) == InRole(rest, role);
      assert [] + InRole(rest, role) == InRole(rest, role);
    } else {
      var messages := [Message(own, content)] + rest;
      assert Push([], own, content) + rest == messages;
      assert messages[1..] == rest;
      var f := ContentBy(role);
      assert FilterMap(messages, f) == Known(f(messages[0])) + FilterMap(rest, f);
      if own == role {
        assert ([content] + FilterMap(rest, f))[1..] == FilterMap(rest, f);
      } else {
        assert [] + FilterMap(rest, f) == FilterMap(rest, f);
        assert [] + InRole(rest, role) == InRole(rest, role);
      }
    }
  }

  /** What the assistant says in the turns; a turn that ends the request loses trailing white space. */
  function AssistantSide(history: seq<Turn>): seq<Said> {
    if history == [] then []
    else if |history| == 1 then TrimLast(AssistantSays(history[0]))
    else AssistantSays(history[0]) + AssistantSide(history[1..])
  }

  lemma TurnSaid(cfg: Config, turn: Turn, plan: TurnPlan, later: seq<Turn>)
    requires turn.AssistantTurn? ==> AssistantBlocks(cfg, turn.artifact, turn.content, later).Ok?
    ensures
      SaidBy(TurnBlocks(cfg, turn, plan, later)) ==
        if !turn.AssistantTurn? then UserSays(turn)
        else if later == [] then TrimLast(AssistantSays(turn)) else AssistantSays(turn)
  {
    hide AssistantBlocks, FilterMap, Attached, TrimPrefill, TrimLast;
    match turn
    case SystemTurn(_, _) => NothingSaid();
    case UserTurn(parts, _) => InputSaid(parts, plan);
    case ToolTurn(results, _) => ResultsSaid(results, plan);
    case AssistantTurn(parts, _, artifact) =>
      AssistantSaid(cfg, artifact, parts, later);
      var blocks := AssistantBlocks(cfg, artifact, parts, later).value;
      AttachedSays(blocks, parts, plan, 0);
      TrimmingSays(Attached(blocks, parts, plan, 0));
  }

  lemma NothingSaid()
    ensures SaidBy([]) == []
  {
  }

  lemma {:induction false} OwnMessagesSay(cfg: Config, history: seq<Turn>, plans: seq<TurnPlan>)
    requires |history| == |plans|
    requires forall i :: 0 <= i < |history| && history[i].AssistantTurn? ==>
      AssistantBlocks(cfg, history[i].artifact, history[i].content, history[i + 1..]).Ok?
    ensures
      var messages := OwnMessages(cfg, history, plans);
      && SaidBy(InRole(messages, "user")) == Concat(Mapped(history, UserSays))
      && SaidBy(InRole(messages, "assistant")) == AssistantSide(history)
    decreases |history|
  {
    hide AssistantBlocks, TurnBlocks, UserSays, SaidBy, InRole, TrimLast;
    NothingSaid();
    if history == [] {
      assert InRole([], "user") == [] && InRole([], "assistant") == [] by { NoMessages(); }
    } else {
      var turn, later := history[0], history[1..];
      forall i | 0 <= i < |later| && later[i].AssistantTurn?
        ensures AssistantBlocks(cfg, later[i].artifact, later[i].content, later[i + 1..]).Ok? {
        assert later[i] == history[i + 1] && later[i + 1..] == history[i + 2..];
      }
      OwnMessagesSay(cfg, later, plans[1..]);
      var own, rest := TurnBlocks(cfg, turn, plans[0], later), OwnMessages(cfg, later, plans[1..]);
      TurnSaid(cfg, turn, plans[0], later);
      InRoleFirst(TurnRole(turn), own, rest, "user");
      InRoleFirst(TurnRole(turn), own, rest, "assistant");
      SaidConcat(own, InRole(rest, "user"));
      SaidConcat(own, InRole(rest, "assistant"));
      SaidConcat([], InRole(rest, "user"));
      SaidConcat([], InRole(rest, "assistant"));
      assert Mapped(history, UserSays)[1..] == Mapped(later, UserSays);
      SidesApart(turn);
      AssistantSideFirst(history);
      assert [] + SaidBy(InRole(rest, "user")) == SaidBy(InRole(rest, "user"));
      assert [] + SaidBy(InRole(rest, "assistant")) == SaidBy(InRole(rest, "assistant"));
    }
  }

  lemma NoMessages()
    ensures InRole([], "user") == [] && InRole([], "assistant") == []
  {
  }

  lemma SidesApart(turn: Turn)
    ensures turn.AssistantTurn? ==> UserSays(turn) == []
    ensures !turn.AssistantTurn? ==> AssistantSays(turn) == [] && TrimLast(AssistantSays(turn)) == []
  {
  }

  lemma AssistantSideFirst(history: seq<Turn>)
    requires history != []
    ensures AssistantSide(history)
      == (if history[1..] == [] then TrimLast(AssistantSays(history[0])) else AssistantSays(history[0]))
      + AssistantSide(history[1..])
  {
    hide TrimLast, AssistantSays;
    if |history| == 1 {
      assert TrimLast(AssistantSays(history[0])) + [] == TrimLast(AssistantSays(history[0]));
    }
  }

  // ------------------------------------------------------------------- the system

  lemma {:induction false} SystemSaidAll(cfg: Config, e: Encoding, history: seq<Turn>, plans: seq<TurnPlan>)
    requires |history| == |plans| && EncodeTurns(cfg, e, history, plans).Ok?
    ensures SaidBy(EncodeTurns(cfg, e, history, plans).value.system)
      == SaidBy(e.system) + Concat(Mapped(history, SystemSays))
    decreases |history|
  {
    hide SaidBy, SystemSays, EncodeTurn;
    if history == [] {
      assert SaidBy(e.system) + [] == SaidBy(e.system);
    } else {
      var first := EncodeTurn(cfg, e, history[0], plans[0], history[1..]).value;
      TurnSystem(cfg, e, history[0], plans[0], history[1..]);
      SystemSaidAll(cfg, first, history[1..], plans[1..]);
      assert Mapped(history, SystemSays)[1..] == Mapped(history[1..], SystemSays);
      var rest := Concat(Mapped(history[1..], SystemSays));
      assert SaidBy(e.system) + SystemSays(history[0]) + rest == SaidBy(e.system) + (SystemSays(history[0]) + rest);
    }
  }

  lemma TurnSystem(cfg: Config, e: Encoding, turn: Turn, plan: TurnPlan, later: seq<Turn>)
    requires EncodeTurn(cfg, e, turn, plan, later).Ok?
    ensures SaidBy(EncodeTurn(cfg, e, turn, plan, later).value.system) == SaidBy(e.system) + SystemSays(turn)
  {
    hide FilterMap, SaidBy, AssistantBlocks, Finishing;
    assert SaidBy(e.system) + [] == SaidBy(e.system);
    if turn.SystemTurn? {
      SystemSaid(turn.system, plan);
      SaidConcat(e.system, FilterMap(SystemBlocks(turn.system, plan), Same));
    }
  }

  /**
   Whatever is replayed or rebuilt, nothing is lost, added or moved: the user's messages say the texts,
   files and results of the history, the assistant's its texts and calls, and the system its texts,
   each in history order; only a turn of the assistant that ends the request loses the white space at
   the end of its last text.
   */
  lemma RequestSaysHistory(cfg: Config, request: Request, plan: CachePlan)
    requires |plan.history| == |request.history| && |plan.tools| == |request.tools|
    requires ToolsFollowAssistants(request.history) && Encode(cfg, request, plan).Ok?
    ensures
      var body := Encode(cfg, request, plan).value;
      && SaidBy(InRole(body.messages, "user")) == Concat(Mapped(request.history, UserSays))
      && SaidBy(InRole(body.messages, "assistant")) == AssistantSide(request.history)
      && SaidBy(body.system) == Concat(Mapped(request.history, SystemSays))
  {
    hide EncodeTurns, SaidBy, InRole, OwnMessages, AssistantSide, UserSays, SystemSays, AssistantBlocks, Moved;
    var history := request.history;
    OneMessagePerTurn(cfg, history, plan.history);
    forall i | 0 <= i < |history| && history[i].AssistantTurn?
      ensures AssistantBlocks(cfg, history[i].artifact, history[i].content, history[i + 1..]).Ok? {
      EncodedTurn(cfg, EMPTY, history, plan.history, i);
    }
    OwnMessagesSay(cfg, history, plan.history);
    SystemSaidAll(cfg, EMPTY, history, plan.history);
    NothingSaid();
    assert [] + Concat(Mapped(history, SystemSays)) == Concat(Mapped(history, SystemSays));
  }
}
