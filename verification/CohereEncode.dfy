/** The history loop of the Cohere encoder, with the replay decisions it takes. */
module CohereEncode {
  import opened Wrappers
  import opened Json
  import opened Parts
  import opened Sequences
  import opened CohereMessage
  import opened CohereMatch
  import opened ReplayLog
  import CohereReplay

  /** `imageOk` says whether a file can be sent as an image. */
  datatype Config = Config(
    policy: ReplayPolicy, printer: Printer, fingerprint: Json -> string, replayReasoning: bool,
    imageOk: FilePart -> bool)

  datatype UserPiece = TextPiece(text: string) | ImagePiece(file: FilePart)

  datatype Sent =
    | SystemSent(text: string)
    | UserTextSent(text: string)
    | UserPartsSent(pieces: seq<UserPiece>)
    | Carried(message: Message)

  const FAULT := "Cohere replay payload did not match normalized content"

  // ------------------------------------------------------------ messages of a turn

  function SystemTextOf(part: SystemPart): Option<string> {
    if part.SystemText? then Some(part.text) else None
  }

  function Lines(texts: seq<string>): string {
    if texts == [] then "" else if |texts| == 1 then texts[0] else texts[0] + "\n" + Lines(texts[1..])
  }

  function PieceFor(part: InputPart): Option<UserPiece> {
    match part
    case InputText(text, _) => if text == "" then None else Some(TextPiece(text))
    case InputFile(file) => Some(ImagePiece(file))
    case InputCustom => None
  }

  function InputTextOf(part: InputPart): Option<string> {
    if part.InputText? then Some(part.text) else None
  }

  predicate HasFile(parts: seq<InputPart>) {
    exists i :: 0 <= i < |parts| && parts[i].InputFile?
  }

  predicate ImagesOk(cfg: Config, parts: seq<InputPart>) {
    forall i :: 0 <= i < |parts| && parts[i].InputFile? ==> cfg.imageOk(parts[i].file)
  }

  function SystemMessages(parts: seq<SystemPart>): seq<Sent> {
    var text := Lines(FilterMap(parts, SystemTextOf));
    if text == "" then [] else [SystemSent(text)]
  }

  /** Text alone is joined; with a file the pieces are listed. */
  function UserMessages(parts: seq<InputPart>): seq<Sent> {
    var pieces := FilterMap(parts, PieceFor);
    if pieces == [] then []
    else if HasFile(parts) then [UserPartsSent(pieces)]
    else [UserTextSent(Concat(FilterMap(parts, InputTextOf)))]
  }

  function CarriedTool(result: ToolResultPart): Sent {
    Carried(Tool(result))
  }

  function NewCarried(message: Message): Sent {
    Carried(message)
  }

  function Decoded(cfg: Config, artifact: Artifact, parts: seq<AssistantPart>): Option<Message> {
    CohereReplay.Decode(cfg.printer.codec, cfg.fingerprint, artifact.payload, parts, cfg.replayReasoning)
  }

  /** What is wrong with an artifact, if anything. */
  function DecodeFault(cfg: Config, artifact: Option<Artifact>, parts: seq<AssistantPart>): Option<string> {
    if artifact.None? || Decoded(cfg, artifact.value, parts).Some? then None else Some(FAULT)
  }

  function TurnFault(cfg: Config): Turn -> Option<string> {
    (turn: Turn) => if turn.AssistantTurn? then DecodeFault(cfg, turn.artifact, turn.content) else None
  }

  /** The decisions for one turn. */
  function TurnLog(cfg: Config, index: nat, turn: Turn): seq<Decision> {
    Labelled(index, if turn.AssistantTurn? then Outcome(cfg.policy, turn.artifact, TurnFault(cfg)(turn)) else [])
  }

  /** The decoded message alone, or the reconstruction with thinking. */
  function AssistantMessages(cfg: Config, artifact: Option<Artifact>, parts: seq<AssistantPart>)
    : Result<seq<Message>, ()>
  {
    if cfg.policy != Never && artifact.Some? && Decoded(cfg, artifact.value, parts).Some?
    then Ok([Decoded(cfg, artifact.value, parts).value])
    else if AllEncodable(parts) then Ok(CohereMessage.Reconstructed(parts, true))
    else Err(())
  }

  function TurnMessages(cfg: Config, turn: Turn): Result<seq<Sent>, ()> {
    match turn
    case SystemTurn(parts, _) => Ok(SystemMessages(parts))
    case UserTurn(parts, _) => if ImagesOk(cfg, parts) then Ok(UserMessages(parts)) else Err(())
    case ToolTurn(results, _) =>
      if forall i :: 0 <= i < |results| ==> ResultEncodable(results[i]) then Ok(Mapped(results, CarriedTool))
      else Err(())
    case AssistantTurn(parts, _, artifact) =>
      var messages := AssistantMessages(cfg, artifact, parts);
      if messages.Err? then Err(()) else Ok(Mapped(messages.value, NewCarried))
  }

  /** The messages of the turns from `from` on, after those already there. */
  function EncodeFrom(cfg: Config, history: seq<Turn>, from: nat, sent: seq<Sent>): Result<seq<Sent>, ()>
    requires from <= |history|
    decreases |history| - from
  {
    if from == |history| then Ok(sent) else
      var own := TurnMessages(cfg, history[from]);
      if own.Err? then Err(()) else EncodeFrom(cfg, history, from + 1, sent + own.value)
  }

  function Encode(cfg: Config, history: seq<Turn>): Result<seq<Sent>, ()> {
    EncodeFrom(cfg, history, 0, [])
  }

  // --------------------------------------------------------------------- encoding

  method EncodeAssistant(cfg: Config, artifact: Option<Artifact>, parts: seq<AssistantPart>)
    returns (r: Result<seq<Message>, ()>, taken: seq<Disposition>)
    requires cfg.printer.Lawful()
    ensures r == AssistantMessages(cfg, artifact, parts)
    ensures r.Ok? ==> taken == Outcome(cfg.policy, artifact, DecodeFault(cfg, artifact, parts))
  {
    hide CohereReplay.Decode, AllEncodable, CohereMessage.Reconstructed;
    if cfg.policy == Never {
      var rebuilt := NormalizedAssistant(parts, true);
      return if rebuilt.Ok? then rebuilt else Err(()), [Disposition.Reconstructed];
    }
    taken := [NoArtifact];
    if artifact.Some? {
      var decoded := CohereReplay.DecodeReplay(
        cfg.printer, cfg.fingerprint, artifact.value.payload, parts, cfg.replayReasoning);
      if decoded.Some? {
        return Ok([decoded.value]), [Disposition.Replayed];
      }
      taken := [InvalidPayload(FAULT)];
    }
    var rebuilt := NormalizedAssistant(parts, true);
    return if rebuilt.Ok? then rebuilt else Err(()), taken + [Disposition.Reconstructed];
  }

  method EncodeTurn(cfg: Config, index: nat, turn: Turn)
    returns (r: Result<seq<Sent>, ()>, replay: seq<Decision>)
    requires cfg.printer.Lawful()
    ensures r == TurnMessages(cfg, turn)
    ensures r.Ok? ==> replay == TurnLog(cfg, index, turn)
  {
    hide AssistantMessages, Outcome, DecodeFault, SystemMessages, UserMessages;
    replay := [];
    match turn {
      case SystemTurn(parts, _) => r := Ok(SystemMessages(parts));
      case UserTurn(parts, _) => r := if ImagesOk(cfg, parts) then Ok(UserMessages(parts)) else Err(());
      case ToolTurn(results, _) =>
        var sent: seq<Sent> := [];
        for i := 0 to |results|
          invariant sent == Mapped(results[..i], CarriedTool)
          invariant forall j :: 0 <= j < i ==> ResultEncodable(results[j])
        {
          if !ResultEncodable(results[i]) {
            return Err(()), replay;
          }
          sent := sent + [CarriedTool(results[i])];
        }
        assert results[..|results|] == results;
        r := Ok(sent);
      case AssistantTurn(parts, _, artifact) =>
        var messages, taken := EncodeAssistant(cfg, artifact, parts);
        if messages.Err? {
          return Err(()), replay;
        }
        replay := Labelled(index, taken);
        r := Ok(Mapped(messages.value, NewCarried));
    }
  }

  /** The messages with the decisions taken on the way. */
  method EncodeRequest(cfg: Config, history: seq<Turn>) returns (r: Result<seq<Sent>, ()>, replay: seq<Decision>)
    requires cfg.printer.Lawful()
    ensures r == Encode(cfg, history)
    ensures r.Ok? ==> replay == OutcomeLog(cfg.policy, history, TurnFault(cfg))
  {
    hide TurnMessages, TurnFault, Outcome;
    var sent: seq<Sent> := [];
    replay := [];
    for index := 0 to |history|
      invariant replay == OutcomeLog(cfg.policy, history[..index], TurnFault(cfg))
      invariant EncodeFrom(cfg, history, index, sent) == Encode(cfg, history)
    {
      var own, taken := EncodeTurn(cfg, index, history[index]);
      if own.Err? {
        return Err(()), replay;
      }
      OutcomeLogGrows(cfg.policy, history, TurnFault(cfg), index);
      sent, replay := sent + own.value, replay + taken;
    }
    assert history[..|history|] == history;
    return Ok(sent), replay;
  }

  // ------------------------------------------------------------ the replay log

  /** The messages a turn adds. */
  function TurnSends(cfg: Config): Turn -> seq<Sent> {
    (turn: Turn) => if TurnMessages(cfg, turn).Ok? then TurnMessages(cfg, turn).value else []
  }

  /** The messages of some turns one after another. */
  function Sends(cfg: Config, turns: seq<Turn>): seq<Sent> {
    Concat(Mapped(turns, TurnSends(cfg)))
  }

  lemma SendsConcat(cfg: Config, first: seq<Turn>, second: seq<Turn>)
    ensures Sends(cfg, first + second) == Sends(cfg, first) + Sends(cfg, second)
  {
    hide Concat;
    var f := TurnSends(cfg);
    assert Mapped(first + second, f) == Mapped(first, f) + Mapped(second, f);
    ConcatConcat(Mapped(first, f), Mapped(second, f));
  }

  lemma SendsOne(cfg: Config, turn: Turn)
    ensures Sends(cfg, [turn]) == TurnSends(cfg)(turn)
  {
    hide TurnMessages;
    var own := TurnSends(cfg)(turn);
    assert Mapped([turn], TurnSends(cfg)) == [own];
    assert Concat([own]) == own;
  }

  /** A history that encodes gives the messages of its turns in history order. */
  lemma {:induction false} EncodedSends(cfg: Config, history: seq<Turn>, from: nat, sent: seq<Sent>)
    requires from <= |history| && EncodeFrom(cfg, history, from, sent).Ok?
    ensures EncodeFrom(cfg, history, from, sent).value == sent + Sends(cfg, history[from..])
    ensures forall i :: from <= i < |history| ==> TurnMessages(cfg, history[i]).Ok?
    decreases |history| - from
  {
    hide TurnMessages, Sends;
    if from == |history| {
      assert history[from..] == [] && sent + [] == sent;
      assert Sends(cfg, []) == [] by { NothingSends(cfg); }
    } else {
      var own := TurnMessages(cfg, history[from]).value;
      EncodedSends(cfg, history, from + 1, sent + own);
      assert history[from..] == [history[from]] + history[from + 1..];
      SendsConcat(cfg, [history[from]], history[from + 1..]);
      SendsOne(cfg, history[from]);
      assert sent + own + Sends(cfg, history[from + 1..]) == sent + (own + Sends(cfg, history[from + 1..]));
    }
  }

  lemma NothingSends(cfg: Config)
    ensures Sends(cfg, []) == []
  {
  }

  /**
   What an assistant turn is sent as, by whether it is logged as replayed, and where: after the
   messages of the turns before it and before those of the turns after it.
   */
  predicate SentAsLogged(cfg: Config, history: seq<Turn>, i: nat, body: seq<Sent>, replayed: bool)
    requires i < |history| && history[i].AssistantTurn?
  {
    var turn := history[i];
    && (replayed <==>
          cfg.policy != Never && turn.artifact.Some? && Decoded(cfg, turn.artifact.value, turn.content).Some?)
    && var own := if replayed then [Decoded(cfg, turn.artifact.value, turn.content).value]
                  else CohereMessage.Reconstructed(turn.content, true);
    body == Sends(cfg, history[..i]) + Mapped(own, NewCarried) + Sends(cfg, history[i + 1..])
  }

  lemma MessagesAsLogged(cfg: Config, history: seq<Turn>, i: nat)
    requires i < |history| && history[i].AssistantTurn? && Encode(cfg, history).Ok?
    ensures
      var turn := history[i];
      SentAsLogged(cfg, history, i, Encode(cfg, history).value,
                   cfg.policy != Never && turn.artifact.Some? && TurnFault(cfg)(turn).None?)
  {
    hide CohereReplay.Decode, AllEncodable, CohereMessage.Reconstructed, Sends, EncodeFrom;
    var turn := history[i];
    EncodedSends(cfg, history, 0, []);
    assert history[0..] == history[..i] + ([turn] + history[i + 1..]);
    SendsConcat(cfg, history[..i], [turn] + history[i + 1..]);
    SendsConcat(cfg, [turn], history[i + 1..]);
    SendsOne(cfg, turn);
    var before, own, after := Sends(cfg, history[..i]), TurnSends(cfg)(turn), Sends(cfg, history[i + 1..]);
    assert [] + (before + (own + after)) == before + own + after;
  }

  /**
   The log kept by a history that encodes is accepted, and it is true of the messages sent: each
   assistant turn is logged once as replayed or as reconstructed; a replayed turn stands in the
   request as its decoded message, and only that; a reconstructed one as its normalized parts;
   each in its place.
   */
  lemma RequestLogIsTrue(cfg: Config, model: Model, history: seq<Turn>)
    requires Encode(cfg, history).Ok? && model.declaration.policy == cfg.policy
    ensures Accepts(model, Mapped(history, EntryOf), OutcomeLog(cfg.policy, history, TurnFault(cfg)), 0, 0)
    ensures forall i :: 0 <= i < |history| && history[i].AssistantTurn? ==>
      SentAsLogged(cfg, history, i, Encode(cfg, history).value,
                   Decision(i, Disposition.Replayed) in OutcomeLog(cfg.policy, history, TurnFault(cfg)))
    ensures forall i :: 0 <= i < |history| && history[i].AssistantTurn? ==>
      (Decision(i, Reconstructed) in OutcomeLog(cfg.policy, history, TurnFault(cfg)) <==>
        Decision(i, Disposition.Replayed) !in OutcomeLog(cfg.policy, history, TurnFault(cfg)))
  {
    hide Accepts, OutcomeLog, EncodeFrom, CohereReplay.Decode, SentAsLogged, TurnFault;
    OutcomesAreAccepted(model, history, TurnFault(cfg));
    forall i | 0 <= i < |history| && history[i].AssistantTurn?
      ensures SentAsLogged(cfg, history, i, Encode(cfg, history).value,
                           Decision(i, Disposition.Replayed) in OutcomeLog(cfg.policy, history, TurnFault(cfg)))
      ensures Decision(i, Reconstructed) in OutcomeLog(cfg.policy, history, TurnFault(cfg)) <==>
        Decision(i, Disposition.Replayed) !in OutcomeLog(cfg.policy, history, TurnFault(cfg))
    {
      LoggedOnce(cfg.policy, history, TurnFault(cfg), i);
      MessagesAsLogged(cfg, history, i);
    }
  }
}
