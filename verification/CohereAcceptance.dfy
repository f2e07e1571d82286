/** Which captures decode for a turn, and which histories a Cohere request can be made of. */
module CohereAcceptance {
  import opened Wrappers
  import opened Json
  import opened Parts
  import opened Sequences
  import opened CohereMessage
  import opened CohereMatch
  import opened CohereEncode
  import opened CohereSayings
  import Replay = CohereReplay

  predicate HoldsFile(result: ToolResultPart) {
    result.content.Mixed? && exists i :: 0 <= i < |result.content.values| && result.content.values[i].FileValue?
  }

  /** Parts that have a place in a message of the assistant, or are left out without harm. */
  predicate HasPlace(part: AssistantPart) {
    match part
    case Source(source) => source.metadata.Some?
    case ToolResult(result) => !HoldsFile(result)
    case Custom(kind, _) => kind == "cohere.v2.chat.replay_fingerprint"
    case File(_) => false
    case ToolApproval(_) => false
    case Text(_, _) => true
    case Reasoning(_, _) => true
    case ToolCall(_) => true
  }

  predicate AllHavePlaces(parts: seq<AssistantPart>) {
    forall i :: 0 <= i < |parts| ==> HasPlace(parts[i])
  }

  lemma PlacesAreEncodable(parts: seq<AssistantPart>)
    ensures AllEncodable(parts) <==> AllHavePlaces(parts)
  {
    forall i | 0 <= i < |parts| ensures Encodable(parts[i]) <==> HasPlace(parts[i]) {
    }
  }

  /** The fingerprint a part records. */
  function MarkOf(part: AssistantPart): Option<string> {
    if part.Custom? && part.kind == "cohere.v2.chat.replay_fingerprint" && part.data.Str? then Some(part.data.text)
    else None
  }

  /** A capture of the message that the parts amount to, under the one fingerprint the parts record. */
  ghost predicate Captures(
    codec: Codec, fingerprint: Json -> string, payload: Json, parts: seq<AssistantPart>, binding: Json, message: Json)
  {
    && payload == Obj(map["format" := Str("cohere.v2.chat.message.v2"), "binding" := binding, "message" := message,
                          "fingerprint" := Str(fingerprint(message))])
    && binding.GetStr("version").Some? && binding.GetStr("sha256").Some?
    && FilterMap(parts, MarkOf) == [fingerprint(message)]
    && AllHavePlaces(parts) && FilterMap(parts, ResultSaid) == []
    && (message == Built(parts, true).ToJson(codec) || message == Built(parts, false).ToJson(codec))
  }

  lemma CaptureOpens(payload: Json, binding: Json, message: Json, mark: string)
    ensures Replay.Opened(payload) == Some((message, mark)) && payload.Get("binding") == Some(binding) <==>
      && payload == Obj(map["format" := Str("cohere.v2.chat.message.v2"), "binding" := binding, "message" := message,
                            "fingerprint" := Str(mark)])
      && binding.GetStr("version").Some? && binding.GetStr("sha256").Some?
  {
    var keys := Replay.KEYS;
    assert keys[0] == "binding" && keys[1] == "fingerprint" && keys[2] == "format" && keys[3] == "message";
    if Replay.Opened(payload) == Some((message, mark)) && payload.Get("binding") == Some(binding) {
      assert keys[0] in payload.members && keys[1] in payload.members && keys[2] in payload.members;
      OnlyKeys(payload.members, {"binding", "fingerprint", "format", "message"});
      assert payload.members == map["format" := payload.members["format"], "binding" := payload.members["binding"],
        "message" := payload.members["message"], "fingerprint" := payload.members["fingerprint"]];
    }
  }

  /**
   An artifact decodes for a turn exactly when it captures the message the turn's parts amount to, with
   thinking or without, and, where thinking is not replayed, something is left to send.
   */
  lemma DecodedIsCapture(
    codec: Codec, fingerprint: Json -> string, payload: Json, parts: seq<AssistantPart>, replayReasoning: bool)
    ensures Replay.Decode(codec, fingerprint, payload, parts, replayReasoning).Some? <==>
      && (exists binding, message :: Captures(codec, fingerprint, payload, parts, binding, message))
      && (replayReasoning || Built(parts, false).HasContent())
  {
    hide Built, FilterMap, Replay.Opened, AllEncodable, AllHavePlaces;
    PlacesAreEncodable(parts);
    FilterMapAgrees(parts, MarkOf, parts, Replay.FingerprintOf);
    FilterMapAgrees(parts, ResultOf, parts, ResultSaid);
    if FilterMap(parts, ResultOf) == [] {
      NoResults(parts);
    }
    var parsed := Replay.Opened(payload);
    if parsed.Some? {
      var binding := OrNull(payload.Get("binding"));
      OpenedBinds(payload);
      CaptureOpens(payload, binding, parsed.value.0, parsed.value.1);
      if Replay.Decode(codec, fingerprint, payload, parts, replayReasoning).Some? {
        assert Captures(codec, fingerprint, payload, parts, binding, parsed.value.0);
      }
    }
    forall binding, message | Captures(codec, fingerprint, payload, parts, binding, message)
      ensures parsed == Some((message, fingerprint(message))) {
      CaptureOpens(payload, binding, message, fingerprint(message));
    }
  }

  lemma OpenedBinds(payload: Json)
    ensures Replay.Opened(payload).Some? ==> payload.Get("binding").Some?
  {
    assert Replay.KEYS[0] == "binding";
  }

  /** A turn is refused for a file it cannot send, or for a part without a place when it is rebuilt. */
  predicate Sendable(cfg: Config, turn: Turn) {
    match turn
    case SystemTurn(_, _) => true
    case UserTurn(parts, _) => forall i :: 0 <= i < |parts| && parts[i].InputFile? ==> cfg.imageOk(parts[i].file)
    case ToolTurn(results, _) => forall i :: 0 <= i < |results| ==> !HoldsFile(results[i])
    case AssistantTurn(parts, _, artifact) =>
      (cfg.policy != Never && artifact.Some? && Decoded(cfg, artifact.value, parts).Some?) || AllHavePlaces(parts)
  }

  lemma TurnIsSendable(cfg: Config, turn: Turn)
    ensures TurnMessages(cfg, turn).Ok? <==> Sendable(cfg, turn)
  {
    hide Replay.Decode, CohereMessage.Reconstructed, AllEncodable, AllHavePlaces;
    match turn
    case SystemTurn(_, _) =>
    case UserTurn(_, _) =>
    case ToolTurn(results, _) =>
      assert forall i :: 0 <= i < |results| ==> (ResultEncodable(results[i]) <==> !HoldsFile(results[i]));
    case AssistantTurn(parts, _, _) => PlacesAreEncodable(parts);
  }

  /** A history encodes exactly when every turn can be sent. */
  lemma {:induction false} EncodesWhen(cfg: Config, history: seq<Turn>, from: nat, sent: seq<Sent>)
    requires from <= |history|
    ensures EncodeFrom(cfg, history, from, sent).Ok? <==>
      forall i :: from <= i < |history| ==> Sendable(cfg, history[i])
    decreases |history| - from
  {
    hide TurnMessages, Sendable;
    if from < |history| {
      TurnIsSendable(cfg, history[from]);
      if TurnMessages(cfg, history[from]).Ok? {
        EncodesWhen(cfg, history, from + 1, sent + TurnMessages(cfg, history[from]).value);
      }
    }
  }

  /** The one complaint about an artifact. */
  lemma FaultIsNamed(cfg: Config, turn: Turn)
    ensures TurnFault(cfg)(turn) ==
      if turn.AssistantTurn? && turn.artifact.Some? && Decoded(cfg, turn.artifact.value, turn.content).None?
      then Some("Cohere replay payload did not match normalized content") else None
  {
    hide Replay.Decode;
  }
}
