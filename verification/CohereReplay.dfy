/** Decoding of a captured Cohere message against the normalized content of its turn. */
module CohereReplay {
  import opened Wrappers
  import opened Json
  import opened Parts
  import opened Sequences
  import opened CohereMessage
  import opened CohereMatch
  import CohereStream

  const KEYS := ["binding", "fingerprint", "format", "message"]

  function FingerprintOf(part: AssistantPart): Option<string> {
    if part.Custom? && part.kind == FINGERPRINT_KIND then AsStr(Some(part.data)) else None
  }

  /** The message and fingerprint of a well-formed payload. */
  function Opened(payload: Json): Option<(Json, string)> {
    if !payload.Obj? || |payload.members| != 4
       || !(forall i :: 0 <= i < |KEYS| ==> KEYS[i] in payload.members)
       || payload.GetStr("format") != Some(CohereStream.REPLAY_FORMAT)
    then None
    else
      assert KEYS[0] in payload.members && KEYS[3] in payload.members;
      var binding := payload.Get("binding").value;
      var fingerprint := payload.GetStr("fingerprint");
      if binding.GetStr("version").None? || binding.GetStr("sha256").None? || fingerprint.None? then None
      else Some((payload.Get("message").value, fingerprint.value))
  }

  /** The stored message, or its reconstruction without thinking when reasoning is not replayed. */
  function Decode(
    codec: Codec, fingerprint: Json -> string, payload: Json, normalized: seq<AssistantPart>,
    replayReasoning: bool): Option<Message>
  {
    var parsed := Opened(payload);
    if parsed.None? then None
    else
      var message := parsed.value.0;
      if FilterMap(normalized, FingerprintOf) != [parsed.value.1] || fingerprint(message) != parsed.value.1
      then None
      else if !AllEncodable(normalized) then None
      else if !Matches(codec, message, normalized, true) && !Matches(codec, message, normalized, false) then None
      else if replayReasoning then Some(Native(message))
      else if Reconstructed(normalized, false) == [] then None
      else Some(Reconstructed(normalized, false)[0])
  }

  method DecodeReplay(
    printer: Printer, fingerprint: Json -> string, payload: Json, normalized: seq<AssistantPart>,
    replayReasoning: bool) returns (r: Option<Message>)
    requires printer.Lawful()
    ensures r == Decode(printer.codec, fingerprint, payload, normalized, replayReasoning)
  {
    hide Opened, Matches, Encodable, FingerprintOf;
    var parsed := Opened(payload);
    if parsed.None? {
      return None;
    }
    var (message, stored) := parsed.value;
    var first := Advance(normalized, 0, FingerprintOf);
    assert normalized[0..] == normalized;
    if first == |normalized| || FingerprintOf(normalized[first]) != Some(stored) {
      FirstIs(normalized, first, FingerprintOf, stored);
      return None;
    }
    var second := Advance(normalized, first + 1, FingerprintOf);
    OnlyIs(normalized, first, second, FingerprintOf);
    if second < |normalized| || fingerprint(message) != stored {
      return None;
    }
    if exists i :: 0 <= i < |normalized| && !Encodable(normalized[i]) {
      return None;
    }
    var full := AssistantMessageMatches(printer, message, normalized, true);
    if !full {
      var visible := AssistantMessageMatches(printer, message, normalized, false);
      if !visible {
        return None;
      }
    }
    if replayReasoning {
      return Some(Native(message));
    }
    var messages := NormalizedAssistant(normalized, false);
    return if messages.value == [] then None else Some(messages.value[0]);
  }

  lemma FirstIs(parts: seq<AssistantPart>, at: nat, f: AssistantPart -> Option<string>, value: string)
    requires at <= |parts| && (at < |parts| ==> f(parts[at]).Some? && f(parts[at]).value != value)
    ensures FilterMap(parts[at..], f) != [value]
  {
    if at < |parts| {
      FilterMapHead(parts, at, f);
      assert FilterMap(parts[at..], f)[0] == f(parts[at]).value;
    }
  }

  lemma OnlyIs(parts: seq<AssistantPart>, first: nat, second: nat, f: AssistantPart -> Option<string>)
    requires first < |parts| && f(parts[first]).Some?
    requires first < second <= |parts| && (second < |parts| ==> f(parts[second]).Some?)
    requires FilterMap(parts[first + 1..], f) == FilterMap(parts[second..], f)
    ensures FilterMap(parts[first..], f) == [f(parts[first]).value] <==> second == |parts|
  {
    FilterMapHead(parts, first, f);
    if second < |parts| {
      FilterMapHead(parts, second, f);
    }
  }

  /** A decoded message as JSON. */
  function Wire(codec: Codec, message: Message): Json {
    match message
    case Native(value) => value
    case Assistant(m) => m.ToJson(codec)
    case Tool(_) => Null
  }
}
