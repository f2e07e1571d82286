/** A complete response made of well-shaped blocks is captured as it was sent. */
module BedrockSingleCapture {
  import opened Wrappers
  import opened Json
  import opened Parts
  import opened BedrockStream
  import opened BedrockSingle

  /** The content blocks a Converse response is documented to hold. */
  datatype Native =
    | NText(text: string)
    | NTool(id: string, name: string, input: map<string, Json>)
    | NReasoning(text: string, signature: Option<string>)
    | NRedacted(data: string)
    | NRedactedReasoning(data: string)
    | NCited(content: Option<string>, citations: seq<Json>)

  function ToJson(n: Native): Json {
    match n
    case NText(text) => Obj(map["text" := Str(text)])
    case NTool(id, name, input) =>
      Obj(map["toolUse" := Obj(map["toolUseId" := Str(id), "name" := Str(name), "input" := Obj(input)])])
    case NReasoning(text, signature) =>
      var visible := map["text" := Str(text)];
      Obj(map["reasoningContent" := Obj(map["reasoningText" := Obj(
        if signature.Some? then visible["signature" := Str(signature.value)] else visible)])])
    case NRedacted(data) =>
      Obj(map["reasoningContent" := Obj(map["redactedContent" := Str(data)])])
    case NRedactedReasoning(data) =>
      Obj(map["reasoningContent" := Obj(map["redactedReasoning" := Obj(map["data" := Str(data)])])])
    case NCited(content, citations) =>
      var cited := map["citations" := Arr(citations)];
      Obj(map["citationsContent" := Obj(
        if content.Some? then cited["content" := Str(content.value)] else cited)])
  }

  /**
   Signatures are kept only where signed reasoning is configured, redacted data is kept in one form,
   and of cited text the text.
   */
  function Kept(cfg: Config, n: Native): Native {
    match n
    case NReasoning(text, _) => if cfg.signedReasoning then n else NReasoning(text, None)
    case NRedactedReasoning(data) => NRedacted(data)
    case NCited(Some(text), _) => NText(text)
    case _ => n
  }

  /** What the state machine demands of a block when `callIds` are taken. */
  predicate Allowed(cfg: Config, callIds: set<string>, n: Native) {
    match n
    case NText(_) => true
    case NTool(id, name, _) => id != "" && name != "" && id !in callIds
    case NReasoning(_, signature) => cfg.reasoning && signature != Some("")
    case NRedacted(data) => cfg.reasoning && cfg.signedReasoning && data != ""
    case NRedactedReasoning(data) => cfg.reasoning && cfg.signedReasoning && data != ""
    case NCited(content, _) => content.Some?
  }

  function CallId(n: Native): set<string> {
    if n.NTool? then {n.id} else {}
  }

  /** The state between two blocks: nothing open, and index `k` never used. */
  predicate Ready(s: Snapshot, k: U64) {
    && Open(s) && !s.done && s.blocks == map[] && s.blockOrder == map[]
    && k !in s.stoppedIndices && s.nextBlockOrder == k
  }

  function WithBlock(cfg: Config, s: Snapshot, k: U64, n: Native): Snapshot {
    s.(native := s.native[k := ToJson(Kept(cfg, n))],
       nextBlockOrder := SaturatingInc(k),
       stoppedIndices := s.stoppedIndices + {k},
       callIds := s.callIds + CallId(n))
  }

  // ------------------------------------------------------------ single events

  lemma TextEvent(cfg: Config, s: Snapshot, k: U64, text: string)
    requires Open(s) && !s.done
    ensures
      var e := Delta(k, Obj(map["text" := Str(text)]));
      ApplyEvent(cfg, s, e.kind, e.payload) == TextStep(s, k, text)
  {
    hide TextStep;
    var e := Delta(k, Obj(map["text" := Str(text)]));
    OneVariant(map["text" := Str(text)], "text");
    assert Index(e.payload) == Ok(k);
  }

  lemma ToolEvent(cfg: Config, s: Snapshot, k: U64, input: string)
    requires Open(s) && !s.done
    ensures
      var e := Delta(k, Obj(map["toolUse" := Obj(map["input" := Str(input)])]));
      ApplyEvent(cfg, s, e.kind, e.payload) == ToolStep(s, k, Some(input))
  {
    hide ToolStep;
    var e := Delta(k, Obj(map["toolUse" := Obj(map["input" := Str(input)])]));
    OneVariant(map["toolUse" := Obj(map["input" := Str(input)])], "toolUse");
    assert Index(e.payload) == Ok(k);
  }

  lemma ReasoningEvent(cfg: Config, s: Snapshot, k: U64, key: string, value: string)
    requires Open(s) && !s.done && key in REASONING_MEMBERS
    ensures
      var e := ReasoningDeltaEvent(k, key, Str(value));
      ApplyEvent(cfg, s, e.kind, e.payload) == ReasoningStep(cfg, s, k, Obj(map[key := Str(value)]))
  {
    hide ReasoningStep;
    var e := ReasoningDeltaEvent(k, key, Str(value));
    OneVariant(map["reasoningContent" := Obj(map[key := Str(value)])], "reasoningContent");
    assert Index(e.payload) == Ok(k);
  }

  lemma {:induction false} PresentNone(members: map<string, Json>, keys: seq<string>)
    requires forall k :: 0 <= k < |keys| ==> keys[k] !in members
    ensures Present(members, keys) == 0
  {
    if keys != [] {
      PresentNone(members, keys[1..]);
    }
  }

  lemma {:induction false} PresentOnce(members: map<string, Json>, keys: seq<string>, at: nat)
    requires at < |keys| && keys[at] in members
    requires forall k :: 0 <= k < |keys| && k != at ==> keys[k] !in members
    ensures Present(members, keys) == 1
  {
    if at == 0 {
      PresentNone(members, keys[1..]);
    } else {
      PresentOnce(members, keys[1..], at - 1);
    }
  }

  lemma OneVariant(members: map<string, Json>, key: string)
    requires members.Keys == {key}
    requires key in DELTA_VARIANTS
    ensures Present(members, DELTA_VARIANTS) == 1
  {
    PresentOnce(members, DELTA_VARIANTS,
                if key == "text" then 0 else if key == "toolUse" then 1
                else if key == "reasoningContent" then 2 else if key == "citation" then 3
                else if key == "image" then 4 else 5);
  }

  lemma OneMember(members: map<string, Json>, key: string)
    requires members.Keys == {key} && key in REASONING_MEMBERS
    ensures Present(members, REASONING_MEMBERS) == 1
  {
    PresentOnce(members, REASONING_MEMBERS,
                if key == "text" then 0 else if key == "signature" then 1
                else if key == "data" then 2 else 3);
  }

  /** Closing the only open block. */
  lemma StopOnly(cfg: Config, s: Snapshot, k: U64, block: Block, order: U64)
    requires Open(s) && !s.done && s.blocks == map[k := block] && s.blockOrder == map[k := order]
    requires k !in s.stoppedIndices
    ensures
      var e := StopEvent(k);
      var step := ApplyEvent(cfg, s, e.kind, e.payload);
      var closed := CloseBlock(cfg, s.callIds, block);
      if closed.Err? then step.Err?
      else step.Ok? && step.value.0 == s.(
        blocks := map[], blockOrder := map[], stoppedIndices := s.stoppedIndices + {k},
        native := s.native[order := closed.value.native], callIds := closed.value.callIds)
  {
    hide CloseBlock;
    var e := StopEvent(k);
    assert Index(e.payload) == Ok(k);
    assert s.blocks - {k} == map[] && s.blockOrder - {k} == map[];
  }

  lemma ApplyOne(cfg: Config, s: Snapshot, e: Synthetic)
    ensures ApplyAll(cfg, s, [e]) == ApplyEvent(cfg, s, e.kind, e.payload)
  {
    hide ApplyEvent;
    var step := ApplyEvent(cfg, s, e.kind, e.payload);
    assert [e][1..] == [];
    if step.Ok? {
      assert ApplyAll(cfg, step.value.0, []) == Ok((step.value.0, []));
      assert step.value.1 + [] == step.value.1;
    }
  }

  lemma ApplyThen(cfg: Config, s: Snapshot, e: Synthetic, rest: seq<Synthetic>)
    ensures
      var step := ApplyEvent(cfg, s, e.kind, e.payload);
      var all := ApplyAll(cfg, s, [e] + rest);
      if step.Err? then all.Err? else
        all.Ok? == ApplyAll(cfg, step.value.0, rest).Ok?
        && (all.Ok? ==> all.value.0 == ApplyAll(cfg, step.value.0, rest).value.0)
  {
    hide ApplyEvent;
    assert ([e] + rest)[1..] == rest;
  }

  // ------------------------------------------------------------ single blocks

  /** The block is accepted exactly when allowed, and is then kept as sent. */
  ghost predicate Handled(cfg: Config, s: Snapshot, k: U64, n: Native) {
    var events := BlockEvents(cfg.codec, k, ToJson(n));
    && events.Some?
    && var step := ApplyAll(cfg, s, events.value);
    && (step.Ok? <==> Allowed(cfg, s.callIds, n))
    && (step.Ok? ==> step.value.0 == WithBlock(cfg, s, k, n))
  }

  lemma HandleText(cfg: Config, s: Snapshot, k: U64, text: string)
    requires Ready(s, k)
    ensures Handled(cfg, s, k, NText(text))
  {
    hide ApplyAll, ApplyEvent;
    var n := NText(text);
    var first := Delta(k, Obj(map["text" := Str(text)]));
    assert ToJson(n).GetStr("text") == Some(text);
    assert BlockEvents(cfg.codec, k, ToJson(n)).value == [first] + [StopEvent(k)];
    TextEvent(cfg, s, k, text);
    var after := TextStep(s, k, text).value.0;
    ApplyThen(cfg, s, first, [StopEvent(k)]);
    ApplyOne(cfg, after, StopEvent(k));
    StopOnly(cfg, after, k, TextBlock("text-" + Decimal(k), text), k);
    assert s.callIds + {} == s.callIds;
  }

  /** One reasoning delta with a single string member. */
  lemma ReasoningGrows(cfg: Config, s: Snapshot, k: U64, key: string, value: string)
    requires Open(s) && !s.done && key in REASONING_MEMBERS
    requires k in s.blocks ==> s.blocks[k].ReasoningBlock?
    ensures
      var e := ReasoningDeltaEvent(k, key, Str(value));
      var step := ApplyEvent(cfg, s, e.kind, e.payload);
      var newborn := ReasoningBlock("reasoning-" + Decimal(k), "", None, None, false);
      var entered := if k in s.blocks then s else
        Reserve(s, k).value.(blocks := s.blocks[k := newborn]);
      var grown := GrowReasoning(entered.blocks[k], Obj(map[key := Str(value)]));
      if !cfg.reasoning || grown.Err? then step.Err?
      else step.Ok? && step.value.0 == entered.(blocks := entered.blocks[k := grown.value.0])
  {
    hide GrowReasoning;
    ReasoningEvent(cfg, s, k, key, value);
    OneMember(map[key := Str(value)], key);
  }

  lemma HandleTool(cfg: Config, s: Snapshot, k: U64, id: string, name: string, input: map<string, Json>)
    requires Ready(s, k) && cfg.codec.Lawful()
    ensures Handled(cfg, s, k, NTool(id, name, input))
  {
    hide ApplyAll, ApplyEvent;
    var n, raw := NTool(id, name, input), cfg.codec.render(Obj(input));
    var events := ToolEvents(cfg.codec, k, ToJson(n).members["toolUse"]);
    var first := Synthetic("contentBlockStart", Obj(map[
      "contentBlockIndex" := Num(Unsigned(k)),
      "start" := Obj(map["toolUse" := Obj(map["toolUseId" := Str(id), "name" := Str(name)])])]));
    var second := Delta(k, Obj(map["toolUse" := Obj(map["input" := Str(raw)])]));
    assert ToJson(n).GetStr("text").None? && ToJson(n).Get("toolUse").Some?;
    assert events == [first, second];
    assert BlockEvents(cfg.codec, k, ToJson(n)).value == [first] + ([second] + [StopEvent(k)]);
    ApplyThen(cfg, s, first, [second] + [StopEvent(k)]);
    ToolStarts(cfg, s, k, id, name);
    var started := ApplyEvent(cfg, s, first.kind, first.payload);
    if started.Ok? {
      var open := started.value.0;
      ApplyThen(cfg, open, second, [StopEvent(k)]);
      ToolEvent(cfg, open, k, raw);
      var after := ToolStep(open, k, Some(raw)).value.0;
      assert "" + raw == raw;
      ApplyOne(cfg, after, StopEvent(k));
      StopOnly(cfg, after, k, ToolBlock(id, name, raw), k);
    }
  }

  lemma ToolStarts(cfg: Config, s: Snapshot, k: U64, id: string, name: string)
    requires Ready(s, k)
    ensures
      var e := Synthetic("contentBlockStart", Obj(map[
        "contentBlockIndex" := Num(Unsigned(k)),
        "start" := Obj(map["toolUse" := Obj(map["toolUseId" := Str(id), "name" := Str(name)])])]));
      var step := ApplyEvent(cfg, s, e.kind, e.payload);
      var started := Reserve(s, k).value.(blocks := map[k := ToolBlock(id, name, "")]);
      if id == "" || name == "" || id in s.callIds then step.Err?
      else step.Ok? && step.value.0 == started
  {
    var tool := Obj(map["toolUseId" := Str(id), "name" := Str(name)]);
    var payload := Obj(map[
      "contentBlockIndex" := Num(Unsigned(k)), "start" := Obj(map["toolUse" := tool])]);
    var path := ["start", "toolUse"];
    assert path[1..] == ["toolUse"] && path[1..][1..] == [];
    assert payload.Pointer(path) == Some(tool) by {
      assert payload.Get("start").value.Pointer(["toolUse"]) == Some(tool);
    }
    assert Index(payload) == Ok(k);
  }

  function RedactedBlock(k: U64, data: string): Block {
    ReasoningBlock("reasoning-" + Decimal(k), "", None, Some(data), false)
  }

  lemma RedactedCloses(cfg: Config, s: Snapshot, k: U64, data: string)
    requires Ready(s, k) && cfg.reasoning && data != ""
    ensures
      var after := Reserve(s, k).value.(blocks := map[k := RedactedBlock(k, data)]);
      var step := ApplyAll(cfg, after, [StopEvent(k)]);
      && (step.Ok? <==> cfg.signedReasoning)
      && (step.Ok? ==> step.value.0 == WithBlock(cfg, s, k, NRedacted(data)))
  {
    hide ApplyAll, ApplyEvent;
    var after := Reserve(s, k).value.(blocks := map[k := RedactedBlock(k, data)]);
    ApplyOne(cfg, after, StopEvent(k));
    StopOnly(cfg, after, k, RedactedBlock(k, data), k);
    assert s.callIds + {} == s.callIds;
  }

  lemma HandleRedacted(cfg: Config, s: Snapshot, k: U64, data: string)
    requires Ready(s, k)
    ensures Handled(cfg, s, k, NRedacted(data))
  {
    hide ApplyAll, ApplyEvent, ToJson, WithBlock;
    var n := NRedacted(data);
    var first := ReasoningDeltaEvent(k, "redactedContent", Str(data));
    RedactedBlockEvents(cfg, k, n, data);
    hide BlockEvents;
    ApplyThen(cfg, s, first, [StopEvent(k)]);
    ReasoningGrows(cfg, s, k, "redactedContent", data);
    if cfg.reasoning && data != "" {
      assert ApplyEvent(cfg, s, first.kind, first.payload).value.0
        == Reserve(s, k).value.(blocks := map[k := RedactedBlock(k, data)]);
      RedactedCloses(cfg, s, k, data);
    }
  }

  /** The other form of redacted data is replayed as the same events. */
  lemma HandleRedactedReasoning(cfg: Config, s: Snapshot, k: U64, data: string)
    requires Ready(s, k)
    ensures Handled(cfg, s, k, NRedactedReasoning(data))
  {
    HandleRedacted(cfg, s, k, data);
    RedactedBlockEvents(cfg, k, NRedacted(data), data);
    RedactedBlockEvents(cfg, k, NRedactedReasoning(data), data);
    hide ApplyAll, BlockEvents, Ready;
  }

  lemma RedactedBlockEvents(cfg: Config, k: U64, n: Native, data: string)
    requires n in {NRedacted(data), NRedactedReasoning(data)}
    ensures BlockEvents(cfg.codec, k, ToJson(n)) ==
      Some([ReasoningDeltaEvent(k, "redactedContent", Str(data))] + [StopEvent(k)])
  {
    TwoSteps(ToJson(n).members["reasoningContent"], "redactedReasoning", "data");
    var reasoning := ToJson(n).members["reasoningContent"];
    assert ReasoningEvents(k, reasoning) == [ReasoningDeltaEvent(k, "redactedContent", Str(data))];
  }

  lemma HandleReasoning(cfg: Config, s: Snapshot, k: U64, text: string, signature: Option<string>)
    requires Ready(s, k)
    ensures Handled(cfg, s, k, NReasoning(text, signature))
  {
    hide ApplyAll, ApplyEvent;
    var n := NReasoning(text, signature);
    var first := ReasoningDeltaEvent(k, "text", Str(text));
    var id := "reasoning-" + Decimal(k);
    var events := ReasoningBlockEvents(cfg, k, text, signature);
    hide BlockEvents, ToJson;
    ApplyThen(cfg, s, first, events);
    ReasoningGrows(cfg, s, k, "text", text);
    assert "" + text == text;
    if cfg.reasoning {
      var seen := ReasoningBlock(id, text, None, None, true);
      var after := Reserve(s, k).value.(blocks := map[k := seen]);
      assert ApplyEvent(cfg, s, first.kind, first.payload).value.0 == after;
      HandleSignature(cfg, after, k, seen, signature);
      assert s.callIds + {} == s.callIds;
    }
  }

  /** The events of a reasoning block after its text. */
  function SignatureEvents(k: U64, signature: Option<string>): seq<Synthetic> {
    (if signature.Some? then [ReasoningDeltaEvent(k, "signature", Str(signature.value))] else [])
    + [StopEvent(k)]
  }

  lemma ReasoningBlockEvents(cfg: Config, k: U64, text: string, signature: Option<string>)
    returns (rest: seq<Synthetic>)
    ensures rest == SignatureEvents(k, signature)
    ensures BlockEvents(cfg.codec, k, ToJson(NReasoning(text, signature))) ==
      Some([ReasoningDeltaEvent(k, "text", Str(text))] + rest)
  {
    rest := SignatureEvents(k, signature);
    var n := NReasoning(text, signature);
    var reasoning := ToJson(n).members["reasoningContent"];
    var visible := reasoning.members["reasoningText"];
    assert visible.Get("text") == Some(Str(text));
    assert visible.Get("signature") == if signature.Some? then Some(Str(signature.value)) else None;
    assert BlockEvents(cfg.codec, k, ToJson(n)).value == ReasoningEvents(k, reasoning) + [StopEvent(k)];
    assert ReasoningEvents(k, reasoning) + [StopEvent(k)]
      == [ReasoningDeltaEvent(k, "text", Str(text))] + rest;
  }

  lemma HandleSignature(cfg: Config, s: Snapshot, k: U64, seen: Block, signature: Option<string>)
    requires Open(s) && !s.done && s.blocks == map[k := seen] && s.blockOrder == map[k := k]
    requires k !in s.stoppedIndices && cfg.reasoning
    requires seen.ReasoningBlock? && seen.signature.None? && seen.redacted.None? && seen.visibleStarted
    ensures
      var step := ApplyAll(cfg, s, SignatureEvents(k, signature));
      if signature == Some("") then step.Err?
      else step.Ok? && step.value.0 == s.(
        blocks := map[], blockOrder := map[], stoppedIndices := s.stoppedIndices + {k},
        native := s.native[k := ToJson(Kept(cfg, NReasoning(seen.text, signature)))])
  {
    hide ApplyAll, ApplyEvent;
    if signature.Some? {
      var e := ReasoningDeltaEvent(k, "signature", Str(signature.value));
      ApplyThen(cfg, s, e, [StopEvent(k)]);
      ReasoningGrows(cfg, s, k, "signature", signature.value);
      if signature.value != "" {
        var signed := seen.(signature := signature);
        var after := s.(blocks := map[k := signed]);
        assert ApplyEvent(cfg, s, e.kind, e.payload).value.0 == after;
        ApplyOne(cfg, after, StopEvent(k));
        StopOnly(cfg, after, k, signed, k);
      }
    } else {
      assert SignatureEvents(k, signature) == [StopEvent(k)];
      ApplyOne(cfg, s, StopEvent(k));
      StopOnly(cfg, s, k, seen, k);
    }
  }

  function CitationDelta(k: U64, citation: Json): Synthetic {
    Delta(k, Obj(map["citation" := citation]))
  }

  lemma CitationEvent(cfg: Config, s: Snapshot, k: U64, citation: Json)
    requires Open(s) && !s.done
    ensures
      var e := CitationDelta(k, citation);
      ApplyEvent(cfg, s, e.kind, e.payload).Ok? && ApplyEvent(cfg, s, e.kind, e.payload).value.0 == s
  {
    hide TextStep, ToolStep, ReasoningStep;
    var e := CitationDelta(k, citation);
    OneVariant(map["citation" := citation], "citation");
    assert Index(e.payload) == Ok(k);
  }

  /** Citations are told and leave the state alone. */
  lemma {:induction false} CitationsPass(cfg: Config, s: Snapshot, k: U64, citations: seq<Json>, rest: seq<Synthetic>)
    requires Open(s) && !s.done
    ensures
      var all, last := ApplyAll(cfg, s, CitationEvents(k, citations) + rest), ApplyAll(cfg, s, rest);
      all.Ok? == last.Ok? && (all.Ok? ==> all.value.0 == last.value.0)
  {
    hide ApplyEvent, ApplyAll, Delta;
    if citations == [] {
      assert [] + rest == rest;
    } else {
      var e := CitationDelta(k, citations[0]);
      var more := CitationEvents(k, citations[1..]);
      CitationEvent(cfg, s, k, citations[0]);
      CitationsPass(cfg, s, k, citations[1..], rest);
      ApplyThen(cfg, s, e, more + rest);
      assert CitationEvents(k, citations) + rest == [e] + (more + rest);
    }
  }

  lemma HandleCited(cfg: Config, s: Snapshot, k: U64, content: Option<string>, citations: seq<Json>)
    requires Ready(s, k)
    ensures Handled(cfg, s, k, NCited(content, citations))
  {
    hide ApplyAll, ApplyEvent, CitationEvents;
    var n, told := NCited(content, citations), CitationEvents(k, citations) + [StopEvent(k)];
    CitedBlockEvents(cfg, k, content, citations);
    hide BlockEvents, ToJson;
    if content.None? {
      assert [] + told == told;
      CitationsPass(cfg, s, k, citations, [StopEvent(k)]);
      ApplyOne(cfg, s, StopEvent(k));
      assert ApplyAll(cfg, s, [StopEvent(k)]).Err? by { StopsNothing(cfg, s, k); }
    } else {
      var text := content.value;
      var first := Delta(k, Obj(map["text" := Str(text)]));
      TextEvent(cfg, s, k, text);
      var after := TextStep(s, k, text).value.0;
      ApplyThen(cfg, s, first, told);
      CitationsPass(cfg, after, k, citations, [StopEvent(k)]);
      ApplyOne(cfg, after, StopEvent(k));
      StopOnly(cfg, after, k, TextBlock("text-" + Decimal(k), text), k);
      assert s.callIds + {} == s.callIds;
      assert ToJson(Kept(cfg, n)) == Obj(map["text" := Str(text)]) by { CitedIsText(cfg, text, citations); }
    }
  }

  lemma CitedIsText(cfg: Config, text: string, citations: seq<Json>)
    ensures ToJson(Kept(cfg, NCited(Some(text), citations))) == Obj(map["text" := Str(text)])
  {
  }

  lemma StopsNothing(cfg: Config, s: Snapshot, k: U64)
    requires k !in s.blocks
    ensures ApplyAll(cfg, s, [StopEvent(k)]).Err?
  {
    ApplyOne(cfg, s, StopEvent(k));
    assert Index(StopEvent(k).payload) == Ok(k);
  }

  lemma CitedBlockEvents(cfg: Config, k: U64, content: Option<string>, citations: seq<Json>)
    ensures BlockEvents(cfg.codec, k, ToJson(NCited(content, citations))) ==
      Some((if content.Some? then [Delta(k, Obj(map["text" := Str(content.value)]))] else [])
           + (CitationEvents(k, citations) + [StopEvent(k)]))
  {
    hide CitationEvents;
    var block := ToJson(NCited(content, citations));
    var cited := block.members["citationsContent"];
    assert AsArr(cited.Get("citations")) == Some(citations) && cited.GetStr("content") == content;
    var opening := if content.Some? then [Delta(k, Obj(map["text" := Str(content.value)]))] else [];
    assert BlockEvents(cfg.codec, k, block) == Some(opening + CitationEvents(k, citations) + [StopEvent(k)]);
    var told := CitationEvents(k, citations);
    assert opening + told + [StopEvent(k)] == opening + (told + [StopEvent(k)]);
  }

  lemma HandleBlock(cfg: Config, s: Snapshot, k: U64, n: Native)
    requires Ready(s, k) && cfg.codec.Lawful()
    ensures Handled(cfg, s, k, n)
  {
    hide Ready, Handled;
    match n
    case NText(text) => HandleText(cfg, s, k, text);
    case NTool(id, name, input) => HandleTool(cfg, s, k, id, name, input);
    case NReasoning(text, signature) => HandleReasoning(cfg, s, k, text, signature);
    case NRedacted(data) => HandleRedacted(cfg, s, k, data);
    case NRedactedReasoning(data) => HandleRedactedReasoning(cfg, s, k, data);
    case NCited(content, citations) => HandleCited(cfg, s, k, content, citations);
  }

  // ------------------------------------------------------------ whole content

  function Jsons(natives: seq<Native>): seq<Json> {
    seq(|natives|, i requires 0 <= i < |natives| => ToJson(natives[i]))
  }

  function KeptJsons(cfg: Config, natives: seq<Native>): seq<Json> {
    seq(|natives|, i requires 0 <= i < |natives| => ToJson(Kept(cfg, natives[i])))
  }

  /** The calls of the first `k` blocks. */
  ghost function CallsBefore(natives: seq<Native>, k: nat): set<string>
    requires k <= |natives|
  {
    if k == 0 then {} else CallsBefore(natives, k - 1) + CallId(natives[k - 1])
  }

  /** The demands on a response, block by block. */
  ghost predicate AllAllowed(cfg: Config, natives: seq<Native>, from: nat)
    requires from <= |natives|
  {
    forall k :: from <= k < |natives| ==> Allowed(cfg, CallsBefore(natives, k), natives[k])
  }

  /** The state after the first `k` blocks of a response. */
  predicate Holding(cfg: Config, natives: seq<Native>, s: Snapshot, k: nat)
    requires k <= |natives| < U64_SPAN - 1
  {
    && Ready(s, k)
    && (forall o: U64 :: o in s.native <==> o < k)
    && (forall o :: o in s.native ==> s.native[o] == ToJson(Kept(cfg, natives[o])))
    && (forall o :: o in s.stoppedIndices ==> o < k)
  }

  lemma HoldingIsReady(cfg: Config, natives: seq<Native>, s: Snapshot, k: nat)
    requires k <= |natives| < U64_SPAN - 1 && Holding(cfg, natives, s, k)
    ensures Ready(s, k) && forall o :: o in s.stoppedIndices ==> o < k
  {
  }

  lemma HoldsOneMore(cfg: Config, natives: seq<Native>, s: Snapshot, after: Snapshot, k: nat)
    requires k < |natives| < U64_SPAN - 1 && Holding(cfg, natives, s, k) && Ready(after, k + 1)
    requires after.native == s.native[k := ToJson(Kept(cfg, natives[k]))]
    requires after.stoppedIndices == s.stoppedIndices + {k}
    ensures Holding(cfg, natives, after, k + 1)
  {
    hide ToJson, Kept, Ready;
  }

  lemma {:induction false} HandleContent(cfg: Config, natives: seq<Native>, s: Snapshot, k: nat)
    requires cfg.codec.Lawful() && k <= |natives| < U64_SPAN - 1
    requires Holding(cfg, natives, s, k) && s.callIds == CallsBefore(natives, k)
    ensures
      var step := ApplyContent(cfg, s, Jsons(natives), k);
      && (step.Ok? <==> AllAllowed(cfg, natives, k))
      && (step.Ok? ==> Holding(cfg, natives, step.value.0, |natives|))
    decreases |natives| - k
  {
    hide BlockEvents, ApplyAll, Allowed, ToJson, Kept;
    if k < |natives| {
      HoldingIsReady(cfg, natives, s, k);
      hide Holding;
      HandleBlock(cfg, s, k, natives[k]);
      var step := ApplyAll(cfg, s, BlockEvents(cfg.codec, k, ToJson(natives[k])).value);
      if step.Ok? {
        HoldsOneMore(cfg, natives, s, step.value.0, k);
        HandleContent(cfg, natives, step.value.0, k + 1);
      }
    }
  }

  /** Stop reason and usage of a response that ends in the ordinary way. */
  predicate OrdinaryEnd(value: Json) {
    && value.GetStr("stopReason").Some? && value.GetStr("stopReason") != Some("")
    && !Malformed(value.GetStr("stopReason").value)
    && ParseUsage(value.Get("usage")).Ok?
  }

  lemma Ending(cfg: Config, natives: seq<Native>, s: Snapshot, value: Json)
    requires |natives| < U64_SPAN - 1 && Holding(cfg, natives, s, |natives|)
    requires OrdinaryEnd(value) && cfg.policy != Never
    ensures
      var payload := ReplayPayload(KeptJsons(cfg, natives));
      var step := ApplyAll(cfg, s, ClosingEvents(value));
      && (step.Ok? <==> cfg.fits(payload))
      && (step.Ok? ==> step.value.1 != [] && Captured(step.value.1, payload))
  {
    hide ApplyAll, ApplyEvent;
    var events := ClosingEvents(value);
    assert events == [events[0]] + [events[1]];
    ApplyThen(cfg, s, events[0], [events[1]]);
    StopMessage(cfg, s, value);
    var stopped := ApplyEvent(cfg, s, events[0].kind, events[0].payload).value.0;
    NativeInOrder(cfg, natives, s);
    EndResponse(cfg, stopped, value, ReplayPayload(KeptJsons(cfg, natives)));
    EndOnly(cfg, s, stopped, events);
  }

  /** The last part finishes the response and carries `payload` for replay. */
  predicate Captured(parts: seq<StreamPart>, payload: Json)
    requires parts != []
  {
    var last := parts[|parts| - 1];
    last.Finished? && last.finish.nativeReplay.Some?
    && last.finish.nativeReplay.value.payload == payload
  }

  lemma StopMessage(cfg: Config, s: Snapshot, value: Json)
    requires Open(s) && !s.done && s.blocks == map[]
    requires value.GetStr("stopReason").Some? && value.GetStr("stopReason") != Some("")
    ensures
      var e := ClosingEvents(value)[0];
      var step := ApplyEvent(cfg, s, e.kind, e.payload);
      && step.Ok? && step.value.1 == [] && step.value.0.messageStopped && !step.value.0.done
      && step.value.0.stopReason == value.GetStr("stopReason")
      && step.value.0.native == s.native
  {
  }

  lemma EndResponse(cfg: Config, s: Snapshot, value: Json, payload: Json)
    requires s.messageStopped && !s.done && cfg.policy != Never && OrdinaryEnd(value)
    requires s.stopReason == value.GetStr("stopReason")
    requires payload == ReplayPayload(Ascending(s.native, U64_SPAN))
    ensures
      var step := ApplyEvent(cfg, s, "metadata", value);
      && (step.Ok? <==> cfg.fits(payload))
      && (step.Ok? ==> step.value.1 != [] && Captured(step.value.1, payload))
  {
    hide ParseUsage, WithMetrics, Ascending, ReplayPayload;
  }

  lemma EndOnly(cfg: Config, s: Snapshot, stopped: Snapshot, events: seq<Synthetic>)
    requires |events| == 2
    requires ApplyEvent(cfg, s, events[0].kind, events[0].payload) == Ok((stopped, []))
    ensures
      var step := ApplyEvent(cfg, stopped, events[1].kind, events[1].payload);
      var all := ApplyAll(cfg, s, events);
      if step.Err? then all == Err(step.error) else all == step
  {
    hide ApplyEvent;
    assert events[1..] == [events[1]];
    var step := ApplyEvent(cfg, stopped, events[1].kind, events[1].payload);
    ApplyOne(cfg, stopped, events[1]);
    if step.Ok? {
      assert [] + step.value.1 == step.value.1;
    }
  }

  lemma NativeInOrder(cfg: Config, natives: seq<Native>, s: Snapshot)
    requires |natives| < U64_SPAN - 1 && Holding(cfg, natives, s, |natives|)
    ensures Ascending(s.native, U64_SPAN) == KeptJsons(cfg, natives)
  {
    hide ToJson, Kept, Ready, Ascending;
    forall o | 0 <= o < |natives| ensures o in s.native {
      var order: U64 := o;
      assert order in s.native;
    }
    AscendingStops(s.native, |natives|, U64_SPAN);
    AscendingDense(s.native, |natives|);
  }

  /**
   A response whose content is made of well-shaped blocks and that ends in the ordinary way is
   accepted exactly when its reasoning is declared, its signatures and redacted data are not
   empty, its tool calls are named, with different IDs, its citations come with text, and its
   payload fits. The payload then holds the response's own content, with signatures only where they
   are configured and cited text without its citations.
   */
  lemma ResponseIsCapturedAsSent(
    cfg: Config, value: Json, requestId: Option<string>, includeRaw: bool, natives: seq<Native>)
    requires cfg.codec.Lawful() && cfg.policy != Never && |natives| < U64_SPAN - 1
    requires AsStr(value.Pointer(["output", "message", "role"])) == Some("assistant")
    requires value.Pointer(["output", "message", "content"]) == Some(Arr(Jsons(natives)))
    requires OrdinaryEnd(value)
    ensures
      var payload := ReplayPayload(KeptJsons(cfg, natives));
      var step := Normalize(cfg, value, requestId, includeRaw);
      && (step.Ok? <==> AllAllowed(cfg, natives, 0) && cfg.fits(payload))
      && (step.Ok? ==> step.value.1 != [] && Captured(step.value.1, payload))
  {
    hide ApplyAll, ApplyContent, AllAllowed, OrdinaryEnd, ReplayPayload;
    var s := Initial(requestId);
    var started := s.(messageStarted := true);
    assert ApplyAll(cfg, s, [MESSAGE_START]) == Ok((started, [])) by { Starting(cfg, s); }
    assert Holding(cfg, natives, started, 0);
    HandleContent(cfg, natives, started, 0);
    var content := ApplyContent(cfg, started, Jsons(natives), 0);
    if content.Ok? {
      Ending(cfg, natives, content.value.0, value);
      var closed := ApplyAll(cfg, content.value.0, ClosingEvents(value));
      if closed.Ok? {
        var parts := Normalize(cfg, value, requestId, includeRaw).value.1;
        assert parts[|parts| - 1] == closed.value.1[|closed.value.1| - 1];
      }
    }
  }

  lemma Starting(cfg: Config, s: Snapshot)
    requires !s.messageStarted && !s.messageStopped && s.blocks == map[] && !s.done
    ensures ApplyAll(cfg, s, [MESSAGE_START]) == Ok((s.(messageStarted := true), []))
  {
    ApplyOne(cfg, s, MESSAGE_START);
  }
}
