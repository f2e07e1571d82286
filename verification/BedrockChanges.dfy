/**
 Every accepted Bedrock event is a short sequence of elementary changes, each telling the reader
 of the parts exactly what it did. Properties of whole runs are proved change by change.
 */
module BedrockChanges {
  import opened Wrappers
  import opened Json
  import opened Parts
  import opened Conformance
  import opened BedrockStream
  import opened BedrockTrack

  /** The part of the state the content of the message lives in. */
  datatype Core = Core(
    blocks: Blocks, blockOrder: map<U64, U64>, native: map<U64, Json>, next: U64,
    callIds: set<string>)

  function CoreOf(s: Snapshot): Core {
    Core(s.blocks, s.blockOrder, s.native, s.nextBlockOrder, s.callIds)
  }

  datatype Change =
    | Said(part: StreamPart)
    | Show(i: U64, b: Block)
    | Hide(i: U64, b: Block)
    | Grow(i: U64, b: Block, delta: string)
    | Close(i: U64)

  predicate Neutral(part: StreamPart) {
    part.SourceFound? || part.ProviderEvent? || part.Raw?
  }

  ghost predicate Enabled(cfg: Config, c: Core, ch: Change) {
    match ch
    case Said(part) => Neutral(part)
    case Show(i, b) =>
      && KindOf(b) != KHidden && TextOf(b) == ""
      && (i in c.blocks ==> KindOf(c.blocks[i]) == KHidden && b.ReasoningBlock?)
      && Named(map[i := b])
    case Hide(i, b) => i !in c.blocks && KindOf(b) == KHidden && b.text == "" && Named(map[i := b])
    case Grow(i, b, delta) =>
      && i in c.blocks && KindOf(b) == KindOf(c.blocks[i]) && b.id == c.blocks[i].id
      && TextOf(b) == TextOf(c.blocks[i]) + delta
      && (KindOf(b) == KHidden ==> delta == "")
    case Close(i) => i in c.blocks && CloseBlock(cfg, c.callIds, c.blocks[i]).Ok?
  }

  function After(cfg: Config, c: Core, ch: Change): Core {
    match ch
    case Said(_) => c
    case Show(i, b) =>
      if i in c.blocks then c.(blocks := c.blocks[i := b]) else Opened(c, i, b)
    case Hide(i, b) => Opened(c, i, b)
    case Grow(i, b, _) => c.(blocks := c.blocks[i := b])
    case Close(i) =>
      if i !in c.blocks || CloseBlock(cfg, c.callIds, c.blocks[i]).Err? then c else
        var closed := CloseBlock(cfg, c.callIds, c.blocks[i]).value;
        var order := if i in c.blockOrder then c.blockOrder[i] else c.next;
        c.(blocks := c.blocks - {i}, blockOrder := c.blockOrder - {i},
           native := c.native[order := closed.native], callIds := closed.callIds)
  }

  function Opened(c: Core, i: U64, b: Block): Core {
    c.(blocks := c.blocks[i := b], blockOrder := c.blockOrder[i := c.next],
       next := SaturatingInc(c.next))
  }

  /** What the reader is told. */
  function Told(cfg: Config, c: Core, ch: Change): seq<StreamPart> {
    match ch
    case Said(part) => [part]
    case Show(i, b) => if KindOf(b) == KHidden then [] else [StartPart(b)]
    case Hide(_, _) => []
    case Grow(_, b, delta) =>
      if delta == "" || KindOf(b) == KHidden then [] else [DeltaPart(b, delta)]
    case Close(i) =>
      if i !in c.blocks || CloseBlock(cfg, c.callIds, c.blocks[i]).Err? then []
      else CloseBlock(cfg, c.callIds, c.blocks[i]).value.parts
  }

  /** `changes` lead from `c` to `d` and tell the reader `parts`. */
  ghost predicate Plays(cfg: Config, c: Core, changes: seq<Change>, d: Core, parts: seq<StreamPart>)
    decreases |changes|
  {
    if changes == [] then c == d && parts == []
    else
      var told := Told(cfg, c, changes[0]);
      Enabled(cfg, c, changes[0]) && told <= parts
      && Plays(cfg, After(cfg, c, changes[0]), changes[1..], d, parts[|told|..])
  }

  /** A hidden block is shown, if at all, before any later block opens. */
  ghost predicate Timely(c: Core, ch: Change) {
    ch.Show? && ch.i in c.blocks ==> ch.i in c.blockOrder && c.blockOrder[ch.i] as int + 1 == c.next
  }

  ghost predicate AllTimely(cfg: Config, c: Core, changes: seq<Change>)
    decreases |changes|
  {
    changes == [] || (Timely(c, changes[0]) && AllTimely(cfg, After(cfg, c, changes[0]), changes[1..]))
  }

  lemma OneTimely(cfg: Config, c: Core, ch: Change)
    requires Timely(c, ch)
    ensures AllTimely(cfg, c, [ch])
  {
    assert [ch][1..] == [];
  }

  lemma MoreTimely(cfg: Config, c: Core, ch: Change, changes: seq<Change>)
    requires Timely(c, ch) && AllTimely(cfg, After(cfg, c, ch), changes)
    ensures AllTimely(cfg, c, [ch] + changes)
  {
    assert ([ch] + changes)[1..] == changes;
  }

  /** If `i` holds a hidden block, it is the newest one. */
  ghost predicate OnTime(c: Core, i: U64) {
    i in c.blocks && KindOf(c.blocks[i]) == KHidden ==>
      i in c.blockOrder && c.blockOrder[i] as int + 1 == c.next
  }

  /** The changes are to the block at one index, none closes it; without an index nothing changes. */
  predicate About(changes: seq<Change>, index: Result<U64, Fault>) {
    forall k :: 0 <= k < |changes| ==>
      changes[k].Said? || (!changes[k].Close? && index.Ok? && changes[k].i == index.value)
  }

  // --------------------------------------------------------- order of showing

  /** The place of a block in the message. */
  function OrderOf(c: Core, i: U64): U64 {
    if i in c.blockOrder then c.blockOrder[i] else c.next
  }

  predicate Visible(c: Core, i: U64) {
    i in c.blocks && KindOf(c.blocks[i]) != KHidden
  }

  /** The place of the block at an index, if it has come to be shown. */
  function NewlyShown(c: Core, d: Core, i: U64): seq<U64> {
    if Visible(d, i) && !Visible(c, i) then [OrderOf(d, i)] else []
  }

  function Shown(cfg: Config, c: Core, ch: Change): seq<U64> {
    if ch.Show? then [OrderOf(After(cfg, c, ch), ch.i)] else []
  }

  /** The places of the blocks that changes show, in the order they are shown. */
  function ShownBy(cfg: Config, c: Core, changes: seq<Change>): seq<U64>
    decreases |changes|
  {
    if changes == [] then []
    else Shown(cfg, c, changes[0]) + ShownBy(cfg, After(cfg, c, changes[0]), changes[1..])
  }

  /** A change that closes nothing leaves shown blocks shown, at their places. */
  lemma ShowsOne(cfg: Config, c: Core, ch: Change, i: U64)
    requires Enabled(cfg, c, ch) && !ch.Close? && (ch.Said? || ch.i == i)
    ensures Shown(cfg, c, ch) == NewlyShown(c, After(cfg, c, ch), i)
    ensures Visible(c, i) ==> Visible(After(cfg, c, ch), i) && OrderOf(After(cfg, c, ch), i) == OrderOf(c, i)
  {
  }

  /** Changes about one index show at most the block at that index. */
  lemma {:induction false} AboutShows(
    cfg: Config, c: Core, changes: seq<Change>, d: Core, parts: seq<StreamPart>, index: Result<U64, Fault>)
    requires Plays(cfg, c, changes, d, parts) && About(changes, index)
    ensures ShownBy(cfg, c, changes) == if index.Ok? then NewlyShown(c, d, index.value) else []
    ensures index.Ok? && Visible(c, index.value) ==>
      Visible(d, index.value) && OrderOf(d, index.value) == OrderOf(c, index.value)
    decreases |changes|
  {
    hide Enabled, After, Told, Visible, OrderOf;
    if changes != [] {
      var ch := changes[0];
      if index.Ok? {
        ShowsOne(cfg, c, ch, index.value);
      }
      AboutShows(cfg, After(cfg, c, ch), changes[1..], d, parts[|Told(cfg, c, ch)|..], index);
    }
  }

  lemma CloseShows(cfg: Config, c: Core, i: U64, d: Core, parts: seq<StreamPart>)
    requires Plays(cfg, c, [Close(i)], d, parts)
    ensures ShownBy(cfg, c, [Close(i)]) == NewlyShown(c, d, i) == []
  {
    hide CloseBlock;
    assert [Close(i)][1..] == [];
  }

  lemma PlayNone(cfg: Config, c: Core)
    ensures Plays(cfg, c, [], c, [])
  {
  }

  lemma PlayOne(cfg: Config, c: Core, ch: Change)
    requires Enabled(cfg, c, ch)
    ensures Plays(cfg, c, [ch], After(cfg, c, ch), Told(cfg, c, ch))
  {
    assert [ch][1..] == [];
    assert Told(cfg, c, ch)[|Told(cfg, c, ch)|..] == [];
  }

  lemma PlayMore(cfg: Config, c: Core, ch: Change, changes: seq<Change>, d: Core, parts: seq<StreamPart>)
    requires Enabled(cfg, c, ch)
    requires Plays(cfg, After(cfg, c, ch), changes, d, parts)
    ensures Plays(cfg, c, [ch] + changes, d, Told(cfg, c, ch) + parts)
  {
    var told := Told(cfg, c, ch);
    assert ([ch] + changes)[1..] == changes;
    assert (told + parts)[|told|..] == parts;
  }

  lemma PlayTwo(cfg: Config, c: Core, first: Change, second: Change)
    requires Enabled(cfg, c, first) && Enabled(cfg, After(cfg, c, first), second)
    ensures
      var middle := After(cfg, c, first);
      Plays(cfg, c, [first] + [second], After(cfg, middle, second),
            Told(cfg, c, first) + Told(cfg, middle, second))
  {
    hide Told, Enabled, After;
    var middle := After(cfg, c, first);
    PlayOne(cfg, middle, second);
    PlayMore(cfg, c, first, [second], After(cfg, middle, second), Told(cfg, middle, second));
  }

  // ------------------------------------------------- events as changes

  lemma TextChanges(cfg: Config, s: Snapshot, i: U64, text: string) returns (changes: seq<Change>)
    requires TextStep(s, i, text).Ok?
    ensures
      var (after, parts) := TextStep(s, i, text).value;
      Plays(cfg, CoreOf(s), changes, CoreOf(after), parts)
    ensures AllTimely(cfg, CoreOf(s), changes) && About(changes, Ok(i))
  {
    hide Plays, AllTimely;
    var c := CoreOf(s);
    if i in s.blocks {
      var b := s.blocks[i];
      var grow := Grow(i, TextBlock(b.id, b.text + text), text);
      PlayOne(cfg, c, grow);
      OneTimely(cfg, c, grow);
      changes := [grow];
    } else {
      changes := OpenTextChanges(cfg, s, i, text);
    }
  }

  lemma OpenTextChanges(cfg: Config, s: Snapshot, i: U64, text: string) returns (changes: seq<Change>)
    requires i !in s.blocks
    ensures
      var (after, parts) := TextStep(s, i, text).value;
      Plays(cfg, CoreOf(s), changes, CoreOf(after), parts)
    ensures AllTimely(cfg, CoreOf(s), changes) && About(changes, Ok(i))
  {
    hide Plays, AllTimely;
    var (after, parts) := TextStep(s, i, text).value;
    var c, id := CoreOf(s), "text-" + Decimal(i);
    var show, grow := Show(i, TextBlock(id, "")), Grow(i, TextBlock(id, text), text);
    assert "" + text == text;
    PlayTwo(cfg, c, show, grow);
    var middle := After(cfg, c, show);
    assert middle.blocks[i := TextBlock(id, text)] == c.blocks[i := TextBlock(id, text)];
    assert After(cfg, middle, grow) == CoreOf(after);
    assert Told(cfg, c, show) + Told(cfg, middle, grow) == parts;
    OneTimely(cfg, middle, grow);
    MoreTimely(cfg, c, show, [grow]);
    changes := [show] + [grow];
  }

  lemma ToolChanges(cfg: Config, s: Snapshot, i: U64, input: Option<string>)
    returns (changes: seq<Change>)
    requires ToolStep(s, i, input).Ok?
    ensures
      var (after, parts) := ToolStep(s, i, input).value;
      Plays(cfg, CoreOf(s), changes, CoreOf(after), parts)
    ensures AllTimely(cfg, CoreOf(s), changes) && About(changes, Ok(i))
  {
    var b := s.blocks[i];
    var grow := Grow(i, ToolBlock(b.id, b.name, b.input + input.value), input.value);
    PlayOne(cfg, CoreOf(s), grow);
    OneTimely(cfg, CoreOf(s), grow);
    changes := [grow];
  }

  /** Growing a reasoning block that is already open. */
  lemma GrowChanges(cfg: Config, c: Core, i: U64, reasoning: Json) returns (changes: seq<Change>)
    requires i in c.blocks && c.blocks[i].ReasoningBlock? && Named(c.blocks)
    requires KindOf(c.blocks[i]) == KHidden ==> c.blocks[i].text == ""
    requires GrowReasoning(c.blocks[i], reasoning).Ok?
    ensures
      var (b, parts) := GrowReasoning(c.blocks[i], reasoning).value;
      Plays(cfg, c, changes, c.(blocks := c.blocks[i := b]), parts)
    ensures reasoning.GetStr("text").None? || OnTime(c, i) ==> AllTimely(cfg, c, changes)
    ensures About(changes, Ok(i))
  {
    hide Plays, AllTimely;
    var was := c.blocks[i];
    var (b, parts) := GrowReasoning(was, reasoning).value;
    if reasoning.GetStr("text").Some? && !was.visibleStarted {
      assert "" + reasoning.GetStr("text").value == reasoning.GetStr("text").value;
      changes := FirstTextChanges(cfg, c, i, reasoning.GetStr("text").value);
    } else {
      var delta := if reasoning.GetStr("text").Some? then reasoning.GetStr("text").value else "";
      assert was.text + "" == was.text;
      var grow := Grow(i, b, delta);
      PlayOne(cfg, c, grow);
      assert Told(cfg, c, grow) == parts;
      OneTimely(cfg, c, grow);
      changes := [grow];
    }
  }

  /** The first text delta of a reasoning block makes it visible. */
  lemma FirstTextChanges(cfg: Config, c: Core, i: U64, text: string) returns (changes: seq<Change>)
    requires i in c.blocks && c.blocks[i].ReasoningBlock? && Named(c.blocks)
    requires KindOf(c.blocks[i]) == KHidden && c.blocks[i].text == ""
    ensures
      var was := c.blocks[i];
      Plays(cfg, c, changes,
            c.(blocks := c.blocks[i := was.(text := text, visibleStarted := true)]),
            [ReasoningStart(was.id, None)]
            + NonEmptyDelta(text, ReasoningDelta(was.id, text, None)))
    ensures OnTime(c, i) ==> AllTimely(cfg, c, changes)
    ensures About(changes, Ok(i))
  {
    hide Plays, AllTimely;
    var was := c.blocks[i];
    var seen, grown := was.(visibleStarted := true), was.(text := text, visibleStarted := true);
    var show, grow := Show(i, seen), Grow(i, grown, text);
    assert "" + text == text;
    assert Named(map[i := seen]);
    PlayTwo(cfg, c, show, grow);
    var middle := After(cfg, c, show);
    assert middle.blocks[i := grown] == c.blocks[i := grown];
    if OnTime(c, i) {
      OneTimely(cfg, middle, grow);
      MoreTimely(cfg, c, show, [grow]);
    }
    changes := [show] + [grow];
  }

  lemma ReasoningChanges(cfg: Config, s: Snapshot, i: U64, reasoning: Json)
    returns (changes: seq<Change>)
    requires ReasoningStep(cfg, s, i, reasoning).Ok? && Named(s.blocks)
    requires i in s.blocks && KindOf(s.blocks[i]) == KHidden ==> s.blocks[i].text == ""
    ensures
      var (after, parts) := ReasoningStep(cfg, s, i, reasoning).value;
      Plays(cfg, CoreOf(s), changes, CoreOf(after), parts)
    ensures
      (reasoning.GetStr("text").None? || OnTime(CoreOf(s), i)) && s.nextBlockOrder + 1 < U64_SPAN
      ==> AllTimely(cfg, CoreOf(s), changes)
    ensures About(changes, Ok(i))
  {
    hide GrowReasoning, Plays, AllTimely;
    var c, parts := CoreOf(s), ReasoningStep(cfg, s, i, reasoning).value.1;
    if i in s.blocks {
      changes := GrowChanges(cfg, c, i, reasoning);
    } else {
      var b := ReasoningBlock("reasoning-" + Decimal(i), "", None, None, false);
      var veil := Hide(i, b);
      var hidden := After(cfg, c, veil);
      var rest := GrowChanges(cfg, hidden, i, reasoning);
      var d := hidden.(blocks := hidden.blocks[i := GrowReasoning(b, reasoning).value.0]);
      PlayMore(cfg, c, veil, rest, d, parts);
      assert Told(cfg, c, veil) + parts == parts;
      if s.nextBlockOrder + 1 < U64_SPAN {
        MoreTimely(cfg, c, veil, rest);
      }
      changes := [veil] + rest;
    }
  }

  /** A content delta that reveals a hidden reasoning block after a later block has opened. */
  ghost predicate LateReveal(s: Snapshot, payload: Json) {
    var index := Index(payload);
    var reasoning := payload.Pointer(["delta", "reasoningContent"]);
    && index.Ok? && reasoning.Some? && reasoning.value.GetStr("text").Some?
    && !OnTime(CoreOf(s), index.value)
  }

  /** Hidden blocks have no text. */
  ghost predicate Quiet(blocks: Blocks) {
    forall i :: i in blocks && KindOf(blocks[i]) == KHidden ==> blocks[i].text == ""
  }

  lemma ReasoningPointer(payload: Json)
    requires AsObj(payload.Get("delta")).Some?
    ensures payload.Pointer(["delta", "reasoningContent"])
      == Obj(AsObj(payload.Get("delta")).value).Get("reasoningContent")
  {
    var path := ["delta", "reasoningContent"];
    assert path[1..] == ["reasoningContent"] && path[1..][1..] == [];
    var delta := payload.Get("delta").value;
    assert delta.Pointer(["reasoningContent"]) == delta.Get("reasoningContent");
  }

  lemma DeltaChanges(cfg: Config, s: Snapshot, payload: Json) returns (changes: seq<Change>)
    requires BlockDelta(cfg, s, payload).Ok? && Named(s.blocks) && Quiet(s.blocks)
    ensures
      var (after, parts) := BlockDelta(cfg, s, payload).value;
      Plays(cfg, CoreOf(s), changes, CoreOf(after), parts)
    ensures !LateReveal(s, payload) && s.nextBlockOrder + 1 < U64_SPAN
      ==> AllTimely(cfg, CoreOf(s), changes)
    ensures About(changes, Index(payload))
  {
    hide Plays, AllTimely, OnTime;
    hide TextStep, ToolStep, ReasoningStep;
    var member, i := Obj(AsObj(payload.Get("delta")).value), Index(payload).value;
    if member.GetStr("text").Some? {
      changes := TextChanges(cfg, s, i, member.GetStr("text").value);
    } else if member.Get("toolUse").Some? {
      changes := ToolChanges(cfg, s, i, member.Get("toolUse").value.GetStr("input"));
    } else if member.Get("reasoningContent").Some? {
      ReasoningPointer(payload);
      changes := ReasoningChanges(cfg, s, i, member.Get("reasoningContent").value);
    } else {
      var said := Said(BlockDelta(cfg, s, payload).value.1[0]);
      PlayOne(cfg, CoreOf(s), said);
      OneTimely(cfg, CoreOf(s), said);
      changes := [said];
    }
  }

  /** An accepted event that does not end the response, as elementary changes. */
  lemma EventChanges(cfg: Config, s: Snapshot, kind: string, payload: Json)
    returns (changes: seq<Change>)
    requires ApplyEvent(cfg, s, kind, payload).Ok? && Named(s.blocks) && Quiet(s.blocks)
    requires !ApplyEvent(cfg, s, kind, payload).value.0.done
    ensures
      var (after, parts) := ApplyEvent(cfg, s, kind, payload).value;
      Plays(cfg, CoreOf(s), changes, CoreOf(after), parts)
    ensures
      (kind == "contentBlockDelta" ==> !LateReveal(s, payload)) && s.nextBlockOrder + 1 < U64_SPAN
      ==> AllTimely(cfg, CoreOf(s), changes)
    ensures if kind == "contentBlockStop" then Index(payload).Ok? && changes == [Close(Index(payload).value)]
      else About(changes, Index(payload))
  {
    hide BlockDelta, BlockStart, BlockStop, MetadataEvent, Plays, LateReveal;
    hide MessageStart, MessageStop, AllTimely, About, Index;
    if kind == "contentBlockStart" {
      changes := StartChanges(cfg, s, payload);
    } else if kind == "contentBlockDelta" {
      changes := DeltaChanges(cfg, s, payload);
    } else if kind == "contentBlockStop" {
      StopChanges(cfg, s, payload);
      changes := [Close(Index(payload).value)];
    } else {
      changes := OtherChanges(cfg, s, kind, payload);
    }
  }

  /** Events that concern no block. */
  lemma OtherChanges(cfg: Config, s: Snapshot, kind: string, payload: Json)
    returns (changes: seq<Change>)
    requires ApplyEvent(cfg, s, kind, payload).Ok? && !ApplyEvent(cfg, s, kind, payload).value.0.done
    requires kind !in {"contentBlockStart", "contentBlockDelta", "contentBlockStop"}
    ensures
      var (after, parts) := ApplyEvent(cfg, s, kind, payload).value;
      Plays(cfg, CoreOf(s), changes, CoreOf(after), parts)
    ensures AllTimely(cfg, CoreOf(s), changes) && About(changes, Index(payload))
  {
    hide MetadataEvent, Plays, MessageStart, MessageStop, AllTimely, Index;
    changes := [];
    PlayNone(cfg, CoreOf(s));
    NoneTimely(cfg, CoreOf(s));
    if kind == "metadata" {
      MetadataEnds(cfg, s, payload);
    } else if kind == "messageStart" || kind == "messageStop" {
      BracketsSayNothing(s, payload);
    } else if kind !in EXCEPTIONS {
      var said := Said(ProviderEvent(kind, payload));
      SayOne(cfg, CoreOf(s), said.part);
      changes := [said];
    }
  }

  lemma SayOne(cfg: Config, c: Core, part: StreamPart)
    requires Neutral(part)
    ensures Plays(cfg, c, [Said(part)], c, [part])
    ensures AllTimely(cfg, c, [Said(part)])
  {
    PlayOne(cfg, c, Said(part));
    OneTimely(cfg, c, Said(part));
  }

  lemma BracketsSayNothing(s: Snapshot, payload: Json)
    ensures MessageStart(s, payload).Ok? ==>
      CoreOf(MessageStart(s, payload).value.0) == CoreOf(s) && MessageStart(s, payload).value.1 == []
    ensures MessageStop(s, payload).Ok? ==>
      CoreOf(MessageStop(s, payload).value.0) == CoreOf(s) && MessageStop(s, payload).value.1 == []
  {
  }

  lemma NoneTimely(cfg: Config, c: Core)
    ensures AllTimely(cfg, c, [])
  {
  }

  lemma StartChanges(cfg: Config, s: Snapshot, payload: Json) returns (changes: seq<Change>)
    requires BlockStart(s, payload).Ok?
    ensures
      var (after, parts) := BlockStart(s, payload).value;
      Plays(cfg, CoreOf(s), changes, CoreOf(after), parts)
    ensures AllTimely(cfg, CoreOf(s), changes) && About(changes, Index(payload))
  {
    hide BlockStart, Plays, AllTimely, Told, Enabled, After;
    var start := StartChange(cfg, s, payload);
    PlayOne(cfg, CoreOf(s), start);
    OneTimely(cfg, CoreOf(s), start);
    changes := [start];
  }

  lemma StopChanges(cfg: Config, s: Snapshot, payload: Json)
    requires BlockStop(cfg, s, payload).Ok?
    ensures Index(payload).Ok?
    ensures
      var (after, parts) := BlockStop(cfg, s, payload).value;
      Plays(cfg, CoreOf(s), [Close(Index(payload).value)], CoreOf(after), parts)
    ensures AllTimely(cfg, CoreOf(s), [Close(Index(payload).value)])
  {
    hide BlockStop, Plays, AllTimely, Told, Enabled, After;
    var i := StopChange(cfg, s, payload);
    PlayOne(cfg, CoreOf(s), Close(i));
    OneTimely(cfg, CoreOf(s), Close(i));
  }

  lemma StartChange(cfg: Config, s: Snapshot, payload: Json) returns (show: Change)
    requires BlockStart(s, payload).Ok?
    ensures
      var (after, parts) := BlockStart(s, payload).value;
      Enabled(cfg, CoreOf(s), show) && After(cfg, CoreOf(s), show) == CoreOf(after)
      && Told(cfg, CoreOf(s), show) == parts && Timely(CoreOf(s), show) && show.Show? && Index(payload) == Ok(show.i)
  {
    var tool := payload.Pointer(["start", "toolUse"]).value;
    var b := ToolBlock(RequiredString(tool, "toolUseId").value, RequiredString(tool, "name").value, "");
    show := Show(Index(payload).value, b);
  }

  lemma StopChange(cfg: Config, s: Snapshot, payload: Json) returns (i: U64)
    requires BlockStop(cfg, s, payload).Ok?
    ensures Index(payload) == Ok(i)
    ensures
      var (after, parts) := BlockStop(cfg, s, payload).value;
      Enabled(cfg, CoreOf(s), Close(i)) && After(cfg, CoreOf(s), Close(i)) == CoreOf(after)
      && Told(cfg, CoreOf(s), Close(i)) == parts
  {
    hide CloseBlock;
    i := Index(payload).value;
  }

  lemma MetadataEnds(cfg: Config, s: Snapshot, payload: Json)
    ensures MetadataEvent(cfg, s, payload).Ok? ==> MetadataEvent(cfg, s, payload).value.0.done
  {
    hide FinishOf, ParseUsage, WithMetrics;
  }
}
