/**
 How open Bedrock blocks relate to the two readers of the emitted parts: the lifecycle checker
 and the assembler. Every lemma here is about one elementary change of one block.
 */
module BedrockTrack {
  import opened Wrappers
  import opened Json
  import opened Parts
  import opened Conformance
  import opened BedrockStream

  datatype Kind = KText | KShown | KHidden | KTool

  function KindOf(b: Block): Kind {
    match b
    case TextBlock(_, _) => KText
    case ReasoningBlock(_, _, _, _, visible) => if visible then KShown else KHidden
    case ToolBlock(_, _, _) => KTool
  }

  type Blocks = map<U64, Block>

  ghost function Ids(blocks: Blocks, kind: Kind): set<string> {
    set i | i in blocks && KindOf(blocks[i]) == kind :: blocks[i].id
  }

  /** Text and reasoning blocks are named after their index. */
  ghost predicate Named(blocks: Blocks) {
    forall i :: i in blocks ==>
      && (blocks[i].TextBlock? ==> blocks[i].id == "text-" + Decimal(i))
      && (blocks[i].ReasoningBlock? ==> blocks[i].id == "reasoning-" + Decimal(i))
  }

  /** No tool ID is in use twice among open blocks and completed calls. */
  ghost predicate Clean(blocks: Blocks, callIds: set<string>) {
    && (forall i :: i in blocks && blocks[i].ToolBlock? ==> blocks[i].id !in callIds)
    && (forall i, j ::
          (i in blocks && j in blocks && i != j && blocks[i].ToolBlock? && blocks[j].ToolBlock?)
          ==> blocks[i].id != blocks[j].id)
  }

  /** Blocks of one kind have different IDs. */
  lemma Distinct(blocks: Blocks, callIds: set<string>, i: U64, j: U64)
    requires Named(blocks) && Clean(blocks, callIds)
    requires i in blocks && j in blocks && i != j
    requires KindOf(blocks[i]) == KindOf(blocks[j])
    ensures blocks[i].id != blocks[j].id
  {
    if blocks[i].id == blocks[j].id {
      if blocks[i].TextBlock? {
        PrefixedDecimalInjective("text-", i, j);
      } else if blocks[i].ReasoningBlock? {
        PrefixedDecimalInjective("reasoning-", i, j);
      }
    }
  }

  lemma IdsPut(blocks: Blocks, i: U64, b: Block, kind: Kind)
    ensures Ids(blocks[i := b], kind) ==
      Ids(blocks - {i}, kind) + (if KindOf(b) == kind then {b.id} else {})
  {
    var put, rest := blocks[i := b], blocks - {i};
    forall id | id in Ids(put, kind)
      ensures id in Ids(rest, kind) + (if KindOf(b) == kind then {b.id} else {}) {
      var k :| k in put && KindOf(put[k]) == kind && put[k].id == id;
      assert k != i ==> k in rest && rest[k] == put[k];
    }
    forall id | id in Ids(rest, kind) + (if KindOf(b) == kind then {b.id} else {})
      ensures id in Ids(put, kind) {
      if id in Ids(rest, kind) {
        var k :| k in rest && KindOf(rest[k]) == kind && rest[k].id == id;
        assert k in put && put[k] == rest[k];
      } else {
        assert i in put && put[i] == b;
      }
    }
  }

  lemma IdsDrop(blocks: Blocks, callIds: set<string>, i: U64, kind: Kind)
    requires Named(blocks) && Clean(blocks, callIds) && i in blocks
    ensures Ids(blocks - {i}, kind) ==
      Ids(blocks, kind) - (if KindOf(blocks[i]) == kind then {blocks[i].id} else {})
  {
    var rest := blocks - {i};
    forall id | id in Ids(rest, kind)
      ensures id in Ids(blocks, kind) && (KindOf(blocks[i]) == kind ==> id != blocks[i].id) {
      var k :| k in rest && KindOf(rest[k]) == kind && rest[k].id == id;
      assert k in blocks && blocks[k] == rest[k];
      if KindOf(blocks[i]) == kind {
        Distinct(blocks, callIds, i, k);
      }
    }
    forall id | id in Ids(blocks, kind) && (KindOf(blocks[i]) == kind ==> id != blocks[i].id)
      ensures id in Ids(rest, kind) {
      var k :| k in blocks && KindOf(blocks[k]) == kind && blocks[k].id == id;
      assert k in rest && rest[k] == blocks[k];
    }
  }

  /** A fresh index leaves the IDs of the other blocks as they are. */
  lemma IdsFresh(blocks: Blocks, i: U64, kind: Kind)
    requires i !in blocks
    ensures Ids(blocks - {i}, kind) == Ids(blocks, kind)
  {
    assert blocks - {i} == blocks;
  }

  // --------------------------------------------------------------- lifecycle

  /** The lifecycle checker has exactly the open blocks open, and nothing else pending. */
  ghost predicate LifeTrack(blocks: Blocks, l: Life) {
    && l.text == Ids(blocks, KText)
    && l.reasoning == Ids(blocks, KShown)
    && l.tool == Ids(blocks, KTool)
    && l.ended == {} && l.finish.None? && !l.inBandError
  }

  function StartPart(b: Block): StreamPart
    requires KindOf(b) != KHidden
  {
    match b
    case TextBlock(id, _) => TextStart(id, None)
    case ReasoningBlock(id, _, _, _, _) => ReasoningStart(id, None)
    case ToolBlock(id, name, _) => ToolCallStart(id, name)
  }

  function DeltaPart(b: Block, delta: string): StreamPart
    requires KindOf(b) != KHidden
  {
    match b
    case TextBlock(id, _) => TextDelta(id, delta, None)
    case ReasoningBlock(id, _, _, _, _) => ReasoningDelta(id, delta, None)
    case ToolBlock(id, _, _) => ToolCallDelta(id, delta)
  }

  /** A block appears to the reader, at a fresh index or at one that was hidden. */
  lemma LifeShow(blocks: Blocks, callIds: set<string>, i: U64, b: Block, l: Life)
    requires LifeTrack(blocks, l) && KindOf(b) != KHidden
    requires i in blocks ==> KindOf(blocks[i]) == KHidden
    requires Named(blocks[i := b]) && Clean(blocks[i := b], callIds)
    ensures LifeStep(l, StartPart(b)).Ok?
    ensures LifeTrack(blocks[i := b], LifeStep(l, StartPart(b)).value)
  {
    var put := blocks[i := b];
    forall kind: Kind ensures Ids(put, kind) == (if kind == KHidden then Ids(put, kind) else
                        Ids(blocks, kind) + (if KindOf(b) == kind then {b.id} else {})) {
      IdsPut(blocks, i, b, kind);
      HiddenAside(blocks, i, kind);
    }
    if b.id in Ids(blocks, KindOf(b)) {
      var k :| k in blocks && KindOf(blocks[k]) == KindOf(b) && blocks[k].id == b.id;
      assert k in put && put[k] == blocks[k];
      Distinct(put, callIds, i, k);
    }
  }

  lemma HiddenAside(blocks: Blocks, i: U64, kind: Kind)
    requires i in blocks ==> KindOf(blocks[i]) == KHidden
    ensures kind != KHidden ==> Ids(blocks - {i}, kind) == Ids(blocks, kind)
  {
    var rest := blocks - {i};
    if kind != KHidden {
      forall id | id in Ids(blocks, kind) ensures id in Ids(rest, kind) {
        var k :| k in blocks && KindOf(blocks[k]) == kind && blocks[k].id == id;
        assert k in rest && rest[k] == blocks[k];
      }
      forall id | id in Ids(rest, kind) ensures id in Ids(blocks, kind) {
        var k :| k in rest && KindOf(rest[k]) == kind && rest[k].id == id;
        assert k in blocks && rest[k] == blocks[k];
      }
    }
  }

  /** A block changes but keeps its kind and ID. */
  lemma LifeKeep(blocks: Blocks, i: U64, b: Block, l: Life)
    requires LifeTrack(blocks, l) && i in blocks
    requires KindOf(b) == KindOf(blocks[i]) && b.id == blocks[i].id
    ensures LifeTrack(blocks[i := b], l)
    ensures KindOf(b) != KHidden ==> forall delta :: LifeStep(l, DeltaPart(b, delta)) == Ok(l)
  {
    forall kind ensures Ids(blocks[i := b], kind) == Ids(blocks, kind) {
      IdsPut(blocks, i, b, kind);
      IdsPut(blocks, i, blocks[i], kind);
      assert blocks[i := blocks[i]] == blocks;
    }
    assert b.id in Ids(blocks, KindOf(b));
  }

  /** A hidden block opens: the reader is not told. */
  lemma LifeHide(blocks: Blocks, i: U64, b: Block, l: Life)
    requires LifeTrack(blocks, l) && i !in blocks && KindOf(b) == KHidden
    ensures LifeTrack(blocks[i := b], l)
  {
    forall kind | kind != KHidden ensures Ids(blocks[i := b], kind) == Ids(blocks, kind) {
      IdsPut(blocks, i, b, kind);
      IdsFresh(blocks, i, kind);
    }
  }

  /** A block closes, with the parts its kind calls for. */
  lemma LifeClose(cfg: Config, blocks: Blocks, callIds: set<string>, i: U64, l: Life)
    requires LifeTrack(blocks, l) && i in blocks
    requires Named(blocks) && Clean(blocks, callIds)
    requires CloseBlock(cfg, callIds, blocks[i]).Ok?
    ensures LifeAll(l, CloseBlock(cfg, callIds, blocks[i]).value.parts).Ok?
    ensures LifeTrack(blocks - {i}, LifeAll(l, CloseBlock(cfg, callIds, blocks[i]).value.parts).value)
  {
    forall kind ensures Ids(blocks - {i}, kind) ==
        Ids(blocks, kind) - (if KindOf(blocks[i]) == kind then {blocks[i].id} else {}) {
      IdsDrop(blocks, callIds, i, kind);
    }
    var b := blocks[i];
    assert b.id in Ids(blocks, KindOf(b));
    var parts := CloseBlock(cfg, callIds, b).value.parts;
    if parts != [] {
      var first := LifeStep(l, parts[0]);
      if b.ToolBlock? {
        assert parts[1..] == [parts[1]] && parts[1..][1..] == [];
        var second := LifeStep(first.value, parts[1]);
        assert second.value.ended == {};
        assert LifeAll(second.value, []) == second;
        assert LifeAll(first.value, parts[1..]) == second;
      } else {
        assert parts[1..] == [];
      }
    }
  }

  // ---------------------------------------------------------------- assembly

  /** The content slot the assembler keeps for an open block. */
  function SlotOf(a: Assembly, b: Block): Option<nat> {
    match KindOf(b)
    case KText => if b.id in a.text then Some(a.text[b.id].slot) else None
    case KShown => if b.id in a.reasoning then Some(a.reasoning[b.id].slot) else None
    case KTool => if b.id in a.tools then Some(a.tools[b.id]) else None
    case KHidden => None
  }

  /** The assembler has the block open, with its text so far and an empty slot. */
  ghost predicate Holds(a: Assembly, b: Block)
    requires a.Valid()
  {
    match KindOf(b)
    case KText => b.id in a.text
      && a.text[b.id] == OpenContent(a.text[b.id].slot, b.text, None)
      && a.content[a.text[b.id].slot].None?
    case KShown => b.id in a.reasoning
      && a.reasoning[b.id] == OpenContent(a.reasoning[b.id].slot, b.text, None)
      && a.content[a.reasoning[b.id].slot].None?
    case KTool => b.id in a.tools && a.content[a.tools[b.id]].None?
    case KHidden => b.text == ""
  }

  ghost predicate AsmTrack(blocks: Blocks, a: Assembly) {
    && a.Valid()
    && a.text.Keys == Ids(blocks, KText)
    && a.reasoning.Keys == Ids(blocks, KShown)
    && a.tools.Keys == Ids(blocks, KTool)
    && (forall i :: i in blocks ==> Holds(a, blocks[i]))
    && SlotsExact(blocks, a)
  }

  ghost predicate Owns(blocks: Blocks, a: Assembly, i: U64, k: nat) {
    i in blocks && SlotOf(a, blocks[i]) == Some(k)
  }

  /** The empty slots are exactly those kept for open blocks, one each. */
  ghost predicate SlotsExact(blocks: Blocks, a: Assembly) {
    && (forall i: U64, j: U64, k: nat :: Owns(blocks, a, i, k) && Owns(blocks, a, j, k) ==> i == j)
    && (forall i: U64, k: nat :: Owns(blocks, a, i, k) ==> k < |a.content| && a.content[k].None?)
    && (forall k: nat :: k < |a.content| && a.content[k].None? ==>
          exists i: U64 :: Owns(blocks, a, i, k))
  }

  function TextOf(b: Block): string {
    if b.ToolBlock? then b.input else b.text
  }

  lemma ShowStep(a: Assembly, b: Block)
    requires a.Valid() && KindOf(b) != KHidden && TextOf(b) == ""
    ensures AssembleStep(a, StartPart(b)).Ok?
    ensures
      var after := AssembleStep(a, StartPart(b)).value;
      after.content == a.content + [None] && SlotOf(after, b) == Some(|a.content|) && Holds(after, b)
  {
  }

  lemma OtherAfterShow(a: Assembly, b: Block, other: Block)
    requires a.Valid() && KindOf(b) != KHidden && Holds(a, other)
    requires KindOf(other) == KindOf(b) ==> other.id != b.id
    ensures
      var after := AssembleStep(a, StartPart(b)).value;
      SlotOf(after, other) == SlotOf(a, other) && Holds(after, other)
  {
  }

  lemma AsmShow(blocks: Blocks, callIds: set<string>, i: U64, b: Block, a: Assembly)
    requires AsmTrack(blocks, a) && KindOf(b) != KHidden && TextOf(b) == ""
    requires i in blocks ==> KindOf(blocks[i]) == KHidden
    requires Named(blocks[i := b]) && Clean(blocks[i := b], callIds)
    ensures AssembleStep(a, StartPart(b)).Ok?
    ensures
      var after := AssembleStep(a, StartPart(b)).value;
      && AsmTrack(blocks[i := b], after)
      && after.content == a.content + [None]
      && SlotOf(after, b) == Some(|a.content|)
      && forall j :: j in blocks && j != i ==> SlotOf(after, blocks[j]) == SlotOf(a, blocks[j])
  {
    hide Ids, SlotsExact, Holds;
    ShowStep(a, b);
    var put, after := blocks[i := b], AssembleStep(a, StartPart(b)).value;
    forall kind | kind != KHidden ensures Ids(put, kind) ==
        Ids(blocks, kind) + (if KindOf(b) == kind then {b.id} else {}) {
      IdsPut(blocks, i, b, kind);
      HiddenAside(blocks, i, kind);
    }
    forall j | j in blocks && j != i
      ensures SlotOf(after, blocks[j]) == SlotOf(a, blocks[j]) && Holds(after, blocks[j]) {
      assert put[j] == blocks[j] && Holds(a, blocks[j]);
      if KindOf(blocks[j]) == KindOf(b) {
        Distinct(put, callIds, i, j);
      }
      OtherAfterShow(a, b, blocks[j]);
    }
    SlotsAfterShow(blocks, i, b, a, after);
  }

  lemma SlotsAfterShow(blocks: Blocks, i: U64, b: Block, a: Assembly, after: Assembly)
    requires SlotsExact(blocks, a)
    requires forall k: nat :: !Owns(blocks, a, i, k)
    requires after.content == a.content + [None] && SlotOf(after, b) == Some(|a.content|)
    requires forall j :: j in blocks && j != i ==> SlotOf(after, blocks[j]) == SlotOf(a, blocks[j])
    ensures SlotsExact(blocks[i := b], after)
  {
    hide SlotOf;
    var put := blocks[i := b];
    assert forall j: U64, k: nat :: j != i ==> Owns(put, after, j, k) == Owns(blocks, a, j, k);
    assert forall k: nat :: Owns(put, after, i, k) <==> k == |a.content|;
    forall k: nat | k < |after.content| && after.content[k].None?
      ensures exists j: U64 :: Owns(put, after, j, k) {
      if k == |a.content| {
        assert Owns(put, after, i, k);
      } else {
        var j: U64 :| Owns(blocks, a, j, k);
        assert Owns(put, after, j, k);
      }
    }
  }

  lemma AsmHide(blocks: Blocks, i: U64, b: Block, a: Assembly)
    requires AsmTrack(blocks, a) && i !in blocks && KindOf(b) == KHidden && b.text == ""
    ensures AsmTrack(blocks[i := b], a)
  {
    hide Ids;
    var put := blocks[i := b];
    forall kind | kind != KHidden ensures Ids(put, kind) == Ids(blocks, kind) {
      IdsPut(blocks, i, b, kind);
      IdsFresh(blocks, i, kind);
    }
    assert forall j: U64, k: nat :: Owns(put, a, j, k) == Owns(blocks, a, j, k);
  }

  /** A block grows by a non-empty delta, or changes without its text changing. */
  function Grown(a: Assembly, b: Block, delta: string): Result<Assembly, Violation>
    requires a.Valid()
  {
    if delta == "" then Ok(a) else if KindOf(b) == KHidden then Err(NoOpenBlock)
    else AssembleStep(a, DeltaPart(b, delta))
  }

  lemma AsmGrow(blocks: Blocks, callIds: set<string>, i: U64, b: Block, delta: string, a: Assembly)
    requires AsmTrack(blocks, a) && i in blocks
    requires Named(blocks) && Clean(blocks, callIds)
    requires KindOf(b) == KindOf(blocks[i]) && b.id == blocks[i].id
    requires TextOf(b) == TextOf(blocks[i]) + delta
    requires KindOf(b) == KHidden ==> delta == ""
    ensures Grown(a, b, delta).Ok?
    ensures
      var after := Grown(a, b, delta).value;
      && AsmTrack(blocks[i := b], after)
      && after.content == a.content
      && forall j :: j in blocks ==> SlotOf(after, blocks[i := b][j]) == SlotOf(a, blocks[j])
  {
    hide Ids, SlotsExact, Clean, Named;
    assert Holds(a, blocks[i]);
    var put, after := blocks[i := b], Grown(a, b, delta).value;
    forall kind ensures Ids(put, kind) == Ids(blocks, kind) {
      IdsPut(blocks, i, b, kind);
      IdsPut(blocks, i, blocks[i], kind);
      assert blocks[i := blocks[i]] == blocks;
    }
    forall j | j in blocks
      ensures SlotOf(after, put[j]) == SlotOf(a, blocks[j]) && Holds(after, put[j]) {
      assert Holds(a, blocks[j]);
      if j != i && KindOf(blocks[j]) == KindOf(b) {
        Distinct(blocks, callIds, i, j);
      }
    }
    SlotsAfterGrow(blocks, i, b, a, after);
  }

  lemma SlotsAfterGrow(blocks: Blocks, i: U64, b: Block, a: Assembly, after: Assembly)
    requires SlotsExact(blocks, a) && i in blocks
    requires after.content == a.content
    requires forall j :: j in blocks ==> SlotOf(after, blocks[i := b][j]) == SlotOf(a, blocks[j])
    ensures SlotsExact(blocks[i := b], after)
  {
    hide SlotOf;
    var put := blocks[i := b];
    assert forall j: U64, k: nat :: Owns(put, after, j, k) == Owns(blocks, a, j, k);
  }

  /** The assistant part a closed block becomes, if the reader saw it. */
  function PartOf(cfg: Config, b: Block): Option<AssistantPart> {
    match KindOf(b)
    case KText => Some(Text(b.text, None))
    case KShown => Some(Reasoning(b.text, None))
    case KTool =>
      var raw := if b.input == "" then "{}" else b.input;
      var parsed := cfg.codec.parse(raw);
      if parsed.None? then None
      else Some(ToolCall(ToolCallPart(b.id, b.name, parsed.value, Some(b.id), Some(raw), None)))
    case KHidden => None
  }

  lemma AsmClose(cfg: Config, blocks: Blocks, callIds: set<string>, i: U64, a: Assembly, closed: Closed)
    returns (after: Assembly)
    requires AsmTrack(blocks, a) && i in blocks
    requires Named(blocks) && Clean(blocks, callIds)
    requires CloseBlock(cfg, callIds, blocks[i]) == Ok(closed)
    ensures AssembleAll(a, closed.parts) == Ok(after)
    ensures AsmTrack(blocks - {i}, after)
    ensures Filling(cfg, a, blocks[i], after)
    ensures forall j :: j in blocks && j != i ==> SlotOf(after, blocks[j]) == SlotOf(a, blocks[j])
  {
    hide Ids, SlotsExact, SlotOf, CloseBlock, PartOf, Filling, AssembleStep;
    assert Holds(a, blocks[i]);
    after := AsmCloseParts(cfg, callIds, blocks[i], a, closed);
    AsmFilled(cfg, blocks, callIds, i, a, after);
  }

  lemma AsmFilled(cfg: Config, blocks: Blocks, callIds: set<string>, i: U64, a: Assembly, after: Assembly)
    requires AsmTrack(blocks, a) && i in blocks && after.Valid()
    requires Named(blocks) && Clean(blocks, callIds) && Filling(cfg, a, blocks[i], after)
    ensures AsmTrack(blocks - {i}, after)
    ensures forall j :: j in blocks && j != i ==> SlotOf(after, blocks[j]) == SlotOf(a, blocks[j])
  {
    hide Ids, SlotsExact, PartOf, Clean, Named, Holds;
    var b, rest := blocks[i], blocks - {i};
    assert Holds(a, b);
    forall kind ensures Ids(rest, kind) ==
        Ids(blocks, kind) - (if KindOf(b) == kind then {b.id} else {}) {
      IdsDrop(blocks, callIds, i, kind);
    }
    forall j | j in blocks && j != i
      ensures SlotOf(after, blocks[j]) == SlotOf(a, blocks[j]) && Holds(after, blocks[j]) {
      OthersAfterClose(cfg, blocks, callIds, i, j, a, after);
    }
    SlotsAfterClose(blocks, i, a, after);
  }

  /** The reader fills the slot of a block it holds with the block's part. */
  ghost predicate Filling(cfg: Config, a: Assembly, b: Block, after: Assembly) {
    if KindOf(b) == KHidden then after == a
    else
      && SlotOf(a, b).Some? && SlotOf(a, b).value < |a.content|
      && PartOf(cfg, b).Some?
      && after == a.(
        content := a.content[SlotOf(a, b).value := PartOf(cfg, b)],
        text := if KindOf(b) == KText then a.text - {b.id} else a.text,
        reasoning := if KindOf(b) == KShown then a.reasoning - {b.id} else a.reasoning,
        tools := if KindOf(b) == KTool then a.tools - {b.id} else a.tools)
  }

  /** The closing parts of one block the reader holds. */
  lemma AsmCloseParts(cfg: Config, callIds: set<string>, b: Block, a: Assembly, closed: Closed)
    returns (after: Assembly)
    requires a.Valid() && Holds(a, b)
    requires CloseBlock(cfg, callIds, b) == Ok(closed)
    ensures after.Valid() && AssembleAll(a, closed.parts) == Ok(after)
    ensures Filling(cfg, a, b, after)
  {
    var parts := closed.parts;
    after := a;
    if parts != [] {
      if b.ToolBlock? {
        assert AssembleStep(a, parts[0]) == Ok(a);
        assert parts[1..] == [parts[1]] && parts[1..][1..] == [];
        after := AssembleStep(a, parts[1]).value;
        assert AssembleAll(after, []) == Ok(after);
        assert AssembleAll(a, parts[1..]) == Ok(after);
      } else {
        assert parts[1..] == [];
        after := AssembleStep(a, parts[0]).value;
      }
    }
  }

  lemma OthersAfterClose(
    cfg: Config, blocks: Blocks, callIds: set<string>, i: U64, j: U64, a: Assembly, after: Assembly)
    requires a.Valid() && after.Valid() && Named(blocks) && Clean(blocks, callIds)
    requires i in blocks && j in blocks && i != j
    requires Holds(a, blocks[i]) && Holds(a, blocks[j])
    requires SlotsExact(blocks, a) && Filling(cfg, a, blocks[i], after)
    ensures SlotOf(after, blocks[j]) == SlotOf(a, blocks[j]) && Holds(after, blocks[j])
  {
    hide PartOf;
    if KindOf(blocks[i]) != KHidden {
      assert Owns(blocks, a, i, SlotOf(a, blocks[i]).value);
      if SlotOf(a, blocks[j]).Some? {
        assert Owns(blocks, a, j, SlotOf(a, blocks[j]).value);
      }
      if KindOf(blocks[j]) == KindOf(blocks[i]) {
        Distinct(blocks, callIds, i, j);
      }
    }
  }

  lemma SlotsAfterClose(blocks: Blocks, i: U64, a: Assembly, after: Assembly)
    requires SlotsExact(blocks, a) && i in blocks
    requires |after.content| == |a.content|
    requires forall k :: 0 <= k < |a.content| ==>
      if Owns(blocks, a, i, k) then after.content[k].Some? else after.content[k] == a.content[k]
    requires forall j :: j in blocks && j != i ==> SlotOf(after, blocks[j]) == SlotOf(a, blocks[j])
    ensures SlotsExact(blocks - {i}, after)
  {
    hide SlotOf;
    var rest := blocks - {i};
    assert forall j: U64, k: nat :: Owns(rest, after, j, k) <==> j != i && Owns(blocks, a, j, k);
  }

  /** Content that stands alone joins the end. */
  lemma AsmAdd(blocks: Blocks, a: Assembly, part: AssistantPart)
    requires AsmTrack(blocks, a)
    ensures AsmTrack(blocks, Add(a, part))
  {
    hide Ids, SlotOf;
    var after := Add(a, part);
    forall i | i in blocks ensures Holds(after, blocks[i]) {
      assert Holds(a, blocks[i]);
    }
    forall i ensures i in blocks ==> SlotOf(after, blocks[i]) == SlotOf(a, blocks[i]) {
      if i in blocks {
        SlotOfTables(a, after, blocks[i]);
      }
    }
    assert forall i: U64, k: nat :: Owns(blocks, after, i, k) == Owns(blocks, a, i, k);
  }

  lemma SlotOfTables(a: Assembly, after: Assembly, b: Block)
    requires a.text == after.text && a.reasoning == after.reasoning && a.tools == after.tools
    ensures SlotOf(after, b) == SlotOf(a, b)
  {
  }
}
