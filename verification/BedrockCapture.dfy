/**
 What a run captures for replay, against what a reader of its parts assembles. The blocks are
 captured in the order in which they opened; the reader keeps them in the order of their starts.
 */
module BedrockCapture {
  import opened Wrappers
  import opened Json
  import opened Parts
  import opened Sequences
  import opened Conformance
  import opened BedrockStream
  import opened BedrockTrack
  import opened BedrockChanges
  import opened BedrockRuns
  import opened BedrockReplay

  /** For each content slot of the reader, the place of the block it is for; none stands alone. */
  type Marks = seq<Option<U64>>

  predicate At(c: Core, i: U64, o: U64) {
    i in c.blockOrder && c.blockOrder[i] == o
  }

  /** Every place handed out belongs to one open block or to one captured block. */
  ghost predicate Ordered(c: Core) {
    && c.blockOrder.Keys == c.blocks.Keys
    && (forall i: U64, o: U64 :: At(c, i, o) ==> o < c.next && o !in c.native)
    && (forall i: U64, j: U64, o: U64 :: At(c, i, o) && At(c, j, o) ==> i == j)
    && (forall o :: o in c.native ==> o < c.next)
    && (forall o: U64 :: o < c.next && o !in c.native ==> exists i: U64 :: At(c, i, o))
  }

  /** A slot is marked with the place; without a slot no mark names it. */
  predicate Marked(marks: Marks, o: U64, slot: Option<nat>) {
    if slot.None? then Some(o) !in marks else slot.value < |marks| && marks[slot.value] == Some(o)
  }

  ghost predicate Placed(c: Core, a: Assembly, marks: Marks) {
    && |marks| == |a.content| && Ordered(c)
    && (forall i: U64, o: U64 :: At(c, i, o) ==> Marked(marks, o, SlotOf(a, c.blocks[i])))
  }

  /** No place is marked twice. */
  predicate OnceEach(marks: Marks) {
    forall j, k :: 0 <= j < k < |marks| && marks[j].Some? ==> marks[j] != marks[k]
  }

  /** A slot says what its captured block says, or, standing alone, nothing. */
  ghost predicate SameMeaning(c: Core, mark: Option<U64>, part: Option<AssistantPart>) {
    match mark
    case None => part.Some? && PartSemantic(part.value).None?
    case Some(o) =>
      && o < c.next
      && (o in c.native ==>
            && part.Some? && NativeSemantic(c.native[o]).Some?
            && PartSemantic(part.value) == NativeSemantic(c.native[o]))
  }

  ghost predicate Agreeing(c: Core, a: Assembly, marks: Marks)
    requires |marks| == |a.content|
  {
    forall k :: 0 <= k < |marks| ==> SameMeaning(c, marks[k], a.content[k])
  }

  ghost predicate Capturing(c: Core, a: Assembly, marks: Marks) {
    Placed(c, a, marks) && OnceEach(marks) && Agreeing(c, a, marks)
  }

  /** Some captured block says something that was never shown. */
  ghost predicate Hushed(c: Core, marks: Marks) {
    exists o :: o in c.native && Some(o) !in marks && NativeSemantic(c.native[o]).Some?
  }

  // ------------------------------------------------------ one closed block

  lemma ClosedMeaning(cfg: Config, callIds: set<string>, b: Block, closed: Closed)
    requires CloseBlock(cfg, callIds, b) == Ok(closed)
    requires KindOf(b) == KHidden ==> b.text == ""
    ensures KindOf(b) != KHidden ==>
      && PartOf(cfg, b).Some?
      && NativeSemantic(closed.native).Some?
      && PartSemantic(PartOf(cfg, b).value) == NativeSemantic(closed.native)
    ensures KindOf(b) == KHidden ==>
      && (NativeSemantic(closed.native).Some? <==> Unseen(b))
      && (NativeSemantic(closed.native).Some? ==> NativeSemantic(closed.native).value.SaysReasoning?)
  {
    if b.ReasoningBlock? {
      ReasoningMeaning(cfg, b);
    }
  }

  lemma ReasoningMeaning(cfg: Config, b: Block)
    requires b.ReasoningBlock?
    ensures NativeSemantic(Obj(map["reasoningContent" := NativeReasoning(cfg, b)])) ==
      if b.redacted.Some? then None else Some(SaysReasoning(b.text))
  {
    var block := Obj(map["reasoningContent" := NativeReasoning(cfg, b)]);
    var path := ["reasoningContent", "reasoningText", "text"];
    assert path[1..] == ["reasoningText", "text"] && path[1..][1..] == ["text"];
    assert path[1..][1..][1..] == [];
    var inner := NativeReasoning(cfg, b);
    assert block.Pointer(path) == inner.Pointer(["reasoningText", "text"]);
    if b.redacted.None? {
      var text := inner.Get("reasoningText").value;
      assert inner.Pointer(["reasoningText", "text"]) == text.Pointer(["text"]);
      assert text.Pointer(["text"]) == text.Get("text");
      assert text.Get("text") == Some(Str(b.text));
    } else {
      assert inner.Get("reasoningText").None?;
    }
  }

  // ------------------------------------------------------------ one change

  lemma OrderedAfterOpen(c: Core, i: U64, b: Block)
    requires Ordered(c) && i !in c.blocks && c.next + 1 < U64_SPAN
    ensures Ordered(Opened(c, i, b))
    ensures forall j: U64, o: U64 ::
      At(Opened(c, i, b), j, o) <==> if j == i then o == c.next else At(c, j, o)
  {
    var d := Opened(c, i, b);
    assert forall j: U64, o: U64 :: At(d, j, o) <==> if j == i then o == c.next else At(c, j, o);
    forall o: U64 | o < d.next && o !in d.native ensures exists j: U64 :: At(d, j, o) {
      if o == c.next {
        assert At(d, i, o);
      } else {
        var j: U64 :| At(c, j, o);
        assert At(d, j, o);
      }
    }
  }

  lemma OrderedAfterClose(cfg: Config, c: Core, i: U64, closed: Closed)
    requires Ordered(c) && i in c.blocks && CloseBlock(cfg, c.callIds, c.blocks[i]) == Ok(closed)
    ensures Ordered(After(cfg, c, Close(i)))
    ensures After(cfg, c, Close(i)).native == c.native[c.blockOrder[i] := closed.native]
    ensures forall j: U64, o: U64 :: At(After(cfg, c, Close(i)), j, o) <==> j != i && At(c, j, o)
  {
    hide CloseBlock;
    var d, order := After(cfg, c, Close(i)), c.blockOrder[i];
    assert At(c, i, order);
    assert forall j: U64, o: U64 :: At(d, j, o) <==> j != i && At(c, j, o);
    forall o: U64 | o < d.next && o !in d.native ensures exists j: U64 :: At(d, j, o) {
      var j: U64 :| At(c, j, o);
      assert At(d, j, o);
    }
  }

  lemma OrderedAfterPut(c: Core, i: U64, b: Block)
    requires Ordered(c) && i in c.blocks
    ensures Ordered(c.(blocks := c.blocks[i := b]))
    ensures forall j: U64, o: U64 :: At(c.(blocks := c.blocks[i := b]), j, o) == At(c, j, o)
  {
    var d := c.(blocks := c.blocks[i := b]);
    assert forall j: U64, o: U64 :: At(d, j, o) == At(c, j, o);
  }

  lemma OrderedChange(cfg: Config, c: Core, ch: Change)
    requires Ordered(c) && Enabled(cfg, c, ch) && c.next + 1 < U64_SPAN
    ensures Ordered(After(cfg, c, ch))
  {
    hide Ordered, CloseBlock;
    if ch.Close? {
      OrderedAfterClose(cfg, c, ch.i, CloseBlock(cfg, c.callIds, c.blocks[ch.i]).value);
    } else if (ch.Show? || ch.Hide?) && ch.i !in c.blocks {
      OrderedAfterOpen(c, ch.i, ch.b);
    } else if !ch.Said? {
      OrderedAfterPut(c, ch.i, ch.b);
    }
  }

  lemma OrderBounds(c: Core)
    requires Ordered(c)
    ensures c.blockOrder.Keys == c.blocks.Keys
    ensures forall i: U64, o: U64 :: At(c, i, o) ==> o < c.next && o !in c.native
    ensures forall o :: o in c.native ==> o < c.next
  {
  }

  /** Content that stands alone joins the end. */
  lemma CaptureAdd(c: Core, a: Assembly, marks: Marks, part: AssistantPart)
    requires Capturing(c, a, marks) && a.Valid() && PartSemantic(part).None?
    ensures Capturing(c, Add(a, part), marks + [None])
    ensures Hushed(c, marks + [None]) == Hushed(c, marks)
  {
    hide SlotOf, NativeSemantic, PartSemantic, Ordered;
    OrderBounds(c);
    forall i: U64, o: U64 | At(c, i, o) ensures Marked(marks + [None], o, SlotOf(Add(a, part), c.blocks[i])) {
      SlotOfTables(a, Add(a, part), c.blocks[i]);
      assert Marked(marks, o, SlotOf(a, c.blocks[i]));
    }
    SameHushed(c, c, marks, marks + [None]);
  }

  /** Marks of other places do not change who is unheard. */
  lemma SameHushed(c: Core, d: Core, marks: Marks, marks2: Marks)
    requires d.native == c.native
    requires forall o :: o in c.native ==> (Some(o) in marks <==> Some(o) in marks2)
    ensures Hushed(d, marks2) == Hushed(c, marks)
  {
    hide NativeSemantic;
  }

  /** A hidden block opens: the reader is not told. */
  lemma CaptureHide(c: Core, i: U64, b: Block, a: Assembly, marks: Marks)
    requires Capturing(c, a, marks) && i !in c.blocks && c.next + 1 < U64_SPAN && SlotOf(a, b).None?
    ensures Capturing(Opened(c, i, b), a, marks)
  {
    hide SlotOf, NativeSemantic, PartSemantic;
    var d := Opened(c, i, b);
    OrderedAfterOpen(c, i, b);
    hide Ordered;
    OrderBounds(c);
    assert forall k :: 0 <= k < |marks| ==> SameMeaning(c, marks[k], a.content[k]);
    assert Some(c.next) !in marks;
    forall j: U64, o: U64 | At(d, j, o) ensures Marked(marks, o, SlotOf(a, d.blocks[j])) {
      if j != i {
        assert At(c, j, o) && d.blocks[j] == c.blocks[j];
      }
    }
  }

  /** A block is shown, at its place, in a new slot at the end. */
  lemma CaptureShow(c: Core, d: Core, i: U64, o: U64, a: Assembly, after: Assembly, marks: Marks)
    requires Capturing(c, a, marks) && Ordered(d) && d.native == c.native && c.next <= d.next
    requires At(d, i, o) && Some(o) !in marks && SlotOf(after, d.blocks[i]) == Some(|a.content|)
    requires after.content == a.content + [None]
    requires forall j: U64, p: U64 :: At(d, j, p) && j != i ==>
      At(c, j, p) && d.blocks[j] == c.blocks[j] && SlotOf(after, d.blocks[j]) == SlotOf(a, c.blocks[j])
    ensures Capturing(d, after, marks + [Some(o)])
    ensures Hushed(d, marks + [Some(o)]) == Hushed(c, marks)
  {
    hide SlotOf, NativeSemantic, PartSemantic;
    OrderBounds(d);
    var marks2 := marks + [Some(o)];
    forall j: U64, p: U64 | At(d, j, p) ensures Marked(marks2, p, SlotOf(after, d.blocks[j])) {
      if j != i {
        assert p != o;
        assert Marked(marks, p, SlotOf(a, c.blocks[j]));
      }
    }
    hide Ordered;
    forall k | 0 <= k < |marks2| ensures SameMeaning(d, marks2[k], after.content[k]) {
      if k < |marks| {
        assert SameMeaning(c, marks[k], a.content[k]);
      }
    }
    SameHushed(c, d, marks, marks2);
  }

  /** A block opens in sight. */
  lemma CaptureOpen(c: Core, i: U64, b: Block, a: Assembly, after: Assembly, marks: Marks)
    requires Capturing(c, a, marks) && i !in c.blocks && c.next + 1 < U64_SPAN
    requires SlotOf(after, b) == Some(|a.content|) && after.content == a.content + [None]
    requires forall j :: j in c.blocks ==> SlotOf(after, c.blocks[j]) == SlotOf(a, c.blocks[j])
    ensures Capturing(Opened(c, i, b), after, marks + [Some(c.next)])
    ensures Hushed(Opened(c, i, b), marks + [Some(c.next)]) == Hushed(c, marks)
  {
    hide SlotOf, NativeSemantic, PartSemantic;
    OrderedAfterOpen(c, i, b);
    assert forall k :: 0 <= k < |marks| ==> SameMeaning(c, marks[k], a.content[k]);
    OrderBounds(c);
    CaptureShow(c, Opened(c, i, b), i, c.next, a, after, marks);
  }

  /** A hidden block is shown, however many have opened since. */
  lemma CaptureReveal(c: Core, i: U64, b: Block, a: Assembly, after: Assembly, marks: Marks)
    requires Capturing(c, a, marks) && i in c.blocks && SlotOf(a, c.blocks[i]).None?
    requires SlotOf(after, b) == Some(|a.content|) && after.content == a.content + [None]
    requires forall j :: j in c.blocks && j != i ==> SlotOf(after, c.blocks[j]) == SlotOf(a, c.blocks[j])
    ensures Capturing(c.(blocks := c.blocks[i := b]), after, marks + [Some(OrderOf(c, i))])
    ensures Hushed(c.(blocks := c.blocks[i := b]), marks + [Some(OrderOf(c, i))]) == Hushed(c, marks)
  {
    hide SlotOf, NativeSemantic, PartSemantic;
    OrderedAfterPut(c, i, b);
    OrderBounds(c);
    assert At(c, i, OrderOf(c, i));
    CaptureShow(c, c.(blocks := c.blocks[i := b]), i, OrderOf(c, i), a, after, marks);
  }

  lemma CaptureGrow(c: Core, i: U64, b: Block, a: Assembly, after: Assembly, marks: Marks)
    requires Capturing(c, a, marks) && i in c.blocks && after.content == a.content
    requires forall j :: j in c.blocks ==> SlotOf(after, c.blocks[i := b][j]) == SlotOf(a, c.blocks[j])
    ensures Capturing(c.(blocks := c.blocks[i := b]), after, marks)
  {
    hide SlotOf, NativeSemantic, PartSemantic;
    var d := c.(blocks := c.blocks[i := b]);
    OrderedAfterPut(c, i, b);
    OrderBounds(c);
    hide Ordered;
    assert forall k :: 0 <= k < |marks| ==> SameMeaning(c, marks[k], a.content[k]);
  }

  lemma CaptureClose(
    cfg: Config, c: Core, i: U64, a: Assembly, after: Assembly, marks: Marks, closed: Closed)
    requires Capturing(c, a, marks) && i in c.blocks
    requires CloseBlock(cfg, c.callIds, c.blocks[i]) == Ok(closed)
    requires KindOf(c.blocks[i]) == KHidden ==> c.blocks[i].text == ""
    requires Filling(cfg, a, c.blocks[i], after)
    requires forall j :: j in c.blocks && j != i ==> SlotOf(after, c.blocks[j]) == SlotOf(a, c.blocks[j])
    ensures Capturing(After(cfg, c, Close(i)), after, marks)
    ensures Hushed(After(cfg, c, Close(i)), marks) <==> Hushed(c, marks) || Unseen(c.blocks[i])
  {
    hide CloseBlock, PartOf, NativeSemantic, PartSemantic;
    var b, d, order := c.blocks[i], After(cfg, c, Close(i)), c.blockOrder[i];
    ClosedMeaning(cfg, c.callIds, b, closed);
    OrderedAfterClose(cfg, c, i, closed);
    OrderBounds(c);
    hide Ordered;
    assert At(c, i, order) && Marked(marks, order, SlotOf(a, b));
    forall k | 0 <= k < |marks| ensures SameMeaning(d, marks[k], after.content[k]) {
      assert SameMeaning(c, marks[k], a.content[k]);
    }
    HushedAfterClose(c, d, marks, order, closed.native);
  }

  lemma HushedAfterClose(c: Core, d: Core, marks: Marks, order: U64, native: Json)
    requires d.native == c.native[order := native] && order !in c.native
    ensures Hushed(d, marks) <==>
      Hushed(c, marks) || (Some(order) !in marks && NativeSemantic(native).Some?)
  {
    hide NativeSemantic;
    if Hushed(c, marks) {
      var o :| o in c.native && Some(o) !in marks && NativeSemantic(c.native[o]).Some?;
      assert o in d.native && d.native[o] == c.native[o];
    }
    if Some(order) !in marks && NativeSemantic(native).Some? {
      assert order in d.native && d.native[order] == native;
    }
  }

  // ---------------------------------------------------------- all changes

  /** The slots a change adds. */
  function NewMarks(cfg: Config, c: Core, ch: Change): Marks {
    match ch
    case Said(part) => if part.SourceFound? then [None] else []
    case Show(i, _) => [Some(OrderOf(After(cfg, c, ch), i))]
    case _ => []
  }

  lemma NewMarksShow(cfg: Config, c: Core, ch: Change)
    ensures FilterMap(NewMarks(cfg, c, ch), Same) == Shown(cfg, c, ch)
  {
  }

  lemma CaptureChange(cfg: Config, c: Core, ch: Change, a: Assembly, after: Assembly, marks: Marks)
    requires AsmTrack(c.blocks, a) && Named(c.blocks) && Clean(c.blocks, c.callIds)
    requires Clean(After(cfg, c, ch).blocks, c.callIds) || ch.Close?
    requires Capturing(c, a, marks) && Enabled(cfg, c, ch)
    requires a.Valid() && AssembleAll(a, Told(cfg, c, ch)) == Ok(after)
    requires c.next + 1 < U64_SPAN
    ensures Capturing(After(cfg, c, ch), after, marks + NewMarks(cfg, c, ch))
    ensures Hushed(After(cfg, c, ch), marks + NewMarks(cfg, c, ch)) <==>
      Hushed(c, marks) || (ch.Close? && ch.i in c.blocks && Unseen(c.blocks[ch.i]))
  {
    hide AsmTrack, Capturing, Clean, Named, CloseBlock, Hushed, SlotOf, AssembleStep, Ids;
    assert marks + [] == marks;
    match ch {
      case Said(part) =>
        ToldOne(a, part);
        if part.SourceFound? {
          assert after == Add(a, Source(part.source)) by { SourceAdds(a, part); }
          CaptureAdd(c, a, marks, Source(part.source));
        } else {
          assert after == a by { OtherAddsNothing(a, part); }
        }
      case Show(i, b) =>
        ToldOne(a, StartPart(b));
        NamedPut(c.blocks, i, b);
        AsmShow(c.blocks, c.callIds, i, b, a);
        if i in c.blocks {
          HiddenHasNoSlot(a, c.blocks[i]);
          CaptureReveal(c, i, b, a, after, marks);
        } else {
          CaptureOpen(c, i, b, a, after, marks);
        }
      case Hide(i, b) =>
        HiddenHasNoSlot(a, b);
        CaptureHide(c, i, b, a, marks);
        SameHushed(c, After(cfg, c, ch), marks, marks);
      case Grow(i, b, delta) =>
        if Told(cfg, c, ch) != [] {
          ToldOne(a, DeltaPart(b, delta));
        }
        AsmGrow(c.blocks, c.callIds, i, b, delta, a);
        CaptureGrow(c, i, b, a, after, marks);
        SameHushed(c, After(cfg, c, ch), marks, marks);
      case Close(i) =>
        var closed := CloseBlock(cfg, c.callIds, c.blocks[i]).value;
        HeldIsQuiet(c.blocks, i, a);
        var filled := AsmClose(cfg, c.blocks, c.callIds, i, a, closed);
        CaptureClose(cfg, c, i, a, after, marks, closed);
    }
  }

  lemma ToldOne(a: Assembly, part: StreamPart)
    requires a.Valid()
    ensures AssembleAll(a, [part]) == AssembleStep(a, part)
  {
    hide AssembleStep;
    assert [part][1..] == [];
    if AssembleStep(a, part).Ok? {
      assert AssembleAll(AssembleStep(a, part).value, []) == AssembleStep(a, part);
    }
  }

  lemma SourceAdds(a: Assembly, part: StreamPart)
    requires a.Valid() && part.SourceFound?
    ensures AssembleStep(a, part) == Ok(Add(a, Source(part.source)))
  {
  }

  lemma OtherAddsNothing(a: Assembly, part: StreamPart)
    requires a.Valid() && Neutral(part) && !part.SourceFound?
    ensures AssembleStep(a, part) == Ok(a)
  {
  }

  lemma HiddenHasNoSlot(a: Assembly, b: Block)
    requires KindOf(b) == KHidden
    ensures SlotOf(a, b) == None
  {
  }

  lemma HeldIsQuiet(blocks: Blocks, i: U64, a: Assembly)
    requires AsmTrack(blocks, a) && i in blocks
    ensures KindOf(blocks[i]) == KHidden ==> blocks[i].text == ""
  {
    assert Holds(a, blocks[i]);
  }

  /** Orders only grow. */
  lemma {:induction false} NextGrows(
    cfg: Config, c: Core, changes: seq<Change>, d: Core, parts: seq<StreamPart>)
    requires Plays(cfg, c, changes, d, parts)
    ensures c.next <= d.next
    decreases |changes|
  {
    hide Enabled, CloseBlock;
    if changes != [] {
      NextGrows(cfg, After(cfg, c, changes[0]), changes[1..], d,
                parts[|Told(cfg, c, changes[0])|..]);
    }
  }

  lemma {:induction false} CaptureChanges(
    cfg: Config, c: Core, changes: seq<Change>, d: Core, parts: seq<StreamPart>,
    l: Life, a: Assembly, after: Assembly, marks: Marks) returns (marks2: Marks)
    requires Track(c, l, a) && Plays(cfg, c, changes, d, parts)
    requires Clean(d.blocks, d.callIds) && d.next + 1 < U64_SPAN
    requires Capturing(c, a, marks) && a.Valid() && AssembleAll(a, parts) == Ok(after)
    ensures Capturing(d, after, marks2)
    ensures FilterMap(marks2, Same) == FilterMap(marks, Same) + ShownBy(cfg, c, changes)
    ensures Hushed(d, marks2) <==> Hushed(c, marks) || AnyUnseen(cfg, c, changes)
    decreases |changes|
  {
    hide Enabled, After, Told, LifeTrack, AsmTrack, Clean, AssembleStep, Capturing, Hushed, Named, Shown, NewMarks;
    hide FilterMap;
    if changes == [] {
      marks2 := marks;
    } else {
      var ch := changes[0];
      var told := Told(cfg, c, ch);
      var middle, rest := After(cfg, c, ch), parts[|told|..];
      if !Clean(middle.blocks, middle.callIds) {
        DirtStaysThroughout(cfg, middle, changes[1..], d, rest);
      }
      NextGrows(cfg, c, changes, d, parts);
      var l1, a1 := TrackChange(cfg, c, ch, l, a);
      CleanAcross(cfg, c, ch);
      CaptureChange(cfg, c, ch, a, a1, marks);
      assert parts == told + rest;
      AssembleAllConcat(a, told, rest);
      FilterMapConcat(marks, NewMarks(cfg, c, ch), Same);
      NewMarksShow(cfg, c, ch);
      marks2 := CaptureChanges(cfg, middle, changes[1..], d, rest, l1, a1, after, marks + NewMarks(cfg, c, ch));
    }
  }

  lemma CleanAcross(cfg: Config, c: Core, ch: Change)
    requires Clean(After(cfg, c, ch).blocks, After(cfg, c, ch).callIds)
    ensures ch.Close? || Clean(After(cfg, c, ch).blocks, c.callIds)
  {
    hide CloseBlock;
  }
}
