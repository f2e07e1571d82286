/** When a stream that follows the lifecycle rules also assembles. */
module ConformanceAssembly {
  import opened Wrappers
  import opened Parts
  import opened Conformance

  /**
   No tool ID is started again before its call is done. `pending` holds the IDs started so far
   and not yet done.
   */
  predicate NoRestart(pending: set<string>, parts: seq<StreamPart>)
    decreases |parts|
  {
    if parts == [] then true else
      match parts[0]
      case ToolCallStart(id, _) => id !in pending && NoRestart(pending + {id}, parts[1..])
      case ToolCallDone(call) => NoRestart(pending - {call.id}, parts[1..])
      case _ => NoRestart(pending, parts[1..])
  }

  // --------------------------------------------------------- owners of slots

  /** An open block, whichever of the assembly's maps holds it. */
  datatype Owner = TextOf(id: string) | ReasoningOf(id: string) | ToolOf(id: string)

  /** The slot an open block will fill. */
  function Slot(a: Assembly, o: Owner): Option<nat> {
    match o
    case TextOf(id) => if id in a.text then Some(a.text[id].slot) else None
    case ReasoningOf(id) => if id in a.reasoning then Some(a.reasoning[id].slot) else None
    case ToolOf(id) => if id in a.tools then Some(a.tools[id]) else None
  }

  /** What one part does to the slots. */
  datatype Change = Opens(owner: Owner) | Fills(owner: Owner) | Adds | Keeps

  function ChangeOf(a: Assembly, part: StreamPart): Change {
    match part
    case TextStart(id, _) => Opens(TextOf(id))
    case ReasoningStart(id, _) => Opens(ReasoningOf(id))
    case ToolCallStart(id, _) => Opens(ToolOf(id))
    case TextEnd(id, _) => Fills(TextOf(id))
    case ReasoningEnd(id, _) => Fills(ReasoningOf(id))
    case ToolCallDone(call) => if call.id in a.tools then Fills(ToolOf(call.id)) else Adds
    case ToolResultDone(_) => Adds
    case SourceFound(_) => Adds
    case FileDone(_) => Adds
    case CustomDone(_, _) => Adds
    case ApprovalRequested(_) => Adds
    case _ => Keeps
  }

  ghost predicate Moves(a: Assembly, b: Assembly, o: Owner, slot: Option<nat>) {
    forall p :: Slot(b, p) == if p == o then slot else Slot(a, p)
  }

  ghost predicate Stays(a: Assembly, b: Assembly) {
    forall p :: Slot(b, p) == Slot(a, p)
  }

  ghost predicate Effect(a: Assembly, b: Assembly, change: Change) {
    match change
    case Opens(o) => b.content == a.content + [None] && Moves(a, b, o, Some(|a.content|))
    case Fills(o) =>
      && Slot(a, o).Some? && Slot(a, o).value < |a.content|
      && (exists part :: b.content == a.content[Slot(a, o).value := Some(part)])
      && Moves(a, b, o, None)
    case Adds => (exists part :: b.content == a.content + [Some(part)]) && Stays(a, b)
    case Keeps => b.content == a.content && Stays(a, b)
  }

  lemma TextEffect(a: Assembly, part: StreamPart)
    requires a.Valid() && (part.TextStart? || part.TextDelta? || part.TextEnd?) && AssembleText(a, part).Ok?
    ensures Effect(a, AssembleText(a, part).value, ChangeOf(a, part))
  {
    var b := AssembleText(a, part).value;
    if part.TextEnd? {
      var block := a.text[part.id];
      assert b.content == a.content[block.slot := Some(Text(block.text, block.metadata))];
    }
  }

  lemma ReasoningEffect(a: Assembly, part: StreamPart)
    requires a.Valid() && (part.ReasoningStart? || part.ReasoningDelta? || part.ReasoningEnd?)
    requires AssembleReasoning(a, part).Ok?
    ensures Effect(a, AssembleReasoning(a, part).value, ChangeOf(a, part))
  {
    var b := AssembleReasoning(a, part).value;
    if part.ReasoningEnd? {
      var block := a.reasoning[part.id];
      assert b.content == a.content[block.slot := Some(Reasoning(block.text, block.metadata))];
    }
  }

  lemma AddEffect(a: Assembly, part: AssistantPart)
    requires a.Valid()
    ensures Effect(a, Add(a, part), Adds)
  {
    assert Add(a, part).content == a.content + [Some(part)];
  }

  lemma StepEffect(a: Assembly, part: StreamPart)
    requires a.Valid() && AssembleStep(a, part).Ok?
    ensures Effect(a, AssembleStep(a, part).value, ChangeOf(a, part))
  {
    if part.TextStart? || part.TextDelta? || part.TextEnd? {
      TextEffect(a, part);
    } else if part.ReasoningStart? || part.ReasoningDelta? || part.ReasoningEnd? {
      ReasoningEffect(a, part);
    } else {
      hide Add;
      match part
      case ToolCallDone(call) =>
        if call.id !in a.tools {
          AddEffect(a, ToolCall(call));
        } else {
          assert AssembleStep(a, part).value.content == a.content[a.tools[call.id] := Some(ToolCall(call))];
        }
      case ToolResultDone(result) => AddEffect(a, ToolResult(result));
      case SourceFound(source) => AddEffect(a, Source(source));
      case FileDone(file) => AddEffect(a, File(file));
      case CustomDone(kind, data) => AddEffect(a, Custom(kind, data));
      case ApprovalRequested(approval) => AddEffect(a, ToolApproval(approval));
      case _ =>
    }
  }

  // --------------------------------------------------------- slots and blocks

  /** Every empty slot awaits exactly one open block, and open blocks await empty slots only. */
  ghost predicate Sound(a: Assembly) {
    && (forall o :: Slot(a, o).Some? ==> Slot(a, o).value < |a.content| && a.content[Slot(a, o).value].None?)
    && (forall o, p :: Slot(a, o).Some? && Slot(a, o) == Slot(a, p) ==> o == p)
    && (forall k :: 0 <= k < |a.content| && a.content[k].None? ==> Awaited(a, k))
  }

  ghost predicate Awaited(a: Assembly, k: nat) {
    exists o :: Slot(a, o) == Some(k)
  }

  /** An empty slot nothing will fill. */
  ghost predicate Orphan(a: Assembly, k: nat) {
    k < |a.content| && a.content[k].None? && forall o :: Slot(a, o) != Some(k)
  }

  lemma SoundIsKept(a: Assembly, b: Assembly, change: Change)
    requires Sound(a) && Effect(a, b, change)
    requires change.Opens? ==> Slot(a, change.owner).None?
    ensures Sound(b)
  {
    hide Slot;
    forall k | 0 <= k < |b.content| && b.content[k].None? ensures Awaited(b, k) {
      if change.Opens? && k == |a.content| {
        assert Slot(b, change.owner) == Some(k);
      } else {
        assert a.content[k].None?;
        var o :| Slot(a, o) == Some(k);
        assert Slot(b, o) == Some(k);
      }
    }
  }

  lemma RestartOrphans(a: Assembly, b: Assembly, o: Owner)
    requires Sound(a) && Effect(a, b, Opens(o)) && Slot(a, o).Some?
    ensures Orphan(b, Slot(a, o).value)
  {
    hide Slot;
  }

  lemma OrphanIsKept(a: Assembly, b: Assembly, k: nat, change: Change)
    requires Orphan(a, k) && Effect(a, b, change)
    ensures Orphan(b, k)
  {
    hide Slot;
  }

  // ------------------------------------------------------- lifecycle and slots

  /** Open text and reasoning blocks are those of the lifecycle; open tools are among its own. */
  predicate Matches(l: Life, a: Assembly) {
    a.text.Keys == l.text && a.reasoning.Keys == l.reasoning && a.tools.Keys <= l.tool + l.ended
  }

  predicate Closed(l: Life) {
    l.text == {} && l.reasoning == {} && l.tool == {} && l.ended == {}
  }

  lemma StepMatches(l: Life, a: Assembly, part: StreamPart)
    requires a.Valid() && Matches(l, a) && LifeStep(l, part).Ok?
    ensures AssembleStep(a, part).Ok? && Matches(LifeStep(l, part).value, AssembleStep(a, part).value)
  {
  }

  lemma StepFinishes(l: Life, part: StreamPart)
    requires LifeStep(l, part).Ok?
    ensures l.finish.None?
    ensures LifeStep(l, part).value.finish.Some? ==> Closed(LifeStep(l, part).value)
  {
  }

  /** How assembly ends: nothing open and all slots filled, or nothing open and one slot empty. */
  ghost predicate Ends(a: Assembly, filled: bool) {
    a.text == map[] && a.reasoning == map[] && a.tools == map[] && (Filled(a.content) <==> filled)
  }

  lemma NothingOpen(l: Life, a: Assembly)
    requires Matches(l, a) && Closed(l)
    ensures a.text == map[] && a.reasoning == map[] && a.tools == map[]
  {
    assert a.text.Keys == {} && a.reasoning.Keys == {} && a.tools.Keys == {};
  }

  lemma {:induction false} OrphanedRun(l: Life, a: Assembly, k: nat, parts: seq<StreamPart>)
    requires a.Valid() && Matches(l, a) && Orphan(a, k) && (l.finish.Some? ==> Closed(l))
    requires LifeAll(l, parts).Ok? && LifeAll(l, parts).value.finish.Some?
    ensures AssembleAll(a, parts).Ok? && Ends(AssembleAll(a, parts).value, false)
    decreases |parts|
  {
    hide Slot, LifeStep, AssembleStep, Matches, Closed, Effect, Orphan, Assembly.Valid;
    if parts == [] {
      NothingOpen(l, a);
      OrphanIsEmpty(a, k);
    } else {
      StepMatches(l, a, parts[0]);
      StepFinishes(l, parts[0]);
      StepEffect(a, parts[0]);
      var b := AssembleStep(a, parts[0]).value;
      OrphanIsKept(a, b, k, ChangeOf(a, parts[0]));
      OrphanedRun(LifeStep(l, parts[0]).value, b, k, parts[1..]);
    }
  }

  lemma OrphanIsEmpty(a: Assembly, k: nat)
    requires Orphan(a, k)
    ensures !Filled(a.content)
  {
  }

  lemma SoundIsFilled(a: Assembly)
    requires Sound(a) && a.text == map[] && a.reasoning == map[] && a.tools == map[]
    ensures Filled(a.content)
  {
    assert forall o :: Slot(a, o).None?;
  }

  /** The tools in assembly are those started and not yet done. */
  function PendingAfter(pending: set<string>, part: StreamPart): set<string> {
    match part
    case ToolCallStart(id, _) => pending + {id}
    case ToolCallDone(call) => pending - {call.id}
    case _ => pending
  }

  lemma StepPending(a: Assembly, part: StreamPart)
    requires a.Valid() && AssembleStep(a, part).Ok?
    ensures AssembleStep(a, part).value.tools.Keys == PendingAfter(a.tools.Keys, part)
  {
  }

  /** A block the lifecycle lets open has no slot yet, unless it is a tool call started again. */
  lemma OpenedIsNew(l: Life, a: Assembly, part: StreamPart)
    requires Matches(l, a) && LifeStep(l, part).Ok? && ChangeOf(a, part).Opens?
    ensures Slot(a, ChangeOf(a, part).owner).Some? <==> part.ToolCallStart? && part.id in a.tools.Keys
  {
  }

  lemma {:induction false} RunAssembles(l: Life, a: Assembly, parts: seq<StreamPart>)
    requires a.Valid() && Matches(l, a) && Sound(a) && (l.finish.Some? ==> Closed(l))
    requires LifeAll(l, parts).Ok? && LifeAll(l, parts).value.finish.Some?
    ensures AssembleAll(a, parts).Ok? && Ends(AssembleAll(a, parts).value, NoRestart(a.tools.Keys, parts))
    decreases |parts|
  {
    hide Slot, LifeStep, AssembleStep, Matches, Closed, Effect, Orphan, Sound, Assembly.Valid, ChangeOf;
    if parts == [] {
      NothingOpen(l, a);
      SoundIsFilled(a);
    } else {
      var part, change := parts[0], ChangeOf(a, parts[0]);
      StepMatches(l, a, part);
      StepFinishes(l, part);
      StepEffect(a, part);
      StepPending(a, part);
      var next, b := LifeStep(l, part).value, AssembleStep(a, part).value;
      if change.Opens? {
        OpenedIsNew(l, a, part);
      }
      if part.ToolCallStart? && part.id in a.tools.Keys {
        assert change == Opens(ToolOf(part.id)) by { StartOpens(a, part); }
        RestartOrphans(a, b, change.owner);
        OrphanedRun(next, b, Slot(a, change.owner).value, parts[1..]);
      } else {
        SoundIsKept(a, b, change);
        RunAssembles(next, b, parts[1..]);
      }
    }
  }

  lemma StartOpens(a: Assembly, part: StreamPart)
    requires part.ToolCallStart?
    ensures ChangeOf(a, part) == Opens(ToolOf(part.id))
  {
  }

  /**
   Parts that follow the lifecycle rules assemble exactly when no tool call is started again
   before it is done; otherwise the first slot of a restarted call stays empty, and nothing else
   can go wrong.
   */
  lemma LifecycleAssembles(parts: seq<StreamPart>)
    requires Lifecycle(parts).Ok?
    ensures Assembled(parts).Ok? <==> NoRestart({}, parts)
    ensures Assembled(parts).Err? ==> Assembled(parts) == Err(UnfilledSlot)
  {
    hide LifeAll, AssembleAll;
    assert AssembleStep(NOTHING, parts[0]) == Ok(NOTHING);
    assert AssembleAll(NOTHING, parts) == AssembleAll(NOTHING, parts[1..]) by { AssembleFirst(NOTHING, parts); }
    assert NOTHING.tools.Keys == {};
    RunAssembles(BORN, NOTHING, parts[1..]);
  }

  lemma AssembleFirst(a: Assembly, parts: seq<StreamPart>)
    requires a.Valid() && parts != [] && AssembleStep(a, parts[0]).Ok?
    ensures AssembleAll(a, parts) == AssembleAll(AssembleStep(a, parts[0]).value, parts[1..])
  {
  }

  // ------------------------------------------------------------ a failing run

  /** The lifecycle rules alone do not make a stream assemble: here a tool call is started twice. */
  lemma LifecycleIsNotAssembly(call: ToolCallPart, name: string, finish: Finish)
    ensures
      var start, end := ToolCallStart(call.id, name), ToolCallEnd(call.id);
      var parts := [StreamStart, start, end, start, end, ToolCallDone(call), Finished(finish)];
      Lifecycle(parts) == Ok(finish) && Assembled(parts) == Err(UnfilledSlot)
  {
    var start, end := ToolCallStart(call.id, name), ToolCallEnd(call.id);
    var done, last := ToolCallDone(call), Finished(finish);
    var opened1 := BORN.(tool := {call.id});
    var ended1 := BORN.(ended := {call.id});
    var opened2 := ended1.(tool := {call.id});
    var none: set<string> := {};
    assert none + {call.id} == {call.id} && {call.id} - {call.id} == none;
    assert LifeStep(BORN, start) == Ok(opened1);
    assert LifeStep(opened1, end) == Ok(ended1);
    assert LifeStep(ended1, start) == Ok(opened2);
    assert LifeStep(opened2, end) == Ok(ended1);
    assert LifeStep(ended1, done) == Ok(BORN);
    RestartLives(start, end, done, last, opened1, ended1, opened2);
    var tail := [start, end, start, end, done, last];
    var parts := [StreamStart, start, end, start, end, done, last];
    assert parts[1..] == tail;
    LifecycleAssembles(parts);
    var again := [start, end, done, last];
    assert parts == [StreamStart] + ([start] + ([end] + again));
    NoRestartCons(none, StreamStart, [start] + ([end] + again));
    NoRestartCons(none, start, [end] + again);
    NoRestartCons({call.id}, end, again);
    assert !NoRestart({call.id}, again);
  }

  lemma NoRestartCons(pending: set<string>, part: StreamPart, rest: seq<StreamPart>)
    ensures NoRestart(pending, [part] + rest)
      <==> (part.ToolCallStart? ==> part.id !in pending) && NoRestart(PendingAfter(pending, part), rest)
  {
    assert ([part] + rest)[1..] == rest;
  }

  lemma RestartLives(
    start: StreamPart, end: StreamPart, done: StreamPart, last: StreamPart, opened1: Life, ended1: Life, opened2: Life)
    requires LifeStep(BORN, start) == Ok(opened1) && LifeStep(opened1, end) == Ok(ended1)
    requires LifeStep(ended1, start) == Ok(opened2) && LifeStep(opened2, end) == Ok(ended1)
    requires LifeStep(ended1, done) == Ok(BORN) && LifeStep(BORN, last).Ok?
    ensures LifeAll(BORN, [start, end, start, end, done, last]) == LifeStep(BORN, last)
  {
    hide LifeStep;
    var p5, p4 := [last], [done, last];
    var p3, p2, p1 := [end] + p4, [start] + ([end] + p4), [end] + ([start] + ([end] + p4));
    assert p4[1..] == p5 && p3[1..] == p4 && p2[1..] == p3 && p1[1..] == p2;
    var whole := [start] + p1;
    assert whole[1..] == p1 && whole == [start, end, start, end, done, last];
    var finished := LifeStep(BORN, last).value;
    assert LifeAll(finished, []) == Ok(finished) && p5[1..] == [];
    assert LifeAll(BORN, p5) == LifeStep(BORN, last);
    assert LifeAll(ended1, p4) == LifeStep(BORN, last);
    assert LifeAll(opened2, p3) == LifeStep(BORN, last);
    assert LifeAll(ended1, p2) == LifeStep(BORN, last);
    assert LifeAll(opened1, p1) == LifeStep(BORN, last);
  }
}
