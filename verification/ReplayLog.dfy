/** The log of replay decisions: what the conformance suite accepts, and what the encoders write. */
module ReplayLog {
  import opened Wrappers
  import opened Json
  import opened Parts
  import opened Sequences

  datatype Capability = Required | Optional | Unsupported

  datatype Declaration = Declaration(policy: ReplayPolicy, capability: Capability)

  predicate DeclarationValid(d: Declaration) {
    match d.policy
    case Never => d.capability.Unsupported?
    case IfValid => !d.capability.Unsupported?
    case Always => d.capability.Required?
  }

  /** A history turn as far as replay is concerned. */
  datatype Entry = OtherTurn | AssistantTurn(artifact: Option<Artifact>)

  datatype Disposition =
    | Replayed
    | NoArtifact
    | ForeignAdapter(found: string, expected: string)
    | ForeignScope(foundScope: string, expectedScope: string)
    | InvalidPayload(reason: string)
    | Reconstructed

  datatype Decision = Decision(index: nat, disposition: Disposition)

  datatype Model = Model(declaration: Declaration, adapter: string, scope: string)

  // --------------------------------------------------------------- allowed groups

  /** The dispositions one assistant turn may be given. */
  predicate Allowed(model: Model, artifact: Option<Artifact>, group: seq<Disposition>) {
    if model.declaration.policy == Never then group == [Reconstructed]
    else if artifact.None? then group == [NoArtifact, Reconstructed]
    else
      var a := artifact.value;
      || group == [Replayed]
      || (|group| == 2 && group[1] == Reconstructed &&
          (|| group[0].InvalidPayload?
           || (a.adapter != model.adapter && group[0] == ForeignAdapter(a.adapter, model.adapter))
           || (a.scope != model.scope && group[0] == ForeignScope(a.scope, model.scope))))
  }

  function Labelled(index: nat, group: seq<Disposition>): seq<Decision> {
    Mapped(group, disposition => Decision(index, disposition))
  }

  /** The decisions of the turns from `from` on, one group a turn. */
  function Flat(groups: seq<seq<Disposition>>, from: nat): seq<Decision>
    requires from <= |groups|
    decreases |groups| - from
  {
    if from == |groups| then [] else Labelled(from, groups[from]) + Flat(groups, from + 1)
  }

  /** One allowed group for every assistant turn, none for the others. */
  predicate Groups(model: Model, history: seq<Entry>, groups: seq<seq<Disposition>>) {
    |groups| == |history|
    && forall i :: 0 <= i < |history| ==>
         if history[i].OtherTurn? then groups[i] == [] else Allowed(model, history[i].artifact, groups[i])
  }

  // --------------------------------------------------------------------- validation

  predicate Decides(decisions: seq<Decision>, cursor: nat, index: nat, disposition: Disposition) {
    cursor < |decisions| && decisions[cursor] == Decision(index, disposition)
  }

  /** The cursor after the decisions of one assistant turn. */
  function Consume(model: Model, artifact: Option<Artifact>, decisions: seq<Decision>, cursor: nat, index: nat)
    : (next: Option<nat>)
    ensures next.Some? ==> cursor < next.value <= |decisions|
  {
    if model.declaration.policy == Never then
      if Decides(decisions, cursor, index, Reconstructed) then Some(cursor + 1) else None
    else if artifact.None? then
      if Decides(decisions, cursor, index, NoArtifact) && Decides(decisions, cursor + 1, index, Reconstructed)
      then Some(cursor + 2) else None
    else if cursor >= |decisions| then None
    else
      var a, d := artifact.value, decisions[cursor];
      if a.adapter != model.adapter && d.disposition.ForeignAdapter? then
        if d == Decision(index, ForeignAdapter(a.adapter, model.adapter))
           && Decides(decisions, cursor + 1, index, Reconstructed)
        then Some(cursor + 2) else None
      else if a.scope != model.scope && d.disposition.ForeignScope? then
        if d == Decision(index, ForeignScope(a.scope, model.scope))
           && Decides(decisions, cursor + 1, index, Reconstructed)
        then Some(cursor + 2) else None
      else if d.index != index then None
      else if d.disposition.Replayed? then Some(cursor + 1)
      else if d.disposition.InvalidPayload? && Decides(decisions, cursor + 1, index, Reconstructed)
      then Some(cursor + 2)
      else None
  }

  /** Whether the turns from `from` on use up the decisions from the cursor on. */
  predicate Accepts(model: Model, history: seq<Entry>, decisions: seq<Decision>, from: nat, cursor: nat)
    requires from <= |history|
    decreases |history| - from
  {
    if from == |history| then cursor == |decisions|
    else if history[from].OtherTurn? then Accepts(model, history, decisions, from + 1, cursor)
    else
      var next := Consume(model, history[from].artifact, decisions, cursor, from);
      next.Some? && Accepts(model, history, decisions, from + 1, next.value)
  }

  method ValidateReplayLog(model: Model, history: seq<Entry>, decisions: seq<Decision>) returns (ok: bool)
    ensures ok <==> DeclarationValid(model.declaration) && Accepts(model, history, decisions, 0, 0)
  {
    hide Consume;
    if !DeclarationValid(model.declaration) {
      return false;
    }
    var cursor := 0;
    for index := 0 to |history|
      invariant Accepts(model, history, decisions, index, cursor) == Accepts(model, history, decisions, 0, 0)
    {
      if history[index].AssistantTurn? {
        var next := Consume(model, history[index].artifact, decisions, cursor, index);
        if next.None? {
          return false;
        }
        cursor := next.value;
      }
    }
    return cursor == |decisions|;
  }

  // ----------------------------------------------------- accepted logs and groups

  /** A turn consumes exactly the decisions of one allowed group. */
  lemma ConsumesAGroup(model: Model, artifact: Option<Artifact>, decisions: seq<Decision>, cursor: nat, index: nat)
    returns (group: seq<Disposition>)
    requires Consume(model, artifact, decisions, cursor, index).Some?
    ensures
      var next := Consume(model, artifact, decisions, cursor, index).value;
      Allowed(model, artifact, group) && decisions[cursor..next] == Labelled(index, group)
  {
    var next := Consume(model, artifact, decisions, cursor, index).value;
    group := if next == cursor + 1 then [decisions[cursor].disposition]
             else [decisions[cursor].disposition, Reconstructed];
  }

  /** An allowed group at the cursor is what the turn consumes. */
  lemma GroupIsConsumed(
    model: Model, artifact: Option<Artifact>, decisions: seq<Decision>, cursor: nat, index: nat,
      group: seq<Disposition>)
    requires Allowed(model, artifact, group) && cursor + |group| <= |decisions|
    requires decisions[cursor..cursor + |group|] == Labelled(index, group)
    ensures Consume(model, artifact, decisions, cursor, index) == Some(cursor + |group|)
  {
    assert forall k :: 0 <= k < |group| ==> decisions[cursor + k] == Decision(index, group[k]) by {
      forall k | 0 <= k < |group| ensures decisions[cursor + k] == Decision(index, group[k]) {
        assert decisions[cursor..cursor + |group|][k] == Labelled(index, group)[k];
      }
    }
    if |group| == 2 {
      assert decisions[cursor + 1] == Decision(index, group[1]);
    }
    assert decisions[cursor + 0] == Decision(index, group[0]);
  }

  lemma {:induction false} AcceptedSplits(
    model: Model, history: seq<Entry>, decisions: seq<Decision>, from: nat, cursor: nat)
    returns (groups: seq<seq<Disposition>>)
    requires from <= |history| && cursor <= |decisions| && Accepts(model, history, decisions, from, cursor)
    ensures |groups| == |history|
    ensures forall i :: from <= i < |history| ==>
      if history[i].OtherTurn? then groups[i] == [] else Allowed(model, history[i].artifact, groups[i])
    ensures decisions[cursor..] == Flat(groups, from)
    decreases |history| - from
  {
    hide Allowed, Consume;
    if from == |history| {
      groups := seq(|history|, _ => []);
    } else {
      var own: seq<Disposition>, next := [], cursor;
      if history[from].AssistantTurn? {
        own := ConsumesAGroup(model, history[from].artifact, decisions, cursor, from);
        next := Consume(model, history[from].artifact, decisions, cursor, from).value;
      }
      var rest := AcceptedSplits(model, history, decisions, from + 1, next);
      groups := rest[from := own];
      FlatIgnoresEarlier(groups, rest, from + 1);
      assert decisions[cursor..] == decisions[cursor..next] + decisions[next..];
    }
  }

  lemma {:induction false} FlatIgnoresEarlier(first: seq<seq<Disposition>>, second: seq<seq<Disposition>>, from: nat)
    requires from <= |first| == |second| && forall i :: from <= i < |first| ==> first[i] == second[i]
    ensures Flat(first, from) == Flat(second, from)
    decreases |first| - from
  {
    if from < |first| {
      FlatIgnoresEarlier(first, second, from + 1);
    }
  }

  lemma {:induction false} SplitIsAccepted(
    model: Model, history: seq<Entry>, decisions: seq<Decision>, groups: seq<seq<Disposition>>, from: nat, cursor: nat)
    requires from <= |history| && cursor <= |decisions| && Groups(model, history, groups)
    requires decisions[cursor..] == Flat(groups, from)
    ensures Accepts(model, history, decisions, from, cursor)
    decreases |history| - from
  {
    hide Allowed, Consume;
    if from < |history| {
      var own := groups[from];
      var next := cursor + |own|;
      assert Flat(groups, from)[..|own|] == Labelled(from, own);
      assert Flat(groups, from)[|own|..] == Flat(groups, from + 1);
      assert decisions[cursor..][..|own|] == decisions[cursor..next];
      assert decisions[cursor..][|own|..] == decisions[next..];
      if history[from].AssistantTurn? {
        GroupIsConsumed(model, history[from].artifact, decisions, cursor, from, own);
      }
      SplitIsAccepted(model, history, decisions, groups, from + 1, next);
    }
  }

  /** The log is accepted exactly when it is one allowed group per assistant turn, in history order. */
  lemma AcceptedMeansGroups(model: Model, history: seq<Entry>, decisions: seq<Decision>)
    ensures Accepts(model, history, decisions, 0, 0) <==>
      exists groups :: Groups(model, history, groups) && decisions == Flat(groups, 0)
  {
    assert decisions[0..] == decisions;
    if Accepts(model, history, decisions, 0, 0) {
      var groups := AcceptedSplits(model, history, decisions, 0, 0);
      assert Groups(model, history, groups) && decisions == Flat(groups, 0);
    }
    if exists groups :: Groups(model, history, groups) && decisions == Flat(groups, 0) {
      var groups :| Groups(model, history, groups) && decisions == Flat(groups, 0);
      SplitIsAccepted(model, history, decisions, groups, 0, 0);
    }
  }

  /** There is only one way to split an accepted log. */
  lemma {:induction false} SplitIsUnique(
    model: Model, history: seq<Entry>, first: seq<seq<Disposition>>, second: seq<seq<Disposition>>, from: nat)
    requires Groups(model, history, first) && Groups(model, history, second) && from <= |history|
    requires Flat(first, from) == Flat(second, from)
    ensures first[from..] == second[from..]
    decreases |history| - from
  {
    hide Consume;
    if from < |history| {
      var one, two := first[from], second[from];
      SameGroup(model, history[from], from, one, two, Flat(first, from + 1), Flat(second, from + 1));
      assert Flat(first, from)[|one|..] == Flat(first, from + 1);
      assert Flat(second, from)[|two|..] == Flat(second, from + 1);
      SplitIsUnique(model, history, first, second, from + 1);
      assert first[from..] == [one] + first[from + 1..] && second[from..] == [two] + second[from + 1..];
    }
  }

  /** Allowed groups are told apart by their first disposition. */
  lemma SameGroup(
    model: Model, entry: Entry, index: nat, one: seq<Disposition>, two: seq<Disposition>,
    after: seq<Decision>, other: seq<Decision>)
    requires if entry.OtherTurn? then one == two == []
             else Allowed(model, entry.artifact, one) && Allowed(model, entry.artifact, two)
    requires Labelled(index, one) + after == Labelled(index, two) + other
    ensures one == two
  {
    if entry.AssistantTurn? {
      var whole := Labelled(index, one) + after;
      assert whole[0] == Decision(index, one[0]) && whole[0] == Decision(index, two[0]);
      assert |one| == |two|;
      assert |one| == 2 ==> one[1] == two[1];
    }
  }

  // ---------------------------------------------------------------------- encoders

  /** How an adapter decodes an artifact at a history index; the reason it cannot. */
  type Decoder = (nat, Artifact) -> Option<string>

  /** What an adapter logs for an assistant turn, by what is wrong with its artifact, if anything. */
  function Outcome(policy: ReplayPolicy, artifact: Option<Artifact>, fault: Option<string>): seq<Disposition> {
    if policy == Never then [Reconstructed]
    else if artifact.None? then [NoArtifact, Reconstructed]
    else if fault.None? then [Replayed]
    else [InvalidPayload(fault.value), Reconstructed]
  }

  function AdapterGroup(policy: ReplayPolicy, decode: Decoder, index: nat,
    artifact: Option<Artifact>): seq<Disposition> {
    Outcome(policy, artifact, if artifact.Some? then decode(index, artifact.value) else None)
  }

  /** What the mock model logs: artifacts from elsewhere are named as such. */
  function MockGroup(model: Model, artifact: Option<Artifact>): seq<Disposition> {
    if model.declaration.policy == Never then [Reconstructed]
    else if artifact.None? then [NoArtifact, Reconstructed]
    else
      var a := artifact.value;
      if a.adapter != model.adapter then [ForeignAdapter(a.adapter, model.adapter), Reconstructed]
      else if a.scope != model.scope then [ForeignScope(a.scope, model.scope), Reconstructed]
      else if a.payload == Str("garbage") then
        [InvalidPayload("mock replay decoder rejected payload"), Reconstructed]
      else [Replayed]
  }

  function GroupsOf(history: seq<Entry>, group: (nat, Option<Artifact>) -> seq<Disposition>): seq<seq<Disposition>> {
    seq(|history|, i requires 0 <= i < |history| =>
      if history[i].OtherTurn? then [] else group(i, history[i].artifact))
  }

  function AdapterGroups(policy: ReplayPolicy, decode: Decoder): (nat, Option<Artifact>) -> seq<Disposition> {
    (index: nat, artifact: Option<Artifact>) => AdapterGroup(policy, decode, index, artifact)
  }

  function MockGroups(model: Model): (nat, Option<Artifact>) -> seq<Disposition> {
    (_: nat, artifact: Option<Artifact>) => MockGroup(model, artifact)
  }

  lemma {:induction false} FlatLast(groups: seq<seq<Disposition>>, from: nat, last: seq<Disposition>)
    requires from <= |groups|
    ensures Flat(groups + [last], from) == Flat(groups, from) + Labelled(|groups|, last)
    decreases |groups| - from
  {
    if from < |groups| {
      FlatLast(groups, from + 1, last);
    }
  }

  method LogDecisions(history: seq<Entry>, group: (nat, Option<Artifact>) -> seq<Disposition>)
    returns (decisions: seq<Decision>)
    ensures decisions == Flat(GroupsOf(history, group), 0)
  {
    decisions := [];
    for index := 0 to |history|
      invariant decisions == Flat(GroupsOf(history, group)[..index], 0)
    {
      var groups := GroupsOf(history, group);
      assert groups[..index + 1] == groups[..index] + [groups[index]];
      FlatLast(groups[..index], 0, groups[index]);
      if history[index].AssistantTurn? {
        decisions := decisions + Labelled(index, group(index, history[index].artifact));
      }
    }
    assert GroupsOf(history, group)[..|history|] == GroupsOf(history, group);
  }

  /** Whatever the adapter can decode, the log it writes is accepted. */
  lemma AdapterLogIsAccepted(model: Model, decode: Decoder, history: seq<Entry>)
    ensures Accepts(model, history, Flat(GroupsOf(history, AdapterGroups(model.declaration.policy, decode)), 0), 0, 0)
  {
    var groups := GroupsOf(history, AdapterGroups(model.declaration.policy, decode));
    var decisions := Flat(groups, 0);
    assert decisions[0..] == decisions;
    SplitIsAccepted(model, history, decisions, groups, 0, 0);
  }

  lemma MockLogIsAccepted(model: Model, history: seq<Entry>)
    ensures Accepts(model, history, Flat(GroupsOf(history, MockGroups(model)), 0), 0, 0)
  {
    var groups := GroupsOf(history, MockGroups(model));
    var decisions := Flat(groups, 0);
    assert decisions[0..] == decisions;
    SplitIsAccepted(model, history, decisions, groups, 0, 0);
  }

  // ------------------------------------------------------- logs of whole histories

  function EntryOf(turn: Turn): Entry {
    if turn.AssistantTurn? then Entry.AssistantTurn(turn.artifact) else OtherTurn
  }

  /** The outcomes of a history, turn by turn, by what is wrong with the artifact of a turn. */
  function Outcomes(policy: ReplayPolicy, history: seq<Turn>,
    fault: Turn -> Option<string>): (groups: seq<seq<Disposition>>)
    ensures |groups| == |history|
  {
    seq(|history|, i requires 0 <= i < |history| =>
      if history[i].AssistantTurn? then Outcome(policy, history[i].artifact, fault(history[i])) else [])
  }

  /** The log an encoder keeps as it goes through a history. */
  function OutcomeLog(policy: ReplayPolicy, history: seq<Turn>, fault: Turn -> Option<string>): seq<Decision> {
    Flat(Outcomes(policy, history, fault), 0)
  }

  lemma OutcomesAreAccepted(model: Model, history: seq<Turn>, fault: Turn -> Option<string>)
    ensures Accepts(model, Mapped(history, EntryOf), OutcomeLog(model.declaration.policy, history, fault), 0, 0)
  {
    hide Accepts;
    var entries, policy := Mapped(history, EntryOf), model.declaration.policy;
    var decode: Decoder := (i: nat, _: Artifact) => if i < |history| then fault(history[i]) else None;
    assert Outcomes(policy, history, fault) == GroupsOf(entries, AdapterGroups(policy, decode));
    AdapterLogIsAccepted(model, decode, entries);
  }

  lemma OutcomeLogGrows(policy: ReplayPolicy, history: seq<Turn>, fault: Turn -> Option<string>, i: nat)
    requires i < |history|
    ensures OutcomeLog(policy, history[..i + 1], fault) == OutcomeLog(policy, history[..i], fault)
      + Labelled(i, if history[i].AssistantTurn? then Outcome(policy, history[i].artifact, fault(history[i])) else [])
  {
    var before, last := Outcomes(policy, history[..i], fault), Outcomes(policy, history[..i + 1], fault)[i];
    assert Outcomes(policy, history[..i + 1], fault) == before + [last];
    FlatLast(before, 0, last);
  }

  lemma {:induction false} FlatMembers(groups: seq<seq<Disposition>>, from: nat, index: nat, d: Disposition)
    requires from <= |groups|
    ensures Decision(index, d) in Flat(groups, from) <==> from <= index < |groups| && d in groups[index]
    decreases |groups| - from
  {
    if from < |groups| {
      var here := Labelled(from, groups[from]);
      assert Decision(index, d) in here <==> index == from && d in groups[from] by {
        if index == from && d in groups[from] {
          var k :| 0 <= k < |groups[from]| && groups[from][k] == d;
          assert here[k] == Decision(index, d);
        }
      }
      FlatMembers(groups, from + 1, index, d);
    }
  }

  /** A turn is logged as replayed when its artifact is used and sound, else as reconstructed. */
  lemma LoggedOnce(policy: ReplayPolicy, history: seq<Turn>, fault: Turn -> Option<string>, i: nat)
    requires i < |history| && history[i].AssistantTurn?
    ensures
      var log, turn := OutcomeLog(policy, history, fault), history[i];
      && (Decision(i, Replayed) in log <==> policy != Never && turn.artifact.Some? && fault(turn).None?)
      && (Decision(i, Reconstructed) in log <==> Decision(i, Replayed) !in log)
  {
    FlatMembers(Outcomes(policy, history, fault), 0, i, Replayed);
    FlatMembers(Outcomes(policy, history, fault), 0, i, Reconstructed);
  }

  /** The declarations there can be: never only without support, always only where replay is required. */
  lemma DeclarationsMatch(d: Declaration)
    ensures DeclarationValid(d) <==>
      d in {Declaration(Never, Unsupported), Declaration(IfValid, Required), Declaration(IfValid, Optional),
            Declaration(Always, Required)}
  {
  }

  /** The mock replays its own artifacts but one, and says of each other turn why it is rebuilt. */
  lemma MockSaysWhy(model: Model, artifact: Option<Artifact>)
    ensures
      var group, policy := MockGroup(model, artifact), model.declaration.policy;
      var own := artifact.Some? && artifact.value.adapter == model.adapter && artifact.value.scope == model.scope;
      && (Replayed in group <==> policy != Never && own && artifact.value.payload != Str("garbage"))
      && (Reconstructed in group <==> Replayed !in group)
      && (NoArtifact in group <==> policy != Never && artifact.None?)
      && forall d :: d in group ==>
           match d
           case InvalidPayload(reason) =>
             reason == "mock replay decoder rejected payload" && own && artifact.value.payload == Str("garbage")
           case ForeignAdapter(found, expected) =>
             artifact.Some? && found == artifact.value.adapter && expected == model.adapter && found != expected
           case ForeignScope(found, expected) =>
             artifact.Some? && artifact.value.adapter == model.adapter
             && found == artifact.value.scope && expected == model.scope && found != expected
           case _ => true
  {
  }
}
