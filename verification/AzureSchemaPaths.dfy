/**
 What an accepted strict schema means: no definition reaches itself, and with every reference
 replaced by its target the schema is a finite tree whose objects nest at most five deep.
 */
module AzureSchemaPaths {
  import opened Wrappers
  import opened Json
  import opened AzureSchema

  // ------------------------------------------------------------------- walks

  /** One step from a node to a child, or from a reference to its target. */
  function Next(root: Json, node: Json, step: Step): Option<Json> {
    match Reference(node)
    case Some(reference) => if step.Follow? then Resolve(root, reference) else None
    case None => if step in Ways(node) then Some(Child(node, step)) else None
  }

  /** Where a walk ends, if every step can be taken. */
  function Walk(root: Json, node: Json, steps: seq<Step>): Option<Json>
    decreases |steps|
  {
    if steps == [] then Some(node)
    else if Next(root, node, steps[0]).None? then None
    else Walk(root, Next(root, node, steps[0]).value, steps[1..])
  }

  /** The references a walk follows. */
  function Followed(root: Json, node: Json, steps: seq<Step>): seq<string>
    requires Walk(root, node, steps).Some?
    decreases |steps|
  {
    if steps == [] then [] else
      (if Reference(node).Some? then [Reference(node).value] else [])
      + Followed(root, Next(root, node, steps[0]).value, steps[1..])
  }

  /** The object schemas a walk passes, its end included. */
  function Objects(root: Json, node: Json, steps: seq<Step>): nat
    requires Walk(root, node, steps).Some?
    decreases |steps|
  {
    (if Reference(node).None? && IsObject(node) then 1 else 0)
    + (if steps == [] then 0 else Objects(root, Next(root, node, steps[0]).value, steps[1..]))
  }

  /** The end of a walk is usable: an object, or a reference that resolves and is not being followed. */
  predicate EndValid(root: Json, end: Json, active: seq<string>) {
    && end.Obj?
    && match Reference(end)
       case Some(reference) => Resolve(root, reference).Some? && reference !in active
       case None => true
  }

  predicate WalkValid(root: Json, node: Json, depth: nat, stack: seq<string>, steps: seq<Step>)
    requires Walk(root, node, steps).Some?
  {
    && EndValid(root, Walk(root, node, steps).value, stack + Followed(root, node, steps))
    && depth + Objects(root, node, steps) <= MAX_OBJECT_DEPTH
  }

  ghost predicate AllWalksValid(root: Json, node: Json, depth: nat, stack: seq<string>) {
    forall steps :: Walk(root, node, steps).Some? ==> WalkValid(root, node, depth, stack, steps)
  }

  function Deeper(node: Json, depth: nat): nat {
    if Reference(node).Some? then depth else NextDepth(node, depth)
  }

  function Grown(node: Json, stack: seq<string>): seq<string> {
    if Reference(node).Some? then stack + [Reference(node).value] else stack
  }

  lemma WalkExtends(
    root: Json, node: Json, depth: nat, stack: seq<string>, step: Step, rest: seq<Step>)
    requires Next(root, node, step).Some? && Walk(root, Next(root, node, step).value, rest).Some?
    ensures
      var next := Next(root, node, step).value;
      && Walk(root, node, [step] + rest) == Walk(root, next, rest)
      && (WalkValid(root, node, depth, stack, [step] + rest) <==>
            WalkValid(root, next, Deeper(node, depth), Grown(node, stack), rest))
  {
    hide Next, IsObject, EndValid, Walk, Followed, Objects;
    WalkTakes(root, node, step, rest);
    var followed := if Reference(node).Some? then [Reference(node).value] else [];
    assert stack + (followed + Followed(root, Next(root, node, step).value, rest))
      == Grown(node, stack) + Followed(root, Next(root, node, step).value, rest);
  }

  /** A walk by its first step. */
  lemma WalkTakes(root: Json, node: Json, step: Step, rest: seq<Step>)
    requires Next(root, node, step).Some? && Walk(root, Next(root, node, step).value, rest).Some?
    ensures
      var next := Next(root, node, step).value;
      && Walk(root, node, [step] + rest) == Walk(root, next, rest)
      && Followed(root, node, [step] + rest)
        == (if Reference(node).Some? then [Reference(node).value] else []) + Followed(root, next, rest)
      && Objects(root, node, [step] + rest)
        == (if Reference(node).None? && IsObject(node) then 1 else 0) + Objects(root, next, rest)
  {
    hide Next, IsObject;
    assert ([step] + rest)[1..] == rest;
  }

  /** The recursive check holds exactly when every walk is valid. */
  lemma PathsAreWalks(root: Json, node: Json, depth: nat, stack: seq<string>)
    requires depth <= MAX_OBJECT_DEPTH
    ensures PathsValid(root, node, depth, stack) <==> AllWalksValid(root, node, depth, stack)
  {
    if PathsValid(root, node, depth, stack) {
      forall steps | Walk(root, node, steps).Some?
        ensures WalkValid(root, node, depth, stack, steps) {
        ValidWalk(root, node, depth, stack, steps);
      }
    } else {
      var steps := BadWalk(root, node, depth, stack);
    }
  }

  lemma PathsBelow(root: Json, node: Json, depth: nat, stack: seq<string>, step: Step)
    requires PathsValid(root, node, depth, stack) && depth <= MAX_OBJECT_DEPTH
    requires Next(root, node, step).Some?
    ensures Deeper(node, depth) <= MAX_OBJECT_DEPTH
    ensures PathsValid(root, Next(root, node, step).value, Deeper(node, depth), Grown(node, stack))
  {
    hide Resolve, Ways;
  }

  lemma {:induction false} ValidWalk(root: Json, node: Json, depth: nat, stack: seq<string>, steps: seq<Step>)
    requires PathsValid(root, node, depth, stack) && depth <= MAX_OBJECT_DEPTH
    requires Walk(root, node, steps).Some?
    ensures WalkValid(root, node, depth, stack, steps)
    decreases |steps|
  {
    hide Next, Resolve, WalkValid;
    if steps == [] {
      assert stack + [] == stack;
      assert WalkValid(root, node, depth, stack, steps) by { HereValid(root, node, depth, stack); }
    } else {
      PathsBelow(root, node, depth, stack, steps[0]);
      var next := Next(root, node, steps[0]).value;
      ValidWalk(root, next, Deeper(node, depth), Grown(node, stack), steps[1..]);
      WalkExtends(root, node, depth, stack, steps[0], steps[1..]);
      assert [steps[0]] + steps[1..] == steps;
    }
  }

  /** The walk that stays at the node. */
  lemma HereValid(root: Json, node: Json, depth: nat, stack: seq<string>)
    ensures WalkValid(root, node, depth, stack, []) <==>
      EndValid(root, node, stack)
      && (if Reference(node).Some? then depth else NextDepth(node, depth)) <= MAX_OBJECT_DEPTH
  {
    assert stack + [] == stack;
  }

  /** A way on from a valid end at which the check still fails. */
  lemma BadStep(root: Json, node: Json, depth: nat, stack: seq<string>) returns (step: Step)
    requires !PathsValid(root, node, depth, stack) && WalkValid(root, node, depth, stack, [])
    ensures Next(root, node, step).Some?
    ensures !PathsValid(root, Next(root, node, step).value, Deeper(node, depth), Grown(node, stack))
    ensures Reference(node).None? ==> Next(root, node, step).value < node
    ensures Reference(node).Some? ==> Reference(node).value !in stack && step == Follow
  {
    hide Resolve, Ways;
    HereValid(root, node, depth, stack);
    if Reference(node).Some? {
      step := Follow;
    } else {
      step :| step in Ways(node) && !PathsValid(root, Child(node, step), NextDepth(node, depth), stack);
    }
  }

  lemma {:induction false} BadWalk(root: Json, node: Json, depth: nat, stack: seq<string>) returns (steps: seq<Step>)
    requires !PathsValid(root, node, depth, stack)
    ensures Walk(root, node, steps).Some? && !WalkValid(root, node, depth, stack, steps)
    decreases References(root) - Active(stack), node
  {
    hide PathsValid, WalkValid, Resolve, References;
    steps := [];
    if WalkValid(root, node, depth, stack, []) {
      var step := BadStep(root, node, depth, stack);
      if Reference(node).Some? {
        Shrinks(root, stack, Reference(node).value);
      }
      var rest := BadWalk(root, Next(root, node, step).value, Deeper(node, depth), Grown(node, stack));
      WalkExtends(root, node, depth, stack, step, rest);
      steps := [step] + rest;
    }
  }

  // ------------------------------------------------------------------ cycles

  /** From the target of `from` a walk arrives at a reference to `to`. */
  ghost predicate Reaches(root: Json, from: string, to: string) {
    Resolve(root, from).Some?
    && exists steps :: ArrivesAt(root, Resolve(root, from).value, steps, to)
  }

  predicate ArrivesAt(root: Json, node: Json, steps: seq<Step>, reference: string) {
    Walk(root, node, steps).Some? && Reference(Walk(root, node, steps).value) == Some(reference)
  }

  lemma {:induction false} WalkConcat(root: Json, node: Json, first: seq<Step>, second: seq<Step>)
    requires Walk(root, node, first).Some?
    requires Walk(root, Walk(root, node, first).value, second).Some?
    ensures Walk(root, node, first + second) == Walk(root, Walk(root, node, first).value, second)
    ensures Followed(root, node, first + second)
      == Followed(root, node, first) + Followed(root, Walk(root, node, first).value, second)
    decreases |first|
  {
    hide Next;
    if first == [] {
      assert first + second == second;
    } else {
      assert (first + second)[1..] == first[1..] + second;
      WalkConcat(root, Next(root, node, first[0]).value, first[1..], second);
    }
  }

  /** A reference followed on the way is left behind by a walk from its own target. */
  lemma {:induction false} AfterFollowing(root: Json, node: Json, steps: seq<Step>, reference: string)
    returns (rest: seq<Step>)
    requires Walk(root, node, steps).Some? && reference in Followed(root, node, steps)
    ensures Resolve(root, reference).Some?
    ensures Walk(root, Resolve(root, reference).value, rest) == Walk(root, node, steps)
    decreases |steps|
  {
    hide Resolve;
    var next := Next(root, node, steps[0]).value;
    if Reference(node) == Some(reference) {
      rest := steps[1..];
    } else {
      rest := AfterFollowing(root, next, steps[1..], reference);
    }
  }

  /** A walk that ends at a reference it has followed shows a definition that reaches itself. */
  lemma RepeatIsCycle(root: Json, node: Json, steps: seq<Step>, reference: string)
    requires ArrivesAt(root, node, steps, reference)
    requires reference in Followed(root, node, steps)
    ensures Reaches(root, reference, reference)
  {
    var rest := AfterFollowing(root, node, steps, reference);
    assert ArrivesAt(root, Resolve(root, reference).value, rest, reference);
  }

  /** Going round once more repeats a reference. */
  lemma CycleIsRepeat(root: Json, reference: string)
    requires Reaches(root, reference, reference)
    ensures !AllWalksValid(root, Resolve(root, reference).value, 0, [])
  {
    hide Resolve;
    var target := Resolve(root, reference).value;
    var steps :| ArrivesAt(root, target, steps, reference);
    var end := Walk(root, target, steps).value;
    var round := [Follow] + steps;
    assert round[0] == Follow && round[1..] == steps;
    assert Next(root, end, Follow) == Some(target);
    assert Walk(root, end, round) == Walk(root, target, steps);
    WalkConcat(root, target, steps, round);
    assert reference in Followed(root, end, round);
    assert reference in Followed(root, target, steps + round);
    assert !WalkValid(root, target, 0, [], steps + round);
  }

  // ----------------------------------------------------- what is reached is valid

  ghost predicate Checked(root: Json, node: Json) {
    exists depth: nat :: NodeValid(root, node, depth)
  }

  lemma ReferenceIsMember(root: Json, node: Json, depth: nat)
    requires NodeValid(root, node, depth)
    ensures Reference(node).Some? <==> node.Get("$ref").Some?
    ensures Reference(node).Some? ==> Resolve(root, Reference(node).value).Some?
  {
    hide Resolve, ShapeValid;
  }

  lemma NextIsChecked(root: Json, node: Json, step: Step)
    requires Checked(root, node) && RootValid(root) && NodeValid(root, root, 0)
    requires Next(root, node, step).Some?
    ensures Checked(root, Next(root, node, step).value)
  {
    hide LocallyValid;
    var depth: nat :| NodeValid(root, node, depth);
    var next := Next(root, node, step).value;
    ReferenceIsMember(root, node, depth);
    if Reference(node).Some? {
      DefinitionIsChecked(root, Reference(node).value);
    } else {
      assert NodeValid(root, next, ChildDepth(node, step, depth));
    }
  }

  lemma DefinitionIsChecked(root: Json, reference: string)
    requires RootValid(root) && NodeValid(root, root, 0) && Resolve(root, reference).Some?
    ensures Checked(root, Resolve(root, reference).value)
  {
    hide LocallyValid;
    var name := Named(reference);
    assert Definition(name) in AllWays(root);
    assert NodeValid(root, Child(root, Definition(name)), 0);
  }

  lemma {:induction false} ReachedIsChecked(root: Json, node: Json, steps: seq<Step>)
    requires Checked(root, node) && RootValid(root) && NodeValid(root, root, 0)
    requires Walk(root, node, steps).Some?
    ensures Checked(root, Walk(root, node, steps).value)
    decreases |steps|
  {
    hide NodeValid, Next;
    if steps != [] {
      NextIsChecked(root, node, steps[0]);
      ReachedIsChecked(root, Next(root, node, steps[0]).value, steps[1..]);
    }
  }

  lemma StartIsChecked(root: Json, start: Json)
    requires RootValid(root) && NodeValid(root, root, 0) && start in Starts(root)
    ensures Checked(root, start)
  {
    hide LocallyValid;
    if start != root {
      var name :| name in Members(root.Get("$defs")) && Members(root.Get("$defs"))[name] == start;
      assert Definition(name) in AllWays(root);
      assert NodeValid(root, Child(root, Definition(name)), 0);
    }
  }

  /** Along every walk from a start, at most five objects are passed. */
  ghost predicate Shallow(root: Json, start: Json) {
    forall steps :: Walk(root, start, steps).Some? ==> Objects(root, start, steps) <= MAX_OBJECT_DEPTH
  }

  /**
   An accepted schema is one whose nodes are valid, in which no definition reaches itself, and in
   which no walk from the root or a definition passes more than five objects.
   */
  lemma StrictSchemaIsAcyclic(schema: Json)
    ensures StrictSchema(schema) <==>
      && RootValid(schema) && NodeValid(schema, schema, 0) && Declared(schema) <= MAX_PROPERTIES
      && (forall reference :: !Reaches(schema, reference, reference))
      && (forall start :: start in Starts(schema) ==> Shallow(schema, start))
  {
    hide PathsValid, NodeValid, Declared, RootValid, Resolve, Starts, Reaches;
    forall start | start in Starts(schema)
      ensures PathsValid(schema, start, 0, []) <==> AllWalksValid(schema, start, 0, [])
      ensures AllWalksValid(schema, start, 0, []) ==> Shallow(schema, start) {
      PathsAreWalks(schema, start, 0, []);
    }
    if StrictSchema(schema) {
      forall reference ensures !Reaches(schema, reference, reference) {
        if Reaches(schema, reference, reference) {
          CycleIsRepeat(schema, reference);
          TargetIsStart(schema, reference);
        }
      }
    }
    if RootValid(schema) && NodeValid(schema, schema, 0) && forall reference :: !Reaches(schema, reference, reference) {
      forall start | start in Starts(schema) && Shallow(schema, start)
        ensures AllWalksValid(schema, start, 0, []) {
        AcyclicWalks(schema, start);
      }
    }
  }

  lemma TargetIsStart(root: Json, reference: string)
    requires Reaches(root, reference, reference)
    ensures Resolve(root, reference).Some? && Resolve(root, reference).value in Starts(root)
  {
    var definitions := Members(root.Get("$defs"));
    assert Named(reference) in definitions.Keys;
  }

  lemma AcyclicWalks(root: Json, start: Json)
    requires RootValid(root) && NodeValid(root, root, 0) && start in Starts(root)
    requires forall reference :: !Reaches(root, reference, reference)
    requires Shallow(root, start)
    ensures AllWalksValid(root, start, 0, [])
  {
    hide NodeValid, RootValid, Resolve, Starts, Reaches;
    StartIsChecked(root, start);
    forall steps | Walk(root, start, steps).Some? ensures WalkValid(root, start, 0, [], steps) {
      ReachedIsChecked(root, start, steps);
      var end := Walk(root, start, steps).value;
      CheckedIsUsable(root, end);
      var followed := Followed(root, start, steps);
      assert [] + followed == followed;
      if Reference(end).Some? && Reference(end).value in followed {
        RepeatIsCycle(root, start, steps, Reference(end).value);
      }
    }
  }

  lemma CheckedIsUsable(root: Json, node: Json)
    requires Checked(root, node)
    ensures EndValid(root, node, [])
  {
    var depth: nat :| NodeValid(root, node, depth);
    ReferenceIsMember(root, node, depth);
  }
}
