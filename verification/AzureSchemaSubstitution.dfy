/** Replacing every reference by its target: the schema an accepted strict schema stands for. */
module AzureSchemaSubstitution {
  import opened Wrappers
  import opened Json
  import opened AzureSchema

  /** A node with its children replaced; definitions are dropped. */
  function Replaced(node: Json, children: map<Step, Json>): Json
    requires node.Obj? && children.Keys == Ways(node)
  {
    Obj(map key | key in node.members && key != "$defs" ::
          ReplacedMember(node, key, children))
  }

  function ReplacedMember(node: Json, key: string, children: map<Step, Json>): Json
    requires node.Obj? && key in node.members && children.Keys == Ways(node)
  {
    var value := node.members[key];
    if key == "properties" && value.Obj? then
      Obj(map name | name in value.members :: children[Property(name)])
    else if key == "items" then children[Items]
    else if key == "anyOf" && value.Arr? then
      Arr(seq(|value.items|, i requires 0 <= i < |value.items| => children[Branch(i)]))
    else value
  }

  lemma ReplacedKeepsShape(node: Json, children: map<Step, Json>)
    requires node.Obj? && children.Keys == Ways(node)
    ensures
      var replaced := Replaced(node, children);
      && Ways(replaced) == Ways(node) && IsObject(replaced) == IsObject(node)
      && Reference(replaced) == Reference(node)
      && forall step :: step in Ways(node) ==> Child(replaced, step) == children[step]
  {
    hide Child, Ways;
    var replaced := Replaced(node, children);
    ReplacedKeepsWays(node, children);
    assert replaced.Get("type") == node.Get("type");
    forall step | step in Ways(node) ensures Child(replaced, step) == children[step] {
      ReplacedChild(node, children, step);
    }
  }

  lemma ReplacedChild(node: Json, children: map<Step, Json>, step: Step)
    requires node.Obj? && children.Keys == Ways(node) && step in Ways(node)
    requires Ways(Replaced(node, children)) == Ways(node)
    ensures Child(Replaced(node, children), step) == children[step]
  {
  }

  lemma ReplacedKeepsWays(node: Json, children: map<Step, Json>)
    requires node.Obj? && children.Keys == Ways(node)
    ensures Ways(Replaced(node, children)) == Ways(node)
  {
    var replaced := Replaced(node, children);
    assert Members(replaced.Get("properties")).Keys == Members(node.Get("properties")).Keys;
    assert Properties(replaced) == Properties(node);
    assert |Elements(replaced.Get("anyOf"))| == |Elements(node.Get("anyOf"))|;
    assert Branches(replaced) == Branches(node);
    assert ItemSteps(replaced) == ItemSteps(node);
  }

  /** The node with every reference replaced; none when a reference is met inside its own target. */
  function Inline(root: Json, node: Json, stack: seq<string>): (inlined: Option<Json>)
    ensures node.Obj? && Reference(node).None? ==>
      (inlined.Some? <==> forall step :: step in Ways(node) ==> Inline(root, Child(node, step), stack).Some?)
    ensures node.Obj? && Reference(node).None? && inlined.Some? ==>
      && Ways(inlined.value) == Ways(node) && IsObject(inlined.value) == IsObject(node)
      && inlined.value.Obj? && Reference(inlined.value).None?
      && forall step :: step in Ways(node) ==>
           Child(inlined.value, step) == Inline(root, Child(node, step), stack).value
    decreases References(root) - Active(stack), node
  {
    if !node.Obj? then None else
      match Reference(node)
      case Some(reference) =>
        if reference in stack || Resolve(root, reference).None? then None
        else
          Shrinks(root, stack, reference);
          Inline(root, Resolve(root, reference).value, stack + [reference])
      case None =>
        if exists step :: step in Ways(node) && Inline(root, Child(node, step), stack).None? then None
        else
          var children := map step | step in Ways(node) :: Inline(root, Child(node, step), stack).value;
          ReplacedKeepsShape(node, children);
          Some(Replaced(node, children))
  }

  /** No reference is left. */
  predicate Closed(node: Json)
    decreases node
  {
    node.Obj? && Reference(node).None? && forall step :: step in Ways(node) ==> Closed(Child(node, step))
  }

  /** Objects nest at most five deep, counting `depth` already entered. */
  predicate NestsWithin(node: Json, depth: nat)
    decreases node
  {
    && NextDepth(node, depth) <= MAX_OBJECT_DEPTH
    && forall step :: step in Ways(node) ==> NestsWithin(Child(node, step), NextDepth(node, depth))
  }

  /** The check at a node agrees with the nesting of its form without references. */
  ghost predicate Agrees(root: Json, node: Json, depth: nat, stack: seq<string>) {
    var inlined := Inline(root, node, stack);
    && (PathsValid(root, node, depth, stack) <==> inlined.Some? && NestsWithin(inlined.value, depth))
    && (inlined.Some? ==> Closed(inlined.value))
  }

  lemma NodeAgrees(root: Json, node: Json, depth: nat, stack: seq<string>)
    requires node.Obj? && Reference(node).None?
    requires forall step :: step in Ways(node) ==>
      Agrees(root, Child(node, step), NextDepth(node, depth), stack)
    ensures Agrees(root, node, depth, stack)
  {
    hide Ways, Resolve, References;
  }

  /** The check over references is the nesting check over the schema they stand for. */
  lemma {:induction false} InlinedNests(root: Json, node: Json, depth: nat, stack: seq<string>)
    ensures Agrees(root, node, depth, stack)
    decreases References(root) - Active(stack), node
  {
    hide Ways, Resolve, References;
    if node.Obj? {
      if Reference(node).Some? {
        var reference := Reference(node).value;
        if reference !in stack && Resolve(root, reference).Some? {
          Shrinks(root, stack, reference);
          InlinedNests(root, Resolve(root, reference).value, depth, stack + [reference]);
        }
      } else {
        forall step | step in Ways(node)
          ensures Agrees(root, Child(node, step), NextDepth(node, depth), stack) {
          InlinedNests(root, Child(node, step), NextDepth(node, depth), stack);
        }
        NodeAgrees(root, node, depth, stack);
      }
    }
  }

  /**
   An accepted schema is one whose nodes are valid and whose root and definitions each have a
   finite form without references in which objects nest at most five deep.
   */
  lemma StrictSchemaInlines(schema: Json)
    ensures StrictSchema(schema) <==>
      && RootValid(schema) && NodeValid(schema, schema, 0) && Declared(schema) <= MAX_PROPERTIES
      && forall start :: start in Starts(schema) ==>
           Inline(schema, start, []).Some? && NestsWithin(Inline(schema, start, []).value, 0)
    ensures StrictSchema(schema) ==>
      forall start :: start in Starts(schema) ==>
        Inline(schema, start, []).Some? && Closed(Inline(schema, start, []).value)
  {
    hide PathsValid, Inline, NodeValid, Declared, Starts, RootValid;
    forall start | start in Starts(schema)
      ensures PathsValid(schema, start, 0, []) <==>
        Inline(schema, start, []).Some? && NestsWithin(Inline(schema, start, []).value, 0)
      ensures Inline(schema, start, []).Some? ==> Closed(Inline(schema, start, []).value) {
      InlinedNests(schema, start, 0, []);
    }
  }
}
