/** The checker's recursion over a schema, with its running property count and reference stack. */
module AzureSchemaChecker {
  import opened Wrappers
  import opened Json
  import opened AzureSchema

  class Checker {
    const root: Json
    var propertyCount: nat
    var stack: seq<string>

    constructor (root: Json)
      ensures this.root == root && propertyCount == 0 && stack == []
    {
      this.root := root;
      propertyCount, stack := 0, [];
    }

    method ValidateNode(node: Json, depth: nat) returns (ok: bool)
      requires propertyCount <= MAX_PROPERTIES
      modifies this`propertyCount
      ensures ok <==>
        NodeValid(root, node, depth) && old(propertyCount) + Declared(node) <= MAX_PROPERTIES
      ensures ok ==> propertyCount == old(propertyCount) + Declared(node)
      decreases node
    {
      hide TypeValid, ReferenceValid, ObjectValid, TypeContains;
      hide NodeValid, AllValid, Properties, ItemSteps, DeclaredBelow;
      NodeParts(root, node, depth);
      if !node.Obj? || !(node.members.Keys <= ALLOWED) {
        return false;
      }
      if (node.Get("description").Some? && node.GetStr("description").None?)
         || (node.Get("title").Some? && node.GetStr("title").None?) {
        return false;
      }
      if node.Get("$ref").Some? {
        return ReferenceValid(root, node);
      }
      if (node.Get("type").Some? && !TypeValid(node.Get("type").value))
         || (node.Get("enum").Some? && Elements(node.Get("enum")) == []) {
        return false;
      }
      if node.Get("$defs").Some? && !node.Get("$defs").value.Obj? {
        return false;
      }
      var below := ValidateChildren(node, Definitions(node), depth, depth);
      if !below {
        FailsBelow(root, node, Definitions(node), depth, old(propertyCount));
        return false;
      }
      if node.Get("anyOf").Some? && Elements(node.Get("anyOf")) == [] {
        return false;
      }
      DeclaredUnion(node, Definitions(node), Branches(node));
      below := ValidateChildren(node, Branches(node), depth, depth);
      if !below {
        AllValidUnion(root, node, Definitions(node), Branches(node), depth);
        FailsBelow(root, node, Definitions(node) + Branches(node), depth, old(propertyCount));
        return false;
      }
      var nextDepth := NextDepth(node, depth);
      if nextDepth > MAX_OBJECT_DEPTH {
        return false;
      }
      ok := FinishNode(node, depth, old(propertyCount));
    }

    /** The object and array keywords of a node whose definitions and branches are valid. */
    method FinishNode(node: Json, depth: nat, ghost before: nat) returns (ok: bool)
      requires node.Obj? && node.Get("$ref").None? && propertyCount <= MAX_PROPERTIES
      requires NextDepth(node, depth) <= MAX_OBJECT_DEPTH
      requires propertyCount == before + DeclaredBelow(node, Definitions(node) + Branches(node))
      modifies this`propertyCount
      ensures ok <==>
        && (if IsObject(node) then ObjectValid(node)
            else node.Get("required").None? && node.Get("additionalProperties").None?)
        && (TypeContains(node.Get("type"), "array") <==> node.Get("items").Some?)
        && AllValid(root, node, Properties(node) + ItemSteps(node), depth)
        && before + Declared(node) <= MAX_PROPERTIES
      ensures ok ==> propertyCount == before + Declared(node)
      decreases node, 1
    {
      hide TypeContains, AllValid, DeclaredBelow;
      var nextDepth := NextDepth(node, depth);
      Tally(node);
      AllValidUnion(root, node, Properties(node), ItemSteps(node), depth);
      if IsObject(node) {
        if AsObj(node.Get("properties")).None? {
          return false;
        }
        var properties := AsObj(node.Get("properties")).value;
        propertyCount := propertyCount + |properties|;
        if propertyCount > MAX_PROPERTIES || !ObjectValid(node) {
          return false;
        }
        var below := ValidateChildren(node, Properties(node), nextDepth, depth);
        if !below {
          return false;
        }
      } else {
        assert Properties(node) == {};
        NoneValid(root, node, depth);
        if node.Get("required").Some? || node.Get("additionalProperties").Some? {
          return false;
        }
      }
      if TypeContains(node.Get("type"), "array") {
        if node.Get("items").None? {
          return false;
        }
        ok := ValidateChildren(node, ItemSteps(node), nextDepth, depth);
      } else {
        NoneValid(root, node, depth);
        ok := node.Get("items").None?;
      }
    }

    /** Validates the children reached by `steps`, in any order. */
    method ValidateChildren(node: Json, steps: set<Step>, childDepth: nat, ghost depth: nat)
      returns (ok: bool)
      requires steps <= AllWays(node) && propertyCount <= MAX_PROPERTIES
      requires forall step :: step in steps ==> childDepth == ChildDepth(node, step, depth)
      modifies this`propertyCount
      ensures ok <==>
        && AllValid(root, node, steps, depth)
        && old(propertyCount) + DeclaredBelow(node, steps) <= MAX_PROPERTIES
      ensures ok ==> propertyCount == old(propertyCount) + DeclaredBelow(node, steps)
      decreases node, 0
    {
      var rest := steps;
      while rest != {}
        invariant rest <= steps && propertyCount <= MAX_PROPERTIES
        invariant AllValid(root, node, steps - rest, depth)
        invariant propertyCount + DeclaredBelow(node, rest)
          == old(propertyCount) + DeclaredBelow(node, steps)
        decreases |rest|
      {
        var step :| step in rest;
        DeclaredSplit(node, rest, step);
        var valid := ValidateNode(Child(node, step), childDepth);
        if !valid {
          return false;
        }
        rest := rest - {step};
      }
      assert steps - rest == steps;
      return true;
    }

    /** Follows references with a stack of those being followed; the stack is as before after. */
    method ValidateReferencePaths(node: Json, depth: nat) returns (ok: bool)
      modifies this`stack
      ensures stack == old(stack)
      ensures ok <==> PathsValid(root, node, depth, stack)
      decreases References(root) - Active(stack), node
    {
      if !node.Obj? {
        return false;
      }
      var reference := Reference(node);
      if reference.Some? {
        if reference.value in stack {
          return false;
        }
        var target := Resolve(root, reference.value);
        if target.None? {
          return false;
        }
        Shrinks(root, stack, reference.value);
        stack := stack + [reference.value];
        ok := ValidateReferencePaths(target.value, depth);
        stack := stack[..|stack| - 1];
        assert stack == old(stack);
        return;
      }
      var nextDepth := NextDepth(node, depth);
      if nextDepth > MAX_OBJECT_DEPTH {
        return false;
      }
      var rest := Ways(node);
      while rest != {}
        invariant rest <= Ways(node) && stack == old(stack)
        invariant forall step :: step in Ways(node) - rest ==>
          PathsValid(root, Child(node, step), nextDepth, stack)
        decreases |rest|
      {
        var step :| step in rest;
        var valid := ValidateReferencePaths(Child(node, step), nextDepth);
        if !valid {
          return false;
        }
        rest := rest - {step};
      }
      return true;
    }
  }

  predicate AllValid(root: Json, node: Json, steps: set<Step>, depth: nat)
    requires steps <= AllWays(node)
  {
    forall step :: step in steps ==> NodeValid(root, Child(node, step), ChildDepth(node, step, depth))
  }

  lemma AllValidUnion(root: Json, node: Json, first: set<Step>, second: set<Step>, depth: nat)
    requires first <= AllWays(node) && second <= AllWays(node)
    ensures AllValid(root, node, first + second, depth) <==>
      AllValid(root, node, first, depth) && AllValid(root, node, second, depth)
  {
  }

  lemma NoneValid(root: Json, node: Json, depth: nat)
    ensures AllValid(root, node, {}, depth) && DeclaredBelow(node, {}) == 0
  {
  }

  /** A node is valid when its own keywords are and all four kinds of children are. */
  lemma NodeParts(root: Json, node: Json, depth: nat)
    ensures
      var children :=
        && NextDepth(node, depth) <= MAX_OBJECT_DEPTH
        && AllValid(root, node, Definitions(node), depth)
        && AllValid(root, node, Branches(node), depth)
        && AllValid(root, node, Properties(node) + ItemSteps(node), depth);
      NodeValid(root, node, depth) <==>
        LocallyValid(root, node) && (node.Get("$ref").None? ==> children)
  {
    hide LocallyValid, Definitions, Branches, Properties, ItemSteps;
  }

  lemma FailsBelow(root: Json, node: Json, steps: set<Step>, depth: nat, before: nat)
    requires node.Get("$ref").None? && steps <= AllWays(node)
    requires !AllValid(root, node, steps, depth)
      || before + DeclaredBelow(node, steps) > MAX_PROPERTIES
    ensures !NodeValid(root, node, depth) || before + Declared(node) > MAX_PROPERTIES
  {
    var others := AllWays(node) - steps;
    assert steps + others == AllWays(node);
    DeclaredUnion(node, steps, others);
  }

  lemma Tally(node: Json)
    requires node.Get("$ref").None?
    ensures Declared(node) == |Members(node.Get("properties"))|
      + DeclaredBelow(node, Definitions(node) + Branches(node))
      + DeclaredBelow(node, Properties(node)) + DeclaredBelow(node, ItemSteps(node))
  {
    hide DeclaredBelow;
    DeclaredUnion(node, Definitions(node) + Branches(node), Properties(node));
    DeclaredUnion(node, Definitions(node) + Branches(node) + Properties(node), ItemSteps(node));
    assert Definitions(node) + Branches(node) + Properties(node) + ItemSteps(node) == AllWays(node);
  }

  method ValidateStrictSchema(schema: Json) returns (ok: bool)
    ensures ok <==> StrictSchema(schema)
  {
    hide PathsValid, NodeValid, Declared, RootValid;
    if !RootValid(schema) {
      return false;
    }
    var checker := new Checker(schema);
    var valid := checker.ValidateNode(schema, 0);
    if !valid {
      return false;
    }
    valid := checker.ValidateReferencePaths(schema, 0);
    if !valid {
      return false;
    }
    var rest := Members(schema.Get("$defs")).Values;
    while rest != {}
      invariant rest <= Members(schema.Get("$defs")).Values && checker.stack == []
      invariant forall start :: start in Starts(schema) - rest ==> PathsValid(schema, start, 0, [])
      decreases |rest|
    {
      var definition :| definition in rest;
      valid := checker.ValidateReferencePaths(definition, 0);
      if !valid {
        return false;
      }
      rest := rest - {definition};
    }
    return true;
  }
}
