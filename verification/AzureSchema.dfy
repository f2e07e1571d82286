/** The Azure strict-schema checker: shape of every node, and the paths that references open. */
module AzureSchema {
  import opened Wrappers
  import opened Json

  const MAX_OBJECT_DEPTH: nat := 5
  const MAX_PROPERTIES: nat := 100

  // ------------------------------------------------------------------- nodes

  /** A way down from a node. `Definition` is taken only when nodes are validated. */
  datatype Step =
    | Property(name: string) | Items | Branch(index: nat) | Definition(name: string) | Follow

  function Members(j: Option<Json>): map<string, Json> {
    if AsObj(j).Some? then AsObj(j).value else map[]
  }

  function Elements(j: Option<Json>): seq<Json> {
    if AsArr(j).Some? then AsArr(j).value else []
  }

  predicate IsStr(j: Json, text: string) {
    j == Str(text)
  }

  predicate TypeContains(value: Option<Json>, expected: string) {
    value.Some? && (
      || IsStr(value.value, expected)
      || (exists i :: 0 <= i < |Elements(value)| && IsStr(Elements(value)[i], expected)))
  }

  predicate IsObject(node: Json) {
    TypeContains(node.Get("type"), "object") || node.Get("properties").Some?
  }

  function NextDepth(node: Json, depth: nat): nat {
    if IsObject(node) then depth + 1 else depth
  }

  const TYPES := {"null", "boolean", "object", "array", "number", "integer", "string"}

  /** The strings of a list, when all its elements are strings and no two are equal. */
  function UniqueStrings(items: seq<Json>): Option<set<string>> {
    var texts := set i | 0 <= i < |items| && items[i].Str? :: items[i].text;
    if |texts| == |items| then Some(texts) else None
  }

  predicate TypeValid(value: Json) {
    || (value.Str? && value.text in TYPES)
    || (value.Arr? && value.items != [] && UniqueStrings(value.items).Some?
        && UniqueStrings(value.items).value <= TYPES)
  }

  const REFERENCE_PREFIX := "#/$defs/"

  /** An object among the root definitions, under a name that needs no escaping. */
  predicate Definable(root: Json, name: string) {
    && name != "" && '/' !in name && '~' !in name
    && name in Members(root.Get("$defs")) && Members(root.Get("$defs"))[name].Obj?
  }

  /** The root definition a reference names. */
  function Resolve(root: Json, reference: string): (target: Option<Json>)
    ensures target.Some? <==> REFERENCE_PREFIX <= reference && Definable(root, Named(reference))
    ensures target.Some? ==>
      reference in References(root) && target.value == root.Get("$defs").value.members[Named(reference)]
  {
    if !(REFERENCE_PREFIX <= reference) then None else
      var name := Named(reference);
      if name == "" || '/' in name || '~' in name then None
      else if name !in Members(root.Get("$defs")) then None
      else
        var target := Members(root.Get("$defs"))[name];
        assert reference == REFERENCE_PREFIX + name;
        if target.Obj? then Some(target) else None
  }

  function Named(reference: string): string {
    if |reference| < |REFERENCE_PREFIX| then "" else reference[|REFERENCE_PREFIX|..]
  }

  /** Every reference that could resolve. */
  function References(root: Json): set<string> {
    set name | name in Members(root.Get("$defs")) :: REFERENCE_PREFIX + name
  }

  const ALLOWED := {
    "$defs", "$ref", "type", "properties", "required", "additionalProperties", "items", "enum",
    "anyOf", "description", "title"}

  /** What validation asks of a node apart from its children. */
  predicate LocallyValid(root: Json, node: Json) {
    && node.Obj?
    && node.members.Keys <= ALLOWED
    && (node.Get("description").Some? ==> node.GetStr("description").Some?)
    && (node.Get("title").Some? ==> node.GetStr("title").Some?)
    && if node.Get("$ref").Some? then ReferenceValid(root, node) else ShapeValid(node)
  }

  predicate ReferenceValid(root: Json, node: Json)
    requires node.Obj?
  {
    && node.GetStr("$ref").Some?
    && node.members.Keys <= {"$ref", "description", "title"}
    && Resolve(root, node.GetStr("$ref").value).Some?
  }

  predicate ShapeValid(node: Json) {
    && (node.Get("type").Some? ==> TypeValid(node.Get("type").value))
    && (node.Get("enum").Some? ==> Elements(node.Get("enum")) != [])
    && (node.Get("$defs").Some? ==> node.Get("$defs").value.Obj?)
    && (node.Get("anyOf").Some? ==> Elements(node.Get("anyOf")) != [])
    && (if IsObject(node) then ObjectValid(node)
        else node.Get("required").None? && node.Get("additionalProperties").None?)
    && (TypeContains(node.Get("type"), "array") <==> node.Get("items").Some?)
  }

  predicate ObjectValid(node: Json) {
    && AsObj(node.Get("properties")).Some?
    && node.Get("additionalProperties") == Some(Bool(false))
    && AsArr(node.Get("required")).Some?
    && UniqueStrings(AsArr(node.Get("required")).value)
      == Some(AsObj(node.Get("properties")).value.Keys)
  }

  // ---------------------------------------------------------------- children

  function Definitions(node: Json): set<Step> {
    set name | name in Members(node.Get("$defs")) :: Definition(name)
  }

  function Branches(node: Json): set<Step> {
    set i: nat | i < |Elements(node.Get("anyOf"))| :: Branch(i)
  }

  function Properties(node: Json): set<Step> {
    set name | name in Members(node.Get("properties")) :: Property(name)
  }

  function ItemSteps(node: Json): set<Step> {
    if node.Get("items").Some? then {Items} else {}
  }

  /** The ways down that reference checking takes. */
  function Ways(node: Json): set<Step> {
    Properties(node) + ItemSteps(node) + Branches(node)
  }

  function AllWays(node: Json): set<Step> {
    Definitions(node) + Ways(node)
  }

  function Child(node: Json, step: Step): (child: Json)
    requires step in AllWays(node)
    ensures child < node
  {
    match step
    case Definition(name) => node.Get("$defs").value.members[name]
    case Property(name) => node.Get("properties").value.members[name]
    case Items => node.Get("items").value
    case Branch(i) => node.Get("anyOf").value.items[i]
    case Follow => assert false; node
  }

  function ChildDepth(node: Json, step: Step, depth: nat): nat {
    if step.Definition? || step.Branch? then depth else NextDepth(node, depth)
  }

  // --------------------------------------------------------- node validation

  /** Every node is locally valid and objects nest at most five deep, references not followed. */
  predicate NodeValid(root: Json, node: Json, depth: nat)
    decreases node
  {
    && LocallyValid(root, node)
    && (node.Get("$ref").None? ==>
          && NextDepth(node, depth) <= MAX_OBJECT_DEPTH
          && forall step :: step in AllWays(node) ==>
               NodeValid(root, Child(node, step), ChildDepth(node, step, depth)))
  }

  /** How many properties a node and the nodes below it declare. */
  ghost function Declared(node: Json): nat
    decreases node
  {
    if node.Get("$ref").Some? then 0
    else |Members(node.Get("properties"))| + DeclaredBelow(node, AllWays(node))
  }

  ghost function DeclaredBelow(node: Json, steps: set<Step>): nat
    requires steps <= AllWays(node)
    decreases node, |steps|
  {
    if steps == {} then 0 else
      var step :| step in steps;
      Declared(Child(node, step)) + DeclaredBelow(node, steps - {step})
  }

  lemma {:induction false} DeclaredSplit(node: Json, steps: set<Step>, step: Step)
    requires step in steps && steps <= AllWays(node)
    ensures DeclaredBelow(node, steps)
      == Declared(Child(node, step)) + DeclaredBelow(node, steps - {step})
    decreases |steps|
  {
    hide Declared, Child, AllWays;
    var chosen :| chosen in steps
      && DeclaredBelow(node, steps)
        == Declared(Child(node, chosen)) + DeclaredBelow(node, steps - {chosen});
    if chosen != step {
      DeclaredSplit(node, steps - {chosen}, step);
      DeclaredSplit(node, steps - {step}, chosen);
      assert steps - {chosen} - {step} == steps - {step} - {chosen};
    }
  }

  lemma {:induction false} DeclaredUnion(node: Json, first: set<Step>, second: set<Step>)
    requires first <= AllWays(node) && second <= AllWays(node) && first !! second
    ensures DeclaredBelow(node, first + second)
      == DeclaredBelow(node, first) + DeclaredBelow(node, second)
    decreases |first|
  {
    if first == {} {
      assert first + second == second;
    } else {
      var step :| step in first;
      DeclaredUnion(node, first - {step}, second);
      DeclaredSplit(node, first, step);
      DeclaredSplit(node, first + second, step);
      assert first + second - {step} == first - {step} + second;
    }
  }

  // ---------------------------------------------------------- reference paths

  function Reference(node: Json): Option<string> {
    node.GetStr("$ref")
  }

  /**
   No reference on the way is followed while it is being followed, and objects nest at most five
   deep along the way. A followed reference leaves one fewer to follow.
   */
  predicate PathsValid(root: Json, node: Json, depth: nat, stack: seq<string>)
    decreases References(root) - Active(stack), node
  {
    && node.Obj?
    && match Reference(node)
       case Some(reference) =>
         && reference !in stack
         && Resolve(root, reference).Some?
         && (Shrinks(root, stack, reference);
             PathsValid(root, Resolve(root, reference).value, depth, stack + [reference]))
       case None =>
         && NextDepth(node, depth) <= MAX_OBJECT_DEPTH
         && forall step :: step in Ways(node) ==>
              PathsValid(root, Child(node, step), NextDepth(node, depth), stack)
  }

  function Active(stack: seq<string>): set<string> {
    set reference | reference in stack
  }

  lemma Shrinks(root: Json, stack: seq<string>, reference: string)
    requires reference !in stack && Resolve(root, reference).Some?
    ensures References(root) - Active(stack + [reference]) < References(root) - Active(stack)
  {
    assert reference in References(root) - Active(stack);
    assert reference !in References(root) - Active(stack + [reference]);
  }

  predicate RootValid(schema: Json) {
    schema.Obj? && schema.GetStr("type") == Some("object")
    && schema.Get("anyOf").None? && schema.Get("$ref").None?
  }

  /** Where the reference paths are checked from: the root and each of its definitions. */
  function Starts(root: Json): set<Json> {
    {root} + Members(root.Get("$defs")).Values
  }

  ghost predicate StrictSchema(schema: Json) {
    && RootValid(schema)
    && NodeValid(schema, schema, 0)
    && Declared(schema) <= MAX_PROPERTIES
    && forall start :: start in Starts(schema) ==> PathsValid(schema, start, 0, [])
  }
}
