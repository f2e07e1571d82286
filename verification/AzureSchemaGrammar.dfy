/** The strict schemas as a grammar: what can be written, and that nothing else is a valid node. */
module AzureSchemaGrammar {
  import opened Wrappers
  import opened Json
  import opened Sequences
  import opened AzureSchema
  import opened AzureSchemaPaths

  // --------------------------------------------------------------------- grammar

  datatype Types = One(name: string) | Several(names: seq<string>)

  datatype Notes = Notes(description: Option<string>, title: Option<string>)

  datatype Fields = NoFields | FieldsOf(members: map<string, Schema>, order: seq<string>)

  datatype Element = NoElement | ElementOf(schema: Schema)

  datatype Union = NoUnion | UnionOf(schemas: seq<Schema>)

  datatype Group = NoDefinitions | DefinitionsOf(members: map<string, Schema>)

  /** A reference to a definition, or a shape of its own. */
  datatype Schema =
    | Refers(name: string, notes: Notes)
    | Shape(types: Option<Types>, fields: Fields, element: Element, values: Option<seq<Json>>, union: Union,
            definitions: Group, notes: Notes)

  function StrOf(text: string): Json {
    Str(text)
  }

  function WriteTypes(types: Types): Json {
    match types
    case One(name) => Str(name)
    case Several(names) => Arr(Mapped(names, StrOf))
  }

  function WriteFields(fields: Fields): (json: Option<Json>)
    ensures json.Some? <==> fields.FieldsOf?
    ensures json.Some? ==> json.value.Obj? && json.value.members.Keys == fields.members.Keys
    decreases fields
  {
    match fields
    case NoFields => None
    case FieldsOf(members, _) => Some(Obj(map name | name in members :: Write(members[name])))
  }

  function WriteUnion(union: Union): (json: Option<Json>)
    ensures json.Some? <==> union.UnionOf?
    ensures json.Some? ==> json.value.Arr? && |json.value.items| == |union.schemas|
    decreases union
  {
    match union
    case NoUnion => None
    case UnionOf(schemas) => Some(Arr(seq(|schemas|, i requires 0 <= i < |schemas| => Write(schemas[i]))))
  }

  function WriteDefinitions(definitions: Group): (json: Option<Json>)
    ensures json.Some? <==> definitions.DefinitionsOf?
    ensures json.Some? ==> json.value.Obj? && json.value.members.Keys == definitions.members.Keys
    decreases definitions
  {
    match definitions
    case NoDefinitions => None
    case DefinitionsOf(members) => Some(Obj(map name | name in members :: Write(members[name])))
  }

  /** The JSON that stands under a name in a written schema, where there is any. */
  function Member(n: Schema, key: string): Option<Json>
    decreases n, 0
  {
    if key == "description" then Text(n.notes.description)
    else if key == "title" then Text(n.notes.title)
    else if n.Refers? then if key == "$ref" then Some(Str("#/$defs/" + n.name)) else None
    else if key == "type" then if n.types.Some? then Some(WriteTypes(n.types.value)) else None
    else if key == "properties" then WriteFields(n.fields)
    else if key == "required" then
      if n.fields.FieldsOf? then Some(Arr(Mapped(n.fields.order, StrOf))) else None
    else if key == "additionalProperties" then if n.fields.FieldsOf? then Some(Bool(false)) else None
    else if key == "items" then if n.element.ElementOf? then Some(Write(n.element.schema)) else None
    else if key == "enum" then if n.values.Some? then Some(Arr(n.values.value)) else None
    else if key == "anyOf" then WriteUnion(n.union)
    else if key == "$defs" then WriteDefinitions(n.definitions)
    else None
  }

  function Text(text: Option<string>): Option<Json> {
    if text.Some? then Some(Str(text.value)) else None
  }

  const NAMES := {
    "description", "title", "$ref", "type", "properties", "required", "additionalProperties", "items", "enum",
    "anyOf", "$defs"}

  function Write(n: Schema): (json: Json)
    ensures json.Obj? && json.members.Keys <= NAMES
    ensures forall key :: key in NAMES ==> json.Get(key) == Member(n, key)
    decreases n, 1
  {
    Obj(map key | key in NAMES && Member(n, key).Some? :: Member(n, key).value)
  }

  const KINDS := {"null", "boolean", "object", "array", "number", "integer", "string"}

  predicate NoRepeats(texts: seq<string>) {
    forall j, k :: 0 <= j < k < |texts| ==> texts[j] != texts[k]
  }

  predicate TypesFit(types: Types) {
    match types
    case One(name) => name in KINDS
    case Several(names) => names != [] && NoRepeats(names) && forall i :: 0 <= i < |names| ==> names[i] in KINDS
  }

  predicate Typed(types: Option<Types>, kind: string) {
    match types
    case Some(One(name)) => name == kind
    case Some(Several(names)) => kind in names
    case None => false
  }

  /** The list names every member once. */
  ghost predicate Lists(order: seq<string>, members: map<string, Schema>) {
    NoRepeats(order) && forall name :: name in members <==> name in order
  }

  /**
   References name definitions of the root. An object declares its fields and requires each of them,
   an array its element; lists of types, values and alternatives are not empty; objects nest at most
   five deep.
   */
  ghost predicate Fits(root: Json, n: Schema, depth: nat)
    decreases n
  {
    match n
    case Refers(name, _) => Definable(root, name)
    case Shape(types, fields, element, values, union, definitions, _) =>
      var next := if fields.FieldsOf? then depth + 1 else depth;
      && next <= 5
      && (types.Some? ==> TypesFit(types.value))
      && (Typed(types, "object") ==> fields.FieldsOf?)
      && (Typed(types, "array") <==> element.ElementOf?)
      && (values.Some? ==> values.value != [])
      && (fields.FieldsOf? ==> Lists(fields.order, fields.members))
      && (fields.FieldsOf? ==> forall name :: name in fields.members ==> Fits(root, fields.members[name], next))
      && (element.ElementOf? ==> Fits(root, element.schema, next))
      && (union.UnionOf? ==> union.schemas != [])
      && (union.UnionOf? ==> forall i :: 0 <= i < |union.schemas| ==> Fits(root, union.schemas[i], depth))
      && (definitions.DefinitionsOf? ==>
            forall name :: name in definitions.members ==> Fits(root, definitions.members[name], depth))
  }

  // ------------------------------------------------------------- lists of strings

  lemma {:induction false} DistinctSize(texts: seq<string>)
    ensures |set text | text in texts| <= |texts|
    ensures |set text | text in texts| == |texts| <==> NoRepeats(texts)
  {
    var all := set text | text in texts;
    if texts != [] {
      var last, before := texts[|texts| - 1], texts[..|texts| - 1];
      var rest := set text | text in before;
      DistinctSize(before);
      assert texts == before + [last];
      assert all == rest + {last};
      if last in before {
        assert all == rest;
        var j :| 0 <= j < |before| && before[j] == last;
        assert texts[j] == texts[|texts| - 1];
      } else if NoRepeats(before) {
        assert NoRepeats(texts);
      } else {
        var j, k :| 0 <= j < k < |before| && before[j] == before[k];
        assert texts[j] == texts[k];
      }
    } else {
      assert all == {};
    }
  }

  /** A list of strings without repetition, and no other, has its strings. */
  lemma UniqueStringsWritten(texts: seq<string>)
    ensures UniqueStrings(Mapped(texts, StrOf)).Some? <==> NoRepeats(texts)
    ensures NoRepeats(texts) ==> UniqueStrings(Mapped(texts, StrOf)) == Some(set text | text in texts)
  {
    var items := Mapped(texts, StrOf);
    assert (set i | 0 <= i < |items| && items[i].Str? :: items[i].text) == set text | text in texts by {
      forall text | text in texts ensures exists i :: 0 <= i < |items| && items[i] == Str(text) {
        var i :| 0 <= i < |texts| && texts[i] == text;
        assert items[i] == Str(text);
      }
    }
    DistinctSize(texts);
  }

  function Texts(items: seq<Json>): seq<string> {
    Mapped(items, (item: Json) => if item.Str? then item.text else "")
  }

  lemma {:induction false} StringsAmong(items: seq<Json>)
    ensures |set i | 0 <= i < |items| && items[i].Str? :: items[i].text| <= |items|
    ensures (exists i :: 0 <= i < |items| && !items[i].Str?) ==>
      |set i | 0 <= i < |items| && items[i].Str? :: items[i].text| < |items|
  {
    var all := set i | 0 <= i < |items| && items[i].Str? :: items[i].text;
    if items != [] {
      var last, before := items[|items| - 1], items[..|items| - 1];
      var rest := set i | 0 <= i < |before| && before[i].Str? :: before[i].text;
      StringsAmong(before);
      assert forall i :: 0 <= i < |before| ==> before[i] == items[i];
      if last.Str? {
        assert all == rest + {last.text};
      } else {
        assert all == rest;
      }
    } else {
      assert all == {};
    }
  }

  lemma UniqueStringsRead(items: seq<Json>)
    requires UniqueStrings(items).Some?
    ensures Mapped(Texts(items), StrOf) == items && NoRepeats(Texts(items))
    ensures UniqueStrings(items) == Some(set text | text in Texts(items))
  {
    StringsAmong(items);
    assert forall i :: 0 <= i < |items| ==> items[i].Str?;
    assert Mapped(Texts(items), StrOf) == items;
    UniqueStringsWritten(Texts(items));
  }

  // --------------------------------------------------------------- written is valid

  lemma TypesWritten(types: Types, kind: string)
    ensures TypeContains(Some(WriteTypes(types)), kind) <==> Typed(Some(types), kind)
    ensures TypeValid(WriteTypes(types)) <==> TypesFit(types)
  {
    if types.Several? {
      UniqueStringsWritten(types.names);
      var items := Mapped(types.names, StrOf);
      assert Elements(Some(Arr(items))) == items;
      if kind in types.names {
        var i :| 0 <= i < |types.names| && types.names[i] == kind;
        assert IsStr(items[i], kind);
      } else {
        assert forall i :: 0 <= i < |items| ==> items[i] == Str(types.names[i]) && !IsStr(items[i], kind);
      }
      if types.names != [] && NoRepeats(types.names) {
        assert UniqueStrings(items).value == set text | text in types.names;
      }
    }
  }

  lemma ShapeIsObject(n: Schema)
    requires n.Shape? && (Typed(n.types, "object") ==> n.fields.FieldsOf?)
    ensures IsObject(Write(n)) <==> n.fields.FieldsOf?
    ensures TypeContains(Write(n).Get("type"), "array") <==> Typed(n.types, "array")
  {
    hide Write;
    if n.types.Some? {
      TypesWritten(n.types.value, "object");
      TypesWritten(n.types.value, "array");
    }
  }

  lemma FieldsWritten(n: Schema)
    requires n.Shape? && n.fields.FieldsOf?
    ensures
      var properties := Write(n).Get("properties");
      properties.Some? && properties.value.Obj? && properties.value.members.Keys == n.fields.members.Keys
    ensures Write(n).Get("required") == Some(Arr(Mapped(n.fields.order, StrOf)))
    ensures Write(n).Get("additionalProperties") == Some(Bool(false))
  {
    hide Write, Mapped;
  }

  lemma FieldsAreObject(n: Schema)
    requires n.Shape? && n.fields.FieldsOf? && Lists(n.fields.order, n.fields.members)
    ensures ObjectValid(Write(n))
  {
    hide Write, Member, UniqueStrings, Mapped;
    FieldsWritten(n);
    UniqueStringsWritten(n.fields.order);
    assert n.fields.members.Keys == set text | text in n.fields.order;
  }

  lemma ShapeIsValid(root: Json, n: Schema, depth: nat)
    requires n.Shape? && Fits(root, n, depth)
    ensures ShapeValid(Write(n))
  {
    ShapeIsObject(n);
    if n.types.Some? {
      TypesWritten(n.types.value, "object");
    }
    if n.fields.FieldsOf? {
      FieldsAreObject(n);
    }
    BelowIsWritten(n);
    hide Write, ObjectValid, IsObject, TypeContains, TypeValid, TypesFit, Typed, Lists, WriteTypes, Mapped;
    hide WriteFields, WriteDefinitions;
    if n.union.UnionOf? {
      assert Elements(Write(n).Get("anyOf")) != [];
    }
  }

  lemma NotesAreWritten(n: Schema)
    ensures Write(n).Get("description").Some? ==> Write(n).GetStr("description").Some?
    ensures Write(n).Get("title").Some? ==> Write(n).GetStr("title").Some?
    ensures Write(n).Get("$ref").Some? <==> n.Refers?
  {
    hide Write;
  }

  lemma ShapeIsLocallyValid(root: Json, n: Schema, depth: nat)
    requires n.Shape? && Fits(root, n, depth)
    ensures LocallyValid(root, Write(n)) && NextDepth(Write(n), depth) <= MAX_OBJECT_DEPTH
    ensures NextDepth(Write(n), depth) == if n.fields.FieldsOf? then depth + 1 else depth
  {
    ShapeIsValid(root, n, depth);
    NotesAreWritten(n);
    ShapeIsObject(n);
    hide Write, Member, ShapeValid, IsObject, TypeContains, Typed, TypesFit, Lists;
  }

  lemma ReferenceIsLocallyValid(root: Json, n: Schema)
    requires n.Refers? && Definable(root, n.name)
    ensures LocallyValid(root, Write(n)) && Write(n).Get("$ref").Some?
  {
    var reference := "#/$defs/" + n.name;
    assert reference[|REFERENCE_PREFIX|..] == n.name;
    assert REFERENCE_PREFIX <= reference;
    assert Write(n).GetStr("$ref") == Some(reference);
  }

  /** A way down from a schema, references not followed. */
  predicate Leads(n: Schema, step: Step) {
    && n.Shape?
    && match step
       case Property(name) => n.fields.FieldsOf? && name in n.fields.members
       case Items => n.element.ElementOf?
       case Branch(i) => n.union.UnionOf? && i < |n.union.schemas|
       case Definition(name) => n.definitions.DefinitionsOf? && name in n.definitions.members
       case Follow => false
  }

  function Below(n: Schema, step: Step): (child: Schema)
    requires Leads(n, step)
    ensures child < n
  {
    match step
    case Property(name) => n.fields.members[name]
    case Items => n.element.schema
    case Branch(i) => n.union.schemas[i]
    case Definition(name) => n.definitions.members[name]
  }

  /** The ways down from what is written are the ways down from what it was written from. */
  lemma WaysWritten(n: Schema, step: Step)
    requires n.Shape?
    ensures step in AllWays(Write(n)) <==> Leads(n, step)
    ensures Leads(n, step) ==> Child(Write(n), step) == Write(Below(n, step))
  {
    BelowIsWritten(n);
    WaysAre(Write(n), step);
    hide Write, Member, AllWays;
    match step
    case Property(name) => hide WriteUnion, WriteDefinitions;
    case Items => hide WriteFields, WriteUnion, WriteDefinitions;
    case Branch(i) => hide WriteFields, WriteDefinitions;
    case Definition(name) => hide WriteFields, WriteUnion;
    case Follow => hide WriteFields, WriteUnion, WriteDefinitions;
  }

  lemma WaysAre(node: Json, step: Step)
    ensures step in AllWays(node) <==>
      match step
      case Property(name) => name in Members(node.Get("properties"))
      case Items => node.Get("items").Some?
      case Branch(i) => i < |Elements(node.Get("anyOf"))|
      case Definition(name) => name in Members(node.Get("$defs"))
      case Follow => false
  {
  }

  /** What is written below a shape. */
  lemma BelowIsWritten(n: Schema)
    requires n.Shape?
    ensures Write(n).Get("properties") == WriteFields(n.fields) && Write(n).Get("anyOf") == WriteUnion(n.union)
    ensures Write(n).Get("$defs") == WriteDefinitions(n.definitions)
    ensures Write(n).Get("items") == if n.element.ElementOf? then Some(Write(n.element.schema)) else None
  {
    hide Write, WriteFields, WriteUnion, WriteDefinitions, WriteTypes;
  }

  lemma FitsBelow(root: Json, n: Schema, depth: nat, step: Step)
    requires Fits(root, n, depth) && Leads(n, step)
    ensures Fits(root, Below(n, step),
      if step.Definition? || step.Branch? || !n.fields.FieldsOf? then depth else depth + 1)
  {
    hide TypesFit, Typed, Lists;
  }

  /** Every schema that fits is written as a valid node. */
  lemma {:induction false} WrittenIsValid(root: Json, n: Schema, depth: nat)
    requires Fits(root, n, depth)
    ensures NodeValid(root, Write(n), depth)
    decreases n
  {
    hide LocallyValid, NextDepth;
    if n.Refers? {
      ReferenceIsLocallyValid(root, n);
    } else {
      ShapeIsLocallyValid(root, n, depth);
      var node := Write(n);
      hide Write, Fits, AllWays, Child;
      forall step | step in AllWays(node)
        ensures NodeValid(root, Child(node, step), ChildDepth(node, step, depth)) {
        WaysWritten(n, step);
        FitsBelow(root, n, depth, step);
        WrittenIsValid(root, Below(n, step), ChildDepth(node, step, depth));
      }
    }
  }

  // --------------------------------------------------------------- valid is written

  function ReadTypes(j: Json): Types {
    if j.Arr? then Several(Texts(j.items)) else One(if j.Str? then j.text else "")
  }

  function ReadFields(j: Json): (fields: Fields)
    ensures fields.FieldsOf? ==>
      AsObj(j.Get("properties")).Some? && fields.members.Keys == Members(j.Get("properties")).Keys
    decreases j, 0
  {
    match j.Get("properties")
    case Some(Obj(members)) =>
      FieldsOf(map name | name in members :: Read(members[name]), Texts(Elements(j.Get("required"))))
    case _ => NoFields
  }

  function ReadUnion(j: Json): (union: Union)
    ensures union.UnionOf? ==>
      AsArr(j.Get("anyOf")).Some? && |union.schemas| == |Elements(j.Get("anyOf"))|
    decreases j, 0
  {
    match j.Get("anyOf")
    case Some(Arr(items)) => UnionOf(seq(|items|, i requires 0 <= i < |items| => Read(items[i])))
    case _ => NoUnion
  }

  function ReadDefinitions(j: Json): (definitions: Group)
    ensures definitions.DefinitionsOf? ==>
      AsObj(j.Get("$defs")).Some? && definitions.members.Keys == Members(j.Get("$defs")).Keys
    decreases j, 0
  {
    match j.Get("$defs")
    case Some(Obj(members)) => DefinitionsOf(map name | name in members :: Read(members[name]))
    case _ => NoDefinitions
  }

  function Read(j: Json): Schema
    decreases j, 1
  {
    var notes := Notes(j.GetStr("description"), j.GetStr("title"));
    if j.Get("$ref").Some? then Refers(if j.GetStr("$ref").Some? then Named(j.GetStr("$ref").value) else "", notes)
    else
      Shape(
        if j.Get("type").Some? then Some(ReadTypes(j.Get("type").value)) else None,
        ReadFields(j),
        if j.Get("items").Some? then ElementOf(Read(j.Get("items").value)) else NoElement,
        AsArr(j.Get("enum")),
        ReadUnion(j),
        ReadDefinitions(j),
        notes)
  }

  lemma TypesRead(json: Json)
    requires TypeValid(json)
    ensures WriteTypes(ReadTypes(json)) == json && TypesFit(ReadTypes(json))
  {
    if json.Arr? {
      UniqueStringsRead(json.items);
    }
    TypesWritten(ReadTypes(json), "");
  }

  lemma FieldsRead(json: Json)
    requires ObjectValid(json)
    ensures
      var members := json.Get("properties").value.members;
      var order := Texts(Elements(json.Get("required")));
      && json.Get("properties") == Some(Obj(members))
      && json.Get("required") == Some(Arr(Mapped(order, StrOf)))
      && json.Get("additionalProperties") == Some(Bool(false))
      && NoRepeats(order) && (forall name :: name in members <==> name in order)
  {
    UniqueStringsRead(Elements(json.Get("required")));
  }

  lemma SameMembers(first: Json, second: Json)
    requires first.Obj? && second.Obj?
    requires first.members.Keys <= NAMES && second.members.Keys <= NAMES
    requires forall key :: key in NAMES ==> first.Get(key) == second.Get(key)
    ensures first == second
  {
    forall key ensures key in first.members <==> key in second.members {
      assert key in NAMES ==> first.Get(key) == second.Get(key);
    }
    assert first.members == second.members;
  }

  /** Reading and writing keeps everything right below the node. */
  ghost predicate BelowKept(json: Json) {
    forall step :: step in AllWays(json) ==> Write(Read(Child(json, step))) == Child(json, step)
  }

  lemma FieldsKept(json: Json)
    requires BelowKept(json)
    requires json.Get("properties").Some? ==> json.Get("properties").value.Obj?
    ensures WriteFields(ReadFields(json)) == json.Get("properties")
  {
    hide Write, Read;
    if json.Get("properties").Some? {
      var members := json.Get("properties").value.members;
      forall name | name in members ensures Write(Read(members[name])) == members[name] {
        assert Property(name) in AllWays(json);
        assert Child(json, Property(name)) == members[name];
      }
      assert WriteFields(ReadFields(json)).value.members == members;
    }
  }

  lemma UnionKept(json: Json)
    requires BelowKept(json)
    requires json.Get("anyOf").Some? ==> json.Get("anyOf").value.Arr?
    ensures WriteUnion(ReadUnion(json)) == json.Get("anyOf")
  {
    hide Write, Read;
    if json.Get("anyOf").Some? {
      var items := json.Get("anyOf").value.items;
      forall i | 0 <= i < |items| ensures Write(Read(items[i])) == items[i] {
        assert Branch(i) in AllWays(json);
        assert Child(json, Branch(i)) == items[i];
      }
      assert WriteUnion(ReadUnion(json)).value.items == items;
    }
  }

  lemma DefinitionsKept(json: Json)
    requires BelowKept(json)
    requires json.Get("$defs").Some? ==> json.Get("$defs").value.Obj?
    ensures WriteDefinitions(ReadDefinitions(json)) == json.Get("$defs")
  {
    hide Write, Read;
    if json.Get("$defs").Some? {
      var members := json.Get("$defs").value.members;
      forall name | name in members ensures Write(Read(members[name])) == members[name] {
        assert Definition(name) in AllWays(json);
        assert Child(json, Definition(name)) == members[name];
      }
      assert WriteDefinitions(ReadDefinitions(json)).value.members == members;
    }
  }

  lemma PlainKeysKept(root: Json, json: Json)
    requires LocallyValid(root, json) && json.Get("$ref").None? && BelowKept(json)
    ensures forall key :: key in {"description", "title", "$ref", "type", "items", "enum"} ==>
      Member(Read(json), key) == json.Get(key)
  {
    if json.Get("type").Some? {
      TypesRead(json.Get("type").value);
    }
    if json.Get("items").Some? {
      assert Items in AllWays(json);
      assert Child(json, Items) == json.Get("items").value;
    }
    hide Write, TypeValid, ObjectValid, AllWays, Child, BelowKept, WriteFields, WriteUnion, WriteDefinitions;
    hide ReadTypes, WriteTypes, IsObject, TypeContains, ReadFields, ReadUnion, ReadDefinitions;
  }

  lemma GroupKeysKept(root: Json, json: Json)
    requires LocallyValid(root, json) && json.Get("$ref").None? && BelowKept(json)
    ensures forall key :: key in {"properties", "required", "additionalProperties", "anyOf", "$defs"} ==>
      Member(Read(json), key) == json.Get(key)
  {
    FieldsKept(json);
    UnionKept(json);
    DefinitionsKept(json);
    if IsObject(json) {
      FieldsRead(json);
    }
    hide Write, TypeValid, ObjectValid, AllWays, Child, BelowKept, WriteFields, WriteUnion, WriteDefinitions;
    hide TypeContains;
  }

  /** Reading a node and writing it gives the node, where that holds of everything below it. */
  lemma ShapeRead(root: Json, json: Json)
    requires LocallyValid(root, json) && json.Get("$ref").None? && BelowKept(json)
    ensures Write(Read(json)) == json
  {
    PlainKeysKept(root, json);
    GroupKeysKept(root, json);
    hide ShapeValid, BelowKept, Write, Member, Read;
    forall key | key in NAMES ensures Write(Read(json)).Get(key) == json.Get(key) {
      if key in {"description", "title", "$ref", "type", "items", "enum"} {
      } else {
        assert key in {"properties", "required", "additionalProperties", "anyOf", "$defs"};
      }
    }
    SameMembers(Write(Read(json)), json);
  }

  lemma ReferenceRead(root: Json, json: Json)
    requires LocallyValid(root, json) && json.Get("$ref").Some?
    ensures Write(Read(json)) == json && Read(json).Refers? && Definable(root, Read(json).name)
  {
    var reference := json.GetStr("$ref").value;
    assert "#/$defs/" + Named(reference) == reference;
    assert Read(json).name == Named(reference);
    forall key | key in NAMES ensures Member(Read(json), key) == json.Get(key) {
      hide Write, Definable, Resolve;
    }
    hide Write, Member, Definable;
    SameMembers(Write(Read(json)), json);
  }

  /** Every valid node is what some schema that fits is written as. */
  lemma {:induction false} ReadFits(root: Json, json: Json, depth: nat)
    requires NodeValid(root, json, depth)
    ensures Write(Read(json)) == json && Fits(root, Read(json), depth)
    decreases json
  {
    if json.Get("$ref").Some? {
      ReferenceRead(root, json);
    } else {
      var next := NextDepth(json, depth);
      forall step | step in AllWays(json)
        ensures Write(Read(Child(json, step))) == Child(json, step)
        ensures Fits(root, Read(Child(json, step)), ChildDepth(json, step, depth)) {
        hide Write, Read, Fits, AllWays, LocallyValid;
        ReadFits(root, Child(json, step), ChildDepth(json, step, depth));
      }
      hide Write, Read, Fits, AllWays;
      ShapeRead(root, json);
      ReadShapeFits(root, json, depth);
    }
  }

  /** The types are read as they are. */
  lemma TypesFitRead(json: Json, kind: string)
    requires json.Get("type").Some? ==> TypeValid(json.Get("type").value)
    requires json.Get("$ref").None?
    ensures Read(json).types.Some? ==> TypesFit(Read(json).types.value)
    ensures Typed(Read(json).types, kind) <==> TypeContains(json.Get("type"), kind)
  {
    hide ReadFields, ReadUnion, ReadDefinitions;
    if json.Get("type").Some? {
      TypesRead(json.Get("type").value);
      TypesWritten(Read(json).types.value, kind);
    }
    hide TypeContains, TypesFit, ReadTypes, WriteTypes;
  }

  lemma FieldsFitRead(json: Json)
    requires ObjectValid(json) && json.Get("$ref").None?
    ensures Read(json).fields.FieldsOf? && Lists(Read(json).fields.order, Read(json).fields.members)
  {
    FieldsRead(json);
  }

  /** Below what is read stands what is read below. */
  lemma ReadBelow(json: Json, step: Step)
    requires json.Get("$ref").None? && Leads(Read(json), step)
    ensures step in AllWays(json) && Below(Read(json), step) == Read(Child(json, step))
  {
    var n := Read(json);
    hide IsObject, TypeContains, ReadTypes;
    match step
    case Property(name) => assert ReadFields(json).members[name] == Read(Child(json, step));
    case Items =>
    case Branch(i) => assert ReadUnion(json).schemas[i] == Read(Child(json, step));
    case Definition(name) => assert ReadDefinitions(json).members[name] == Read(Child(json, step));
  }

  lemma BelowFitRead(root: Json, json: Json, depth: nat)
    requires json.Get("$ref").None?
    requires forall step :: step in AllWays(json) ==>
      Fits(root, Read(Child(json, step)), ChildDepth(json, step, depth))
    ensures
      var n, next := Read(json), NextDepth(json, depth);
      && (n.fields.FieldsOf? ==> forall name :: name in n.fields.members ==> Fits(root, n.fields.members[name], next))
      && (n.element.ElementOf? ==> Fits(root, n.element.schema, next))
      && (n.union.UnionOf? ==>
            forall i :: 0 <= i < |n.union.schemas| ==> Fits(root, n.union.schemas[i], depth))
      && (n.definitions.DefinitionsOf? ==>
            forall name :: name in n.definitions.members ==> Fits(root, n.definitions.members[name], depth))
  {
    var n := Read(json);
    forall step | Leads(n, step) ensures Fits(root, Below(n, step), ChildDepth(json, step, depth)) {
      ReadBelow(json, step);
    }
    hide Fits, NextDepth, Read, AllWays, Child;
    assert n.Shape? by { ReadsShape(json); }
    if n.fields.FieldsOf? {
      forall name | name in n.fields.members ensures Fits(root, n.fields.members[name], NextDepth(json, depth)) {
        assert Leads(n, Property(name));
      }
    }
    if n.element.ElementOf? {
      assert Leads(n, Items);
    }
    if n.union.UnionOf? {
      forall i | 0 <= i < |n.union.schemas| ensures Fits(root, n.union.schemas[i], depth) {
        assert Leads(n, Branch(i));
      }
    }
    if n.definitions.DefinitionsOf? {
      forall name | name in n.definitions.members ensures Fits(root, n.definitions.members[name], depth) {
        assert Leads(n, Definition(name));
      }
    }
  }

  lemma ReadsShape(json: Json)
    requires json.Get("$ref").None?
    ensures Read(json).Shape?
  {
  }

  lemma ReadShapeFits(root: Json, json: Json, depth: nat)
    requires LocallyValid(root, json) && json.Get("$ref").None? && NextDepth(json, depth) <= MAX_OBJECT_DEPTH
    requires forall step :: step in AllWays(json) ==>
      Fits(root, Read(Child(json, step)), ChildDepth(json, step, depth))
    ensures Fits(root, Read(json), depth)
  {
    BelowFitRead(root, json, depth);
    TypesFitRead(json, "object");
    TypesFitRead(json, "array");
    if IsObject(json) {
      FieldsFitRead(json);
    }
    hide AllWays, Child, TypeContains, TypeValid, ObjectValid, Typed, TypesFit, Lists;
  }

  // -------------------------------------------------------------------- counting

  function FieldSteps(n: Schema): set<Step> {
    if n.Shape? && n.fields.FieldsOf? then set name | name in n.fields.members :: Property(name) else {}
  }

  function Steps(n: Schema): (steps: set<Step>)
    ensures forall step :: step in steps <==> Leads(n, step)
  {
    if n.Refers? then {} else
      FieldSteps(n)
      + (if n.element.ElementOf? then {Items} else {})
      + (if n.union.UnionOf? then set i: nat | i < |n.union.schemas| :: Branch(i) else {})
      + (if n.definitions.DefinitionsOf? then set name | name in n.definitions.members :: Definition(name) else {})
  }

  /** Where properties are declared: the ways from a schema down to them, references not followed. */
  function Places(n: Schema): set<seq<Step>>
    decreases n, 1
  {
    (set step | step in FieldSteps(n) :: [step]) + Through(n, Steps(n))
  }

  function Through(n: Schema, steps: set<Step>): set<seq<Step>>
    requires steps <= Steps(n)
    decreases n, 0
  {
    set step, place | step in steps && place in Places(Below(n, step)) :: [step] + place
  }

  lemma {:induction false} Heads(steps: set<Step>)
    ensures |set step | step in steps :: [step]| == |steps|
  {
    if steps != {} {
      var first :| first in steps;
      Heads(steps - {first});
      assert (set step | step in steps :: [step]) == (set step | step in steps - {first} :: [step]) + {[first]};
    }
  }

  lemma {:induction false} Prefixed(step: Step, places: set<seq<Step>>)
    ensures |set place | place in places :: [step] + place| == |places|
  {
    if places != {} {
      var first :| first in places;
      Prefixed(step, places - {first});
      var rest := set place | place in places - {first} :: [step] + place;
      assert (set place | place in places :: [step] + place) == rest + {[step] + first};
      assert [step] + first !in rest by {
        forall place | place in places - {first} ensures [step] + place != [step] + first {
          assert ([step] + place)[1..] == place && ([step] + first)[1..] == first;
        }
      }
    }
  }

  lemma {:induction false} ThroughIsDeclared(n: Schema, steps: set<Step>)
    requires n.Shape? && steps <= Steps(n) && steps <= AllWays(Write(n))
    requires forall step :: step in steps ==>
      |Places(Below(n, step))| == Declared(Child(Write(n), step))
    ensures DeclaredBelow(Write(n), steps) == |Through(n, steps)|
    decreases |steps|
  {
    hide Places, Declared, Write, AllWays, Child, Steps, Below;
    if steps == {} {
      assert Through(n, steps) == {};
    } else {
      var step :| step in steps;
      var rest := steps - {step};
      ThroughIsDeclared(n, rest);
      DeclaredSplit(Write(n), steps, step);
      var here := set place | place in Places(Below(n, step)) :: [step] + place;
      assert Through(n, steps) == here + Through(n, rest);
      assert here !! Through(n, rest) by {
        forall place | place in here ensures place !in Through(n, rest) {
          assert place[0] == step;
        }
      }
      Prefixed(step, Places(Below(n, step)));
    }
  }

  lemma {:induction false} PlacesAreWalks(n: Schema, place: seq<Step>)
    requires place in Places(n)
    ensures place != []
  {
  }

  /** A shape declares its own fields at one step each, and the rest further down. */
  lemma PlacesSize(n: Schema)
    ensures |Places(n)| == |FieldSteps(n)| + |Through(n, Steps(n))|
  {
    var heads := set step | step in FieldSteps(n) :: [step];
    Heads(FieldSteps(n));
    assert heads !! Through(n, Steps(n)) by {
      forall step, place | step in Steps(n) && place in Places(Below(n, step)) ensures |[step] + place| > 1 {
        PlacesAreWalks(Below(n, step), place);
      }
    }
  }

  lemma {:induction false} FieldStepsSize(names: set<string>)
    ensures |set name | name in names :: Property(name)| == |names|
  {
    if names != {} {
      var name :| name in names;
      var rest := names - {name};
      FieldStepsSize(rest);
      assert (set name | name in names :: Property(name))
        == (set name | name in rest :: Property(name)) + {Property(name)};
    }
  }

  lemma ShapeDeclares(n: Schema)
    requires n.Shape?
    ensures Declared(Write(n)) == |FieldSteps(n)| + DeclaredBelow(Write(n), AllWays(Write(n)))
  {
    hide Write, DeclaredBelow, AllWays;
    if n.fields.FieldsOf? {
      FieldsWritten(n);
      var names := n.fields.members.Keys;
      FieldStepsSize(names);
      assert FieldSteps(n) == set name | name in names :: Property(name);
      assert |Members(Write(n).Get("properties"))| == |Members(Write(n).Get("properties")).Keys|;
    }
  }

  /** What is counted is the places at which properties are declared. */
  lemma {:induction false} DeclaredIsPlaces(n: Schema)
    ensures Declared(Write(n)) == |Places(n)|
    decreases n
  {
    PlacesSize(n);
    hide Places, Through, Declared;
    if n.Refers? {
      ReferenceDeclares(n);
    } else {
      ShapeDeclares(n);
      forall step ensures step in AllWays(Write(n)) <==> step in Steps(n)
        ensures step in Steps(n) ==> |Places(Below(n, step))| == Declared(Child(Write(n), step)) {
        WaysWritten(n, step);
        if step in Steps(n) {
          DeclaredIsPlaces(Below(n, step));
        }
      }
      hide Write, Steps, AllWays, Child, Below, FieldSteps;
      assert AllWays(Write(n)) == Steps(n);
      ThroughIsDeclared(n, Steps(n));
    }
  }

  lemma ReferenceDeclares(n: Schema)
    requires n.Refers?
    ensures Declared(Write(n)) == |FieldSteps(n)| + |Through(n, Steps(n))|
  {
    assert Through(n, Steps(n)) == {};
    assert Write(n).Get("$ref").Some?;
  }

  // ------------------------------------------------------------------- the root

  /** An object at the root that is neither a union nor a reference. */
  predicate IsRoot(n: Schema) {
    n.Shape? && n.types == Some(One("object")) && n.union.NoUnion?
  }

  lemma RootWritten(n: Schema)
    ensures RootValid(Write(n)) <==> IsRoot(n)
  {
    hide Write;
    if n.Shape? {
      assert Write(n).Get("type") == Member(n, "type");
      assert Write(n).Get("anyOf") == Member(n, "anyOf");
      assert Write(n).Get("$ref") == Member(n, "$ref");
    } else {
      assert Write(n).Get("$ref") == Member(n, "$ref");
    }
  }

  ghost predicate Describes(n: Schema, schema: Json) {
    Write(n) == schema && IsRoot(n) && Fits(schema, n, 0) && |Places(n)| <= 100
  }

  /**
   The accepted schemas are those written from the grammar, with an object at the root and at most 100
   properties, in which no definition reaches itself and no walk passes more than five objects.
   */
  lemma StrictSchemaIsWritten(schema: Json)
    ensures StrictSchema(schema) <==>
      && (exists n: Schema :: Describes(n, schema))
      && (forall reference :: !Reaches(schema, reference, reference))
      && (forall start :: start in Starts(schema) ==> Shallow(schema, start))
  {
    StrictSchemaIsAcyclic(schema);
    hide StrictSchema, Reaches, Shallow, Starts;
    if RootValid(schema) && NodeValid(schema, schema, 0) && Declared(schema) <= MAX_PROPERTIES {
      ReadFits(schema, schema, 0);
      RootWritten(Read(schema));
      DeclaredIsPlaces(Read(schema));
      assert Describes(Read(schema), schema);
    }
    forall n: Schema | Describes(n, schema)
      ensures RootValid(schema) && NodeValid(schema, schema, 0) && Declared(schema) <= MAX_PROPERTIES {
      RootWritten(n);
      WrittenIsValid(schema, n, 0);
      DeclaredIsPlaces(n);
    }
  }
}
