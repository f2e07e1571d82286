/** JSON values as the adapters see them after parsing. */
module Json {
  import opened Wrappers

  const U64_SPAN: nat := 0x1_0000_0000_0000_0000

  type U64 = n: nat | n < U64_SPAN

  /** Numbers that fit an unsigned 64-bit integer, and all others by their text. */
  datatype Number = Unsigned(n: U64) | OtherNumber(text: string)

  datatype Json =
    | Null
    | Bool(flag: bool)
    | Num(number: Number)
    | Str(text: string)
    | Arr(items: seq<Json>)
    | Obj(members: map<string, Json>)
  {
    function Get(key: string): Option<Json> {
      if Obj? && key in members then Some(members[key]) else None
    }

    function GetStr(key: string): Option<string> {
      match Get(key)
      case Some(Str(text)) => Some(text)
      case _ => None
    }

    /** Follows object members; the token lists the adapters use never index an array. */
    function Pointer(path: seq<string>): Option<Json>
      decreases |path|
    {
      if path == [] then Some(this)
      else if Get(path[0]).None? then None
      else Get(path[0]).value.Pointer(path[1..])
    }
  }

  lemma TwoSteps(value: Json, first: string, second: string)
    ensures value.Pointer([first, second])
      == if value.Get(first).Some? then value.Get(first).value.Get(second) else None
  {
    assert [first, second][1..] == [second];
    if value.Get(first).Some? {
      var next := value.Get(first).value;
      assert [second][1..] == [];
      assert next.Pointer([second]) == next.Get(second);
    }
  }

  lemma ThreeSteps(value: Json, first: string, second: string, third: string)
    ensures value.Pointer([first, second, third])
      == if value.Get(first).None? || value.Get(first).value.Get(second).None? then None
         else value.Get(first).value.Get(second).value.Get(third)
  {
    assert [first, second, third][1..] == [second, third];
    if value.Get(first).Some? {
      TwoSteps(value.Get(first).value, second, third);
    }
  }

  function AsStr(j: Option<Json>): Option<string> {
    match j
    case Some(Str(text)) => Some(text)
    case _ => None
  }

  function AsU64(j: Option<Json>): Option<U64> {
    match j
    case Some(Num(Unsigned(n))) => Some(n)
    case _ => None
  }

  /** The member is the count, or nothing that is a whole number of 64 bits. */
  ghost predicate HoldsCount(value: Json, key: string, count: Option<U64>) {
    match count
    case Some(n) => value.Get(key) == Some(Num(Unsigned(n)))
    case None => forall n: U64 :: value.Get(key) != Some(Num(Unsigned(n)))
  }

  lemma HeldCountIsRead(value: Json, key: string, count: Option<U64>)
    requires HoldsCount(value, key, count)
    ensures AsU64(value.Get(key)) == count
  {
    var read := AsU64(value.Get(key));
    if read.Some? {
      assert value.Get(key) == Some(Num(Unsigned(read.value)));
    }
  }

  function AsArr(j: Option<Json>): Option<seq<Json>> {
    match j
    case Some(Arr(items)) => Some(items)
    case _ => None
  }

  function AsObj(j: Option<Json>): Option<map<string, Json>> {
    match j
    case Some(Obj(members)) => Some(members)
    case _ => None
  }

  /** The value an absent member serializes to. */
  function OrNull(j: Option<Json>): Json {
    if j.Some? then j.value else Null
  }

  /** How many of `keys` are members. */
  function Present(members: map<string, Json>, keys: seq<string>): nat {
    if keys == [] then 0
    else (if keys[0] in members then 1 else 0) + Present(members, keys[1..])
  }

  /** An object with these members and as many as these has no others. */
  lemma OnlyKeys(members: map<string, Json>, keys: set<string>)
    requires keys <= members.Keys && |members| == |keys|
    ensures members.Keys == keys
  {
    assert members.Keys == keys + (members.Keys - keys);
  }

  /** The JSON text library: rendering a value and parsing it back gives the value. */
  datatype Codec = Codec(render: Json -> string, parse: string -> Option<Json>) {
    ghost predicate Lawful() {
      && (forall v :: parse(render(v)) == Some(v))
      && (forall v :: render(v) != "")
      && parse("{}") == Some(Obj(map[]))
    }
  }

  /** The values of an ordered map whose keys are below `limit`, by ascending key. */
  function Ascending<T>(m: map<nat, T>, limit: nat): seq<T> {
    if limit == 0 then []
    else Ascending(m, limit - 1) + (if limit - 1 in m then [m[limit - 1]] else [])
  }

  lemma {:induction false} AscendingStops<T>(m: map<nat, T>, least: nat, limit: nat)
    requires least <= limit
    requires forall k :: k in m ==> k < least
    ensures Ascending(m, limit) == Ascending(m, least)
    decreases limit
  {
    if least < limit {
      AscendingStops(m, least, limit - 1);
    }
  }

  lemma {:induction false} AscendingDense<T>(m: map<nat, T>, limit: nat)
    requires forall k :: 0 <= k < limit ==> k in m
    ensures Ascending(m, limit) == seq(limit, k requires 0 <= k < limit => m[k])
  {
    if limit > 0 {
      AscendingDense(m, limit - 1);
    }
  }

  // ---------------------------------------------------------------- strings

  /** Unicode White_Space, which trimming removes. */
  predicate IsSpace(c: char) {
    var n := c as int;
    || 0x09 <= n <= 0x0D || n == 0x20 || n == 0x85 || n == 0xA0 || n == 0x1680
    || 0x2000 <= n <= 0x200A || n == 0x2028 || n == 0x2029 || n == 0x202F || n == 0x205F
    || n == 0x3000
  }

  /** Nothing is left after trimming. */
  predicate IsBlank(s: string) {
    forall i :: 0 <= i < |s| ==> IsSpace(s[i])
  }

  const DIGITS := "0123456789"

  function Decimal(n: nat): (s: string)
    ensures s != ""
  {
    if n < 10 then [DIGITS[n]] else Decimal(n / 10) + [DIGITS[n % 10]]
  }

  lemma {:induction false} DecimalInjective(a: nat, b: nat)
    requires Decimal(a) == Decimal(b)
    ensures a == b
  {
    var s := Decimal(a);
    assert s[|s| - 1] == DIGITS[a % 10] && s[|s| - 1] == DIGITS[b % 10];
    if a >= 10 && b >= 10 {
      assert s[..|s| - 1] == Decimal(a / 10) && s[..|s| - 1] == Decimal(b / 10);
      DecimalInjective(a / 10, b / 10);
    }
  }

  lemma PrefixedDecimalInjective(prefix: string, a: nat, b: nat)
    requires prefix + Decimal(a) == prefix + Decimal(b)
    ensures a == b
  {
    assert (prefix + Decimal(a))[|prefix|..] == Decimal(a);
    assert (prefix + Decimal(b))[|prefix|..] == Decimal(b);
    DecimalInjective(a, b);
  }
}
