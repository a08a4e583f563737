/**
 * Lua values as the bridge sees them, and the conversions the Lua binding
 * applies when the host reads a value with a Rust type (`FromLua`).
 */
module LuaValue {
  import opened Wrappers

  type Byte = n: nat | n < 256

  /**
   * A Lua value. A table has a string-keyed part and an array part holding
   * the values at keys 1, 2, ...; reads of the array part stop at the first nil. `Entity` is the
   * `LuaEntity` userdata the host puts into `OBJECTS`.
   */
  datatype Value =
    | Nil
    | Bool(b: bool)
    | Num(x: real)
    | Str(s: string)
    | Table(fields: map<string, Value>, items: seq<Value>)
    | Entity(id: nat)

  /** A table with only an array part. */
  function List(items: seq<Value>): Value {
    Table(map[], items)
  }

  /** `t.key`: an absent key reads as nil. */
  function Get(fields: map<string, Value>, key: string): (v: Value)
    ensures key !in fields ==> v == Nil
    ensures key in fields ==> v == fields[key]
  {
    if key in fields then fields[key] else Nil
  }

  /** Reading a `bool`: Lua truthiness, so the read never fails. */
  function ToBool(v: Value): (b: bool)
    ensures !b <==> v == Nil || v == Bool(false)
  {
    match v
    case Nil => false
    case Bool(b) => b
    case _ => true
  }

  /** Reading an `f32`: only a number converts. */
  function ToNumber(v: Value): (r: Option<real>)
    ensures r.Some? <==> v.Num?
    ensures r.Some? ==> r.value == v.x
  {
    if v.Num? then Some(v.x) else None
  }

  /** Reading a `String`: only a string converts. */
  function ToText(v: Value): (r: Option<string>)
    ensures r.Some? <==> v.Str?
    ensures r.Some? ==> r.value == v.s
  {
    if v.Str? then Some(v.s) else None
  }

  /** Reading a `u8`: a number in range, truncated toward zero. */
  function ToByte(v: Value): (r: Option<Byte>)
    ensures r.Some? <==> v.Num? && -1.0 < v.x < 256.0
    ensures r.Some? && v.x >= 0.0 ==> r.value as real <= v.x < r.value as real + 1.0
    ensures r.Some? && v.x < 0.0 ==> r.value == 0
  {
    match v
    case Num(x) =>
      if -1.0 < x < 256.0 then Some(if x < 0.0 then 0 else x.Floor) else None
    case _ => None
  }

  /** Reading an `rlua::Table`: the string-keyed part of a table. */
  function ToTable(v: Value): (r: Option<map<string, Value>>)
    ensures r.Some? <==> v.Table?
  {
    if v.Table? then Some(v.fields) else None
  }

  /**
   * The values before the first nil: what `ipairs` visits, and what the
   * binding's sequence read collects from an array part.
   */
  function BeforeNil(args: seq<Value>): (r: seq<Value>)
    ensures |r| <= |args| && r == args[..|r|]
    ensures forall i :: 0 <= i < |r| ==> r[i] != Nil
    ensures |r| < |args| ==> args[|r|] == Nil
  {
    if args == [] || args[0] == Nil then [] else [args[0]] + BeforeNil(args[1..])
  }

  /** Reading a `Vec<rlua::Table>`: a table whose array entries, up to the first nil, are all tables. */
  function ToTableList(v: Value): (r: Option<seq<map<string, Value>>>)
    ensures var s := if v.Table? then BeforeNil(v.items) else [];
      && (r.Some? <==> v.Table? && forall i :: 0 <= i < |s| ==> s[i].Table?)
      && (r.Some? ==> |r.value| == |s| && forall i :: 0 <= i < |s| ==> r.value[i] == s[i].fields)
  {
    if v.Table? then
      var s := BeforeNil(v.items);
      if forall i :: 0 <= i < |s| ==> s[i].Table? then
        Some(seq(|s|, i requires 0 <= i < |s| => s[i].fields))
      else
        None
    else
      None
  }

  /** A queue read stops at the first nil: the entries after it are never looked at. */
  lemma QueueStopsAtNil()
    ensures ToTableList(List([List([]), Nil, Num(1.0)])) == Some([map[]])
  {
    var items := [List([]), Nil, Num(1.0)];
    assert BeforeNil(items[1..]) == [];
    assert BeforeNil(items) == [List([])];
    var r := ToTableList(List(items));
    assert r.Some?;
    assert |r.value| == 1 && r.value[0] == map[];
    assert r.value == [map[]];
  }

  /** Lower-case one character (ASCII letters only). */
  function LowerChar(c: char): (d: char)
    ensures 'A' <= c <= 'Z' ==> d as int == c as int + 32
    ensures !('A' <= c <= 'Z') ==> d == c
  {
    if 'A' <= c <= 'Z' then (c as int + 32) as char else c
  }

  /** `str::to_lowercase`, restricted to ASCII letters. */
  function Lower(s: string): (t: string)
    ensures |t| == |s|
    ensures forall i :: 0 <= i < |s| ==> t[i] == LowerChar(s[i])
  {
    seq(|s|, i requires 0 <= i < |s| => LowerChar(s[i]))
  }

  /** Lower-casing twice is lower-casing once. */
  lemma LowerIdempotent(s: string)
    ensures Lower(Lower(s)) == Lower(s)
  {
    assert forall i :: 0 <= i < |s| ==> LowerChar(LowerChar(s[i])) == LowerChar(s[i]);
  }
}
