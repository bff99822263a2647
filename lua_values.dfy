/**
  The Lua values the scripting bridge converts (src/dcs/mod.rs): mlua's
  `Value`, tables with their metatables, the class-chain check behind
  `as_tbl`, the conversions the `simple_enum!` and `string_enum!` macros
  generate, and the crate's own `String::from_lua`.

  Tables are inductive values here, so every metatable and `parentClass_`
  chain is finite. Host objects whose text the host computes (functions,
  threads, userdata, light userdata, floats, and tables themselves) carry
  that display text.
*/
module LuaValues {
  import opened Wrappers
  import Decimal

  const I64_MIN: int := -0x8000_0000_0000_0000
  const I64_MAX: int := 0x7fff_ffff_ffff_ffff

  type Int64 = i: int | I64_MIN <= i <= I64_MAX

  datatype Value =
    | Nil
    | Boolean(b: bool)
    | LightUserData(text: string)
    | Integer(i: Int64)
    | Number(text: string)
    | String(s: string)
    | Table(t: Table)
    | Function(text: string)
    | Thread(text: string)
    | UserData(text: string)
    | Error(message: string)

  /** A table: its key/value pairs in traversal order, its metatable, and its display text. */
  datatype Table = Tbl(pairs: seq<(Value, Value)>, meta: Option<Table>, text: string)

  /** `LuaError::FromLuaConversionError { from, to, message }` */
  datatype ConversionError = ConversionError(from: string, to: string, message: Option<string>)

  /** `cvt_err(to)` */
  function CvtErr(to: string): ConversionError {
    ConversionError("value", to, None)
  }

  /** `raw_get(key)` with a string key: the value stored under it, Nil when absent. */
  function RawGet(t: Table, key: string): (v: Value)
    ensures v == Nil || exists i :: 0 <= i < |t.pairs| && t.pairs[i] == (String(key), v)
    ensures v != Nil ==> v < t
  {
    var v := RawGetFrom(t.pairs, key);
    if v == Nil then v else StoredIsSmaller(t, key, v); v
  }

  lemma StoredIsSmaller(t: Table, key: string, v: Value)
    requires exists i :: 0 <= i < |t.pairs| && t.pairs[i] == (String(key), v)
    ensures v < t
  {
    var i :| 0 <= i < |t.pairs| && t.pairs[i] == (String(key), v);
    assert t.pairs[i] in t.pairs;
  }

  function RawGetFrom(pairs: seq<(Value, Value)>, key: string): (v: Value)
    ensures v == Nil || exists i :: 0 <= i < |pairs| && pairs[i] == (String(key), v)
  {
    if pairs == [] then Nil
    else if pairs[0].0 == String(key) then pairs[0].1
    else RawGetFrom(pairs[1..], key)
  }

  /** mlua's `type_name`. */
  function TypeName(v: Value): string {
    match v
    case Nil => "nil"
    case Boolean(_) => "boolean"
    case LightUserData(_) => "lightuserdata"
    case Integer(_) => "integer"
    case Number(_) => "number"
    case String(_) => "string"
    case Table(_) => "table"
    case Function(_) => "function"
    case Thread(_) => "thread"
    case UserData(_) => "userdata"
    case Error(_) => "error"
  }

  /**
    The crate's `String::from_lua`: strings as they are, booleans and
    integers formatted, anything else through the host's `to_string`
    (mlua writes nil as "nil").
  */
  function StringFromLua(v: Value): string {
    match v
    case String(s) => s
    case Boolean(b) => if b then "true" else "false"
    case Integer(n) => Decimal.IntText(n)
    case Number(text) => text
    case Nil => "nil"
    case LightUserData(text) => text
    case Table(t) => t.text
    case Function(text) => text
    case Thread(text) => text
    case UserData(text) => text
    case Error(message) => message
  }

  lemma StringFromBoolean(b: bool)
    ensures StringFromLua(Boolean(b)) == (if b then "true" else "false")
  {
  }

  /** An integer becomes text that reads back as the same integer. */
  lemma StringFromInteger(n: Int64)
    ensures Decimal.ParseInt(StringFromLua(Integer(n))) == n
  {
    Decimal.ParseIntText(n);
  }

  // ---------------------------------------------------------------------
  // check_implements and as_tbl
  // ---------------------------------------------------------------------

  /** What `tbl.raw_get::<_, String>("className_")` reads. */
  function ClassName(t: Table): string {
    StringFromLua(RawGet(t, "className_"))
  }

  /** The tables `check_implements` visits: the start, then each `parentClass_` that is a table. */
  function Chain(t: Table): (c: seq<Table>)
    ensures 0 < |c| && c[0] == t
    decreases t
  {
    match RawGet(t, "parentClass_")
    case Table(p) => [t] + Chain(p)
    case _ => [t]
  }

  /** Some table of `c` is named `cls`. */
  ghost predicate Named(c: seq<Table>, cls: string) {
    exists k :: 0 <= k < |c| && ClassName(c[k]) == cls
  }

  /** Some table on the chain is named `cls`. */
  ghost predicate Implements(t: Table, cls: string) {
    Named(Chain(t), cls)
  }

  lemma NamedCons(t: Table, c: seq<Table>, cls: string)
    ensures Named([t] + c, cls) <==> ClassName(t) == cls || Named(c, cls)
  {
    var d := [t] + c;
    if Named(d, cls) && ClassName(t) != cls {
      var k :| 0 <= k < |d| && ClassName(d[k]) == cls;
      assert ClassName(c[k - 1]) == cls;
    }
    if Named(c, cls) {
      var k :| 0 <= k < |c| && ClassName(c[k]) == cls;
      assert d[k + 1] == c[k];
    }
    if ClassName(t) == cls {
      assert d[0] == t;
    }
  }

  /** One step of the walk: a table implements a class when it or its parent chain does. */
  lemma ImplementsStep(t: Table, cls: string)
    ensures Implements(t, cls) <==>
      (ClassName(t) == cls ||
       (RawGet(t, "parentClass_").Table? && Implements(RawGet(t, "parentClass_").t, cls)))
  {
    match RawGet(t, "parentClass_")
    case Table(p) => {
      NamedCons(t, Chain(p), cls);
    }
    case _ => {
      NamedCons(t, [], cls);
      assert Chain(t) == [t] + [];
    }
  }

  /**
    `check_implements`: walks `parentClass_` up from `start` until a
    `className_` equals `cls` (true) or a parent is missing (false).
  */
  method CheckImplements(start: Table, cls: string) returns (r: bool)
    ensures r <==> Implements(start, cls)
  {
    var tbl := start;
    while true
      invariant Implements(start, cls) <==> Implements(tbl, cls)
      decreases tbl
    {
      ImplementsStep(tbl, cls);
      if StringFromLua(RawGet(tbl, "className_")) == cls {
        return true;
      }
      match RawGet(tbl, "parentClass_")
      case Table(p) => {
        tbl := p;
      }
      case _ => {
        return false;
      }
    }
  }

  /**
    The walk stops with false at a table whose name differs and that has no
    parent table. A missing `className_` reads as "nil", so such a table
    never matches any class other than "nil".
  */
  lemma StopsAtMissingParent(t: Table, cls: string)
    requires ClassName(t) != cls
    requires !RawGet(t, "parentClass_").Table?
    ensures !Implements(t, cls)
  {
    ImplementsStep(t, cls);
  }

  lemma MissingClassNameReadsNil(t: Table)
    requires RawGet(t, "className_") == Nil
    ensures ClassName(t) == "nil"
  {
  }

  /**
    `as_tbl(to, objtyp, value)`: a table, checked against the expected class
    through its metatable when one is expected.
  */
  method AsTbl(to: string, objtyp: Option<string>, value: Value) returns (r: Result<Table, ConversionError>)
    ensures !value.Table? ==> r == Err(CvtErr(to))
    ensures value.Table? && objtyp.None? ==> r == Ok(value.t)
    ensures value.Table? && objtyp.Some? && value.t.meta.None? ==>
      r == Err(ConversionError("table", objtyp.value, Some("table is not an object")))
    ensures value.Table? && objtyp.Some? && value.t.meta.Some? ==>
      (r.Ok? <==> Implements(value.t.meta.value, objtyp.value)) &&
      (r.Ok? ==> r.value == value.t) &&
      (r.Err? ==> r.error == ConversionError("table", objtyp.value,
                       Some("object or super expected to have type " + objtyp.value)))
  {
    match value
    case Table(tbl) => {
      match objtyp
      case None => {
        r := Ok(tbl);
      }
      case Some(typ) => {
        match tbl.meta
        case None => {
          r := Err(ConversionError("table", typ, Some("table is not an object")));
        }
        case Some(meta) => {
          var ok := CheckImplements(meta, typ);
          if ok {
            r := Ok(tbl);
          } else {
            r := Err(ConversionError("table", typ, Some("object or super expected to have type " + typ)));
          }
        }
      }
    }
    case _ => {
      r := Err(CvtErr(to));
    }
  }

  // ---------------------------------------------------------------------
  // Integer representations: `u8::from_lua`, `u32::from_lua`
  // ---------------------------------------------------------------------

  datatype IntRepr = U8 | U32 {
    function Bound(): nat {
      match this
      case U8 => 0x100
      case U32 => 0x1_0000_0000
    }

    function Name(): string {
      match this
      case U8 => "u8"
      case U32 => "u32"
    }
  }

  /** Decoding a Lua integer into an unsigned representation, failing when out of range. */
  function IntFromLua(repr: IntRepr, v: Value): (r: Result<nat, ConversionError>)
    ensures r.Ok? <==> v.Integer? && 0 <= v.i < repr.Bound()
    ensures r.Ok? ==> r.value == v.i
  {
    match v
    case Integer(i) =>
      if 0 <= i < repr.Bound() then Ok(i as nat)
      else Err(ConversionError("integer", repr.Name(), Some("out of range")))
    case _ => Err(ConversionError(TypeName(v), repr.Name(), None))
  }

  // ---------------------------------------------------------------------
  // simple_enum!: an enum with one integer literal per case
  // ---------------------------------------------------------------------

  /** The case of the first arm whose literal is `n`. */
  function CaseOf<C>(arms: seq<(C, int)>, n: int): Option<C> {
    if arms == [] then None
    else if arms[0].1 == n then Some(arms[0].0)
    else CaseOf(arms[1..], n)
  }

  /** The literal of the first arm for case `c` (the discriminant `self as i64`). */
  function LiteralOf<C(==)>(arms: seq<(C, int)>, c: C): int
    requires exists i :: 0 <= i < |arms| && arms[i].0 == c
  {
    if arms[0].0 == c then arms[0].1 else LiteralOf(arms[1..], c)
  }

  /** What the Rust compiler demands of a macro invocation: distinct cases, distinct literals that fit the repr. */
  ghost predicate SimpleArms<C>(arms: seq<(C, int)>, repr: IntRepr) {
    && (forall i, j :: 0 <= i < j < |arms| ==> arms[i].0 != arms[j].0 && arms[i].1 != arms[j].1)
    && (forall i :: 0 <= i < |arms| ==> 0 <= arms[i].1 < repr.Bound())
  }

  /** The generated `from_lua`: decode the repr, then match the literals; no match is `cvt_err(name)`. */
  function SimpleFromLua<C>(name: string, arms: seq<(C, int)>, repr: IntRepr, v: Value): Result<C, ConversionError> {
    match IntFromLua(repr, v)
    case Err(e) => Err(e)
    case Ok(n) =>
      match CaseOf(arms, n)
      case Some(c) => Ok(c)
      case None => Err(CvtErr(name))
  }

  /** The generated `into_lua`: the case's discriminant as a Lua integer. */
  function SimpleIntoLua<C(==)>(arms: seq<(C, int)>, repr: IntRepr, c: C): Value
    requires SimpleArms(arms, repr)
    requires exists i :: 0 <= i < |arms| && arms[i].0 == c
  {
    LiteralBound(arms, repr, c);
    Integer(LiteralOf(arms, c))
  }

  lemma {:induction false} LiteralBound<C>(arms: seq<(C, int)>, repr: IntRepr, c: C)
    requires SimpleArms(arms, repr)
    requires exists i :: 0 <= i < |arms| && arms[i].0 == c
    ensures 0 <= LiteralOf(arms, c) < repr.Bound()
    ensures exists i :: 0 <= i < |arms| && arms[i] == (c, LiteralOf(arms, c))
  {
    if arms[0].0 != c {
      var i :| 0 <= i < |arms| && arms[i].0 == c;
      assert arms[1..][i - 1].0 == c;
      LiteralBound(arms[1..], repr, c);
      var j :| 0 <= j < |arms[1..]| && arms[1..][j] == (c, LiteralOf(arms[1..], c));
      assert arms[j + 1] == arms[1..][j];
    }
  }

  /** With distinct literals, the first arm for literal `arms[i].1` is arm i. */
  lemma {:induction false} CaseOfLiteral<C>(arms: seq<(C, int)>, repr: IntRepr, i: nat)
    requires SimpleArms(arms, repr)
    requires i < |arms|
    ensures CaseOf(arms, arms[i].1) == Some(arms[i].0)
  {
    if i > 0 {
      assert arms[0].1 != arms[i].1;
      assert SimpleArms(arms[1..], repr);
      assert arms[1..][i - 1] == arms[i];
      CaseOfLiteral(arms[1..], repr, i - 1);
    }
  }

  lemma {:induction false} CaseOfMissing<C>(arms: seq<(C, int)>, n: int)
    requires forall i :: 0 <= i < |arms| ==> arms[i].1 != n
    ensures CaseOf(arms, n) == None
  {
    if arms != [] {
      assert forall i :: 0 <= i < |arms[1..]| ==> arms[1..][i] == arms[i + 1];
      CaseOfMissing(arms[1..], n);
    }
  }

  /** `from_lua(into_lua(c)) == c` for every case of a well-formed enum. */
  lemma SimpleRoundTrip<C>(name: string, arms: seq<(C, int)>, repr: IntRepr, c: C)
    requires SimpleArms(arms, repr)
    requires exists i :: 0 <= i < |arms| && arms[i].0 == c
    ensures SimpleFromLua(name, arms, repr, SimpleIntoLua(arms, repr, c)) == Ok(c)
  {
    LiteralBound(arms, repr, c);
    var i :| 0 <= i < |arms| && arms[i] == (c, LiteralOf(arms, c));
    CaseOfLiteral(arms, repr, i);
  }

  /** A number that is no listed literal is rejected with `cvt_err(name)`. */
  lemma SimpleRejectsUnlisted<C>(name: string, arms: seq<(C, int)>, repr: IntRepr, n: Int64)
    requires 0 <= n < repr.Bound()
    requires forall i :: 0 <= i < |arms| ==> arms[i].1 != n
    ensures SimpleFromLua(name, arms, repr, Integer(n)) == Err(CvtErr(name))
  {
    CaseOfMissing(arms, n);
  }

  // ---------------------------------------------------------------------
  // string_enum!: an enum with one string per case, alternates, and Custom
  // ---------------------------------------------------------------------

  /** A case of a string enum, or `Custom(s)` for a string no arm lists. */
  datatype StringCase<C> = Case(c: C) | Custom(s: string)

  function Lookup<C>(arms: seq<(C, string)>, s: string): Option<C> {
    if arms == [] then None
    else if arms[0].1 == s then Some(arms[0].0)
    else Lookup(arms[1..], s)
  }

  function TextOf<C(==)>(arms: seq<(C, string)>, c: C): string
    requires exists i :: 0 <= i < |arms| && arms[i].0 == c
  {
    if arms[0].0 == c then arms[0].1 else TextOf(arms[1..], c)
  }

  ghost predicate Listed<C>(arms: seq<(C, string)>, s: string) {
    exists i :: 0 <= i < |arms| && arms[i].1 == s
  }

  ghost predicate HasCase<C>(arms: seq<(C, string)>, c: C) {
    exists i :: 0 <= i < |arms| && arms[i].0 == c
  }

  /** Distinct cases and distinct strings in the primary arms; every alternate names a primary case. */
  ghost predicate StringArms<C>(primary: seq<(C, string)>, alternate: seq<(C, string)>) {
    && (forall i, j :: 0 <= i < j < |primary| ==> primary[i].0 != primary[j].0 && primary[i].1 != primary[j].1)
    && (forall i :: 0 <= i < |alternate| ==> HasCase(primary, alternate[i].0))
  }

  /** The generated `from_lua`: the primary strings first, then the alternates, else `Custom`. */
  function StringEnumFromLua<C>(primary: seq<(C, string)>, alternate: seq<(C, string)>, v: Value): StringCase<C> {
    var s := StringFromLua(v);
    match Lookup(primary, s)
    case Some(c) => Case(c)
    case None =>
      match Lookup(alternate, s)
      case Some(c) => Case(c)
      case None => Custom(s)
  }

  /** The generated `into_lua`: a case's primary string, or the custom string itself. */
  function StringEnumIntoLua<C(==)>(primary: seq<(C, string)>, e: StringCase<C>): Value
    requires e.Case? ==> HasCase(primary, e.c)
  {
    match e
    case Case(c) => String(TextOf(primary, c))
    case Custom(s) => String(s)
  }

  lemma {:induction false} LookupFound<C>(arms: seq<(C, string)>, s: string)
    requires Listed(arms, s)
    ensures Lookup(arms, s).Some?
    ensures HasCase(arms, Lookup(arms, s).value)
    ensures exists i :: 0 <= i < |arms| && arms[i] == (Lookup(arms, s).value, s) &&
                        forall j :: 0 <= j < i ==> arms[j].1 != s
  {
    if arms[0].1 != s {
      var i :| 0 <= i < |arms| && arms[i].1 == s;
      assert arms[1..][i - 1].1 == s;
      LookupFound(arms[1..], s);
      var k :| 0 <= k < |arms[1..]| && arms[1..][k] == (Lookup(arms[1..], s).value, s) &&
               forall j :: 0 <= j < k ==> arms[1..][j].1 != s;
      assert arms[k + 1] == arms[1..][k];
      assert forall j :: 1 <= j < k + 1 ==> arms[j] == arms[1..][j - 1];
    }
  }

  lemma {:induction false} LookupMissing<C>(arms: seq<(C, string)>, s: string)
    requires !Listed(arms, s)
    ensures Lookup(arms, s).None?
  {
    if arms != [] {
      assert arms[0].1 != s;
      LookupMissing(arms[1..], s);
    }
  }

  /** With distinct cases, the first primary arm for case `primary[i].0` is arm i. */
  lemma {:induction false} TextOfArm<C>(primary: seq<(C, string)>, alternate: seq<(C, string)>, i: nat)
    requires StringArms(primary, alternate)
    requires i < |primary|
    ensures TextOf(primary, primary[i].0) == primary[i].1
  {
    if i > 0 {
      assert primary[0].0 != primary[i].0;
      assert StringArms(primary[1..], []);
      assert primary[1..][i - 1] == primary[i];
      TextOfArm(primary[1..], [], i - 1);
    }
  }

  /**
    `into_lua(from_lua(s)) == s` for every string that is not an alternate
    only: a primary string finds its own case, an unlisted one comes back
    from `Custom`.
  */
  lemma StringEnumKeepsText<C>(primary: seq<(C, string)>, alternate: seq<(C, string)>, s: string)
    requires StringArms(primary, alternate)
    requires Listed(primary, s) || !Listed(alternate, s)
    ensures var e := StringEnumFromLua(primary, alternate, String(s));
            (e.Case? ==> HasCase(primary, e.c)) && StringEnumIntoLua(primary, e) == String(s)
  {
    if Listed(primary, s) {
      LookupFound(primary, s);
      var i :| 0 <= i < |primary| && primary[i] == (Lookup(primary, s).value, s) &&
               forall j :: 0 <= j < i ==> primary[j].1 != s;
      TextOfArm(primary, alternate, i);
    } else {
      LookupMissing(primary, s);
      LookupMissing(alternate, s);
    }
  }

  /** An alternate string that is no primary one normalises to its case's primary string. */
  lemma StringEnumNormalisesAlternate<C>(primary: seq<(C, string)>, alternate: seq<(C, string)>, s: string)
    requires StringArms(primary, alternate)
    requires !Listed(primary, s) && Listed(alternate, s)
    ensures var e := StringEnumFromLua(primary, alternate, String(s));
            e.Case? && HasCase(primary, e.c) && Lookup(alternate, s) == Some(e.c) &&
            StringEnumIntoLua(primary, e) == String(TextOf(primary, e.c))
  {
    LookupMissing(primary, s);
    LookupFound(alternate, s);
    var i :| 0 <= i < |alternate| && alternate[i] == (Lookup(alternate, s).value, s) &&
             forall j :: 0 <= j < i ==> alternate[j].1 != s;
    assert HasCase(primary, alternate[i].0);
  }

  /** An unlisted string decodes to `Custom(s)`, which encodes back to `s`. */
  lemma StringEnumCustom<C>(primary: seq<(C, string)>, alternate: seq<(C, string)>, s: string)
    requires !Listed(primary, s) && !Listed(alternate, s)
    ensures StringEnumFromLua(primary, alternate, String(s)) == Custom(s)
    ensures StringEnumIntoLua(primary, Custom(s)) == String(s)
  {
    LookupMissing(primary, s);
    LookupMissing(alternate, s);
  }

  /** Every case decodes back from its own string. */
  lemma StringEnumRoundTrip<C>(primary: seq<(C, string)>, alternate: seq<(C, string)>, c: C)
    requires StringArms(primary, alternate)
    requires HasCase(primary, c)
    ensures StringEnumFromLua(primary, alternate, StringEnumIntoLua(primary, Case(c))) == Case(c)
  {
    var i :| 0 <= i < |primary| && primary[i].0 == c;
    TextOfArm(primary, alternate, i);
    LookupFound(primary, primary[i].1);
    var k :| 0 <= k < |primary| && primary[k] == (Lookup(primary, primary[i].1).value, primary[i].1) &&
             forall j :: 0 <= j < k ==> primary[j].1 != primary[i].1;
    assert k == i;
  }
}
