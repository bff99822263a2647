/**
  The Lua-to-JSON converter of the scripting bridge (src/lib.rs, `to_json`).

  A JSON object is serde_json's default `Map`, a B-tree map: its entries are
  kept here as an association list sorted by key, so that both lookups and
  the compact text of an object (which becomes the key of an enclosing
  object when a table is used as a key) are those of the B-tree.
*/
module LuaJson {
  import opened Wrappers
  import Decimal
  import LuaValues

  datatype Json =
    | JNull
    | JBool(b: bool)
    | JInt(i: int)
    | JNumber(text: string)
    | JString(s: string)
    | JArray(items: seq<Json>)
    | JObject(entries: seq<(string, Json)>)

  // ---------------------------------------------------------------------
  // Key order: Rust's `Ord` on `String`, lexicographic by character
  // ---------------------------------------------------------------------

  predicate Less(a: string, b: string) {
    if a == [] then b != []
    else if b == [] then false
    else if a[0] != b[0] then a[0] < b[0]
    else Less(a[1..], b[1..])
  }

  lemma {:induction false} LessIrreflexive(a: string)
    ensures !Less(a, a)
  {
    if a != [] {
      LessIrreflexive(a[1..]);
    }
  }

  lemma {:induction false} LessTransitive(a: string, b: string, c: string)
    requires Less(a, b) && Less(b, c)
    ensures Less(a, c)
  {
    if a != [] && b != [] && c != [] && a[0] == b[0] && b[0] == c[0] {
      LessTransitive(a[1..], b[1..], c[1..]);
    }
  }

  lemma {:induction false} LessTotal(a: string, b: string)
    ensures a == b || Less(a, b) || Less(b, a)
  {
    if a != [] && b != [] && a[0] == b[0] {
      LessTotal(a[1..], b[1..]);
      if a[1..] == b[1..] {
        assert a == [a[0]] + a[1..] && b == [b[0]] + b[1..];
      }
    }
  }

  // ---------------------------------------------------------------------
  // The object map
  // ---------------------------------------------------------------------

  ghost predicate Sorted(m: seq<(string, Json)>) {
    forall i, j :: 0 <= i < j < |m| ==> Less(m[i].0, m[j].0)
  }

  ghost function Keys(m: seq<(string, Json)>): set<string> {
    set i | 0 <= i < |m| :: m[i].0
  }

  /** `map.get(k)` */
  function Get(m: seq<(string, Json)>, k: string): Option<Json> {
    if m == [] then None
    else if m[0].0 == k then Some(m[0].1)
    else Get(m[1..], k)
  }

  lemma KeysCons(e: (string, Json), m: seq<(string, Json)>)
    ensures Keys([e] + m) == {e.0} + Keys(m)
  {
    var r := [e] + m;
    forall x | x in Keys(r) ensures x in {e.0} + Keys(m) {
      var i :| 0 <= i < |r| && r[i].0 == x;
      if i > 0 {
        assert m[i - 1].0 == x;
      }
    }
    forall x | x in Keys(m) ensures x in Keys(r) {
      var i :| 0 <= i < |m| && m[i].0 == x;
      assert r[i + 1].0 == x;
    }
    assert r[0].0 == e.0;
  }

  /** `map.insert(k, v)`: replace the entry for `k`, or add one in key order. */
  function Insert(m: seq<(string, Json)>, k: string, v: Json): seq<(string, Json)> {
    if m == [] then [(k, v)]
    else if m[0].0 == k then [(k, v)] + m[1..]
    else if Less(k, m[0].0) then [(k, v)] + m
    else [m[0]] + Insert(m[1..], k, v)
  }

  /** After an insertion the map has one more key at most, reads `v` under `k` and what it read before under every other key. */
  lemma {:induction false} InsertFacts(m: seq<(string, Json)>, k: string, v: Json)
    ensures Keys(Insert(m, k, v)) == Keys(m) + {k}
    ensures Get(Insert(m, k, v), k) == Some(v)
    ensures forall k' :: k' != k ==> Get(Insert(m, k, v), k') == Get(m, k')
  {
    if m == [] {
      assert Keys([(k, v)]) == {k} by {
        KeysCons((k, v), []);
      }
    } else if m[0].0 == k {
      KeysCons((k, v), m[1..]);
      KeysCons(m[0], m[1..]);
      assert m == [m[0]] + m[1..];
    } else if Less(k, m[0].0) {
      KeysCons((k, v), m);
    } else {
      var rest := Insert(m[1..], k, v);
      InsertFacts(m[1..], k, v);
      KeysCons(m[0], rest);
      KeysCons(m[0], m[1..]);
      assert m == [m[0]] + m[1..];
    }
  }

  /** Inserting into a sorted map keeps it sorted. */
  lemma {:induction false} InsertSorted(m: seq<(string, Json)>, k: string, v: Json)
    requires Sorted(m)
    ensures Sorted(Insert(m, k, v))
  {
    if m == [] {
    } else if m[0].0 == k {
      var r := Insert(m, k, v);
      assert forall i :: 0 <= i < |m| ==> r[i].0 == m[i].0;
    } else if Less(k, m[0].0) {
      forall j | 0 <= j < |m|
        ensures Less(k, m[j].0)
      {
        if j > 0 {
          LessTransitive(k, m[0].0, m[j].0);
        }
      }
      SortedCons((k, v), m);
    } else {
      LessTotal(k, m[0].0);
      var rest := Insert(m[1..], k, v);
      assert Sorted(m[1..]) by {
        assert forall i :: 0 <= i < |m[1..]| ==> m[1..][i] == m[i + 1];
      }
      InsertSorted(m[1..], k, v);
      InsertFacts(m[1..], k, v);
      forall y | y in Keys(rest)
        ensures Less(m[0].0, y)
      {
        if y != k {
          var i :| 0 <= i < |m[1..]| && m[1..][i].0 == y;
          assert m[i + 1] == m[1..][i];
        }
      }
      KeysAbove(m[0].0, rest);
      SortedCons(m[0], rest);
    }
  }

  /** A key below every key of a sorted map can go in front of it. */
  lemma SortedCons(e: (string, Json), m: seq<(string, Json)>)
    requires Sorted(m)
    requires forall j :: 0 <= j < |m| ==> Less(e.0, m[j].0)
    ensures Sorted([e] + m)
  {
    var r := [e] + m;
    forall i, j | 0 <= i < j < |r|
      ensures Less(r[i].0, r[j].0)
    {
      assert r[j] == m[j - 1];
      if i > 0 {
        assert r[i] == m[i - 1];
      }
    }
  }

  /** A key below every key in the set of keys is below every entry's key. */
  lemma KeysAbove(x: string, m: seq<(string, Json)>)
    requires forall y :: y in Keys(m) ==> Less(x, y)
    ensures forall j :: 0 <= j < |m| ==> Less(x, m[j].0)
  {
    forall j | 0 <= j < |m|
      ensures Less(x, m[j].0)
    {
      assert m[j].0 in Keys(m);
    }
  }

  /** A sorted map holds each key once. */
  lemma SortedUnique(m: seq<(string, Json)>, i: nat, j: nat)
    requires Sorted(m)
    requires i < |m| && j < |m| && i != j
    ensures m[i].0 != m[j].0
  {
    if i < j {
      LessIrreflexive(m[i].0);
    } else {
      LessIrreflexive(m[j].0);
    }
  }

  // ---------------------------------------------------------------------
  // Compact JSON text (`v.to_string()` on a JSON value)
  // ---------------------------------------------------------------------

  function HexDigit(n: nat): char
    requires n < 16
  {
    "0123456789abcdef"[n]
  }

  /** serde_json's escape of one character inside a string literal. */
  function EscapeChar(c: char): string {
    if c == '"' then "\\\""
    else if c == '\\' then "\\\\"
    else if c == '\n' then "\\n"
    else if c == '\r' then "\\r"
    else if c == '\t' then "\\t"
    else if c as int == 8 then "\\b"
    else if c as int == 12 then "\\f"
    else if c as int < 0x20 then "\\u00" + [HexDigit(c as int / 16), HexDigit(c as int % 16)]
    else [c]
  }

  function Escape(s: string): string {
    if s == [] then [] else EscapeChar(s[0]) + Escape(s[1..])
  }

  function Quoted(s: string): string {
    "\"" + Escape(s) + "\""
  }

  function JsonText(j: Json): string
    decreases j, 1, 0
  {
    match j
    case JNull => "null"
    case JBool(b) => if b then "true" else "false"
    case JInt(i) => Decimal.IntText(i)
    case JNumber(t) => t
    case JString(s) => Quoted(s)
    case JArray(items) => "[" + ItemsText(j, |items|) + "]"
    case JObject(entries) => "{" + EntriesText(j, |entries|) + "}"
  }

  /** The first `n` items of an array, comma separated. */
  function ItemsText(j: Json, n: nat): string
    requires j.JArray? && n <= |j.items|
    decreases j, 0, n
  {
    if n == 0 then ""
    else
      assert j.items[n - 1] in j.items;
      (if n == 1 then "" else ItemsText(j, n - 1) + ",") + JsonText(j.items[n - 1])
  }

  /** The first `n` entries of an object, as `"key":value`, comma separated. */
  function EntriesText(j: Json, n: nat): string
    requires j.JObject? && n <= |j.entries|
    decreases j, 0, n
  {
    if n == 0 then ""
    else
      assert j.entries[n - 1] in j.entries;
      (if n == 1 then "" else EntriesText(j, n - 1) + ",")
      + Quoted(j.entries[n - 1].0) + ":" + JsonText(j.entries[n - 1].1)
  }

  // ---------------------------------------------------------------------
  // to_json
  // ---------------------------------------------------------------------

  /** The object key for a converted key: a JSON string verbatim, anything else its JSON text. */
  function KeyText(k: Json): string {
    if k.JString? then k.s else JsonText(k)
  }

  /** What `to_json(v)` returns. */
  function JsonOf(v: LuaValues.Value): Json
    decreases v, 0
  {
    match v
    case Nil => JNull
    case Boolean(b) => JBool(b)
    case LightUserData(_) => JString("<LightUserData>")
    case Integer(i) => JInt(i)
    case Number(t) => JNumber(t)
    case UserData(_) => JString("<UserData>")
    case String(s) => JString(s)
    case Function(_) => JString("<Function>")
    case Thread(_) => JString("<Thread>")
    case Error(e) => JString(e)
    case Table(t) => JObject(ObjectOf(t, |t.pairs|))
  }

  /** The map after inserting the first `n` pairs of `t`, in traversal order. */
  function ObjectOf(t: LuaValues.Table, n: nat): seq<(string, Json)>
    requires n <= |t.pairs|
    decreases t, n
  {
    if n == 0 then []
    else
      var p := t.pairs[n - 1];
      assert p in t.pairs;
      Insert(ObjectOf(t, n - 1), KeyText(JsonOf(p.0)), JsonOf(p.1))
  }

  lemma ObjectOfStep(t: LuaValues.Table, n: nat)
    requires 0 < n <= |t.pairs|
    ensures ObjectOf(t, n) == Insert(ObjectOf(t, n - 1), KeyText(JsonOf(t.pairs[n - 1].0)), JsonOf(t.pairs[n - 1].1))
  {
  }

  /** The object is kept sorted by key. */
  lemma ObjectOfSorted(t: LuaValues.Table, n: nat)
    requires n <= |t.pairs|
    ensures Sorted(ObjectOf(t, n))
  {
    ObjectOfFold(t, n);
    FoldSorted(Entries(t, n));
  }

  /** `to_json`: recursive on the value, with a loop inserting the pairs of a table. */
  method ToJson(v: LuaValues.Value) returns (j: Json)
    ensures j == JsonOf(v)
    decreases v
  {
    match v {
      case Nil => j := JNull;
      case Boolean(b) => j := JBool(b);
      case LightUserData(_) => j := JString("<LightUserData>");
      case Integer(i) => j := JInt(i);
      case Number(t) => j := JNumber(t);
      case UserData(_) => j := JString("<UserData>");
      case String(s) => j := JString(s);
      case Function(_) => j := JString("<Function>");
      case Thread(_) => j := JString("<Thread>");
      case Error(e) => j := JString(e);
      case Table(t) =>
        var obj: seq<(string, Json)> := [];
        var i := 0;
        while i < |t.pairs|
          invariant 0 <= i <= |t.pairs|
          invariant obj == ObjectOf(t, i)
        {
          var (k, x) := t.pairs[i];
          assert t.pairs[i] in t.pairs;
          var kj := ToJson(k);
          var key := if kj.JString? then kj.s else JsonText(kj);
          var vj := ToJson(x);
          ObjectOfStep(t, i + 1);
          obj := Insert(obj, key, vj);
          i := i + 1;
        }
        j := JObject(obj);
    }
  }

  // ---------------------------------------------------------------------
  // Properties of to_json
  // ---------------------------------------------------------------------

  /** Scalars map directly; host objects become fixed placeholder strings; an error becomes its message. */
  lemma ScalarCases(v: LuaValues.Value)
    ensures v.Nil? ==> JsonOf(v) == JNull
    ensures v.Boolean? ==> JsonOf(v) == JBool(v.b)
    ensures v.Integer? ==> JsonOf(v) == JInt(v.i)
    ensures v.String? ==> JsonOf(v) == JString(v.s)
    ensures v.Error? ==> JsonOf(v) == JString(v.message)
    ensures v.LightUserData? ==> JsonOf(v) == JString("<LightUserData>")
    ensures v.UserData? ==> JsonOf(v) == JString("<UserData>")
    ensures v.Function? ==> JsonOf(v) == JString("<Function>")
    ensures v.Thread? ==> JsonOf(v) == JString("<Thread>")
  {
  }

  /** A table always becomes an object with sorted, unique keys, and no value ever becomes an array. */
  lemma {:induction false} NeverAnArray(v: LuaValues.Value)
    ensures !JsonOf(v).JArray?
    ensures v.Table? <==> JsonOf(v).JObject?
    ensures JsonOf(v).JObject? ==> Sorted(JsonOf(v).entries)
  {
    if v.Table? {
      ObjectOfSorted(v.t, |v.t.pairs|);
    }
  }

  /** The key text and value each of the first `n` pairs of `t` becomes. */
  ghost function Entries(t: LuaValues.Table, n: nat): (es: seq<(string, Json)>)
    requires n <= |t.pairs|
  {
    seq(n, i requires 0 <= i < n => (KeyText(JsonOf(t.pairs[i].0)), JsonOf(t.pairs[i].1)))
  }

  /** The map after inserting `es` in order into an empty one. */
  function Fold(es: seq<(string, Json)>): seq<(string, Json)>
    decreases |es|
  {
    if es == [] then [] else Insert(Fold(es[..|es| - 1]), es[|es| - 1].0, es[|es| - 1].1)
  }

  /** Ordered insertion into an empty map yields a sorted map. */
  lemma {:induction false} FoldSorted(es: seq<(string, Json)>)
    ensures Sorted(Fold(es))
    decreases |es|
  {
    if es != [] {
      FoldSorted(es[..|es| - 1]);
      InsertSorted(Fold(es[..|es| - 1]), es[|es| - 1].0, es[|es| - 1].1);
    }
  }

  /** The value of the last entry of `es` under `key`. */
  function LastIn(es: seq<(string, Json)>, key: string): Option<Json>
    decreases |es|
  {
    if es == [] then None
    else if es[|es| - 1].0 == key then Some(es[|es| - 1].1)
    else LastIn(es[..|es| - 1], key)
  }

  /** The stored value for `key` after `n` pairs: the value of the LAST of them whose key text is `key`. */
  ghost function LastFor(t: LuaValues.Table, n: nat, key: string): Option<Json>
    requires n <= |t.pairs|
  {
    LastIn(Entries(t, n), key)
  }

  /** Inserting in order keeps, per key, the last value inserted under it. */
  lemma {:induction false} FoldGet(es: seq<(string, Json)>, key: string)
    ensures Get(Fold(es), key) == LastIn(es, key)
    decreases |es|
  {
    if es != [] {
      var pre := es[..|es| - 1];
      FoldGet(pre, key);
      InsertFacts(Fold(pre), es[|es| - 1].0, es[|es| - 1].1);
    }
  }

  /** Some entry is under `key` exactly when `LastIn` finds a value, and that value is an entry's with no later one under `key`. */
  lemma {:induction false} LastInFinds(es: seq<(string, Json)>, key: string)
    ensures LastIn(es, key).Some? <==> exists i :: 0 <= i < |es| && es[i].0 == key
    ensures LastIn(es, key).Some? ==> exists i ::
      && 0 <= i < |es|
      && es[i] == (key, LastIn(es, key).value)
      && forall j :: i < j < |es| ==> es[j].0 != key
    decreases |es|
  {
    if es != [] {
      var pre := es[..|es| - 1];
      LastInFinds(pre, key);
      if es[|es| - 1].0 != key {
        if LastIn(es, key).Some? {
          var i :| 0 <= i < |pre| && pre[i] == (key, LastIn(pre, key).value)
            && forall j :: i < j < |pre| ==> pre[j].0 != key;
          assert es[i] == pre[i];
        }
        if exists i :: 0 <= i < |es| && es[i].0 == key {
          var i :| 0 <= i < |es| && es[i].0 == key;
          assert pre[i].0 == key;
        }
      } else {
        assert es[|es| - 1] == (key, LastIn(es, key).value);
      }
    }
  }

  /** The object after `n` pairs is the ordered insertion of their entries. */
  lemma {:induction false} ObjectOfFold(t: LuaValues.Table, n: nat)
    requires n <= |t.pairs|
    ensures ObjectOf(t, n) == Fold(Entries(t, n))
  {
    if n > 0 {
      ObjectOfFold(t, n - 1);
      assert Entries(t, n)[..n - 1] == Entries(t, n - 1);
    }
  }

  /** There is a value for `key` after `n` pairs exactly when some pair's key has that text. */
  lemma LastForFinds(t: LuaValues.Table, n: nat, key: string)
    requires n <= |t.pairs|
    ensures LastFor(t, n, key).Some? <==> exists i :: 0 <= i < n && KeyText(JsonOf(t.pairs[i].0)) == key
  {
    var es := Entries(t, n);
    LastInFinds(es, key);
    if exists i :: 0 <= i < n && KeyText(JsonOf(t.pairs[i].0)) == key {
      var i :| 0 <= i < n && KeyText(JsonOf(t.pairs[i].0)) == key;
      assert es[i].0 == key;
    }
    if LastFor(t, n, key).Some? {
      var i :| 0 <= i < |es| && es[i].0 == key;
      assert KeyText(JsonOf(t.pairs[i].0)) == key;
    }
  }

  /** A value found for `key` is that of a pair whose key has that text, with no later such pair. */
  lemma LastForIsLast(t: LuaValues.Table, n: nat, key: string)
    requires n <= |t.pairs|
    ensures LastFor(t, n, key).Some? ==> exists i ::
      && 0 <= i < n
      && KeyText(JsonOf(t.pairs[i].0)) == key
      && LastFor(t, n, key).value == JsonOf(t.pairs[i].1)
      && forall j :: i < j < n ==> KeyText(JsonOf(t.pairs[j].0)) != key
  {
    var es := Entries(t, n);
    LastInFinds(es, key);
    if LastFor(t, n, key).Some? {
      var i :| 0 <= i < |es| && es[i] == (key, LastIn(es, key).value) && forall j :: i < j < |es| ==> es[j].0 != key;
      assert forall j :: i < j < n ==> KeyText(JsonOf(t.pairs[j].0)) == es[j].0;
    }
  }

  /** Later pairs overwrite earlier ones whose keys have the same text; nothing else is kept. */
  lemma LaterPairWins(t: LuaValues.Table, n: nat, key: string)
    requires n <= |t.pairs|
    ensures Get(ObjectOf(t, n), key) == LastFor(t, n, key)
  {
    ObjectOfFold(t, n);
    FoldGet(Entries(t, n), key);
  }

  /** A string key is used verbatim; an integer key is its decimal text, which reads back as the integer. */
  lemma KeyTexts(s: string, i: LuaValues.Int64)
    ensures KeyText(JsonOf(LuaValues.String(s))) == s
    ensures KeyText(JsonOf(LuaValues.Integer(i))) == Decimal.IntText(i)
    ensures Decimal.ParseInt(KeyText(JsonOf(LuaValues.Integer(i)))) == i
    ensures KeyText(JsonOf(LuaValues.Boolean(true))) == "true"
  {
    Decimal.ParseIntText(i);
  }

  /** `{[1] = true, ["1"] = false}` becomes `{"1": false}`: integer key 1 is the text "1". */
  lemma IntegerKeyCollides()
    ensures var t := LuaValues.Tbl([(LuaValues.Integer(1), LuaValues.Boolean(true)),
                                    (LuaValues.String("1"), LuaValues.Boolean(false))], None, "table");
            JsonOf(LuaValues.Table(t)) == JObject([("1", JBool(false))])
  {
    assert Decimal.NatText(1) == "1";
  }
}
