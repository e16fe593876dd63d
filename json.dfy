/**
 * A parsed JSON document as Python's `json` module returns it, and the few
 * Python operations the scripts apply to one: truthiness, `dict.get`,
 * `type(...)` and `str(...)`.
 */
module Json {
  import opened Wrappers
  import opened Text

  /**
   * A JSON value. Numbers are integers (Python `int`); objects keep their
   * members as the document lists them, repeated keys included. The
   * dictionary Python builds from them is `Members`.
   */
  datatype Json =
    | JNull
    | JBool(b: bool)
    | JInt(n: int)
    | JStr(s: string)
    | JArr(items: seq<Json>)
    | JObj(fields: seq<(string, Json)>)

  /** Python truthiness: `None`, `False`, `0`, `""`, `[]` and `{}` are false. */
  predicate Truthy(j: Json)
  {
    match j
    case JNull => false
    case JBool(b) => b
    case JInt(n) => n != 0
    case JStr(s) => s != ""
    case JArr(items) => items != []
    case JObj(fields) => fields != []
  }

  /** The value bound to `key`; `json.loads` keeps the last of repeated keys. */
  function Lookup(fields: seq<(string, Json)>, key: string): (r: Option<Json>)
    ensures r.None? <==> forall i :: 0 <= i < |fields| ==> fields[i].0 != key
    ensures r.Some? ==>
      exists i :: 0 <= i < |fields| && fields[i] == (key, r.value) && forall k :: i < k < |fields| ==> fields[k].0 != key
  {
    if fields == [] then None
    else if fields[|fields| - 1].0 == key then Some(fields[|fields| - 1].1)
    else Lookup(fields[..|fields| - 1], key)
  }

  /** `d.get(key, default)` on a dictionary. */
  function Get(fields: seq<(string, Json)>, key: string, default: Json): Json
  {
    match Lookup(fields, key)
    case Some(v) => v
    case None => default
  }

  /** The position of the first member with `key`, or the number of members when none has it. */
  function KeyIndex(fields: seq<(string, Json)>, key: string): (p: nat)
    ensures p <= |fields|
    ensures forall q :: 0 <= q < p ==> fields[q].0 != key
    ensures p < |fields| ==> fields[p].0 == key
  {
    if fields == [] then 0 else if fields[0].0 == key then 0 else 1 + KeyIndex(fields[1..], key)
  }

  /** `d[key] = value`: an existing key keeps its place and takes the new value; a new key goes at the end. */
  function Insert(ms: seq<(string, Json)>, key: string, value: Json): seq<(string, Json)>
  {
    var p := KeyIndex(ms, key);
    if p < |ms| then ms[p := (key, value)] else ms + [(key, value)]
  }

  /** Every entry of `ms` is one of the members. */
  predicate FromMembers(fields: seq<(string, Json)>, ms: seq<(string, Json)>)
  {
    forall i :: 0 <= i < |ms| ==> ms[i] in fields
  }

  /** No key appears twice. */
  predicate DistinctKeys(ms: seq<(string, Json)>)
  {
    forall i, k :: 0 <= i < k < |ms| ==> ms[i].0 != ms[k].0
  }

  /** Each key holds the value of its last member. */
  predicate LastValues(fields: seq<(string, Json)>, ms: seq<(string, Json)>)
  {
    forall i :: 0 <= i < |ms| ==> Lookup(fields, ms[i].0) == Some(ms[i].1)
  }

  /** Every key of the members is there. */
  predicate AllKeys(fields: seq<(string, Json)>, ms: seq<(string, Json)>)
  {
    forall i :: 0 <= i < |fields| ==> KeyIndex(ms, fields[i].0) < |ms|
  }

  /** The keys come in the order in which they first appear among the members. */
  predicate FirstOrder(fields: seq<(string, Json)>, ms: seq<(string, Json)>)
  {
    forall i, m :: 0 <= i < m < |ms| ==> KeyIndex(fields, ms[i].0) < KeyIndex(fields, ms[m].0)
  }

  /**
   * `ms` is the dictionary `json.loads` builds from the members `fields`:
   * every entry comes from a member, no key is repeated, each key holds its
   * last value, every key of the members is there, and the keys keep the
   * order of their first appearance.
   */
  predicate DictOf(fields: seq<(string, Json)>, ms: seq<(string, Json)>)
  {
    FromMembers(fields, ms) && DistinctKeys(ms) && LastValues(fields, ms) && AllKeys(fields, ms) &&
    FirstOrder(fields, ms)
  }

  lemma LookupSnoc(f: seq<(string, Json)>, k: string, v: Json, key: string)
    ensures Lookup(f + [(k, v)], key) == if key == k then Some(v) else Lookup(f, key)
  {
    assert (f + [(k, v)])[..|f|] == f;
  }

  lemma KeyIndexAt(ms: seq<(string, Json)>, key: string, m: nat)
    requires m < |ms| && ms[m].0 == key
    ensures KeyIndex(ms, key) <= m
  {
  }

  lemma KeyIndexIn(f: seq<(string, Json)>, x: (string, Json))
    requires x in f
    ensures KeyIndex(f, x.0) < |f|
  {
    var m :| 0 <= m < |f| && f[m] == x;
    KeyIndexAt(f, x.0, m);
  }

  /** A member added at the end does not move the first appearance of a key already there. */
  lemma KeyIndexSnoc(f: seq<(string, Json)>, x: (string, Json), key: string)
    ensures KeyIndex(f + [x], key) ==
      if KeyIndex(f, key) < |f| then KeyIndex(f, key) else if x.0 == key then |f| else |f| + 1
  {
    if f != [] {
      assert (f + [x])[1..] == f[1..] + [x];
      KeyIndexSnoc(f[1..], x, key);
    }
  }

  lemma ReplaceOrder(f: seq<(string, Json)>, acc: seq<(string, Json)>, p: nat, k: string, v: Json)
    requires FromMembers(f, acc) && FirstOrder(f, acc) && p < |acc| && acc[p].0 == k
    ensures FirstOrder(f + [(k, v)], acc[p := (k, v)])
  {
    var r := acc[p := (k, v)];
    forall i | 0 <= i < |r| ensures r[i].0 == acc[i].0 && KeyIndex(f + [(k, v)], r[i].0) == KeyIndex(f, acc[i].0) {
      KeyIndexIn(f, acc[i]);
      KeyIndexSnoc(f, (k, v), acc[i].0);
    }
  }

  /** A key missing from the dictionary is no key of the members. */
  lemma KeyAbsent(f: seq<(string, Json)>, acc: seq<(string, Json)>, k: string)
    requires AllKeys(f, acc) && forall q :: 0 <= q < |acc| ==> acc[q].0 != k
    ensures KeyIndex(f, k) == |f|
  {
    forall i | 0 <= i < |f| ensures f[i].0 != k {
      var m := KeyIndex(acc, f[i].0);
      assert acc[m].0 == f[i].0;
    }
  }

  lemma AppendOrder(f: seq<(string, Json)>, acc: seq<(string, Json)>, k: string, v: Json)
    requires FromMembers(f, acc) && FirstOrder(f, acc) && AllKeys(f, acc)
    requires forall q :: 0 <= q < |acc| ==> acc[q].0 != k
    ensures FirstOrder(f + [(k, v)], acc + [(k, v)])
  {
    var r := acc + [(k, v)];
    var F := f + [(k, v)];
    KeyAbsent(f, acc, k);
    KeyIndexSnoc(f, (k, v), k);
    forall i | 0 <= i < |acc| ensures KeyIndex(F, r[i].0) == KeyIndex(f, acc[i].0) < |f| {
      assert r[i] == acc[i];
      KeyIndexIn(f, acc[i]);
      KeyIndexSnoc(f, (k, v), acc[i].0);
    }
  }

  lemma FromMembersSnoc(f: seq<(string, Json)>, k: string, v: Json, acc: seq<(string, Json)>)
    requires FromMembers(f, acc)
    ensures FromMembers(f + [(k, v)], Insert(acc, k, v))
  {
    var F := f + [(k, v)];
    var r := Insert(acc, k, v);
    assert F[|f|] == (k, v);
    forall i | 0 <= i < |r| ensures r[i] in F {
      if r[i] != (k, v) {
        assert r[i] == acc[i] && acc[i] in f;
      }
    }
  }

  lemma ReplaceDistinct(acc: seq<(string, Json)>, p: nat, k: string, v: Json)
    requires DistinctKeys(acc) && p < |acc| && acc[p].0 == k
    ensures DistinctKeys(acc[p := (k, v)])
  {
    var r := acc[p := (k, v)];
    assert forall i :: 0 <= i < |r| ==> r[i].0 == acc[i].0;
  }

  lemma ReplaceLast(f: seq<(string, Json)>, acc: seq<(string, Json)>, p: nat, k: string, v: Json)
    requires DistinctKeys(acc) && LastValues(f, acc) && p < |acc| && acc[p].0 == k
    ensures LastValues(f + [(k, v)], acc[p := (k, v)])
  {
    var r := acc[p := (k, v)];
    forall i | 0 <= i < |r| ensures Lookup(f + [(k, v)], r[i].0) == Some(r[i].1) {
      LookupSnoc(f, k, v, r[i].0);
      if i != p {
        assert r[i] == acc[i] && acc[i].0 != k;
      }
    }
  }

  lemma ReplaceKeys(f: seq<(string, Json)>, acc: seq<(string, Json)>, p: nat, k: string, v: Json)
    requires AllKeys(f, acc) && p < |acc| && acc[p].0 == k
    ensures AllKeys(f + [(k, v)], acc[p := (k, v)])
  {
    var F := f + [(k, v)];
    var r := acc[p := (k, v)];
    forall i | 0 <= i < |F| ensures KeyIndex(r, F[i].0) < |r| {
      if i < |f| {
        assert F[i] == f[i];
        var m := KeyIndex(acc, f[i].0);
        assert r[m].0 == acc[m].0;
        KeyIndexAt(r, f[i].0, m);
      } else {
        KeyIndexAt(r, k, p);
      }
    }
  }

  lemma AppendDistinct(acc: seq<(string, Json)>, k: string, v: Json)
    requires DistinctKeys(acc) && forall q :: 0 <= q < |acc| ==> acc[q].0 != k
    ensures DistinctKeys(acc + [(k, v)])
  {
  }

  lemma AppendLast(f: seq<(string, Json)>, acc: seq<(string, Json)>, k: string, v: Json)
    requires LastValues(f, acc) && forall q :: 0 <= q < |acc| ==> acc[q].0 != k
    ensures LastValues(f + [(k, v)], acc + [(k, v)])
  {
    var r := acc + [(k, v)];
    forall i | 0 <= i < |r| ensures Lookup(f + [(k, v)], r[i].0) == Some(r[i].1) {
      LookupSnoc(f, k, v, r[i].0);
    }
  }

  lemma AppendKeys(f: seq<(string, Json)>, acc: seq<(string, Json)>, k: string, v: Json)
    requires AllKeys(f, acc)
    ensures AllKeys(f + [(k, v)], acc + [(k, v)])
  {
    var F := f + [(k, v)];
    var r := acc + [(k, v)];
    forall i | 0 <= i < |F| ensures KeyIndex(r, F[i].0) < |r| {
      if i < |f| {
        assert F[i] == f[i];
        var m := KeyIndex(acc, f[i].0);
        assert r[m] == acc[m];
        KeyIndexAt(r, f[i].0, m);
      } else {
        KeyIndexAt(r, k, |acc|);
      }
    }
  }

  lemma InsertStep(f: seq<(string, Json)>, k: string, v: Json, acc: seq<(string, Json)>)
    requires DictOf(f, acc)
    ensures DictOf(f + [(k, v)], Insert(acc, k, v))
  {
    FromMembersSnoc(f, k, v, acc);
    var p := KeyIndex(acc, k);
    if p < |acc| {
      ReplaceDistinct(acc, p, k, v);
      ReplaceLast(f, acc, p, k, v);
      ReplaceKeys(f, acc, p, k, v);
      ReplaceOrder(f, acc, p, k, v);
    } else {
      AppendDistinct(acc, k, v);
      AppendLast(f, acc, k, v);
      AppendKeys(f, acc, k, v);
      AppendOrder(f, acc, k, v);
    }
  }

  /** The dictionary `json.loads` builds from an object's members, adding them one by one. */
  function Members(fields: seq<(string, Json)>): seq<(string, Json)>
  {
    if fields == [] then []
    else
      var n := |fields| - 1;
      Insert(Members(fields[..n]), fields[n].0, fields[n].1)
  }

  /** That dictionary has one entry per key, where the key first appears, holding its last value. */
  lemma {:induction false} MembersDict(fields: seq<(string, Json)>)
    ensures DictOf(fields, Members(fields))
  {
    if fields != [] {
      var n := |fields| - 1;
      MembersDict(fields[..n]);
      assert fields == fields[..n] + [(fields[n].0, fields[n].1)];
      InsertStep(fields[..n], fields[n].0, fields[n].1, Members(fields[..n]));
    }
  }

  lemma InsertNew(ms: seq<(string, Json)>, k: string, v: Json)
    requires forall q :: 0 <= q < |ms| ==> ms[q].0 != k
    ensures Insert(ms, k, v) == ms + [(k, v)]
  {
  }

  /** An object without repeated keys is its own dictionary. */
  lemma {:induction false} MembersOfDistinct(fields: seq<(string, Json)>)
    requires DistinctKeys(fields)
    ensures Members(fields) == fields
  {
    if fields != [] {
      var n := |fields| - 1;
      var f := fields[..n];
      var x := fields[n];
      assert DistinctKeys(f);
      MembersOfDistinct(f);
      assert forall q :: 0 <= q < |f| ==> f[q].0 != x.0;
      InsertNew(f, x.0, x.1);
      calc {
        Members(fields);
        Insert(Members(f), x.0, x.1);
        Insert(f, x.0, x.1);
        f + [(x.0, x.1)];
        fields;
      }
    }
  }

  /** The Python type name of a value: what `type(v)` prints between quotes. */
  function TypeName(j: Json): string
  {
    match j
    case JNull => "NoneType"
    case JBool(_) => "bool"
    case JInt(_) => "int"
    case JStr(_) => "str"
    case JArr(_) => "list"
    case JObj(_) => "dict"
  }

  /** The message of the `AttributeError` raised by calling `.get` on a value that is not a dictionary. */
  function NoGetMessage(j: Json): string
  {
    "'" + TypeName(j) + "' object has no attribute 'get'"
  }

  /** `str(v)`, as an f-string renders a value. */
  function Str(j: Json): string
  {
    match j
    case JStr(s) => s
    case _ => Repr(j)
  }

  /**
   * `repr(v)`. A dictionary shows one entry per key, as `Members` gives
   * them. Strings are shown between single quotes; Python's escaping of
   * quotes, backslashes and unprintable characters is not reproduced.
   */
  function Repr(j: Json): string
  {
    match j
    case JNull => "None"
    case JBool(b) => if b then "True" else "False"
    case JInt(n) => Decimal(n)
    case JStr(s) => "'" + s + "'"
    case JArr(items) => "[" + Join(seq(|items|, i requires 0 <= i < |items| => Repr(items[i]))) + "]"
    case JObj(fields) =>
      MembersDict(fields);
      var ms := Members(fields);
      "{" + Join(seq(|ms|, i requires 0 <= i < |ms| => "'" + ms[i].0 + "': " + Repr(ms[i].1))) + "}"
  }

  /** `{"a": 1, "a": 2}` is the dictionary `{'a': 2}`. */
  lemma RepeatedKey()
    ensures Repr(JObj([("a", JInt(1)), ("a", JInt(2))])) == "{'a': 2}"
  {
    assert [("a", JInt(1)), ("a", JInt(2))][..1] == [("a", JInt(1))];
    assert Members([("a", JInt(1)), ("a", JInt(2))]) == [("a", JInt(2))];
    assert Decimal(2) == "2";
  }

  /** `", ".join(parts)`. */
  function Join(parts: seq<string>): string
  {
    if parts == [] then ""
    else if |parts| == 1 then parts[0]
    else parts[0] + ", " + Join(parts[1..])
  }
}
