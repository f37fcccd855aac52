/**
 * Parsed JSON values as the Python code sees them after `json.loads`: an
 * object is its key/value pairs in document order (Python dicts keep
 * insertion order), and the operations are the dict and truthiness rules the
 * handlers use.
 */
module Json {
  import opened Wrappers
  import Text

  datatype Json =
    | JNull
    | JBool(b: bool)
    | JInt(i: int)
    | JReal(r: real)
    | JStr(s: string)
    | JArr(items: seq<Json>)
    | JObj(fields: seq<(string, Json)>)

  /** The keys of an object, in order. */
  function Keys(fields: seq<(string, Json)>): (ks: seq<string>)
    ensures |ks| == |fields|
    ensures forall i :: 0 <= i < |fields| ==> ks[i] == fields[i].0
  {
    seq(|fields|, i requires 0 <= i < |fields| => fields[i].0)
  }

  /**
   * The value bound to `key`; with a repeated key the last binding wins,
   * as `json.loads` keeps the last one.
   */
  function Lookup(fields: seq<(string, Json)>, key: string): Option<Json>
  {
    if fields == [] then None
    else match Lookup(fields[1..], key)
      case Some(v) => Some(v)
      case None => if fields[0].0 == key then Some(fields[0].1) else None
  }

  /** A key is found exactly when it is present, and it is found with a value bound to it. */
  lemma {:induction false} LookupSpec(fields: seq<(string, Json)>, key: string)
    ensures Lookup(fields, key).None? <==> key !in Keys(fields)
    ensures Lookup(fields, key).Some? ==> (key, Lookup(fields, key).value) in fields
  {
    if fields != [] {
      LookupSpec(fields[1..], key);
      assert Keys(fields) == [fields[0].0] + Keys(fields[1..]);
    }
  }

  lemma LookupFirst(k: string, v: Json, rest: seq<(string, Json)>)
    requires k !in Keys(rest)
    ensures Lookup([(k, v)] + rest, k) == Some(v)
  {
    LookupSpec(rest, k);
    assert ([(k, v)] + rest)[1..] == rest;
  }

  predicate DistinctKeys(fields: seq<(string, Json)>) {
    forall i, j :: 0 <= i < j < |fields| ==> fields[i].0 != fields[j].0
  }

  /** In an object whose later keys all differ from `fields[i].0`, that key finds its own value. */
  lemma {:induction false} LookupLast(fields: seq<(string, Json)>, i: nat)
    requires i < |fields|
    requires forall j :: i < j < |fields| ==> fields[j].0 != fields[i].0
    ensures Lookup(fields, fields[i].0) == Some(fields[i].1)
  {
    var rest := fields[1..];
    if i == 0 {
      LookupSpec(rest, fields[0].0);
      assert fields[0].0 !in Keys(rest) by {
        forall j | 0 <= j < |rest| ensures rest[j].0 != fields[0].0 {
          assert rest[j] == fields[j + 1];
        }
      }
    } else {
      forall j | i - 1 < j < |rest| ensures rest[j].0 != rest[i - 1].0 {
        assert rest[j] == fields[j + 1];
      }
      LookupLast(rest, i - 1);
      assert rest[i - 1] == fields[i];
    }
  }

  /** In an object without repeated keys every key finds its own value. */
  lemma LookupDistinct(fields: seq<(string, Json)>)
    requires DistinctKeys(fields)
    ensures forall i :: 0 <= i < |fields| ==> Lookup(fields, fields[i].0) == Some(fields[i].1)
  {
    forall i | 0 <= i < |fields| ensures Lookup(fields, fields[i].0) == Some(fields[i].1) {
      LookupLast(fields, i);
    }
  }

  /** `key in obj` for an object. */
  predicate HasKey(j: Json, key: string)
    requires j.JObj?
  {
    key in Keys(j.fields)
  }

  /** `obj.get(key, default)`. */
  function Get(j: Json, key: string, default: Json): (r: Json)
    requires j.JObj?
    ensures HasKey(j, key) ==> Some(r) == Lookup(j.fields, key)
    ensures !HasKey(j, key) ==> r == default
  {
    LookupSpec(j.fields, key);
    Lookup(j.fields, key).GetOr(default)
  }

  /** Python's `container[key]` for a string key: a dict lookup; KeyError or TypeError is None. */
  function Subscript(container: Json, key: string): Option<Json> {
    if container.JObj? then Lookup(container.fields, key) else None
  }

  /** Python's truthiness of a JSON value (`if x:`). */
  predicate Truthy(j: Json) {
    match j
    case JNull => false
    case JBool(b) => b
    case JInt(i) => i != 0
    case JReal(r) => r != 0.0
    case JStr(s) => s != []
    case JArr(items) => items != []
    case JObj(fields) => fields != []
  }

  /**
   * Python's `item in container` for a string `item`: a substring test on a
   * string, an element test on a list, a key test on a dict, and a
   * `TypeError` (None) on anything else.
   */
  function PyIn(item: string, container: Json): (r: Option<bool>)
    ensures r.None? <==> !(container.JStr? || container.JArr? || container.JObj?)
  {
    match container
    case JStr(s) => Some(Text.Contains(item, s))
    case JArr(items) => Some(JStr(item) in items)
    case JObj(fields) => Some(item in Keys(fields))
    case _ => None
  }

  /**
   * The keys of a dict built from `ks` by successive insertion: each key once,
   * where it was first inserted (a repeated key only rebinds its value).
   */
  function Dedup(ks: seq<string>): (r: seq<string>)
    ensures forall x :: x in r <==> x in ks
    ensures forall i, j :: 0 <= i < j < |r| ==> r[i] != r[j]
  {
    if ks == [] then []
    else
      var prefix := Dedup(ks[..|ks| - 1]);
      assert ks == ks[..|ks| - 1] + [ks[|ks| - 1]];
      if ks[|ks| - 1] in prefix then prefix else prefix + [ks[|ks| - 1]]
  }

  /** Keys that are already distinct are kept as they are, in order. */
  lemma {:induction false} DedupDistinct(ks: seq<string>)
    requires forall i, j :: 0 <= i < j < |ks| ==> ks[i] != ks[j]
    ensures Dedup(ks) == ks
  {
    if ks != [] {
      var init := ks[..|ks| - 1];
      DedupDistinct(init);
      assert ks[|ks| - 1] !in init;
      assert ks == init + [ks[|ks| - 1]];
    }
  }

  /** The keys `ks` as the strings a loop over the dict sees. */
  function KeyItems(ks: seq<string>): (r: seq<Json>)
    ensures |r| == |ks|
    ensures forall i :: 0 <= i < |ks| ==> r[i] == JStr(ks[i])
    ensures forall x :: x in r <==> x.JStr? && x.s in ks
  {
    var r := seq(|ks|, i requires 0 <= i < |ks| => JStr(ks[i]));
    assert forall x: Json :: x.JStr? && x.s in ks ==> x in r by {
      forall x: Json | x.JStr? && x.s in ks ensures x in r {
        var i :| 0 <= i < |ks| && ks[i] == x.s;
        assert r[i] == x;
      }
    }
    r
  }

  /**
   * Iterating a JSON value with `for x in v`: a list gives its items, a dict
   * its keys (each once, in insertion order) and a string its characters;
   * anything else is a `TypeError`.
   */
  function Iter(v: Json): (r: Option<seq<Json>>)
    ensures v.JArr? ==> r == Some(v.items)
    ensures v.JObj? ==> r.Some? && forall x :: x in r.value <==> x.JStr? && x.s in Keys(v.fields)
    ensures v.JObj? ==> forall i, j :: 0 <= i < j < |r.value| ==> r.value[i] != r.value[j]
    ensures r.None? <==> !(v.JArr? || v.JObj? || v.JStr?)
  {
    match v
    case JArr(items) => Some(items)
    case JObj(fields) => Some(KeyItems(Dedup(Keys(fields))))
    case JStr(s) => Some(seq(|s|, i requires 0 <= i < |s| => JStr([s[i]])))
    case _ => None
  }

  /** A dict without repeated keys iterates its keys in document order. */
  lemma IterDistinct(fields: seq<(string, Json)>)
    requires DistinctKeys(fields)
    ensures Iter(JObj(fields)) == Some(seq(|fields|, i requires 0 <= i < |fields| => JStr(fields[i].0)))
  {
    DedupDistinct(Keys(fields));
    var r := KeyItems(Keys(fields));
    assert Iter(JObj(fields)) == Some(r);
    var want := seq(|fields|, i requires 0 <= i < |fields| => JStr(fields[i].0));
    assert forall i :: 0 <= i < |fields| ==> r[i] == want[i];
    assert r == want;
  }

  /** Python's `str(v)`; the text of a float, list or dict is the parameter `repr`. */
  function PyStr(v: Json, repr: Json -> string): (r: string)
    ensures v.JStr? ==> r == v.s
    ensures v.JInt? ==> r == Text.IntToString(v.i)
  {
    match v
    case JNull => "None"
    case JBool(b) => if b then "True" else "False"
    case JInt(i) => Text.IntToString(i)
    case JStr(s) => s
    case _ => repr(v)
  }

  /** The empty object `{}`. */
  const Empty: Json := JObj([])

  /** An object literal with string values. */
  function StrField(key: string, value: string): (string, Json) {
    (key, JStr(value))
  }
}
