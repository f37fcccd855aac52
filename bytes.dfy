/**
 * Octet strings and their JSON form on the data channel: a byte string is
 * sent as the list of its octet values (`list(chunk)`) and rebuilt with
 * Python's `bytes(...)` constructor.
 */
module Bytes {
  import opened Wrappers
  import opened Json

  /** One octet. */
  type Byte = x: int | 0 <= x < 256

  /** `list(b)` as a JSON array of integers. */
  function ToJson(b: seq<Byte>): (j: Json)
    ensures j.JArr? && |j.items| == |b|
    ensures forall i :: 0 <= i < |b| ==> j.items[i] == JInt(b[i])
  {
    JArr(seq(|b|, i requires 0 <= i < |b| => JInt(b[i])))
  }

  /** The octet an element of `bytes(list)` contributes: an int in range, or a bool as 0/1. */
  function ItemByte(j: Json): Option<Byte> {
    match j
    case JInt(n) => if 0 <= n < 256 then Some(n) else None
    case JBool(b) => Some(if b then 1 else 0)
    case _ => None
  }

  /**
   * Python's `bytes(x)` for a parsed JSON value: a list of octet values gives
   * those octets, a non-negative int `n` gives `n` zero octets, a bool counts
   * as 0 or 1, an empty dict gives no octets; anything else raises (None).
   */
  function PyBytes(j: Json): (r: Option<seq<Byte>>)
    ensures j.JArr? ==> (r.Some? <==> forall i :: 0 <= i < |j.items| ==> ItemByte(j.items[i]).Some?)
    ensures j.JArr? && r.Some? ==>
      |r.value| == |j.items| && forall i :: 0 <= i < |j.items| ==> Some(r.value[i]) == ItemByte(j.items[i])
  {
    match j
    case JArr(items) =>
      if forall i :: 0 <= i < |items| ==> ItemByte(items[i]).Some? then
        Some(seq(|items|, i requires 0 <= i < |items| => ItemByte(items[i]).value))
      else None
    case JInt(n) => if n >= 0 then Some(seq(n, _ => 0)) else None
    case JBool(b) => Some(if b then [0] else [])
    case JObj(fields) => if fields == [] then Some([]) else None
    case _ => None
  }

  /** `bytes(list(b)) == b`: an echoed chunk carries back exactly the stored octets. */
  lemma BytesOfList(b: seq<Byte>)
    ensures PyBytes(ToJson(b)) == Some(b)
  {
    var j := ToJson(b);
    assert forall i :: 0 <= i < |b| ==> ItemByte(j.items[i]) == Some(b[i]);
    var r := PyBytes(j);
    assert r.Some?;
    assert |r.value| == |b|;
    assert forall i :: 0 <= i < |b| ==> r.value[i] == b[i];
    assert r.value == b;
  }
}
