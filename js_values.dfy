/**
 * JSON values as the handler and the page see them at run time, with the two
 * JavaScript rules both files lean on: reading a property (plain `.`, and the
 * optional chain `?.`) and truthiness (`!x`).
 */
module JsValues {
  import opened Wrappers

  /**
   * A value produced by `JSON.parse`. Objects keep their members in order.
   * `JSON.parse` never yields an object with a repeated key, so the parse
   * oracle is expected to return objects whose keys are distinct; `Lookup`
   * still reads the last occurrence, as `JSON.parse` would keep it.
   */
  datatype Json =
    | JNull
    | JBool(b: bool)
    | JNum(n: real)
    | JStr(s: string)
    | JArr(items: seq<Json>)
    | JObj(fields: seq<(string, Json)>)

  /** The value of member `key`; when a key repeats, the last occurrence wins, as in `JSON.parse`. */
  function Lookup(fields: seq<(string, Json)>, key: string): (r: Option<Json>)
    ensures r.Some? <==> exists i :: 0 <= i < |fields| && fields[i].0 == key
    ensures r.Some? ==> exists i :: 0 <= i < |fields| && fields[i] == (key, r.value) &&
                                    forall j :: i < j < |fields| ==> fields[j].0 != key
    decreases |fields|
  {
    if |fields| == 0 then None
    else if fields[|fields| - 1].0 == key then Some(fields[|fields| - 1].1)
    else Lookup(fields[..|fields| - 1], key)
  }

  /**
   * `v.key` on a value that is not null or undefined (reading through null
   * throws a TypeError, which callers handle before calling this). Only objects
   * have named properties here; on any other JSON value the read is `undefined`.
   */
  function Get(v: Json, key: string): (r: Option<Json>)
    ensures r.Some? <==> v.JObj? && exists i :: 0 <= i < |v.fields| && v.fields[i].0 == key
  {
    if v.JObj? then Lookup(v.fields, key) else None
  }

  /** `v[0]` on a value that is not null or undefined. */
  function First(v: Json): (r: Option<Json>)
    requires !v.JNull?
    ensures v.JArr? ==> (r.Some? <==> |v.items| > 0) && (r.Some? ==> r.value == v.items[0])
    ensures v.JStr? ==> (r.Some? <==> |v.s| > 0) && (r.Some? ==> r.value.JStr? && r.value.s == v.s[..1])
    ensures v.JBool? || v.JNum? ==> r.None?
  {
    match v
    case JArr(items) => if |items| > 0 then Some(items[0]) else None
    case JObj(fields) => Lookup(fields, "0")
    case JStr(s) => if |s| > 0 then Some(JStr([s[0]])) else None
    case _ => None
  }

  /** True when `v` is null or undefined, the values at which `?.` stops. */
  predicate Nullish(v: Option<Json>)
  {
    v.None? || v.value.JNull?
  }

  /** `v?.key` */
  function ChainGet(v: Option<Json>, key: string): (r: Option<Json>)
    ensures Nullish(v) ==> r.None?
    ensures r.Some? ==> v.Some? && v.value.JObj?
  {
    if Nullish(v) then None else Get(v.value, key)
  }

  /** `v?.[0]` */
  function ChainFirst(v: Option<Json>): (r: Option<Json>)
    ensures Nullish(v) ==> r.None?
    ensures r.Some? ==> v.Some? && (v.value.JArr? || v.value.JObj? || v.value.JStr?)
  {
    if Nullish(v) then None else First(v.value)
  }

  /** `!v`: undefined, null, false, the number zero and the empty string are falsy; everything else is truthy. */
  predicate Falsy(v: Option<Json>)
    ensures Nullish(v) ==> Falsy(v)
    ensures v.Some? && (v.value.JArr? || v.value.JObj?) ==> !Falsy(v)
    ensures v.Some? && v.value.JStr? ==> (Falsy(v) <==> v.value.s == [])
  {
    match v
    case None => true
    case Some(JNull) => true
    case Some(JBool(b)) => !b
    case Some(JNum(n)) => n == 0.0
    case Some(JStr(s)) => s == []
    case Some(_) => false
  }
}
