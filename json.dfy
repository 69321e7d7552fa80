/**
 * Already-parsed JSON documents, as the index file holds them.
 * Only what Python does with a decoded value matters here: its truthiness
 * (`json.loads(...) or []`), whether it can go into a `set`, and what a
 * `for` loop over it yields.
 */
module Json {
  import opened Wrappers
  import opened Errors

  datatype JsonValue =
    | JNull
    | JBool(b: bool)
    | JNum(n: int)
    | JStr(s: string)
    | JArr(items: seq<JsonValue>)
    | JObj(members: seq<(string, JsonValue)>)

  /** Python truthiness: `null`, `false`, `0`, `""`, `[]` and `{}` are falsy. */
  predicate Falsy(v: JsonValue) {
    match v
    case JNull => true
    case JBool(b) => !b
    case JNum(n) => n == 0
    case JStr(s) => s == ""
    case JArr(a) => a == []
    case JObj(m) => m == []
  }

  /**
   * The value Python's `==` and `hash` identify `v` with: `True` is `1` and
   * `False` is `0`, so a `set` keeps only one of each pair.
   */
  function PyKey(v: JsonValue): JsonValue {
    if v.JBool? then JNum(if v.b then 1 else 0) else v
  }

  /** Decoded lists and dicts are unhashable: `set(...)` over them raises TypeError. */
  predicate Hashable(v: JsonValue) {
    !v.JArr? && !v.JObj?
  }

  /** The keys of a JSON object, in document order. */
  function Keys(members: seq<(string, JsonValue)>): (r: seq<JsonValue>)
    ensures |r| == |members|
    ensures forall i :: 0 <= i < |r| ==> r[i] == JStr(members[i].0)
  {
    if members == [] then [] else [JStr(members[0].0)] + Keys(members[1..])
  }

  /** The one-character strings of `s`, in order. */
  function Chars(s: string): (r: seq<JsonValue>)
    ensures |r| == |s|
    ensures forall i :: 0 <= i < |r| ==> r[i] == JStr([s[i]])
  {
    if s == [] then [] else [JStr([s[0]])] + Chars(s[1..])
  }

  /**
   * What `for x in v` yields: the items of a list, the keys of a dict, the
   * characters of a string; null, booleans and numbers are not iterable
   * (TypeError).
   */
  function Iterate(v: JsonValue): (r: Result<seq<JsonValue>, PyError>)
    ensures v.JArr? ==> r == Ok(v.items)
    ensures v.JObj? ==> r == Ok(Keys(v.members))
    ensures v.JStr? ==> r == Ok(Chars(v.s))
    ensures r.Err? <==> (v.JNull? || v.JBool? || v.JNum?)
    ensures r.Err? ==> r.error == TypeError
  {
    match v
    case JArr(items) => Ok(items)
    case JObj(members) => Ok(Keys(members))
    case JStr(s) => Ok(Chars(s))
    case _ => Err(TypeError)
  }
}
