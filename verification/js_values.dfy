/**
 * Values the reading app receives from outside: optional values, answers of the
 * hosted database, and parsed JSON (chapter metadata), with JavaScript truthiness.
 */
module JsValues {

  /** A value that may be absent (`null` or `undefined` in the app). */
  datatype Option<T> = None | Some(value: T)

  /** What a hosted-database query hands back: its error object, or the data it returned. */
  datatype Answer<T> = Failed | Data(data: T)

  /**
   * A parsed JSON value. Numbers are integers here; an object keeps its
   * entries in `Object.keys` order.
   */
  datatype Json =
    | JNull
    | JBool(b: bool)
    | JNum(n: int)
    | JStr(s: string)
    | JArr(items: seq<Json>)
    | JObj(entries: seq<(string, Json)>)

  /** JavaScript truthiness: `null`, `false`, `0` and `""` are falsy, everything else is truthy. */
  predicate Truthy(j: Json) {
    match j
    case JNull => false
    case JBool(b) => b
    case JNum(n) => n != 0
    case JStr(s) => s != ""
    case JArr(_) => true
    case JObj(_) => true
  }

  /** `obj[key]` on an object with the given entries: the value of the first entry with that key. */
  function Get(entries: seq<(string, Json)>, key: string): (r: Option<Json>)
    ensures r.None? <==> forall i :: 0 <= i < |entries| ==> entries[i].0 != key
    ensures r.Some? ==> exists i :: 0 <= i < |entries| && entries[i] == (key, r.value)
  {
    if entries == [] then None
    else if entries[0].0 == key then Some(entries[0].1)
    else
      var r := Get(entries[1..], key);
      assert forall i :: 1 <= i < |entries| ==> entries[i] == entries[1..][i - 1];
      r
  }

  /** `Object.keys` of an object with the given entries. */
  function Keys(entries: seq<(string, Json)>): (ks: seq<string>)
    ensures |ks| == |entries|
    ensures forall i :: 0 <= i < |entries| ==> ks[i] == entries[i].0
  {
    seq(|entries|, i requires 0 <= i < |entries| => entries[i].0)
  }

  /** `obj[key]` read as a value: a missing key reads as `undefined`, modelled as `JNull` (both falsy). */
  function Value(entries: seq<(string, Json)>, key: string): Json {
    match Get(entries, key)
    case Some(v) => v
    case None => JNull
  }
}
