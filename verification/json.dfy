/**
 * Decoded JSON values, and how the two front ends read them: Python's
 * truth test and `dict.get`, JavaScript's `ToBoolean` and property access,
 * and the text each language renders a value as inside a format string.
 * Numbers are integers only.
 */
module Json {
  import opened Optional
  import opened Strings

  datatype Json =
    | JNull
    | JBool(b: bool)
    | JNum(n: int)
    | JStr(s: string)
    | JArr(items: seq<Json>)
    | JObj(fields: map<string, Json>)

  /** Python's `bool(v)`: None, False, 0, "" and empty lists and dicts are false. */
  predicate PyTruthy(j: Json) {
    match j
    case JNull => false
    case JBool(b) => b
    case JNum(n) => n != 0
    case JStr(s) => s != ""
    case JArr(items) => items != []
    case JObj(fields) => fields != map[]
  }

  /** JavaScript's `ToBoolean`: null, false, 0 and "" are false; every array and object is true. */
  predicate JsTruthy(j: Json) {
    match j
    case JNull => false
    case JBool(b) => b
    case JNum(n) => n != 0
    case JStr(s) => s != ""
    case JArr(_) => true
    case JObj(_) => true
  }

  /** The two truth tests differ only on empty lists and empty dicts. */
  lemma TruthinessAgreesExceptEmptyContainers(j: Json)
    ensures PyTruthy(j) != JsTruthy(j) <==> j == JArr([]) || j == JObj(map[])
  {
  }

  /** Python's `d.get(key)` on a dict: the value stored under `key`, if any. */
  function Get(fields: map<string, Json>, key: string): (v: Option<Json>)
    ensures v.Some? <==> key in fields
    ensures v.Some? ==> v.value == fields[key]
  {
    if key in fields then Some(fields[key]) else None
  }

  /**
   * JavaScript's `value.key`: the stored value for an object that has the
   * key; `undefined` otherwise, written JNull (both are falsy and neither is
   * ever shown).
   */
  function Prop(j: Json, key: string): (v: Json)
    ensures j.JObj? && key in j.fields ==> v == j.fields[key]
    ensures !(j.JObj? && key in j.fields) ==> v == JNull
  {
    if j.JObj? && key in j.fields then j.fields[key] else JNull
  }

  /**
   * The text JavaScript gives a value in a template literal: arrays are
   * joined with "," (null elements as ""), objects become "[object Object]".
   */
  function JsText(j: Json): string
    decreases j, 1
  {
    match j
    case JNull => "null"
    case JBool(b) => if b then "true" else "false"
    case JNum(n) => Decimal(n)
    case JStr(s) => s
    case JArr(items) => JsJoin(j, items)
    case JObj(_) => "[object Object]"
  }

  function JsJoin(ghost whole: Json, items: seq<Json>): string
    requires forall k :: 0 <= k < |items| ==> items[k] < whole
    decreases whole, 0, |items|
  {
    if items == [] then ""
    else
      var first := if items[0].JNull? then "" else JsText(items[0]);
      if |items| == 1 then first else first + "," + JsJoin(whole, items[1..])
  }

  /**
   * The text Python gives a value in an f-string (`str(v)`). Lists and dicts
   * are rendered by Python's `repr`, which is the parameter `repr`.
   */
  function PyText(j: Json, repr: Json -> string): string {
    match j
    case JNull => "None"
    case JBool(b) => if b then "True" else "False"
    case JNum(n) => Decimal(n)
    case JStr(s) => s
    case JArr(_) => repr(j)
    case JObj(_) => repr(j)
  }

  /** On strings and integers the two renderings coincide; on null and booleans they differ. */
  lemma TextAgreesOnStringsAndNumbers(j: Json, repr: Json -> string)
    ensures j.JStr? || j.JNum? ==> PyText(j, repr) == JsText(j)
    ensures PyText(JNull, repr) != JsText(JNull)
    ensures forall b :: PyText(JBool(b), repr) != JsText(JBool(b))
  {
  }
}
