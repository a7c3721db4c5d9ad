/**
 * The values `JSON.parse` produces and the three things the message pages
 * do with them: read a property, test it in `a || b` or a conditional, and
 * splice it into a template literal.
 */
module JsValues {
  import opened Optional
  import opened JsText

  /** A parsed JSON value (numbers are taken to be integers). */
  datatype JsValue =
    | JsNull
    | JsBool(b: bool)
    | JsNumber(n: int)
    | JsString(s: string)
    | JsArray(elems: seq<JsValue>)
    | JsObject(fields: map<string, JsValue>)

  /** JavaScript truthiness of a parsed value. */
  predicate Truthy(v: JsValue)
  {
    match v
    case JsNull => false
    case JsBool(b) => b
    case JsNumber(n) => n != 0
    case JsString(s) => s != ""
    case _ => true
  }

  /**
   * `v.key` on a value that is not null: the object's own property, or
   * undefined (`None`). The keys the pages read are never own properties
   * of strings or arrays. Reading a property of `null` throws instead,
   * which each caller handles.
   */
  function Field(v: JsValue, key: string): (r: Option<JsValue>)
    requires !v.JsNull?
    ensures r.Some? <==> v.JsObject? && key in v.fields
  {
    if v.JsObject? && key in v.fields then Some(v.fields[key]) else None
  }

  /** Truthiness of a property read, where undefined is falsy. */
  predicate IsTruthy(a: Option<JsValue>)
  {
    a.Some? && Truthy(a.value)
  }

  /** `${v}`. */
  function ToText(v: JsValue): string
  {
    match v
    case JsNull => "null"
    case JsBool(b) => if b then "true" else "false"
    case JsNumber(n) => IntToString(n)
    case JsString(s) => s
    case JsArray(elems) => ElementsText(elems)
    case JsObject(_) => "[object Object]"
  }

  /** Array.prototype.toString: elements joined by commas, null elements written as nothing. */
  function ElementsText(elems: seq<JsValue>): string
    decreases elems
  {
    if |elems| == 0 then ""
    else
      var first := if elems[0].JsNull? then "" else ToText(elems[0]);
      if |elems| == 1 then first else first + "," + ElementsText(elems[1..])
  }

  /** `${a}` for a property read: undefined is written "undefined". */
  function TextOf(a: Option<JsValue>): string
  {
    if a.None? then "undefined" else ToText(a.value)
  }

  /** `a || b` on two property reads. */
  function OrValue(a: Option<JsValue>, b: Option<JsValue>): (r: Option<JsValue>)
    ensures IsTruthy(a) ==> r == a
    ensures !IsTruthy(a) ==> r == b
  {
    if IsTruthy(a) then a else b
  }

  /** `${a || fallback}` with a literal string fallback. */
  function TextOr(a: Option<JsValue>, fallback: string): (r: string)
    ensures IsTruthy(a) ==> r == ToText(a.value)
    ensures !IsTruthy(a) ==> r == fallback
  {
    if IsTruthy(a) then ToText(a.value) else fallback
  }
}
