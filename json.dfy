/**
 * JavaScript values as they cross the JSON boundary: tool inputs written by
 * the model, ledger responses and tool results. Numbers are integers (money
 * in cents); floating point is not modelled.
 */
module Json {
  import opened Strings

  datatype Json =
    | JUndefined
    | JNull
    | JBool(b: bool)
    | JNum(n: int)
    | JStr(s: string)
    | JArr(items: seq<Json>)
    | JObj(fields: map<string, Json>)

  /** JavaScript truthiness. */
  predicate Truthy(v: Json) {
    match v
    case JUndefined => false
    case JNull => false
    case JBool(b) => b
    case JNum(n) => n != 0
    case JStr(s) => s != ""
    case JArr(_) => true
    case JObj(_) => true
  }

  /** `v || fallback` */
  function Or(v: Json, fallback: Json): (r: Json)
    ensures Truthy(v) ==> r == v
    ensures !Truthy(v) ==> r == fallback
  {
    if Truthy(v) then v else fallback
  }

  /** Property access `v.key` on an object; a missing key (or a non-object) reads as undefined. */
  function Get(v: Json, key: string): (r: Json)
    ensures v.JObj? && key in v.fields ==> r == v.fields[key]
    ensures !(v.JObj? && key in v.fields) ==> r == JUndefined
  {
    if v.JObj? && key in v.fields then v.fields[key] else JUndefined
  }

  /** Neither undefined, null nor an object: `typeof v !== "object"` with null and undefined excluded. */
  predicate IsPrimitive(v: Json) {
    v.JBool? || v.JNum? || v.JStr?
  }

  /** `String(v)`; an array joins its elements with "," and shows undefined and null as "". */
  function ToJsString(v: Json): string
    decreases v
  {
    match v
    case JUndefined => "undefined"
    case JNull => "null"
    case JBool(b) => if b then "true" else "false"
    case JNum(n) => IntToString(n)
    case JStr(s) => s
    case JArr(items) =>
      Join(seq(|items|, i requires 0 <= i < |items| =>
        if items[i].JUndefined? || items[i].JNull? then "" else ToJsString(items[i])), ",")
    case JObj(_) => "[object Object]"
  }

  /** `value || fallback` where a string is expected: a truthy value in its `String()` form. */
  function StrOr(v: Json, fallback: string): (s: string)
    ensures !Truthy(v) ==> s == fallback
    ensures v.JStr? && v.s != "" ==> s == v.s
  {
    if Truthy(v) then ToJsString(v) else fallback
  }
}
