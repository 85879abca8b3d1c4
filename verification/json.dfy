/**
  JSON values as they travel through the queue (job payloads, return values,
  stored results) and arrive from the proxy provider, with the two
  JavaScript conversions the crawler applies to them: truthiness and
  `String(v)`.
 */
module JsonValue {
  import opened Common
  import JsText

  /** A JSON value. Numbers are the integers; fractional numbers are not modelled. */
  datatype Json =
    | JNull
    | JBool(b: bool)
    | JNum(n: int)
    | JStr(s: string)
    | JArr(items: seq<Json>)
    | JObj(fields: map<string, Json>)

  /** `!!v`: null, false, 0 and the empty string are falsy; arrays and objects are truthy. */
  predicate JsTruthy(v: Json) {
    match v
    case JNull => false
    case JBool(b) => b
    case JNum(n) => n != 0
    case JStr(s) => s != ""
    case JArr(_) => true
    case JObj(_) => true
  }

  /** `o.name` on a JSON value: present only on an object that has the field. */
  function Member(v: Json, name: string): Option<Json> {
    if v.JObj? && name in v.fields then Some(v.fields[name]) else None
  }

  /** `String(n)` for an integer. */
  function IntToString(n: int): string {
    if n < 0 then "-" + JsText.NatToDecimal(-n) else JsText.NatToDecimal(n)
  }

  /**
    `String(v)`. An array is its elements joined by commas, with `null`
    elements written as the empty string; any object is `[object Object]`.
   */
  function JsString(v: Json): string
    decreases v
  {
    match v
    case JNull => "null"
    case JBool(b) => if b then "true" else "false"
    case JNum(n) => IntToString(n)
    case JStr(s) => s
    case JArr(items) =>
      JoinWithCommas(seq(|items|, i requires 0 <= i < |items| => if items[i].JNull? then "" else JsString(items[i])))
    case JObj(_) => "[object Object]"
  }

  /** `parts.join(",")`. */
  function JoinWithCommas(parts: seq<string>): string
    decreases |parts|
  {
    if parts == [] then ""
    else if |parts| == 1 then parts[0]
    else parts[0] + "," + JoinWithCommas(parts[1..])
  }
}
