/**
 * Untyped JSON request bodies as the TypeScript backend sees them
 * (`await c.req.json()`), with the JavaScript coercions its handlers apply:
 * truthiness (`if (body.x)`), property access on any value (`body.x.y`),
 * nullish defaulting (`??`) and `String(x)`.
 *
 * `JNull` stands for both `null` and `undefined`: every test the handlers make
 * (`!x`, `x ?? d`, `typeof x === 'string'`) treats the two alike.
 */
module Json {

  datatype Json =
    | JNull
    | JBool(b: bool)
    | JNum(n: int)
    | JStr(s: string)
    | JArr(items: seq<Json>)
    | JObj(fields: map<string, Json>)

  /** JavaScript truthiness: `false`, `0`, `''`, `null` and `undefined` are falsy. */
  predicate Truthy(j: Json)
  {
    match j
    case JNull => false
    case JBool(b) => b
    case JNum(n) => n != 0
    case JStr(s) => s != ""
    case JArr(_) => true
    case JObj(_) => true
  }

  /** `j.key`: a missing property, or a property of a non-object, is `undefined`. */
  function Field(j: Json, key: string): (r: Json)
    ensures r != JNull ==> j.JObj? && key in j.fields && r == j.fields[key]
    ensures j.JObj? && key in j.fields ==> r == j.fields[key]
  {
    if j.JObj? && key in j.fields then j.fields[key] else JNull
  }

  /** `j ?? d`. */
  function OrElse(j: Json, d: Json): (r: Json)
    ensures r == d <==> j == JNull || j == d
    ensures j != JNull ==> r == j
  {
    if j == JNull then d else j
  }

  function Digit(d: nat): (c: char)
    requires d < 10
    ensures '0' <= c <= '9'
  {
    (('0' as int) + d) as char
  }

  /** Decimal rendering of a natural number, most significant digit first. */
  function NatToString(n: nat): (r: string)
    ensures |r| >= 1
    ensures forall i :: 0 <= i < |r| ==> '0' <= r[i] <= '9'
    ensures n < 10 <==> |r| == 1
  {
    if n < 10 then [Digit(n)] else NatToString(n / 10) + [Digit(n % 10)]
  }

  /** `String(n)` for an integer. */
  function IntToString(n: int): (r: string)
    ensures |r| >= 1
    ensures (r[0] == '-') <==> n < 0
  {
    if n < 0 then "-" + NatToString(-n) else NatToString(n)
  }

  /** `String(items.join(','))` element rendering: `null`/`undefined` elements render as ''. */
  function JoinCommas(parts: seq<string>): string
  {
    if |parts| == 0 then ""
    else if |parts| == 1 then parts[0]
    else parts[0] + "," + JoinCommas(parts[1..])
  }

  /** `String(j)`. */
  function ToJsString(j: Json): (r: string)
    ensures j.JStr? ==> r == j.s
    ensures j.JBool? ==> r == (if j.b then "true" else "false")
  {
    match j
    case JNull => "null"
    case JBool(b) => if b then "true" else "false"
    case JNum(n) => IntToString(n)
    case JStr(s) => s
    case JArr(items) =>
      JoinCommas(seq(|items|, i requires 0 <= i < |items| =>
        if items[i] == JNull then "" else ToJsString(items[i])))
    case JObj(_) => "[object Object]"
  }
}
