/** The few JavaScript value semantics the core relies on: parsed JSON values,
    truthiness, property reads, thrown values and `String.prototype` helpers. */
module Js {
  import opened Wrappers

  /** A value produced by `JSON.parse` (or `request.json()`). */
  datatype Json =
    | JNull
    | JBool(b: bool)
    | JNum(n: real)
    | JStr(s: string)
    | JArr(items: seq<Json>)
    | JObj(fields: map<string, Json>)

  /** JavaScript truthiness of a possibly-undefined value (`None` is `undefined`).
      `NaN` is not representable, so every number other than 0 is truthy. */
  predicate Truthy(v: Option<Json>) {
    match v
    case None => false
    case Some(JNull) => false
    case Some(JBool(b)) => b
    case Some(JNum(n)) => n != 0.0
    case Some(JStr(s)) => s != ""
    case Some(JArr(_)) => true
    case Some(JObj(_)) => true
  }

  /** `v.key` on a receiver that is neither `null` nor `undefined`: only an object
      has the key; on the other values the keys read here are `undefined`. */
  function Prop(v: Json, key: string): (r: Option<Json>)
    ensures r.Some? <==> v.JObj? && key in v.fields
    ensures r.Some? ==> r.value == v.fields[key]
  {
    if v.JObj? && key in v.fields then Some(v.fields[key]) else None
  }

  /** `v?.key`: `undefined` when the receiver is `null` or `undefined`. */
  function OptProp(v: Option<Json>, key: string): (r: Option<Json>)
    ensures v.None? || v == Some(JNull) ==> r.None?
    ensures v.Some? && v.value.JObj? && key in v.value.fields ==> r == Some(v.value.fields[key])
  {
    match v
    case None => None
    case Some(JNull) => None
    case Some(x) => Prop(x, key)
  }

  /** A value raised by `throw`: an `Error` object (with its `name` and `message`)
      or any other value. */
  datatype Thrown = Error(name: string, message: string) | NonError

  /** A `TypeError` raised by the engine when `what` is read from `null` or
      `undefined`; the engine's exact wording is not modelled. */
  function TypeError(what: string): (e: Thrown)
    ensures e.Error? && e.name == "TypeError"
  {
    Error("TypeError", "Cannot read " + what)
  }

  /** The `error` field of a 500 response: `(error as Error).message` in
      development, left `undefined` otherwise. */
  function ExposedMessage(e: Thrown, isDevelopment: bool): (r: Option<string>)
    ensures r.Some? <==> isDevelopment && e.Error?
    ensures r.Some? ==> r.value == e.message
  {
    if isDevelopment && e.Error? then Some(e.message) else None
  }

  /** `s || fallback` for a possibly-undefined string: the empty string is falsy. */
  function OrString(s: Option<string>, fallback: string): (r: string)
    ensures s.Some? && s.value != "" ==> r == s.value
    ensures s.None? || s.value == "" ==> r == fallback
  {
    if s.Some? && s.value != "" then s.value else fallback
  }

  /** `s.startsWith(prefix)`. */
  predicate StartsWith(s: string, prefix: string) {
    |prefix| <= |s| && s[..|prefix|] == prefix
  }

  function DigitChar(d: nat): char
    requires d < 10
  {
    "0123456789"[d]
  }

  /** Decimal rendering of a natural number, as `Number.prototype.toString`. */
  function NatToString(n: nat): (r: string)
    ensures |r| >= 1
    decreases n
  {
    if n < 10 then [DigitChar(n)] else NatToString(n / 10) + [DigitChar(n % 10)]
  }

  /** Decimal rendering of an integer, with a leading `-` when negative. */
  function IntToString(i: int): string {
    if i >= 0 then NatToString(i) else "-" + NatToString(-i)
  }
}
