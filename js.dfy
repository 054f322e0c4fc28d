/**
 * The JavaScript values this program handles: what JSON.parse produces,
 * `undefined`, truthiness, reading a property, and String() conversion,
 * together with the errors the program throws and the way a promise settles.
 */
module Js {

  datatype Option<+T> = None | Some(value: T) {
    function GetOr(default: T): T {
      match this
      case Some(v) => v
      case None => default
    }
  }

  /**
   * A value produced by JSON.parse. A number is carried as its canonical
   * JavaScript text (what `String(n)` yields), so "0" is its only falsy form
   * and string conversion is exact. `undefined` never occurs inside a parsed
   * value; where a property may be missing the model uses `Option<Json>`,
   * with `None` standing for `undefined`.
   */
  datatype Json =
    | JNull
    | JBool(b: bool)
    | JNumber(text: string)
    | JString(s: string)
    | JArray(items: seq<Json>)
    | JObject(fields: map<string, Json>)

  /** JavaScript truthiness of a possibly undefined value. */
  predicate Truthy(v: Option<Json>) {
    match v
    case None => false
    case Some(JNull) => false
    case Some(JBool(b)) => b
    case Some(JNumber(t)) => t != "0"
    case Some(JString(s)) => s != ""
    case Some(_) => true
  }

  /** `null` and `undefined`: reading any property of them throws. */
  predicate Nullish(v: Option<Json>) {
    v == None || v == Some(JNull)
  }

  /**
   * `j[key]` for a value that is not nullish. Objects answer with their own
   * fields; strings, numbers, booleans and arrays have none of the keys this
   * program reads, so they answer `undefined`.
   */
  function Prop(j: Json, key: string): (r: Option<Json>)
    requires j != JNull
    ensures r.Some? <==> j.JObject? && key in j.fields
    ensures r.Some? ==> r.value == j.fields[key]
  {
    if j.JObject? && key in j.fields then Some(j.fields[key]) else None
  }

  /** The errors this program produces or lets through. */
  datatype Failure =
    | ApiError(message: string)  // the program's own error class, raised by the gateway
    | TypeError                  // a property read from null/undefined, a call of a non-function
    | SyntaxError                // text handed to JSON.parse (or response.json()) that is not JSON
    | NetworkError               // fetch could not reach the server; JavaScript raises this as a
                                 // TypeError too, but the program only ever tests for ApiError,
                                 // so keeping it apart changes no outcome

  /** How a promise settles, or how a synchronous call returns or throws. */
  datatype Outcome<+T> = Resolved(value: T) | Rejected(reason: Failure)

  /** `v.key` on an arbitrary value: throws a TypeError on null and undefined. */
  function Member(v: Option<Json>, key: string): (r: Outcome<Option<Json>>)
    ensures r.Rejected? <==> Nullish(v)
    ensures r.Rejected? ==> r.reason == TypeError
    ensures r.Resolved? ==> r.value == Prop(v.value, key)
  {
    if Nullish(v) then Rejected(TypeError) else Resolved(Prop(v.value, key))
  }

  /** `String(v)`, the conversion `localStorage.setItem` applies to its value. */
  function Str(v: Option<Json>): (r: string)
    ensures v == None ==> r == "undefined"
    ensures v.Some? && v.value.JString? ==> r == v.value.s
  {
    match v
    case None => "undefined"
    case Some(j) => JsonStr(j)
  }

  function JsonStr(j: Json): string
    decreases j
  {
    match j
    case JNull => "null"
    case JBool(b) => if b then "true" else "false"
    case JNumber(t) => t
    case JString(s) => s
    case JArray(items) => Join(items)
    case JObject(_) => "[object Object]"
  }

  /** Array.prototype.join(","): a null element contributes the empty string. */
  function Join(items: seq<Json>): string
    decreases items
  {
    if items == [] then ""
    else
      var head := if items[0] == JNull then "" else JsonStr(items[0]);
      if |items| == 1 then head else head + "," + Join(items[1..])
  }

  /** The `message` of `new Error(v)`: empty for undefined, `String(v)` otherwise. */
  function ErrorText(v: Option<Json>): (r: string)
    ensures v == None ==> r == ""
    ensures v.Some? && v.value.JString? ==> r == v.value.s
    ensures v.Some? ==> r == Str(v)
  {
    if v == None then "" else Str(v)
  }
}
