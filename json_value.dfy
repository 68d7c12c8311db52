/**
 * A parsed JSON value (RFC 8259) and the JavaScript operations the backup code applies to
 * one: property access, truthiness, `Array.isArray` and the text `String(value)` gives when a
 * value is written to the store. Parsing and serialising are not defined here; the code that
 * needs them takes them as function parameters.
 */
module JsonValue {
  import opened Wrappers
  import opened Text

  /** JSON numbers are kept as reals; `NaN` and the infinities cannot come out of a parse. */
  datatype Json =
    | JNull
    | JBool(b: bool)
    | JNumber(n: real)
    | JString(s: string)
    | JArray(elems: seq<Json>)
    | JObject(fields: map<string, Json>)

  /** `v.key` for a value that is not `null`: the member of an object, `undefined` (here
    * `None`) for a missing member or for any other kind of value. */
  function Get(v: Json, key: string): (r: Option<Json>)
    ensures r.Some? <==> v.JObject? && key in v.fields
  {
    if v.JObject? && key in v.fields then Some(v.fields[key]) else None
  }

  /** `o?.key` over an optional value: `undefined` stays `undefined`. */
  function Member(o: Option<Json>, key: string): (r: Option<Json>)
    ensures r.Some? ==> o.Some? && o.value.JObject?
  {
    match o
    case Some(v) => Get(v, key)
    case None => None
  }

  /** JavaScript truthiness: `undefined`, `null`, `false`, `0` and `""` are falsy; arrays and
    * objects, even empty ones, are truthy. */
  predicate Truthy(o: Option<Json>) {
    match o
    case None => false
    case Some(JNull) => false
    case Some(JBool(b)) => b
    case Some(JNumber(n)) => n != 0.0
    case Some(JString(s)) => s != ""
    case Some(JArray(_)) => true
    case Some(JObject(_)) => true
  }

  /** `Array.isArray`. */
  predicate IsArray(o: Option<Json>) {
    o.Some? && o.value.JArray?
  }

  /** Every array is truthy, and a truthy value is never `undefined` or `null`. */
  lemma ArrayIsTruthy(o: Option<Json>)
    ensures IsArray(o) ==> Truthy(o)
    ensures Truthy(o) ==> o.Some? && o.value != JNull
  {
  }

  /** `String(v)`, the text `localStorage.setItem` stores for a value: a string as it is,
    * `null` as "null", an array as its elements' texts joined by commas (a `null` element
    * gives the empty text), an object as "[object Object]". The decimal text of a number is
    * `numberText`, which this model does not define. */
  function StoredText(v: Json, numberText: real -> string): string
    decreases v
  {
    match v
    case JNull => "null"
    case JBool(b) => if b then "true" else "false"
    case JNumber(n) => numberText(n)
    case JString(s) => s
    case JArray(elems) => JoinElements(elems, numberText)
    case JObject(_) => "[object Object]"
  }

  function JoinElements(elems: seq<Json>, numberText: real -> string): string
    decreases elems
  {
    if elems == [] then ""
    else
      var last := elems[|elems| - 1];
      var text := if last == JNull then "" else StoredText(last, numberText);
      if |elems| == 1 then text else JoinElements(elems[..|elems| - 1], numberText) + "," + text
  }

  /** A string value is stored as its own text. */
  lemma StringStoredAsIs(s: string, numberText: real -> string)
    ensures StoredText(JString(s), numberText) == s
  {
  }
}
