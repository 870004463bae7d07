/**
 * JSON values as the browser hands them to the application, JavaScript's
 * truthiness rules on them, and the JSON library calls the application makes.
 *
 * JSON.parse, JSON.stringify and String(v) are library code that the
 * application does not implement; they enter the model as the function fields
 * of a `JsonLib` value passed to every operation that uses them.
 */
module JsonValues {

  datatype Option<T> = None | Some(value: T)

  /** A JSON value. An object keeps its members in JavaScript property
      iteration order. */
  datatype Json =
    | JNull
    | JBool(b: bool)
    | JNumber(n: real)
    | JString(s: string)
    | JArray(items: seq<Json>)
    | JObject(members: seq<(string, Json)>)

  /** The literal `{}`. */
  const EmptyObject: Json := JObject([])

  /** JavaScript truthiness: null, false, 0 and "" are falsy; every array and
      every object, even an empty one, is truthy. */
  predicate Truthy(v: Json) {
    match v
    case JNull => false
    case JBool(b) => b
    case JNumber(n) => n != 0.0
    case JString(s) => s != ""
    case JArray(_) => true
    case JObject(_) => true
  }

  /** `a || fallback`, where `a` is None when the property read gave `undefined`. */
  function OrElse(a: Option<Json>, fallback: Json): Json {
    if a.Some? && Truthy(a.value) then a.value else fallback
  }

  /** `typeof v === 'object'`: true for objects, for arrays and for null. */
  predicate IsObjectType(v: Json) {
    v.JNull? || v.JArray? || v.JObject?
  }

  /** The value of the member named `key`, if there is one. When a key occurs
      more than once the last member wins, as it does in JSON.parse. */
  function Lookup(members: seq<(string, Json)>, key: string): Option<Json> {
    if members == [] then None
    else if members[|members| - 1].0 == key then Some(members[|members| - 1].1)
    else Lookup(members[..|members| - 1], key)
  }

  /** The property read `v.key` on a value other than null (reading a property
      of null throws, which callers handle). None stands for `undefined`: the
      names the application reads (method, url, headers, body) are not
      properties of arrays, strings, numbers or booleans. */
  function Property(v: Json, key: string): Option<Json> {
    if v.JObject? then Lookup(v.members, key) else None
  }

  /** The JSON library: `parse` is JSON.parse (None when it throws a
      SyntaxError), `stringify` is JSON.stringify(v), `prettyPrint` is
      JSON.stringify(v, null, 2), and `display` is String(v) on values other
      than strings. */
  datatype JsonLib = JsonLib(
    parse: string -> Option<Json>,
    stringify: Json -> string,
    prettyPrint: Json -> string,
    display: Json -> string)

  /** String(v): a string is its own text; any other value goes through the
      library's coercion. */
  function ToText(lib: JsonLib, v: Json): string {
    if v.JString? then v.s else lib.display(v)
  }

  /** The library writes every string as a JSON string literal, which starts
      with a double quote. */
  ghost predicate QuotesStrings(lib: JsonLib) {
    forall s: string {:trigger lib.prettyPrint(JString(s))} ::
      |lib.prettyPrint(JString(s))| > 0 && lib.prettyPrint(JString(s))[0] == '"'
  }
}
