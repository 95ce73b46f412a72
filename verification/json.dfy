/** A value produced by `JSON.parse`, together with the few JavaScript operations
    the schema guards apply to it: property lookup, `typeof`, `Array.isArray`,
    `constructor === Object` and truthiness. */
module Json {
  import opened Wrappers

  /** Numbers are modelled as integers: the board model only stores integer ids.
      An object is a map from keys to values: `JSON.parse` keeps the last of several
      bindings of one key, and key order plays no part in the guards. */
  datatype Json =
    | JNull
    | JBool(b: bool)
    | JNumber(n: int)
    | JString(s: string)
    | JArray(items: seq<Json>)
    | JObject(fields: map<string, Json>)

  /** Property access `v.key`: only objects carry the properties the guards ask for
      (arrays and primitives have no `id`, `text`, `title` or `toDos`); `None` is `undefined`. */
  function Field(v: Json, key: string): Option<Json> {
    if v.JObject? && key in v.fields then Some(v.fields[key]) else None
  }

  /** JavaScript's `typeof`, with `None` standing for `undefined`. */
  function TypeOf(v: Option<Json>): string {
    match v
    case None => "undefined"
    case Some(JNull) => "object"
    case Some(JBool(_)) => "boolean"
    case Some(JNumber(_)) => "number"
    case Some(JString(_)) => "string"
    case Some(JArray(_)) => "object"
    case Some(JObject(_)) => "object"
  }

  /** `Array.isArray(v)`. */
  predicate IsArray(v: Option<Json>) {
    v.Some? && v.value.JArray?
  }

  /** `v.constructor === Object` for a non-null parsed value. Arrays and primitives
      inherit another constructor; a parsed object inherits `Object` unless it carries
      an own property named `constructor`, whose parsed value can never be `Object`. */
  predicate ConstructorIsObject(v: Json)
    ensures ConstructorIsObject(v) ==> v.JObject?
    ensures v.JObject? && "constructor" in v.fields ==> !ConstructorIsObject(v)
  {
    v.JObject? && "constructor" !in v.fields
  }

  /** JavaScript truthiness: `null`, `false`, `0` and `""` are falsy. */
  predicate Truthy(v: Json)
    ensures v.JArray? || v.JObject? ==> Truthy(v)
    ensures v == JNull || v == JBool(false) || v == JNumber(0) || v == JString("") ==> !Truthy(v)
  {
    match v
    case JNull => false
    case JBool(b) => b
    case JNumber(n) => n != 0
    case JString(s) => s != ""
    case JArray(_) => true
    case JObject(_) => true
  }

  /** Decodes every element of `xs` with `decode`, failing if any element fails,
      in the order `Array.prototype.every` visits them. */
  function DecodeAll<T>(xs: seq<Json>, decode: Json -> Option<T>): (r: Option<seq<T>>)
    ensures r.Some? <==> forall i :: 0 <= i < |xs| ==> decode(xs[i]).Some?
    ensures r.Some? ==> |r.value| == |xs|
    ensures r.Some? ==> forall i :: 0 <= i < |xs| ==> decode(xs[i]) == Some(r.value[i])
  {
    if |xs| == 0 then Some([])
    else
      match decode(xs[0])
      case None => None
      case Some(x) =>
        match DecodeAll(xs[1..], decode)
        case None => None
        case Some(rest) => Some([x] + rest)
  }
}
