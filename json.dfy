/**
 * The values the storage adapter persists, and the text encoding it uses.
 * `JSON.stringify` and `JSON.parse` are library calls whose internals are not
 * modelled: they are a `Codec`, a pair of total functions supplied with the
 * storage. The round trip the adapter relies on is `ReadsBack`, stated for
 * the one value a property is about. It is not a law of every value:
 * `JSON.parse` keeps only the last of two duplicate object keys.
 */
module Json {
  import opened Wrappers

  /** A JSON value, as `JSON.parse` returns it. */
  datatype Json =
    | Null
    | Bool(b: bool)
    | Num(n: real)
    | Str(s: string)
    | Arr(items: seq<Json>)
    | Obj(members: seq<(string, Json)>)

  /**
   * JavaScript truthiness of a parsed value, as in `if (v)`: exactly `null`,
   * `false`, `0` and the empty string are falsy.
   */
  predicate Truthy(v: Json)
    ensures !Truthy(v) <==> v == Null || v == Bool(false) || v == Num(0.0) || v == Str("")
  {
    match v
    case Null => false
    case Bool(b) => b
    case Num(n) => n != 0.0
    case Str(s) => s != ""
    case Arr(_) => true
    case Obj(_) => true
  }

  /** `JSON.stringify` and `JSON.parse`; `parse` gives `None` where `JSON.parse` throws. */
  datatype Codec = Codec(stringify: Json -> string, parse: string -> Option<Json>)

  /** Parsing what was stringified gives back `v`. */
  predicate ReadsBack(c: Codec, v: Json)
  {
    c.parse(c.stringify(v)) == Some(v)
  }
}
