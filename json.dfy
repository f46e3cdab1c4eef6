/**
 * JSON values as an opaque payload, and `JSON.stringify` / `JSON.parse` as an
 * abstract codec: the grammar is not modelled, only the round trip the bridge
 * relies on.
 */
module Json {
  import opened Text

  datatype Json =
    | JNull
    | JBool(b: bool)
    | JNum(n: int)
    | JStr(s: string)
    | JArr(items: seq<Json>)
    | JObj(fields: map<string, Json>)

  /** The empty object `{}`. */
  const EmptyObject: Json := JObj(map[])

  /** `JSON.parse` either yields a value or throws a SyntaxError whose text is `detail`. */
  datatype Decoded = Parsed(value: Json) | SyntaxError(detail: string)

  datatype Codec = Codec(encode: Json -> string, decode: string -> Decoded)

  /**
   * What `JSON.stringify` / `JSON.parse` promise for one value: parsing the
   * text gives the value back, and the text has no surrounding white space.
   */
  predicate RoundTrips(c: Codec, v: Json) {
    c.decode(c.encode(v)) == Parsed(v) && Trimmed(c.encode(v))
  }

  /** A list of strings as the JSON array elements it serialises to. */
  function Strings(xs: seq<string>): (r: seq<Json>)
    ensures |r| == |xs| && forall i :: 0 <= i < |xs| ==> r[i] == JStr(xs[i])
  {
    if |xs| == 0 then [] else [JStr(xs[0])] + Strings(xs[1..])
  }
}
