// JSON values, Go's nil-able parameter maps, and the library functions
// (encoding/json, time.Parse) the controllers call. The library is a parameter:
// what the proofs need of it is the predicate RoundTrips.
module JsonValues {
  import opened Results

  datatype Json =
    | JNull
    | JBool(b: bool)
    | JNumber(n: real)
    | JString(s: string)
    | JArray(items: seq<Json>)
    | JObject(members: map<string, Json>)

  // Go's map[string]any. None is the nil map, which reflect.DeepEqual
  // distinguishes from Some(map[]).
  type Params = Option<map<string, Json>>

  datatype Codec = Codec(
    encodeValue: Json -> Option<string>,
    decodeValue: string -> Option<Json>,
    encodeParams: Params -> Option<string>,
    decodeParams: string -> Option<Params>,
    parseTime: string -> Option<int>)
  {
    // Empty text is not JSON, and what was encoded decodes to itself.
    ghost predicate RoundTrips() {
      && decodeParams("") == None
      && (forall p: Params :: encodeParams(p).Some? ==> decodeParams(encodeParams(p).value) == Some(p))
      && (forall v: Json :: encodeValue(v).Some? ==> decodeValue(encodeValue(v).value) == Some(v))
    }

    // SerializableParameters.ToParameters: empty text stands for the empty map.
    function ToParameters(text: string): Option<Params> {
      if text == "" then Some(Some(map[])) else decodeParams(text)
    }

    // Whether every value of the map can be encoded.
    predicate Encodable(m: map<string, Json>) {
      forall k | k in m :: encodeValue(m[k]).Some?
    }

    // The second map has the first one's keys, and each of its values encoded.
    predicate Encodes(m: map<string, Json>, r: map<string, string>) {
      r.Keys == m.Keys && forall k | k in m :: encodeValue(m[k]) == Some(r[k])
    }

    // The map with every value encoded, or nothing at all when one of them cannot be.
    function Marshalled(m: map<string, Json>): (r: Option<map<string, string>>)
      ensures r.Some? ==> Encodes(m, r.value)
      ensures r.None? <==> exists k :: k in m && encodeValue(m[k]).None?
    {
      if Encodable(m) then Some(map k | k in m :: encodeValue(m[k]).value) else None
    }
  }

  // The entries of a map a Go `range` visits: the nil map has none.
  function Entries(p: Params): map<string, Json> {
    if p.Some? then p.value else map[]
  }
}
