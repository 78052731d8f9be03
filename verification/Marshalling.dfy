// The map-marshalling loops of internal/controller/util/util.go. Go ranges over
// a map in no fixed order: the loops pick any remaining key.
module Marshalling {
  import opened Results
  import opened JsonValues

  // A map with the input's keys and each value's encoding is the marshalled map.
  lemma IsMarshalled(codec: Codec, input: map<string, Json>, output: map<string, string>)
    requires output.Keys == input.Keys
    requires forall k | k in output :: codec.encodeValue(input[k]) == Some(output[k])
    ensures codec.Marshalled(input) == Some(output)
  {
    assert codec.Encodable(input) by {
      forall k | k in input ensures codec.encodeValue(input[k]).Some? {
        assert k in output;
      }
    }
    var m := codec.Marshalled(input).value;
    forall k | k in input ensures m[k] == output[k] {
      assert k in output;
    }
    assert m == output;
  }

  method MarshalMapValues(codec: Codec, input: map<string, Json>) returns (r: Option<map<string, string>>)
    ensures r.Some? ==> codec.Encodes(input, r.value)
    ensures r.None? ==> exists k :: k in input && codec.encodeValue(input[k]).None?
    ensures r == codec.Marshalled(input)
  {
    var output: map<string, string> := map[];
    var remaining := input.Keys;
    while remaining != {}
      invariant remaining <= input.Keys
      invariant output.Keys == input.Keys - remaining
      invariant forall k | k in output :: codec.encodeValue(input[k]) == Some(output[k])
      decreases |remaining|
    {
      var k :| k in remaining;
      var b := codec.encodeValue(input[k]);
      if b.None? {
        return None;
      }
      output := output[k := b.value];
      remaining := remaining - {k};
    }
    IsMarshalled(codec, input, output);
    return Some(output);
  }

  method MarshalBindingCredentials(codec: Codec, credentials: Params)
    returns (r: Result<Option<map<string, string>>, ()>)
    ensures r == MarshalledCredentials(codec, credentials)
    ensures r.Ok? ==> HandsOut(codec, credentials, r.value)
    ensures r.Err? <==> credentials.Some? && exists k :: k in credentials.value &&
                                                         codec.encodeValue(credentials.value[k]).None?
  {
    if credentials.None? {
      return Ok(None);
    }
    var encoded := MarshalMapValues(codec, credentials.value);
    if encoded.None? {
      return Err(());
    }
    return Ok(encoded);
  }

  // Connection details that are the credentials, each encoded. The nil map yields
  // nil connection details, not an empty map.
  predicate HandsOut(codec: Codec, credentials: Params, details: Option<map<string, string>>) {
    if credentials.None? then details.None? else details.Some? && codec.Encodes(credentials.value, details.value)
  }

  function MarshalledCredentials(codec: Codec, credentials: Params): (r: Result<Option<map<string, string>>, ()>)
    ensures r.Ok? ==> HandsOut(codec, credentials, r.value)
    ensures r.Err? <==> credentials.Some? && exists k :: k in credentials.value &&
                                                         codec.encodeValue(credentials.value[k]).None?
  {
    if credentials.None? then Ok(None)
    else if codec.Encodable(credentials.value) then Ok(codec.Marshalled(credentials.value))
    else Err(())
  }

  method GetCredsFromResponse(codec: Codec, credentials: Params) returns (r: Option<map<string, string>>)
    ensures r == codec.Marshalled(Entries(credentials))
    ensures r.Some? ==> codec.Encodes(if credentials.Some? then credentials.value else map[], r.value)
    ensures r.None? ==> credentials.Some? && exists k :: k in credentials.value &&
                                                         codec.encodeValue(credentials.value[k]).None?
  {
    var entries := Entries(credentials);
    var creds: map<string, string> := map[];
    var remaining := entries.Keys;
    while remaining != {}
      invariant remaining <= entries.Keys
      invariant creds.Keys == entries.Keys - remaining
      invariant forall k | k in creds :: codec.encodeValue(entries[k]) == Some(creds[k])
      decreases |remaining|
    {
      var key :| key in remaining;
      var data := codec.encodeValue(entries[key]);
      if data.None? {
        return None;
      }
      creds := creds[key := data.value];
      remaining := remaining - {key};
    }
    IsMarshalled(codec, entries, creds);
    return Some(creds);
  }
}
