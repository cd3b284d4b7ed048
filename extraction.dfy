/** The best-effort extraction chain every category accessor runs over one of the three
    untyped `Data` subtrees: re-encode the subtree, read it back as an object, look up the
    category key, re-encode that member and decode it into the leaf record. Every failure on
    the way collapses to absence (None), never to an error. */
module Extraction {
  import opened Wrappers
  import opened GoJson
  import opened Base

  /** `Data.StandaloneEvent`, absent when `Data` or the subtree is nil. */
  function StandaloneOf(e: BaseEvent): Option<Json>
  {
    if e.attributes.data.Some? then e.attributes.data.value.standaloneEvent else None
  }

  /** `Data.TripEvent`, absent when `Data` or the subtree is nil. */
  function TripOf(e: BaseEvent): Option<Json>
  {
    if e.attributes.data.Some? then e.attributes.data.value.tripEvent else None
  }

  /** `Data.Telemetry`, absent when `Data` or the subtree is nil. */
  function TelemetryOf(e: BaseEvent): Option<Json>
  {
    if e.attributes.data.Some? then e.attributes.data.value.telemetry else None
  }

  /** `json.Marshal(v)` followed by `json.Unmarshal` of the bytes into a Go type. */
  function Redecode<T>(v: Json, decode: Json -> Option<T>, format: Instant -> string): Option<T>
  {
    var doc :- Marshal(v, format);
    decode(doc)
  }

  /** The keyed chain: absent parent, a parent that does not encode, a parent that does not
      read back as an object, a missing key, and a member that does not re-encode or decode
      all give None. */
  function ExtractKeyed<T>(parent: Option<Json>, key: string, decode: Json -> Option<T>,
                           format: Instant -> string): Option<T>
  {
    var v :- parent;
    var doc :- Marshal(v, format);
    var standalone :- AsObject(doc);
    if key in standalone then Redecode(standalone[key], decode, format) else None
  }

  /** The telemetry chain: the whole subtree is re-encoded and decoded, with no key lookup. */
  function ExtractWhole<T>(parent: Option<Json>, decode: Json -> Option<T>,
                           format: Instant -> string): Option<T>
  {
    var v :- parent;
    Redecode(v, decode, format)
  }

  /** The keyed chain reads the member straight from the parent object: it succeeds only when
      the parent is an object that encodes and holds the key, and then it is the member's own
      re-encode and decode. */
  function DirectKeyed<T>(parent: Option<Json>, key: string, decode: Json -> Option<T>,
                          format: Instant -> string): Option<T>
  {
    if parent.Some? && parent.value.JObject? && Encodable(parent.value) && key in parent.value.fields
    then Redecode(parent.value.fields[key], decode, format)
    else None
  }

  /** Once the parent has encoded and read back as an object holding the key, the second
      `json.Marshal` of the chain cannot fail: its input came out of the decoder. */
  lemma InnerMarshalCannotFail(v: Json, key: string, format: Instant -> string)
    requires Marshal(v, format).Some?
    requires AsObject(Marshal(v, format).value).Some?
    requires key in AsObject(Marshal(v, format).value).value
    ensures Marshal(AsObject(Marshal(v, format).value).value[key], format).Some?
  {
    var doc := Marshal(v, format).value;
    MarshalWritesPlain(v, format);
    MarshalOfPlain(doc.fields[key], format);
  }

  /** The keyed chain equals the direct reading, for every parent. */
  lemma ExtractKeyedIsDirect<T>(parent: Option<Json>, key: string, decode: Json -> Option<T>,
                                format: Instant -> string)
    ensures ExtractKeyed(parent, key, decode, format) == DirectKeyed(parent, key, decode, format)
  {
    if parent.Some? {
      var v := parent.value;
      MarshalSucceedsIff(v, format);
      if v.JObject? && Encodable(v) && key in v.fields {
        var doc := Marshal(v, format).value;
        assert doc.fields[key] == Marshal(v.fields[key], format).value;
        MarshalWritesPlain(v.fields[key], format);
        MarshalOfPlain(doc.fields[key], format);
      } else if Encodable(v) {
        if v.JTime? {
          assert AsObject(Marshal(v, format).value).None?;
        } else if v.JObject? {
          assert key !in Marshal(v, format).value.fields;
        }
      }
    }
  }

  /** For a parent that is a JSON document, the chain decodes the member itself. */
  lemma ExtractKeyedOfPlain<T>(m: map<string, Json>, key: string, decode: Json -> Option<T>,
                               format: Instant -> string)
    requires Plain(JObject(m))
    ensures key in m ==> ExtractKeyed(Some(JObject(m)), key, decode, format) == decode(m[key])
    ensures key !in m ==> ExtractKeyed(Some(JObject(m)), key, decode, format).None?
  {
    ExtractKeyedIsDirect(Some(JObject(m)), key, decode, format);
    MarshalOfPlain(JObject(m), format);
    MarshalSucceedsIff(JObject(m), format);
    if key in m {
      MarshalOfPlain(m[key], format);
    }
  }

  /** A member that cannot be encoded anywhere in the parent, even under another key, hides
      every extraction from it. */
  lemma UnencodableSiblingHides<T>(m: map<string, Json>, other: string, key: string,
                                   decode: Json -> Option<T>, format: Instant -> string)
    requires other in m && !Encodable(m[other])
    ensures ExtractKeyed(Some(JObject(m)), key, decode, format).None?
  {
    MarshalSucceedsIff(JObject(m), format);
  }

  /** The telemetry chain decodes the subtree itself when it is a JSON document, and gives
      None when it is absent or does not encode. */
  lemma ExtractWholeRules<T>(parent: Option<Json>, decode: Json -> Option<T>, format: Instant -> string)
    ensures parent.None? ==> ExtractWhole(parent, decode, format).None?
    ensures parent.Some? && !Encodable(parent.value) ==> ExtractWhole(parent, decode, format).None?
    ensures parent.Some? && Plain(parent.value) ==> ExtractWhole(parent, decode, format) == decode(parent.value)
  {
    if parent.Some? {
      MarshalSucceedsIff(parent.value, format);
      if Plain(parent.value) {
        MarshalOfPlain(parent.value, format);
      }
    }
  }
}
