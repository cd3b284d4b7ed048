/** The part of Go's `encoding/json` that the SDK relies on, at the level of value trees.

    `Json` is both the untyped tree a Go `interface{}` holds (which may contain Go values
    that are not JSON yet: a `time.Time`, or a channel that cannot be encoded) and, when
    `Plain`, the JSON document that `json.Marshal` writes and `json.Unmarshal` reads.
    `json.Marshal` is `Marshal`, a total function from trees to `Option<Json>`; unmarshalling
    a document into a Go type is a decoder function per type (built from the field decoders
    below), following Go's rules: a missing member or a JSON `null` leaves the zero value,
    unknown members are ignored, and a member of the wrong JSON kind makes the whole call fail.
    The byte-level syntax of JSON is not modelled. */
module GoJson {
  import opened Wrappers

  /** A `time.Time`, as nanoseconds since Go's zero time (January 1, year 1, 00:00:00 UTC). */
  type Instant = int

  /** `time.Time{}`; `IsZero` holds exactly of this instant. */
  const ZeroTime: Instant := 0

  /** The RFC 3339 layout of Go's `time` package (`time.RFC3339Nano`): `parse` is `time.Parse`
      (None for text that does not parse) and `format` is `Time.Format`. Both are supplied by
      the caller; the model never looks inside them. */
  datatype TimeCodec = TimeCodec(parse: string -> Option<Instant>, format: Instant -> string)

  /** Formatting an instant and parsing the text back yields the same instant, as Go's
      `Parse(RFC3339Nano, t.Format(RFC3339Nano))` does. */
  ghost predicate RoundTrips(clock: TimeCodec) {
    forall t :: clock.parse(clock.format(t)) == Some(t)
  }

  /** An untyped value. `JNumber` carries a number without interpreting it; `JTime` is a Go
      `time.Time` stored in an untyped tree; `JUnencodable` is a value `json.Marshal` rejects
      (a channel, a function). */
  datatype Json =
    | JNull
    | JBool(b: bool)
    | JNumber(n: real)
    | JString(str: string)
    | JArray(items: seq<Json>)
    | JObject(fields: map<string, Json>)
    | JTime(instant: Instant)
    | JUnencodable

  /** `json.Marshal`, read back as a tree: a `time.Time` becomes its RFC 3339 text, and an
      unencodable value anywhere inside makes the whole call fail. */
  function Marshal(v: Json, format: Instant -> string): Option<Json>
  {
    match v
    case JUnencodable => None
    case JTime(t) => Some(JString(format(t)))
    case JArray(items) =>
      if forall i | 0 <= i < |items| :: Marshal(items[i], format).Some?
      then Some(JArray(seq(|items|, i requires 0 <= i < |items| => Marshal(items[i], format).value)))
      else None
    case JObject(f) =>
      if forall k | k in f :: Marshal(f[k], format).Some?
      then Some(JObject(map k | k in f :: Marshal(f[k], format).value))
      else None
    case _ => Some(v)
  }

  /** No unencodable value occurs anywhere in `v`. */
  predicate Encodable(v: Json)
  {
    match v
    case JUnencodable => false
    case JArray(items) => forall i | 0 <= i < |items| :: Encodable(items[i])
    case JObject(f) => forall k | k in f :: Encodable(f[k])
    case _ => true
  }

  /** `v` is a JSON document: what decoding JSON text into an `interface{}` can produce. */
  predicate Plain(v: Json)
  {
    match v
    case JUnencodable => false
    case JTime(_) => false
    case JArray(items) => forall i | 0 <= i < |items| :: Plain(items[i])
    case JObject(f) => forall k | k in f :: Plain(f[k])
    case _ => true
  }

  /** `json.Marshal` fails exactly when an unencodable value occurs somewhere in the tree. */
  lemma {:induction false} MarshalSucceedsIff(v: Json, format: Instant -> string)
    ensures Marshal(v, format).Some? <==> Encodable(v)
  {
    match v
    case JArray(items) =>
      forall i | 0 <= i < |items| {
        MarshalSucceedsIff(items[i], format);
      }
    case JObject(f) =>
      forall k | k in f {
        MarshalSucceedsIff(f[k], format);
      }
    case _ =>
  }

  /** What `json.Marshal` writes is a JSON document. */
  lemma {:induction false} MarshalWritesPlain(v: Json, format: Instant -> string)
    ensures Marshal(v, format).Some? ==> Plain(Marshal(v, format).value)
  {
    match v
    case JArray(items) =>
      forall i | 0 <= i < |items| {
        MarshalWritesPlain(items[i], format);
      }
    case JObject(f) =>
      forall k | k in f {
        MarshalWritesPlain(f[k], format);
      }
    case _ =>
  }

  /** Re-encoding a JSON document gives the same document back: decode then encode is the
      identity on values that came out of the decoder. */
  lemma {:induction false} MarshalOfPlain(v: Json, format: Instant -> string)
    requires Plain(v)
    ensures Marshal(v, format) == Some(v)
  {
    match v
    case JArray(items) =>
      forall i | 0 <= i < |items| {
        MarshalOfPlain(items[i], format);
      }
      assert seq(|items|, i requires 0 <= i < |items| => Marshal(items[i], format).value) == items;
    case JObject(f) =>
      forall k | k in f
        ensures Marshal(f[k], format) == Some(f[k])
      {
        MarshalOfPlain(f[k], format);
      }
      var w := Marshal(v, format);
      assert w.Some? && w.value.JObject?;
      assert w.value.fields.Keys == f.Keys;
      assert forall k | k in f :: w.value.fields[k] == f[k];
      assert w.value.fields == f;
    case _ =>
  }

  /** `json.Marshal` is idempotent: encoding its own output changes nothing. */
  lemma MarshalIdempotent(v: Json, format: Instant -> string)
    requires Marshal(v, format).Some?
    ensures Marshal(Marshal(v, format).value, format) == Marshal(v, format)
  {
    MarshalWritesPlain(v, format);
    MarshalOfPlain(Marshal(v, format).value, format);
  }

  /** Replacing one member of a JSON object by a `time.Time` and encoding the result writes
      the instant's RFC 3339 text in that member and leaves every other member unchanged. */
  lemma MarshalObjectWithTime(f: map<string, Json>, key: string, t: Instant, format: Instant -> string)
    requires Plain(JObject(f))
    ensures Marshal(JObject(f[key := JTime(t)]), format) == Some(JObject(f[key := JString(format(t))]))
  {
    var g := f[key := JTime(t)];
    forall k | k in g
      ensures Marshal(g[k], format) == Some(f[key := JString(format(t))][k])
    {
      if k != key {
        MarshalOfPlain(f[k], format);
      }
    }
    var w := Marshal(JObject(g), format);
    assert w.Some? && w.value.JObject?;
    assert w.value.fields.Keys == g.Keys;
    assert w.value.fields == f[key := JString(format(t))];
  }

  /** `json.Unmarshal` of a document into a `map[string]interface{}`: an object gives its
      members, `null` gives a nil map (which reads as empty), anything else is an error. */
  function AsObject(doc: Json): Option<map<string, Json>>
  {
    match doc
    case JObject(f) => Some(f)
    case JNull => Some(map[])
    case _ => None
  }

  /** The members read from a JSON document form a JSON document. */
  lemma AsObjectOfPlain(doc: Json)
    requires Plain(doc) && AsObject(doc).Some?
    ensures Plain(JObject(AsObject(doc).value))
  {
  }

  /** The member `key` of an object, if present. */
  function Field(f: map<string, Json>, key: string): Option<Json>
  {
    if key in f then Some(f[key]) else None
  }

  /** The text a `string` field takes from member `key`: "" when it is missing or `null`. */
  function TextOf(f: map<string, Json>, key: string): string
  {
    if key in f && f[key].JString? then f[key].str else ""
  }

  /** Member `key` is one a `string` field accepts: missing, `null` or text. */
  predicate TextMember(f: map<string, Json>, key: string)
  {
    key !in f || f[key].JNull? || f[key].JString?
  }

  /** Member `key` is one a `time.Time` field accepts: missing, `null` or RFC 3339 text. */
  predicate TimeMember(f: map<string, Json>, key: string, parse: string -> Option<Instant>)
  {
    key !in f || f[key].JNull? || (f[key].JString? && parse(f[key].str).Some?)
  }

  // ---- Decoders for struct members (argument: the member, None when it is missing) ----

  /** A `string` member. */
  function DecodeString(v: Option<Json>): Option<string>
  {
    match v
    case None => Some("")
    case Some(JNull) => Some("")
    case Some(JString(s)) => Some(s)
    case Some(_) => None
  }

  /** A `time.Time` member: its `UnmarshalJSON` parses RFC 3339 text and ignores `null`. */
  function DecodeTime(v: Option<Json>, parse: string -> Option<Instant>): Option<Instant>
  {
    match v
    case None => Some(ZeroTime)
    case Some(JNull) => Some(ZeroTime)
    case Some(JString(s)) => parse(s)
    case Some(_) => None
  }

  /** A `float64` member, carried as an exact number. */
  function DecodeNumber(v: Option<Json>): Option<real>
  {
    match v
    case None => Some(0.0)
    case Some(JNull) => Some(0.0)
    case Some(JNumber(n)) => Some(n)
    case Some(_) => None
  }

  /** An `interface{}` member: takes any value; missing or `null` leaves it nil. */
  function DecodeAny(v: Option<Json>): Option<Json>
  {
    match v
    case None => None
    case Some(JNull) => None
    case Some(j) => Some(j)
  }

  /** A `map[string]interface{}` member: nil when missing or `null`, an error unless an object. */
  function DecodeObject(v: Option<Json>): Option<Option<map<string, Json>>>
  {
    match v
    case None => Some(None)
    case Some(JNull) => Some(None)
    case Some(JObject(f)) => Some(Some(f))
    case Some(_) => None
  }

  /** A pointer stored in a slice or map: `null` is the nil pointer. */
  function DecodeNullable<T>(j: Json, decode: Json -> Option<T>): Option<Option<T>>
  {
    if j.JNull? then Some(None)
    else match decode(j)
      case None => None
      case Some(x) => Some(Some(x))
  }

  /** A pointer-to-struct member: nil when missing or `null`. */
  function DecodePointer<T>(v: Option<Json>, decode: Json -> Option<T>): Option<Option<T>>
  {
    match v
    case None => Some(None)
    case Some(j) => DecodeNullable(j, decode)
  }

  /** A slice member: nil when missing or `null`, an error unless an array whose every
      element decodes. */
  function DecodeSlice<T>(v: Option<Json>, decodeElem: Json -> Option<T>): Option<Option<seq<T>>>
  {
    match v
    case None => Some(None)
    case Some(JNull) => Some(None)
    case Some(JArray(items)) =>
      if forall i | 0 <= i < |items| :: decodeElem(items[i]).Some?
      then Some(Some(seq(|items|, i requires 0 <= i < |items| => decodeElem(items[i]).value)))
      else None
    case Some(_) => None
  }

  /** A `map[string]T` member: nil when missing or `null`, an error unless an object whose
      every member decodes. */
  function DecodeMap<T>(v: Option<Json>, decodeValue: Json -> Option<T>): Option<Option<map<string, T>>>
  {
    match v
    case None => Some(None)
    case Some(JNull) => Some(None)
    case Some(JObject(f)) =>
      if forall k | k in f :: decodeValue(f[k]).Some?
      then Some(Some(map k | k in f :: decodeValue(f[k]).value))
      else None
    case Some(_) => None
  }

  // ---- Encoders for struct members (result: the member written, None when omitted) ----

  /** A pointer stored in a slice or map: nil is written as `null`. */
  function EncodeNullable<T>(p: Option<T>, encode: T -> Json): Json
  {
    match p
    case None => JNull
    case Some(x) => encode(x)
  }

  /** A slice, written as an array. */
  function EncodeSlice<T>(s: seq<T>, encodeElem: T -> Json): Json
  {
    JArray(seq(|s|, i requires 0 <= i < |s| => encodeElem(s[i])))
  }

  /** A map, written as an object. */
  function EncodeMap<T>(m: map<string, T>, encodeValue: T -> Json): Json
  {
    JObject(map k | k in m :: encodeValue(m[k]))
  }

  /** A `map[string]interface{}` member tagged `omitempty`: nil and empty maps are omitted. */
  function OmitEmptyObject(m: Option<map<string, Json>>): Option<Json>
  {
    if m.Some? && m.value != map[] then Some(JObject(m.value)) else None
  }

  /** A `string` member tagged `omitempty`: "" is omitted. */
  function OmitEmptyString(s: string): Option<Json>
  {
    if s == "" then None else Some(JString(s))
  }

  /** A `float64` member tagged `omitempty`: zero is omitted. */
  function OmitZero(n: real): Option<Json>
  {
    if n == 0.0 then None else Some(JNumber(n))
  }

  /** An `interface{}` member tagged `omitempty`: nil is omitted. */
  function OmitNil(v: Option<Json>): Option<Json>
  {
    v
  }

  /** A pointer member tagged `omitempty`: nil is omitted. */
  function OmitNilPointer<T>(p: Option<T>, encode: T -> Json): Option<Json>
  {
    match p
    case None => None
    case Some(x) => Some(encode(x))
  }

  /** A slice member tagged `omitempty`: nil and empty slices are omitted. */
  function OmitEmptySlice<T>(s: Option<seq<T>>, encodeElem: T -> Json): Option<Json>
  {
    if s.Some? && s.value != [] then Some(EncodeSlice(s.value, encodeElem)) else None
  }

  /** A map member tagged `omitempty`: nil and empty maps are omitted. */
  function OmitEmptyMap<T>(m: Option<map<string, T>>, encodeValue: T -> Json): Option<Json>
  {
    if m.Some? && m.value != map[] then Some(EncodeMap(m.value, encodeValue)) else None
  }

  // ---- What survives a round trip through an `omitempty` member ----

  /** An `interface{}` member that the decoder could have produced: nil, or a non-null document. */
  predicate DecodableAny(v: Option<Json>)
  {
    v.None? || (v.value != JNull && Plain(v.value))
  }

  /** A `map[string]interface{}` member tagged `omitempty` that survives a round trip:
      nil, or a non-empty object of documents. */
  predicate KeptObject(m: Option<map<string, Json>>)
  {
    m.None? || (m.value != map[] && Plain(JObject(m.value)))
  }

  // ---- Round trips of the generic members ----

  /** A slice whose elements round-trip comes back from its encoding. */
  lemma SliceRoundTrip<T>(s: seq<T>, encodeElem: T -> Json, decodeElem: Json -> Option<T>)
    requires forall i | 0 <= i < |s| :: decodeElem(encodeElem(s[i])) == Some(s[i])
    ensures DecodeSlice(Some(EncodeSlice(s, encodeElem)), decodeElem) == Some(Some(s))
  {
    var items := seq(|s|, i requires 0 <= i < |s| => encodeElem(s[i]));
    assert seq(|items|, i requires 0 <= i < |items| => decodeElem(items[i]).value) == s;
  }

  /** A map whose values round-trip comes back from its encoding. */
  lemma MapRoundTrip<T>(m: map<string, T>, encodeValue: T -> Json, decodeValue: Json -> Option<T>)
    requires forall k | k in m :: decodeValue(encodeValue(m[k])) == Some(m[k])
    ensures DecodeMap(Some(EncodeMap(m, encodeValue)), decodeValue) == Some(Some(m))
  {
    var f := map k | k in m :: encodeValue(m[k]);
    assert (map k | k in f :: decodeValue(f[k]).value) == m;
  }

  /** A nullable pointer whose target round-trips comes back from its encoding. */
  lemma NullableRoundTrip<T>(p: Option<T>, encode: T -> Json, decode: Json -> Option<T>)
    requires p.Some? ==> decode(encode(p.value)) == Some(p.value) && encode(p.value) != JNull
    ensures DecodeNullable(EncodeNullable(p, encode), decode) == Some(p)
  {
  }
}
