/** The envelope parser and its helpers (`internal/parser`): decoding a JSON payload into a
    `BaseEvent` with the `created_at` repair, the required-field validation, the category
    predicates, the device projections and the three direct lookups into the untyped
    telemetry subtree. */
module Parser {
  import opened Wrappers
  import opened GoJson
  import opened Base
  import opened Extraction
  import Telemetry
  import Connection

  newtype byte = b: int | 0 <= b < 256

  /** A Go `[]byte`; a Go `string` is the same byte sequence. */
  type Bytes = seq<byte>

  /** Why `ParseEvent` returned no event: the payload is not a JSON object (or `null`),
      `created_at` is text that is not RFC 3339, the repaired map could not be re-encoded, or
      the re-encoded map does not fit `BaseEvent`. */
  datatype ParseError = MalformedJson | BadCreatedAt | MarshalFailed | ShapeMismatch

  /** The reference reading of a payload's document: `created_at` text must parse, and the
      document is decoded into `BaseEvent` in one pass, parsing `created_at` where it stands. */
  function DecodeEnvelope(doc: Json, parse: string -> Option<Instant>): Result<BaseEvent, ParseError>
  {
    match AsObject(doc)
    case None => Err(MalformedJson)
    case Some(raw) =>
      if "created_at" in raw && raw["created_at"].JString? && parse(raw["created_at"].str).None?
      then Err(BadCreatedAt)
      else match DecodeBaseEvent(JObject(raw), parse)
        case None => Err(ShapeMismatch)
        case Some(event) => Ok(event)
  }

  /** `json.Unmarshal` into a `BaseEvent` reads a `null` document as the empty object. */
  lemma NullDocumentIsEmptyObject(parse: string -> Option<Instant>)
    ensures DecodeBaseEvent(JNull, parse) == DecodeBaseEvent(JObject(map[]), parse) == Some(ZeroEvent)
  {
  }

  /** Decoding reads `created_at` only through the instant it denotes: replacing the member by
      another that decodes to the same instant changes nothing. */
  lemma DecodeSeesCreatedAtInstant(raw: map<string, Json>, v: Json, parse: string -> Option<Instant>)
    requires DecodeTime(Some(v), parse) == DecodeTime(Field(raw, "created_at"), parse)
    ensures DecodeBaseEvent(JObject(raw["created_at" := v]), parse) == DecodeBaseEvent(JObject(raw), parse)
  {
    var g := raw["created_at" := v];
    assert Field(g, "created_at") == Some(v);
    assert forall k | k != "created_at" :: Field(g, k) == Field(raw, k);
  }

  /** An envelope a Go producer marshalled is read back unchanged: the envelope decoding
      neither rejects its `created_at` nor loses a field. */
  lemma EncodedEnvelopeDecodes(x: BaseEvent, clock: TimeCodec)
    requires RoundTrips(clock) && CanonicalAttributes(x.attributes)
    ensures DecodeEnvelope(EncodeBaseEvent(x, clock.format), clock.parse) == Ok(x)
  {
    var raw := EncodeBaseEvent(x, clock.format).fields;
    assert raw["created_at"] == JString(clock.format(x.createdAt));
    BaseEventRoundTrip(x, clock);
  }

  /** `ParseEvent`: read the payload into a `map[string]interface{}`; when `created_at` is
      text, parse it as RFC 3339 and put the instant back in its place (failing if it does not
      parse); re-encode the map and decode the bytes into a `BaseEvent`. `syntax` is the JSON
      text reader: the document a payload denotes, None when the payload is not JSON. */
  method ParseEvent(data: Bytes, syntax: Bytes -> Option<Json>, clock: TimeCodec)
    returns (r: Result<BaseEvent, ParseError>)
    ensures syntax(data).None? ==> r == Err(MalformedJson)
    ensures syntax(data).Some? && AsObject(syntax(data).value).None? ==> r == Err(MalformedJson)
    ensures var doc := syntax(data);
            doc.Some? && doc.value.JObject? && "created_at" in doc.value.fields
            && doc.value.fields["created_at"].JString?
            && clock.parse(doc.value.fields["created_at"].str).None? ==>
              r == Err(BadCreatedAt)
    ensures var doc := syntax(data);
            RoundTrips(clock) && r.Ok? && doc.Some? && doc.value.JObject? && "created_at" in doc.value.fields
            && doc.value.fields["created_at"].JString? ==>
              Some(r.value.createdAt) == clock.parse(doc.value.fields["created_at"].str)
    ensures syntax(data).Some? && Plain(syntax(data).value) ==> r != Err(MarshalFailed)
    ensures syntax(data).Some? && Plain(syntax(data).value) && RoundTrips(clock) ==>
              r == DecodeEnvelope(syntax(data).value, clock.parse)
  {
    var doc := syntax(data);
    if doc.None? {
      return Err(MalformedJson);
    }
    var obj := AsObject(doc.value);
    if obj.None? {
      return Err(MalformedJson);
    }
    var raw := obj.value;
    ghost var original := raw;
    ghost var repaired: Option<Instant> := None;
    if "created_at" in raw && raw["created_at"].JString? {
      var createdAt := clock.parse(raw["created_at"].str);
      if createdAt.None? {
        return Err(BadCreatedAt);
      }
      raw := raw["created_at" := JTime(createdAt.value)];
      repaired := Some(createdAt.value);
      if Plain(doc.value) {
        AsObjectOfPlain(doc.value);
        MarshalObjectWithTime(original, "created_at", createdAt.value, clock.format);
        if RoundTrips(clock) {
          DecodeSeesCreatedAtInstant(original, JString(clock.format(createdAt.value)), clock.parse);
        }
      }
    } else if Plain(doc.value) {
      AsObjectOfPlain(doc.value);
      MarshalOfPlain(JObject(raw), clock.format);
    }
    var processed := Marshal(JObject(raw), clock.format);
    if processed.None? {
      return Err(MarshalFailed);
    }
    if repaired.Some? {
      assert raw["created_at"] == JTime(repaired.value);
      assert Marshal(raw["created_at"], clock.format) == Some(JString(clock.format(repaired.value)));
      assert processed.value.fields["created_at"] == JString(clock.format(repaired.value));
    }
    var event := DecodeBaseEvent(processed.value, clock.parse);
    if event.None? {
      return Err(ShapeMismatch);
    }
    return Ok(event.value);
  }

  /** `ParseEventFromString`: `ParseEvent` on the string's bytes. */
  method ParseEventFromString(jsonStr: Bytes, syntax: Bytes -> Option<Json>, clock: TimeCodec)
    returns (r: Result<BaseEvent, ParseError>)
    ensures syntax(jsonStr).None? ==> r == Err(MalformedJson)
    ensures syntax(jsonStr).Some? && AsObject(syntax(jsonStr).value).None? ==> r == Err(MalformedJson)
    ensures var doc := syntax(jsonStr);
            doc.Some? && doc.value.JObject? && "created_at" in doc.value.fields
            && doc.value.fields["created_at"].JString?
            && clock.parse(doc.value.fields["created_at"].str).None? ==>
              r == Err(BadCreatedAt)
    ensures syntax(jsonStr).Some? && Plain(syntax(jsonStr).value) && RoundTrips(clock) ==>
              r == DecodeEnvelope(syntax(jsonStr).value, clock.parse)
  {
    r := ParseEvent(jsonStr, syntax, clock);
  }

  // ---- ValidateEvent ----

  /** The five required-field checks, one cause each. */
  datatype ValidationError = IdRequired | TypeRequired | CategoryRequired | CreatedAtRequired | DeviceRequired

  /** `ValidateEvent`: the first of the required-field checks that fails, in the order id,
      type, category, created_at, device; `Pass` when none does. */
  function ValidateEvent(e: BaseEvent): (r: Outcome<ValidationError>)
    ensures r.Pass? <==>
              e.id != "" && e.eventType != "" && e.category != "" && e.createdAt != ZeroTime
              && e.attributes.device.Some?
  {
    if e.id == "" then Fail(IdRequired)
    else if e.eventType == "" then Fail(TypeRequired)
    else if e.category == "" then Fail(CategoryRequired)
    else if e.createdAt == ZeroTime then Fail(CreatedAtRequired)
    else if e.attributes.device.None? then Fail(DeviceRequired)
    else Pass
  }

  /** The checks as a list of (cause, passed) pairs, in the order they are applied. */
  function RequiredChecks(e: BaseEvent): seq<(ValidationError, bool)>
  {
    [(IdRequired, e.id != ""), (TypeRequired, e.eventType != ""), (CategoryRequired, e.category != ""),
     (CreatedAtRequired, e.createdAt != ZeroTime), (DeviceRequired, e.attributes.device.Some?)]
  }

  /** The cause of the first check in the list that did not pass. */
  function FirstFailing(checks: seq<(ValidationError, bool)>): (r: Outcome<ValidationError>)
    ensures r.Pass? <==> forall i | 0 <= i < |checks| :: checks[i].1
    ensures r.Fail? ==> exists i | 0 <= i < |checks| ::
              !checks[i].1 && checks[i].0 == r.error && forall j | 0 <= j < i :: checks[j].1
  {
    if |checks| == 0 then Pass
    else if !checks[0].1 then Fail(checks[0].0)
    else
      var rest := FirstFailing(checks[1..]);
      assert forall i | 1 <= i < |checks| :: checks[i] == checks[1..][i - 1];
      if rest.Fail? then
        var i :| 0 <= i < |checks[1..]| && !checks[1..][i].1 && checks[1..][i].0 == rest.error
                 && forall j | 0 <= j < i :: checks[1..][j].1;
        assert !checks[i + 1].1 && checks[i + 1].0 == rest.error;
        rest
      else rest
  }

  /** `ValidateEvent` reports exactly the first failing check of the list. */
  lemma ValidateIsFirstFailing(e: BaseEvent)
    ensures ValidateEvent(e) == FirstFailing(RequiredChecks(e))
  {
    var c := RequiredChecks(e);
    forall k | 0 <= k < 5
      ensures FirstFailing(c[k..]) == if c[k].1 then FirstFailing(c[k + 1..]) else Fail(c[k].0)
    {
      assert c[k..][0] == c[k] && c[k..][1..] == c[k + 1..];
    }
    assert FirstFailing(c[5..]) == Pass;
    assert c[0..] == c;
  }

  /** An event with all five fields passes; an event missing exactly one of them fails with
      that field's cause. */
  lemma ValidateNamesTheMissingField(e: BaseEvent)
    requires e.eventType != "" && e.category != "" && e.createdAt != ZeroTime && e.attributes.device.Some?
    ensures e.id != "" ==> ValidateEvent(e) == Pass
    ensures ValidateEvent(e.(id := "")) == Fail(IdRequired)
    ensures e.id != "" ==> ValidateEvent(e.(eventType := "")) == Fail(TypeRequired)
    ensures e.id != "" ==> ValidateEvent(e.(category := "")) == Fail(CategoryRequired)
    ensures e.id != "" ==> ValidateEvent(e.(createdAt := ZeroTime)) == Fail(CreatedAtRequired)
    ensures e.id != "" ==> ValidateEvent(e.(attributes := e.attributes.(device := None))) == Fail(DeviceRequired)
  {
  }

  // ---- Category predicates and projections ----

  predicate IsOrderEvent(e: BaseEvent) { e.category == EventCategoryOrder }
  predicate IsHardwareEvent(e: BaseEvent) { e.category == EventCategoryHardware }
  predicate IsConnectionEvent(e: BaseEvent) { e.category == EventCategoryConnection }
  predicate IsVisionEvent(e: BaseEvent) { e.category == EventCategoryVision }
  predicate IsSystemEvent(e: BaseEvent) { e.category == EventCategorySystem }
  predicate IsTelemetryEvent(e: BaseEvent) { e.category == EventCategoryTelemetry }

  /** How many of the six category predicates hold. */
  function CategoryHits(e: BaseEvent): nat
  {
    (if IsOrderEvent(e) then 1 else 0) + (if IsHardwareEvent(e) then 1 else 0)
    + (if IsConnectionEvent(e) then 1 else 0) + (if IsVisionEvent(e) then 1 else 0)
    + (if IsSystemEvent(e) then 1 else 0) + (if IsTelemetryEvent(e) then 1 else 0)
  }

  /** Each predicate names one of the known categories, so at most one holds of any event, and
      none holds of an event whose category is outside the six (a DMS event, or an unknown
      category such as "EVENT_CATEGORY_HEALTH"). */
  lemma CategoryPredicatesExclusive(e: BaseEvent)
    ensures CategoryHits(e) <= 1
    ensures e.category !in {EventCategoryOrder, EventCategoryHardware, EventCategoryConnection,
                            EventCategoryVision, EventCategorySystem, EventCategoryTelemetry} ==>
              CategoryHits(e) == 0
    ensures e.category == EventCategoryDMS ==> !IsVisionEvent(e) && CategoryHits(e) == 0
  {
    CategoriesDistinct();
  }

  function GetEventCategory(e: BaseEvent): EventCategory { e.category }
  function GetEventType(e: BaseEvent): EventType { e.eventType }
  function GetEventSubType(e: BaseEvent): EventSub { e.sub }
  function GetEventTimestamp(e: BaseEvent): Instant { e.createdAt }

  /** The parser's projections agree with the envelope's own getters. */
  lemma ProjectionsAgreeWithGetters(e: BaseEvent)
    ensures GetEventCategory(e) == e.GetCategory() && GetEventSubType(e) == e.GetSubType()
    ensures GetEventTimestamp(e) == e.GetCreatedAt() && GetEventType(e) == e.eventType
    ensures GetDeviceID(e) == e.GetDeviceID()
  {
  }

  /** `GetDeviceID`: the device's id, or "" without a device. */
  function GetDeviceID(e: BaseEvent): (r: string)
    ensures e.attributes.device.Some? ==> r == e.attributes.device.value.id
    ensures e.attributes.device.None? ==> r == ""
  {
    if e.attributes.device.Some? then e.attributes.device.value.id else ""
  }

  /** `GetDeviceUID`: the device's uid, or "" without a device. */
  function GetDeviceUID(e: BaseEvent): (r: string)
    ensures e.attributes.device.Some? ==> r == e.attributes.device.value.uid
    ensures e.attributes.device.None? ==> r == ""
  {
    if e.attributes.device.Some? then e.attributes.device.value.uid else ""
  }

  /** `GetAccountID`: the device's account id, or "" without a device. */
  function GetAccountID(e: BaseEvent): (r: string)
    ensures e.attributes.device.Some? ==> r == e.attributes.device.value.accountId
    ensures e.attributes.device.None? ==> r == ""
  {
    if e.attributes.device.Some? then e.attributes.device.value.accountId else ""
  }

  // ---- Direct lookups into the telemetry subtree (type assertions, no re-encoding) ----

  /** The telemetry subtree as a `map[string]interface{}`, when it is one. */
  function TelemetryObject(e: BaseEvent): Option<map<string, Json>>
  {
    match TelemetryOf(e)
    case Some(JObject(f)) => Some(f)
    case _ => None
  }

  /** `GetIgnitionStatus`: the telemetry's `"status"` text, when it is text. */
  function GetIgnitionStatus(e: BaseEvent): (r: (Telemetry.IgnitionStatus, bool))
    ensures r.1 <==> TelemetryObject(e).Some? && "status" in TelemetryObject(e).value
                     && TelemetryObject(e).value["status"].JString?
    ensures r.1 ==> r.0 == TelemetryObject(e).value["status"].str
    ensures !r.1 ==> r.0 == ""
  {
    match TelemetryObject(e)
    case Some(t) =>
      if "status" in t && t["status"].JString? then (t["status"].str, true) else ("", false)
    case None => ("", false)
  }

  /** `GetConnectionType`: the `"type"` text of the telemetry's `"connection"` object. */
  function GetConnectionType(e: BaseEvent): (r: (Connection.ConnectionType, bool))
    ensures r.1 <==> TelemetryObject(e).Some? && "connection" in TelemetryObject(e).value
                     && TelemetryObject(e).value["connection"].JObject?
                     && "type" in TelemetryObject(e).value["connection"].fields
                     && TelemetryObject(e).value["connection"].fields["type"].JString?
    ensures r.1 ==> r.0 == TelemetryObject(e).value["connection"].fields["type"].str
    ensures !r.1 ==> r.0 == ""
  {
    match TelemetryObject(e)
    case Some(t) =>
      if "connection" in t && t["connection"].JObject? then
        var conn := t["connection"].fields;
        if "type" in conn && conn["type"].JString? then (conn["type"].str, true) else ("", false)
      else ("", false)
    case None => ("", false)
  }

  /** `GetTelemetryTimestamp`: the telemetry's `"timestamp"` text read as RFC 3339, found only
      when it is text that parses. */
  function GetTelemetryTimestamp(e: BaseEvent, parse: string -> Option<Instant>): (r: (Instant, bool))
    ensures r.1 <==> TelemetryObject(e).Some? && "timestamp" in TelemetryObject(e).value
                     && TelemetryObject(e).value["timestamp"].JString?
                     && parse(TelemetryObject(e).value["timestamp"].str).Some?
    ensures r.1 ==> Some(r.0) == parse(TelemetryObject(e).value["timestamp"].str)
    ensures !r.1 ==> r.0 == ZeroTime
  {
    match TelemetryObject(e)
    case Some(t) =>
      if "timestamp" in t && t["timestamp"].JString? then
        match parse(t["timestamp"].str)
        case Some(ts) => (ts, true)
        case None => (ZeroTime, false)
      else (ZeroTime, false)
    case None => (ZeroTime, false)
  }

  /** On a telemetry document that decodes into `Telemetry`, the three direct lookups agree
      with the decoded record: the ignition status is its status, the connection type is the
      `"type"` of its connection, and a found timestamp is its timestamp. */
  lemma LookupsAgreeWithTelemetry(e: BaseEvent, clock: TimeCodec)
    requires TelemetryOf(e).Some? && Plain(TelemetryOf(e).value)
    requires Telemetry.GetTelemetryData(e, clock).Some?
    ensures GetIgnitionStatus(e).1 ==>
              GetIgnitionStatus(e).0 == Telemetry.GetTelemetryData(e, clock).value.status
    ensures GetConnectionType(e).1 ==>
              Telemetry.GetTelemetryData(e, clock).value.connection == Some(TelemetryObject(e).value["connection"])
    ensures GetTelemetryTimestamp(e, clock.parse).1 ==>
              GetTelemetryTimestamp(e, clock.parse).0 == Telemetry.GetTelemetryData(e, clock).value.timestamp
  {
    Telemetry.GetTelemetryDataRules(e, clock);
  }
}
