/** Telemetry events (`pkg/types/telemetry`): the whole `Data.Telemetry` subtree decoded into
    `Telemetry`, with no key lookup, and its battery metrics. */
module Telemetry {
  import opened Wrappers
  import opened GoJson
  import opened Base
  import opened Extraction

  type IgnitionStatus = string

  const IgnitionStatusOn: IgnitionStatus := "IGNITION_STATUS_ON"
  const IgnitionStatusOff: IgnitionStatus := "IGNITION_STATUS_OFF"

  /** One battery reading; `voltage` is tagged `omitempty`. */
  datatype BatteryMetric = BatteryMetric(component: string, status: string, voltage: real)

  /** The decoded telemetry subtree. The four untyped members and `metrics` (a map of
      pointers) are tagged `omitempty`. */
  datatype Telemetry = Telemetry(
    id: string,
    status: IgnitionStatus,
    hardware: Option<Json>,
    firmwareVersion: Option<Json>,
    connection: Option<Json>,
    connectivity: Option<Json>,
    metrics: Option<map<string, Option<BatteryMetric>>>,
    timestamp: Instant)

  const ZeroBatteryMetric := BatteryMetric("", "", 0.0)
  const ZeroTelemetry := Telemetry("", "", None, None, None, None, None, ZeroTime)

  // ---- json.Unmarshal ----

  function DecodeBatteryMetric(j: Json): (r: Option<BatteryMetric>)
    ensures r.Some? ==> j.JObject? || j.JNull?
    ensures j.JNull? ==> r == Some(ZeroBatteryMetric)
    ensures j.JObject? ==>
              (r.Some? <==>
                 && TextMember(j.fields, "component") && TextMember(j.fields, "status")
                 && ("voltage" in j.fields ==> j.fields["voltage"].JNull? || j.fields["voltage"].JNumber?))
    ensures r.Some? && j.JObject? ==>
              && r.value.component == TextOf(j.fields, "component")
              && r.value.status == TextOf(j.fields, "status")
              && r.value.voltage == (if "voltage" in j.fields && j.fields["voltage"].JNumber?
                                     then j.fields["voltage"].n else 0.0)
  {
    match j
    case JNull => Some(ZeroBatteryMetric)
    case JObject(f) =>
      var component :- DecodeString(Field(f, "component"));
      var status :- DecodeString(Field(f, "status"));
      var voltage :- DecodeNumber(Field(f, "voltage"));
      Some(BatteryMetric(component, status, voltage))
    case _ => None
  }

  /** A value of `metrics`: a `*BatteryMetric`, nil for `null`. */
  function DecodeMetricRef(j: Json): Option<Option<BatteryMetric>>
  {
    DecodeNullable(j, DecodeBatteryMetric)
  }

  function DecodeTelemetry(j: Json, parse: string -> Option<Instant>): (r: Option<Telemetry>)
    ensures r.Some? ==> j.JObject? || j.JNull?
    ensures j.JNull? ==> r == Some(ZeroTelemetry)
    ensures r.Some? && j.JObject? && "id" in j.fields && j.fields["id"].JString? ==>
              r.value.id == j.fields["id"].str
    ensures r.Some? && j.JObject? && "status" in j.fields && j.fields["status"].JString? ==>
              r.value.status == j.fields["status"].str
    ensures r.Some? && j.JObject? && "metrics" in j.fields && j.fields["metrics"].JObject? ==>
              r.value.metrics.Some? && r.value.metrics.value.Keys == j.fields["metrics"].fields.Keys
  {
    match j
    case JNull => Some(ZeroTelemetry)
    case JObject(f) =>
      var id :- DecodeString(Field(f, "id"));
      var status :- DecodeString(Field(f, "status"));
      var metrics :- DecodeMap(Field(f, "metrics"), DecodeMetricRef);
      var timestamp :- DecodeTime(Field(f, "timestamp"), parse);
      Some(Telemetry(id, status, DecodeAny(Field(f, "hardware")), DecodeAny(Field(f, "firmware_version")),
                     DecodeAny(Field(f, "connection")), DecodeAny(Field(f, "connectivity")), metrics, timestamp))
    case _ => None
  }

  // ---- json.Marshal ----

  function EncodeBatteryMetric(x: BatteryMetric): Json
  {
    var f := map["component" := JString(x.component), "status" := JString(x.status)];
    if x.voltage == 0.0 then JObject(f) else JObject(f["voltage" := JNumber(x.voltage)])
  }

  function EncodeMetricRef(p: Option<BatteryMetric>): Json
  {
    EncodeNullable(p, EncodeBatteryMetric)
  }

  const TelemetryKeys: set<string> := {"id", "status", "hardware", "firmware_version", "connection",
    "connectivity", "metrics", "timestamp"}

  function TelemetryMember(x: Telemetry, format: Instant -> string, key: string): Option<Json>
  {
    match key
    case "id" => Some(JString(x.id))
    case "status" => Some(JString(x.status))
    case "hardware" => OmitNil(x.hardware)
    case "firmware_version" => OmitNil(x.firmwareVersion)
    case "connection" => OmitNil(x.connection)
    case "connectivity" => OmitNil(x.connectivity)
    case "metrics" => OmitEmptyMap(x.metrics, EncodeMetricRef)
    case "timestamp" => Some(JString(format(x.timestamp)))
    case _ => None
  }

  function EncodeTelemetry(x: Telemetry, format: Instant -> string): Json
  {
    JObject(map k | k in TelemetryKeys && TelemetryMember(x, format, k).Some? :: TelemetryMember(x, format, k).value)
  }

  predicate CanonicalTelemetry(x: Telemetry)
  {
    && DecodableAny(x.hardware) && DecodableAny(x.firmwareVersion)
    && DecodableAny(x.connection) && DecodableAny(x.connectivity)
    && (x.metrics.None? || x.metrics.value != map[])
  }

  /** Encoding a battery reading and decoding the result gives it back. */
  lemma BatteryMetricRoundTrip(x: BatteryMetric)
    ensures DecodeBatteryMetric(EncodeBatteryMetric(x)) == Some(x)
  {
    var f := EncodeBatteryMetric(x).fields;
    assert Field(f, "component") == Some(JString(x.component));
    assert Field(f, "status") == Some(JString(x.status));
  }

  /** Encoding a telemetry record and decoding the result gives it back. */
  lemma TelemetryRoundTrip(x: Telemetry, clock: TimeCodec)
    requires RoundTrips(clock) && CanonicalTelemetry(x)
    ensures DecodeTelemetry(EncodeTelemetry(x, clock.format), clock.parse) == Some(x)
  {
    var f := EncodeTelemetry(x, clock.format).fields;
    if x.metrics.Some? {
      var m := x.metrics.value;
      forall k | k in m
        ensures DecodeMetricRef(EncodeMetricRef(m[k])) == Some(m[k])
      {
        if m[k].Some? {
          BatteryMetricRoundTrip(m[k].value);
        }
      }
      MapRoundTrip(m, EncodeMetricRef, DecodeMetricRef);
      assert Field(f, "metrics") == Some(EncodeMap(m, EncodeMetricRef));
    }
    assert DecodeMap(Field(f, "metrics"), DecodeMetricRef) == Some(x.metrics);
    assert DecodeTime(Field(f, "timestamp"), clock.parse) == Some(x.timestamp);
  }

  // ---- The accessors ----

  /** `GetTelemetryData`: the whole telemetry subtree, re-encoded and decoded. */
  function GetTelemetryData(e: BaseEvent, clock: TimeCodec): Option<Telemetry>
  {
    ExtractWhole(TelemetryOf(e), (j: Json) => DecodeTelemetry(j, clock.parse), clock.format)
  }

  /** `GetBatteryMetrics`: the decoded metrics map, nil when extraction fails.
      What it yields from a document: `GetTelemetryDataRules` and `GetTelemetryDataRecovers`. */
  function GetBatteryMetrics(e: BaseEvent, clock: TimeCodec): (r: Option<map<string, Option<BatteryMetric>>>)
    ensures GetTelemetryData(e, clock).None? ==> r.None?
    ensures GetTelemetryData(e, clock).Some? ==> r == GetTelemetryData(e, clock).value.metrics
  {
    var telemetry :- GetTelemetryData(e, clock);
    telemetry.metrics
  }

  /** The absence rules of `GetTelemetryData`, and what it yields from a telemetry document:
      the document itself is decoded, with no key looked up. */
  lemma GetTelemetryDataRules(e: BaseEvent, clock: TimeCodec)
    ensures TelemetryOf(e).None? ==> GetTelemetryData(e, clock).None?
    ensures TelemetryOf(e).Some? && !Encodable(TelemetryOf(e).value) ==> GetTelemetryData(e, clock).None?
    ensures TelemetryOf(e).Some? && Plain(TelemetryOf(e).value) ==>
              GetTelemetryData(e, clock) == DecodeTelemetry(TelemetryOf(e).value, clock.parse)
  {
    ExtractWholeRules(TelemetryOf(e), (j: Json) => DecodeTelemetry(j, clock.parse), clock.format);
  }

  /** The battery metrics of a telemetry document keep the document's metric names. */
  lemma BatteryMetricsKeepKeys(e: BaseEvent, clock: TimeCodec)
    requires TelemetryOf(e).Some? && Plain(TelemetryOf(e).value) && TelemetryOf(e).value.JObject?
    requires "metrics" in TelemetryOf(e).value.fields && TelemetryOf(e).value.fields["metrics"].JObject?
    requires GetTelemetryData(e, clock).Some?
    ensures GetBatteryMetrics(e, clock).Some?
    ensures GetBatteryMetrics(e, clock).value.Keys == TelemetryOf(e).value.fields["metrics"].fields.Keys
  {
    GetTelemetryDataRules(e, clock);
  }

  /** A telemetry record written into the telemetry subtree comes back out. */
  lemma GetTelemetryDataRecovers(e: BaseEvent, clock: TimeCodec, x: Telemetry)
    requires RoundTrips(clock) && CanonicalTelemetry(x)
    requires TelemetryOf(e) == Some(EncodeTelemetry(x, clock.format)) && Plain(EncodeTelemetry(x, clock.format))
    ensures GetTelemetryData(e, clock) == Some(x)
    ensures GetBatteryMetrics(e, clock) == x.metrics
  {
    GetTelemetryDataRules(e, clock);
    TelemetryRoundTrip(x, clock);
  }
}
