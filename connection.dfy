/** Connection events (`pkg/types/connection`): the `"connection"` member of
    `Data.StandaloneEvent` decoded into `ConnectionEventData`, and its Wi-Fi and SIM card
    projections. */
module Connection {
  import opened Wrappers
  import opened GoJson
  import opened Base
  import opened Extraction

  type ConnectionType = string

  const ConnectionTypeWiFi: ConnectionType := "CONNECTION_TYPE_WIFI"
  const ConnectionTypeCellular: ConnectionType := "CONNECTION_TYPE_CELLULAR"
  const ConnectionTypeGPS: ConnectionType := "CONNECTION_TYPE_GPS"

  /** A name and a status: the shape shared by `WifiConnection` and `SimCard`. */
  datatype NameStatus = NameStatus(name: string, status: string)

  type WifiConnection = NameStatus
  type SimCard = NameStatus

  /** The leaf record of the `"connection"` key; both pointers are tagged `omitempty`. */
  datatype ConnectionEventData = ConnectionEventData(
    id: string,
    eventName: string,
    wifiConnection: Option<WifiConnection>,
    simCard: Option<SimCard>,
    timestamp: Instant)

  const ZeroNameStatus := NameStatus("", "")
  const ZeroConnectionEventData := ConnectionEventData("", "", None, None, ZeroTime)

  // ---- json.Unmarshal / json.Marshal ----

  function DecodeNameStatus(j: Json): (r: Option<NameStatus>)
    ensures r.Some? ==> j.JObject? || j.JNull?
    ensures j.JNull? ==> r == Some(ZeroNameStatus)
    ensures r.Some? <==> j.JNull? || (j.JObject? && TextMember(j.fields, "name") && TextMember(j.fields, "status"))
    ensures r.Some? && j.JObject? ==>
              r.value.name == TextOf(j.fields, "name") && r.value.status == TextOf(j.fields, "status")
  {
    match j
    case JNull => Some(ZeroNameStatus)
    case JObject(f) =>
      var name :- DecodeString(Field(f, "name"));
      var status :- DecodeString(Field(f, "status"));
      Some(NameStatus(name, status))
    case _ => None
  }

  function DecodeConnectionEventData(j: Json, parse: string -> Option<Instant>): (r: Option<ConnectionEventData>)
    ensures r.Some? ==> j.JObject? || j.JNull?
    ensures j.JNull? ==> r == Some(ZeroConnectionEventData)
    ensures r.Some? && j.JObject? && "id" in j.fields && j.fields["id"].JString? ==>
              r.value.id == j.fields["id"].str
    ensures r.Some? && j.JObject? && "event_name" in j.fields && j.fields["event_name"].JString? ==>
              r.value.eventName == j.fields["event_name"].str
    ensures r.Some? && j.JObject? && ("wifi_connection" !in j.fields || j.fields["wifi_connection"].JNull?) ==>
              r.value.wifiConnection.None?
    ensures r.Some? && j.JObject? && ("sim_card" !in j.fields || j.fields["sim_card"].JNull?) ==>
              r.value.simCard.None?
    ensures r.Some? && j.JObject? && "wifi_connection" in j.fields && !j.fields["wifi_connection"].JNull? ==>
              r.value.wifiConnection.Some? && r.value.wifiConnection == DecodeNameStatus(j.fields["wifi_connection"])
    ensures r.Some? && j.JObject? && "sim_card" in j.fields && !j.fields["sim_card"].JNull? ==>
              r.value.simCard.Some? && r.value.simCard == DecodeNameStatus(j.fields["sim_card"])
  {
    match j
    case JNull => Some(ZeroConnectionEventData)
    case JObject(f) =>
      var id :- DecodeString(Field(f, "id"));
      var eventName :- DecodeString(Field(f, "event_name"));
      var wifiConnection :- DecodePointer(Field(f, "wifi_connection"), DecodeNameStatus);
      var simCard :- DecodePointer(Field(f, "sim_card"), DecodeNameStatus);
      var timestamp :- DecodeTime(Field(f, "timestamp"), parse);
      Some(ConnectionEventData(id, eventName, wifiConnection, simCard, timestamp))
    case _ => None
  }

  function EncodeNameStatus(x: NameStatus): Json
  {
    JObject(map["name" := JString(x.name), "status" := JString(x.status)])
  }

  const ConnectionEventDataKeys: set<string> := {"id", "event_name", "wifi_connection", "sim_card", "timestamp"}

  function ConnectionEventDataMember(x: ConnectionEventData, format: Instant -> string, key: string): Option<Json>
  {
    match key
    case "id" => Some(JString(x.id))
    case "event_name" => Some(JString(x.eventName))
    case "wifi_connection" => OmitNilPointer(x.wifiConnection, EncodeNameStatus)
    case "sim_card" => OmitNilPointer(x.simCard, EncodeNameStatus)
    case "timestamp" => Some(JString(format(x.timestamp)))
    case _ => None
  }

  function EncodeConnectionEventData(x: ConnectionEventData, format: Instant -> string): Json
  {
    JObject(map k | k in ConnectionEventDataKeys && ConnectionEventDataMember(x, format, k).Some? :: ConnectionEventDataMember(x, format, k).value)
  }

  /** Encoding a name-and-status record and decoding the result gives it back. */
  lemma NameStatusRoundTrip(x: NameStatus)
    ensures DecodeNameStatus(EncodeNameStatus(x)) == Some(x)
  {
    var f := EncodeNameStatus(x).fields;
    assert Field(f, "name") == Some(JString(x.name));
  }

  /** Encoding a connection record and decoding the result gives it back. */
  lemma ConnectionEventDataRoundTrip(x: ConnectionEventData, clock: TimeCodec)
    requires RoundTrips(clock)
    ensures DecodeConnectionEventData(EncodeConnectionEventData(x, clock.format), clock.parse) == Some(x)
  {
    var f := EncodeConnectionEventData(x, clock.format).fields;
    if x.wifiConnection.Some? {
      NameStatusRoundTrip(x.wifiConnection.value);
    }
    if x.simCard.Some? {
      NameStatusRoundTrip(x.simCard.value);
    }
    assert DecodePointer(Field(f, "wifi_connection"), DecodeNameStatus) == Some(x.wifiConnection);
    assert DecodePointer(Field(f, "sim_card"), DecodeNameStatus) == Some(x.simCard);
    assert DecodeTime(Field(f, "timestamp"), clock.parse) == Some(x.timestamp);
  }

  // ---- The accessors ----

  /** `GetConnectionData`: the `"connection"` member of the standalone subtree. */
  function GetConnectionData(e: BaseEvent, clock: TimeCodec): Option<ConnectionEventData>
  {
    ExtractKeyed(StandaloneOf(e), "connection", (j: Json) => DecodeConnectionEventData(j, clock.parse), clock.format)
  }

  /** `GetWifiConnection`: the connection record's Wi-Fi link, absent when extraction fails.
      What it yields from a document: `GetConnectionDataRules` and `GetConnectionDataRecovers`. */
  function GetWifiConnection(e: BaseEvent, clock: TimeCodec): (r: Option<WifiConnection>)
    ensures GetConnectionData(e, clock).None? ==> r.None?
    ensures GetConnectionData(e, clock).Some? ==> r == GetConnectionData(e, clock).value.wifiConnection
  {
    var conn :- GetConnectionData(e, clock);
    conn.wifiConnection
  }

  /** `GetSimCard`: the connection record's SIM card, absent when extraction fails.
      What it yields from a document: `GetConnectionDataRules` and `GetConnectionDataRecovers`. */
  function GetSimCard(e: BaseEvent, clock: TimeCodec): (r: Option<SimCard>)
    ensures GetConnectionData(e, clock).None? ==> r.None?
    ensures GetConnectionData(e, clock).Some? ==> r == GetConnectionData(e, clock).value.simCard
  {
    var conn :- GetConnectionData(e, clock);
    conn.simCard
  }

  /** The absence rules of `GetConnectionData`, and what it yields from a standalone document. */
  lemma GetConnectionDataRules(e: BaseEvent, clock: TimeCodec)
    ensures StandaloneOf(e).None? ==> GetConnectionData(e, clock).None?
    ensures GetConnectionData(e, clock).Some? ==>
              && StandaloneOf(e).Some? && StandaloneOf(e).value.JObject?
              && Encodable(StandaloneOf(e).value) && "connection" in StandaloneOf(e).value.fields
    ensures var p := StandaloneOf(e);
            p.Some? && p.value.JObject? && Plain(p.value) && "connection" in p.value.fields ==>
              GetConnectionData(e, clock) == DecodeConnectionEventData(p.value.fields["connection"], clock.parse)
    ensures var p := StandaloneOf(e);
            p.Some? && p.value.JObject? && Plain(p.value) && "connection" in p.value.fields
            && p.value.fields["connection"] == JNull ==>
              GetConnectionData(e, clock) == Some(ZeroConnectionEventData)
  {
    var decode := (j: Json) => DecodeConnectionEventData(j, clock.parse);
    ExtractKeyedIsDirect(StandaloneOf(e), "connection", decode, clock.format);
    var p := StandaloneOf(e);
    if p.Some? && p.value.JObject? && Plain(p.value) {
      ExtractKeyedOfPlain(p.value.fields, "connection", decode, clock.format);
    }
  }

  /** A connection record written into the standalone subtree comes back out, Wi-Fi link and
      SIM card included. */
  lemma GetConnectionDataRecovers(e: BaseEvent, clock: TimeCodec, m: map<string, Json>, x: ConnectionEventData)
    requires RoundTrips(clock)
    requires StandaloneOf(e) == Some(JObject(m)) && Plain(JObject(m))
    requires "connection" in m && m["connection"] == EncodeConnectionEventData(x, clock.format)
    ensures GetConnectionData(e, clock) == Some(x)
    ensures GetWifiConnection(e, clock) == x.wifiConnection && GetSimCard(e, clock) == x.simCard
  {
    GetConnectionDataRules(e, clock);
    ConnectionEventDataRoundTrip(x, clock);
  }
}
