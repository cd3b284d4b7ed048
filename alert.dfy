/** Alert events (`pkg/types/alert`): the level named by the event's sub-type, and the
    `"alert"` member of `Data.StandaloneEvent` decoded into `AlertEventData`. The hardware
    package declares the same record shape and reuses it from here. */
module Alert {
  import opened Wrappers
  import opened GoJson
  import opened Base
  import opened Extraction

  /** The leaf record of the `"alert"` key; the four card maps are tagged `omitempty`. */
  datatype AlertEventData = AlertEventData(
    id: string,
    eventName: string,
    timestamp: Instant,
    sdCardMounted: Option<map<string, Json>>,
    sdCardUnmounted: Option<map<string, Json>>,
    simCardInserted: Option<map<string, Json>>,
    simCardRemoved: Option<map<string, Json>>)

  const ZeroAlertEventData := AlertEventData("", "", ZeroTime, None, None, None, None)

  /** `GetAlertLevel`: the three alert subs name their level, every other sub is "unknown". */
  function GetAlertLevel(e: BaseEvent): string
  {
    if e.sub == EventSubAlertCritical then "critical"
    else if e.sub == EventSubAlertWarning then "warning"
    else if e.sub == EventSubAlertInfo then "info"
    else "unknown"
  }

  /** The level table, stated as a lookup: each alert sub maps to its own level, and the level
      is "unknown" exactly when the sub is none of them. Only the sub is read. */
  lemma AlertLevelTable(e: BaseEvent, other: BaseEvent)
    ensures e.sub == EventSubAlertCritical <==> GetAlertLevel(e) == "critical"
    ensures e.sub == EventSubAlertWarning <==> GetAlertLevel(e) == "warning"
    ensures e.sub == EventSubAlertInfo <==> GetAlertLevel(e) == "info"
    ensures e.sub !in {EventSubAlertCritical, EventSubAlertWarning, EventSubAlertInfo} <==>
              GetAlertLevel(e) == "unknown"
    ensures GetAlertLevel(e) in {"critical", "warning", "info", "unknown"}
    ensures other.sub == e.sub ==> GetAlertLevel(other) == GetAlertLevel(e)
  {
    AlertSubsDistinct();
  }

  // ---- json.Unmarshal / json.Marshal ----

  function DecodeAlertEventData(j: Json, parse: string -> Option<Instant>): (r: Option<AlertEventData>)
    ensures r.Some? ==> j.JObject? || j.JNull?
    ensures j.JNull? ==> r == Some(ZeroAlertEventData)
    ensures r.Some? && j.JObject? && "id" in j.fields && j.fields["id"].JString? ==>
              r.value.id == j.fields["id"].str
    ensures r.Some? && j.JObject? && "event_name" in j.fields && j.fields["event_name"].JString? ==>
              r.value.eventName == j.fields["event_name"].str
  {
    match j
    case JNull => Some(ZeroAlertEventData)
    case JObject(f) =>
      var id :- DecodeString(Field(f, "id"));
      var eventName :- DecodeString(Field(f, "event_name"));
      var timestamp :- DecodeTime(Field(f, "timestamp"), parse);
      var sdCardMounted :- DecodeObject(Field(f, "sd_card_mounted"));
      var sdCardUnmounted :- DecodeObject(Field(f, "sd_card_unmounted"));
      var simCardInserted :- DecodeObject(Field(f, "sim_card_inserted"));
      var simCardRemoved :- DecodeObject(Field(f, "sim_card_removed"));
      Some(AlertEventData(id, eventName, timestamp, sdCardMounted, sdCardUnmounted,
                          simCardInserted, simCardRemoved))
    case _ => None
  }

  const AlertEventDataKeys: set<string> := {"id", "event_name", "timestamp", "sd_card_mounted",
    "sd_card_unmounted", "sim_card_inserted", "sim_card_removed"}

  function AlertEventDataMember(x: AlertEventData, format: Instant -> string, key: string): Option<Json>
  {
    match key
    case "id" => Some(JString(x.id))
    case "event_name" => Some(JString(x.eventName))
    case "timestamp" => Some(JString(format(x.timestamp)))
    case "sd_card_mounted" => OmitEmptyObject(x.sdCardMounted)
    case "sd_card_unmounted" => OmitEmptyObject(x.sdCardUnmounted)
    case "sim_card_inserted" => OmitEmptyObject(x.simCardInserted)
    case "sim_card_removed" => OmitEmptyObject(x.simCardRemoved)
    case _ => None
  }

  function EncodeAlertEventData(x: AlertEventData, format: Instant -> string): Json
  {
    JObject(map k | k in AlertEventDataKeys && AlertEventDataMember(x, format, k).Some? :: AlertEventDataMember(x, format, k).value)
  }

  predicate CanonicalAlertEventData(x: AlertEventData)
  {
    KeptObject(x.sdCardMounted) && KeptObject(x.sdCardUnmounted)
    && KeptObject(x.simCardInserted) && KeptObject(x.simCardRemoved)
  }

  /** Encoding an alert record and decoding the result gives it back. */
  lemma AlertEventDataRoundTrip(x: AlertEventData, clock: TimeCodec)
    requires RoundTrips(clock) && CanonicalAlertEventData(x)
    ensures DecodeAlertEventData(EncodeAlertEventData(x, clock.format), clock.parse) == Some(x)
  {
    var f := EncodeAlertEventData(x, clock.format).fields;
    assert DecodeTime(Field(f, "timestamp"), clock.parse) == Some(x.timestamp);
  }

  // ---- The accessors ----

  /** `GetAlertEventData`: the `"alert"` member of the standalone subtree. */
  function GetAlertEventData(e: BaseEvent, clock: TimeCodec): Option<AlertEventData>
  {
    ExtractKeyed(StandaloneOf(e), "alert", (j: Json) => DecodeAlertEventData(j, clock.parse), clock.format)
  }

  /** `GetEventName`: the alert record's name, or "" when extraction fails.
      What it yields from a document: `GetAlertEventDataRules` and `GetAlertEventDataRecovers`. */
  function GetEventName(e: BaseEvent, clock: TimeCodec): (r: string)
    ensures GetAlertEventData(e, clock).None? ==> r == ""
    ensures GetAlertEventData(e, clock).Some? ==> r == GetAlertEventData(e, clock).value.eventName
  {
    match GetAlertEventData(e, clock)
    case Some(alert) => alert.eventName
    case None => ""
  }

  /** The absence rules of `GetAlertEventData`, and what it yields from a standalone document. */
  lemma GetAlertEventDataRules(e: BaseEvent, clock: TimeCodec)
    ensures StandaloneOf(e).None? ==> GetAlertEventData(e, clock).None?
    ensures GetAlertEventData(e, clock).Some? ==>
              && StandaloneOf(e).Some? && StandaloneOf(e).value.JObject?
              && Encodable(StandaloneOf(e).value) && "alert" in StandaloneOf(e).value.fields
    ensures var p := StandaloneOf(e);
            p.Some? && p.value.JObject? && Plain(p.value) && "alert" in p.value.fields ==>
              GetAlertEventData(e, clock) == DecodeAlertEventData(p.value.fields["alert"], clock.parse)
    ensures var p := StandaloneOf(e);
            p.Some? && p.value.JObject? && Plain(p.value) && "alert" in p.value.fields
            && p.value.fields["alert"] == JNull ==>
              GetAlertEventData(e, clock) == Some(ZeroAlertEventData)
  {
    var decode := (j: Json) => DecodeAlertEventData(j, clock.parse);
    ExtractKeyedIsDirect(StandaloneOf(e), "alert", decode, clock.format);
    var p := StandaloneOf(e);
    if p.Some? && p.value.JObject? && Plain(p.value) {
      ExtractKeyedOfPlain(p.value.fields, "alert", decode, clock.format);
    }
  }

  /** An alert record written into the standalone subtree by a Go producer comes back out. */
  lemma GetAlertEventDataRecovers(e: BaseEvent, clock: TimeCodec, m: map<string, Json>, x: AlertEventData)
    requires RoundTrips(clock) && CanonicalAlertEventData(x)
    requires StandaloneOf(e) == Some(JObject(m)) && Plain(JObject(m))
    requires "alert" in m && m["alert"] == EncodeAlertEventData(x, clock.format)
    ensures GetAlertEventData(e, clock) == Some(x)
  {
    GetAlertEventDataRules(e, clock);
    AlertEventDataRoundTrip(x, clock);
  }
}
