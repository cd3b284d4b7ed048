/** Hardware events (`pkg/types/hardware`): the system and alert records of
    `Data.StandaloneEvent`, read by the same chain as the system and alert packages, and the
    event name, which prefers the alert record to the system record. The Go package declares
    its own copies of the record types; their shapes and JSON tags are those of
    `System.SystemEventData` and `Alert.AlertEventData`, which are used here. */
module Hardware {
  import opened Wrappers
  import opened GoJson
  import opened Base
  import opened Extraction
  import System
  import Alert

  /** `GetSystemEventData`: the `"system"` member of the standalone subtree. */
  function GetSystemEventData(e: BaseEvent, clock: TimeCodec): Option<System.SystemEventData>
  {
    ExtractKeyed(StandaloneOf(e), "system", (j: Json) => System.DecodeSystemEventData(j, clock.parse), clock.format)
  }

  /** `GetAlertEventData`: the `"alert"` member of the standalone subtree. */
  function GetAlertEventData(e: BaseEvent, clock: TimeCodec): Option<Alert.AlertEventData>
  {
    ExtractKeyed(StandaloneOf(e), "alert", (j: Json) => Alert.DecodeAlertEventData(j, clock.parse), clock.format)
  }

  /** The hardware extractors agree with the system and alert packages on every event. */
  lemma ExtractorsAgree(e: BaseEvent, clock: TimeCodec)
    ensures GetSystemEventData(e, clock) == System.GetSystemData(e, clock)
    ensures GetAlertEventData(e, clock) == Alert.GetAlertEventData(e, clock)
  {
    var decodeSystem := (j: Json) => System.DecodeSystemEventData(j, clock.parse);
    var decodeAlert := (j: Json) => Alert.DecodeAlertEventData(j, clock.parse);
    ExtractKeyedIsDirect(StandaloneOf(e), "system", decodeSystem, clock.format);
    ExtractKeyedIsDirect(StandaloneOf(e), "alert", decodeAlert, clock.format);
  }

  /** `GetEventName`: the alert record's name whenever the alert extraction succeeds (even an
      empty name), otherwise the system record's name, otherwise "". */
  function GetEventName(e: BaseEvent, clock: TimeCodec): (r: string)
    ensures GetAlertEventData(e, clock).Some? ==> r == GetAlertEventData(e, clock).value.eventName
    ensures GetAlertEventData(e, clock).None? && GetSystemEventData(e, clock).Some? ==>
              r == GetSystemEventData(e, clock).value.eventName
    ensures GetAlertEventData(e, clock).None? && GetSystemEventData(e, clock).None? ==> r == ""
  {
    match GetAlertEventData(e, clock)
    case Some(alert) => alert.eventName
    case None =>
      match GetSystemEventData(e, clock)
      case Some(system) => system.eventName
      case None => ""
  }

  /** The precedence read off a standalone document: a decodable `"alert"` member names the
      event whatever `"system"` holds; failing that, a decodable `"system"` member names it;
      otherwise the name is "". */
  lemma EventNameFromDocument(e: BaseEvent, clock: TimeCodec)
    requires StandaloneOf(e).Some? && StandaloneOf(e).value.JObject? && Plain(StandaloneOf(e).value)
    ensures var m := StandaloneOf(e).value.fields;
            "alert" in m && Alert.DecodeAlertEventData(m["alert"], clock.parse).Some? ==>
              GetEventName(e, clock) == Alert.DecodeAlertEventData(m["alert"], clock.parse).value.eventName
    ensures var m := StandaloneOf(e).value.fields;
            ("alert" !in m || Alert.DecodeAlertEventData(m["alert"], clock.parse).None?)
            && "system" in m && System.DecodeSystemEventData(m["system"], clock.parse).Some? ==>
              GetEventName(e, clock) == System.DecodeSystemEventData(m["system"], clock.parse).value.eventName
    ensures var m := StandaloneOf(e).value.fields;
            ("alert" !in m || Alert.DecodeAlertEventData(m["alert"], clock.parse).None?)
            && ("system" !in m || System.DecodeSystemEventData(m["system"], clock.parse).None?) ==>
              GetEventName(e, clock) == ""
  {
    var m := StandaloneOf(e).value.fields;
    ExtractKeyedOfPlain(m, "system", (j: Json) => System.DecodeSystemEventData(j, clock.parse), clock.format);
    ExtractKeyedOfPlain(m, "alert", (j: Json) => Alert.DecodeAlertEventData(j, clock.parse), clock.format);
  }

  /** An alert record present in the standalone document names the event even when a system
      record is present too. */
  lemma AlertNameWins(e: BaseEvent, clock: TimeCodec, m: map<string, Json>,
                      alert: Alert.AlertEventData, system: System.SystemEventData)
    requires RoundTrips(clock) && Alert.CanonicalAlertEventData(alert) && System.CanonicalSystemEventData(system)
    requires StandaloneOf(e) == Some(JObject(m)) && Plain(JObject(m))
    requires "alert" in m && m["alert"] == Alert.EncodeAlertEventData(alert, clock.format)
    requires "system" in m && m["system"] == System.EncodeSystemEventData(system, clock.format)
    ensures GetEventName(e, clock) == alert.eventName
  {
    ExtractorsAgree(e, clock);
    Alert.GetAlertEventDataRecovers(e, clock, m, alert);
  }
}
