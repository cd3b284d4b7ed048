/** Driver-behaviour events (`pkg/types/driverbehavior`): the `"driver_behavior"` member of
    `Data.TripEvent` decoded into `DriverBehaviorEventData`, and its projections. */
module DriverBehavior {
  import opened Wrappers
  import opened GoJson
  import opened Base
  import opened Extraction

  /** The leaf record of the `"driver_behavior"` key; the seven maps are tagged `omitempty`. */
  datatype DriverBehaviorEventData = DriverBehaviorEventData(
    id: string,
    eventName: string,
    timestamp: Instant,
    accelerationHarsh: Option<map<string, Json>>,
    brakingHarsh: Option<map<string, Json>>,
    maxSpeedFault: Option<map<string, Json>>,
    normalSpeedReturn: Option<map<string, Json>>,
    persistentMaxSpeed: Option<map<string, Json>>,
    sharpTurn: Option<map<string, Json>>,
    startOvertaking: Option<map<string, Json>>)

  const ZeroDriverBehaviorEventData := DriverBehaviorEventData("", "", ZeroTime, None, None, None, None, None, None, None)

  // ---- json.Unmarshal / json.Marshal ----

  function DecodeDriverBehaviorEventData(j: Json, parse: string -> Option<Instant>): (r: Option<DriverBehaviorEventData>)
    ensures r.Some? ==> j.JObject? || j.JNull?
    ensures j.JNull? ==> r == Some(ZeroDriverBehaviorEventData)
    ensures r.Some? && j.JObject? && "id" in j.fields && j.fields["id"].JString? ==>
              r.value.id == j.fields["id"].str
    ensures r.Some? && j.JObject? && "event_name" in j.fields && j.fields["event_name"].JString? ==>
              r.value.eventName == j.fields["event_name"].str
    ensures r.Some? && j.JObject? && "acceleration_harsh" in j.fields && j.fields["acceleration_harsh"].JObject? ==>
              r.value.accelerationHarsh == Some(j.fields["acceleration_harsh"].fields)
    ensures r.Some? && j.JObject? && "braking_harsh" in j.fields && j.fields["braking_harsh"].JObject? ==>
              r.value.brakingHarsh == Some(j.fields["braking_harsh"].fields)
  {
    match j
    case JNull => Some(ZeroDriverBehaviorEventData)
    case JObject(f) =>
      var id :- DecodeString(Field(f, "id"));
      var eventName :- DecodeString(Field(f, "event_name"));
      var timestamp :- DecodeTime(Field(f, "timestamp"), parse);
      var accelerationHarsh :- DecodeObject(Field(f, "acceleration_harsh"));
      var brakingHarsh :- DecodeObject(Field(f, "braking_harsh"));
      var maxSpeedFault :- DecodeObject(Field(f, "max_speed_fault"));
      var normalSpeedReturn :- DecodeObject(Field(f, "normal_speed_return"));
      var persistentMaxSpeed :- DecodeObject(Field(f, "persistent_max_speed"));
      var sharpTurn :- DecodeObject(Field(f, "sharp_turn"));
      var startOvertaking :- DecodeObject(Field(f, "start_overtaking"));
      Some(DriverBehaviorEventData(id, eventName, timestamp, accelerationHarsh, brakingHarsh,
                                   maxSpeedFault, normalSpeedReturn, persistentMaxSpeed, sharpTurn,
                                   startOvertaking))
    case _ => None
  }

  const DriverBehaviorEventDataKeys: set<string> := {"id", "event_name", "timestamp", "acceleration_harsh",
    "braking_harsh", "max_speed_fault", "normal_speed_return", "persistent_max_speed", "sharp_turn",
    "start_overtaking"}

  function DriverBehaviorEventDataMember(x: DriverBehaviorEventData, format: Instant -> string, key: string): Option<Json>
  {
    match key
    case "id" => Some(JString(x.id))
    case "event_name" => Some(JString(x.eventName))
    case "timestamp" => Some(JString(format(x.timestamp)))
    case "acceleration_harsh" => OmitEmptyObject(x.accelerationHarsh)
    case "braking_harsh" => OmitEmptyObject(x.brakingHarsh)
    case "max_speed_fault" => OmitEmptyObject(x.maxSpeedFault)
    case "normal_speed_return" => OmitEmptyObject(x.normalSpeedReturn)
    case "persistent_max_speed" => OmitEmptyObject(x.persistentMaxSpeed)
    case "sharp_turn" => OmitEmptyObject(x.sharpTurn)
    case "start_overtaking" => OmitEmptyObject(x.startOvertaking)
    case _ => None
  }

  function EncodeDriverBehaviorEventData(x: DriverBehaviorEventData, format: Instant -> string): Json
  {
    JObject(map k | k in DriverBehaviorEventDataKeys && DriverBehaviorEventDataMember(x, format, k).Some? ::
                      DriverBehaviorEventDataMember(x, format, k).value)
  }

  predicate CanonicalDriverBehaviorEventData(x: DriverBehaviorEventData)
  {
    && KeptObject(x.accelerationHarsh) && KeptObject(x.brakingHarsh) && KeptObject(x.maxSpeedFault)
    && KeptObject(x.normalSpeedReturn) && KeptObject(x.persistentMaxSpeed) && KeptObject(x.sharpTurn)
    && KeptObject(x.startOvertaking)
  }

  // The round trip is proved member by member, in two halves, and then assembled.

  lemma DecodeFromMembers(x: DriverBehaviorEventData, f: map<string, Json>, parse: string -> Option<Instant>)
    requires DecodeString(Field(f, "id")) == Some(x.id)
    requires DecodeString(Field(f, "event_name")) == Some(x.eventName)
    requires DecodeTime(Field(f, "timestamp"), parse) == Some(x.timestamp)
    requires DecodeObject(Field(f, "acceleration_harsh")) == Some(x.accelerationHarsh)
    requires DecodeObject(Field(f, "braking_harsh")) == Some(x.brakingHarsh)
    requires DecodeObject(Field(f, "max_speed_fault")) == Some(x.maxSpeedFault)
    requires DecodeObject(Field(f, "normal_speed_return")) == Some(x.normalSpeedReturn)
    requires DecodeObject(Field(f, "persistent_max_speed")) == Some(x.persistentMaxSpeed)
    requires DecodeObject(Field(f, "sharp_turn")) == Some(x.sharpTurn)
    requires DecodeObject(Field(f, "start_overtaking")) == Some(x.startOvertaking)
    ensures DecodeDriverBehaviorEventData(JObject(f), parse) == Some(x)
  {
  }

  lemma EncodedHead(x: DriverBehaviorEventData, clock: TimeCodec)
    requires RoundTrips(clock) && CanonicalDriverBehaviorEventData(x)
    ensures DecodeString(Field(EncodeDriverBehaviorEventData(x, clock.format).fields, "id")) == Some(x.id)
    ensures DecodeString(Field(EncodeDriverBehaviorEventData(x, clock.format).fields, "event_name")) == Some(x.eventName)
    ensures DecodeTime(Field(EncodeDriverBehaviorEventData(x, clock.format).fields, "timestamp"), clock.parse) == Some(x.timestamp)
    ensures DecodeObject(Field(EncodeDriverBehaviorEventData(x, clock.format).fields, "acceleration_harsh")) == Some(x.accelerationHarsh)
    ensures DecodeObject(Field(EncodeDriverBehaviorEventData(x, clock.format).fields, "braking_harsh")) == Some(x.brakingHarsh)
  {
  }

  lemma EncodedTail(x: DriverBehaviorEventData, clock: TimeCodec)
    requires CanonicalDriverBehaviorEventData(x)
    ensures DecodeObject(Field(EncodeDriverBehaviorEventData(x, clock.format).fields, "max_speed_fault")) == Some(x.maxSpeedFault)
    ensures DecodeObject(Field(EncodeDriverBehaviorEventData(x, clock.format).fields, "normal_speed_return")) == Some(x.normalSpeedReturn)
    ensures DecodeObject(Field(EncodeDriverBehaviorEventData(x, clock.format).fields, "persistent_max_speed")) == Some(x.persistentMaxSpeed)
    ensures DecodeObject(Field(EncodeDriverBehaviorEventData(x, clock.format).fields, "sharp_turn")) == Some(x.sharpTurn)
    ensures DecodeObject(Field(EncodeDriverBehaviorEventData(x, clock.format).fields, "start_overtaking")) == Some(x.startOvertaking)
  {
  }

  /** Encoding a driver-behaviour record and decoding the result gives it back. */
  lemma DriverBehaviorEventDataRoundTrip(x: DriverBehaviorEventData, clock: TimeCodec)
    requires RoundTrips(clock) && CanonicalDriverBehaviorEventData(x)
    ensures DecodeDriverBehaviorEventData(EncodeDriverBehaviorEventData(x, clock.format), clock.parse) == Some(x)
  {
    EncodedHead(x, clock);
    EncodedTail(x, clock);
    DecodeFromMembers(x, EncodeDriverBehaviorEventData(x, clock.format).fields, clock.parse);
  }

  // ---- The accessors ----

  /** `GetDriverBehaviorData`: the `"driver_behavior"` member of the trip subtree. */
  function GetDriverBehaviorData(e: BaseEvent, clock: TimeCodec): Option<DriverBehaviorEventData>
  {
    ExtractKeyed(TripOf(e), "driver_behavior", (j: Json) => DecodeDriverBehaviorEventData(j, clock.parse), clock.format)
  }

  /** `GetHarshAccelerationData`: the harsh-acceleration map, nil when extraction fails.
      What it yields from a document: `GetDriverBehaviorDataRules` and `GetDriverBehaviorDataRecovers`. */
  function GetHarshAccelerationData(e: BaseEvent, clock: TimeCodec): (r: Option<map<string, Json>>)
    ensures GetDriverBehaviorData(e, clock).None? ==> r.None?
    ensures GetDriverBehaviorData(e, clock).Some? ==> r == GetDriverBehaviorData(e, clock).value.accelerationHarsh
  {
    var db :- GetDriverBehaviorData(e, clock);
    db.accelerationHarsh
  }

  /** `GetHarshBrakingData`: the harsh-braking map, nil when extraction fails.
      What it yields from a document: `GetDriverBehaviorDataRules` and `GetDriverBehaviorDataRecovers`. */
  function GetHarshBrakingData(e: BaseEvent, clock: TimeCodec): (r: Option<map<string, Json>>)
    ensures GetDriverBehaviorData(e, clock).None? ==> r.None?
    ensures GetDriverBehaviorData(e, clock).Some? ==> r == GetDriverBehaviorData(e, clock).value.brakingHarsh
  {
    var db :- GetDriverBehaviorData(e, clock);
    db.brakingHarsh
  }

  /** `GetEventName`: the record's name, or "" when extraction fails.
      What it yields from a document: `GetDriverBehaviorDataRules` and `GetDriverBehaviorDataRecovers`. */
  function GetEventName(e: BaseEvent, clock: TimeCodec): (r: string)
    ensures GetDriverBehaviorData(e, clock).None? ==> r == ""
    ensures GetDriverBehaviorData(e, clock).Some? ==> r == GetDriverBehaviorData(e, clock).value.eventName
  {
    match GetDriverBehaviorData(e, clock)
    case Some(db) => db.eventName
    case None => ""
  }

  /** The absence rules of `GetDriverBehaviorData`, and what it yields from a trip document. */
  lemma GetDriverBehaviorDataRules(e: BaseEvent, clock: TimeCodec)
    ensures TripOf(e).None? ==> GetDriverBehaviorData(e, clock).None?
    ensures GetDriverBehaviorData(e, clock).Some? ==>
              && TripOf(e).Some? && TripOf(e).value.JObject?
              && Encodable(TripOf(e).value) && "driver_behavior" in TripOf(e).value.fields
    ensures var p := TripOf(e);
            p.Some? && p.value.JObject? && Plain(p.value) && "driver_behavior" in p.value.fields ==>
              GetDriverBehaviorData(e, clock) == DecodeDriverBehaviorEventData(p.value.fields["driver_behavior"], clock.parse)
    ensures var p := TripOf(e);
            p.Some? && p.value.JObject? && Plain(p.value) && "driver_behavior" in p.value.fields
            && p.value.fields["driver_behavior"] == JNull ==>
              GetDriverBehaviorData(e, clock) == Some(ZeroDriverBehaviorEventData)
  {
    var decode := (j: Json) => DecodeDriverBehaviorEventData(j, clock.parse);
    ExtractKeyedIsDirect(TripOf(e), "driver_behavior", decode, clock.format);
    var p := TripOf(e);
    if p.Some? && p.value.JObject? && Plain(p.value) {
      ExtractKeyedOfPlain(p.value.fields, "driver_behavior", decode, clock.format);
    }
  }

  /** A driver-behaviour record written into the trip subtree comes back out. */
  lemma GetDriverBehaviorDataRecovers(e: BaseEvent, clock: TimeCodec, m: map<string, Json>, x: DriverBehaviorEventData)
    requires RoundTrips(clock) && CanonicalDriverBehaviorEventData(x)
    requires TripOf(e) == Some(JObject(m)) && Plain(JObject(m))
    requires "driver_behavior" in m && m["driver_behavior"] == EncodeDriverBehaviorEventData(x, clock.format)
    ensures GetDriverBehaviorData(e, clock) == Some(x)
  {
    GetDriverBehaviorDataRules(e, clock);
    DriverBehaviorEventDataRoundTrip(x, clock);
  }
}
