/** Driver-monitoring events (`pkg/types/dms`): the `"dms"` member of `Data.TripEvent`
    decoded into `DMSEventData`, and its projections. */
module Dms {
  import opened Wrappers
  import opened GoJson
  import opened Base
  import opened Extraction

  /** The leaf record of the `"dms"` key; the ten detection maps are tagged `omitempty`. */
  datatype DMSEventData = DMSEventData(
    id: string,
    eventName: string,
    timestamp: Instant,
    drowsiness: Option<map<string, Json>>,
    drinking: Option<map<string, Json>>,
    eating: Option<map<string, Json>>,
    eyeClosure: Option<map<string, Json>>,
    gazeDistraction: Option<map<string, Json>>,
    gazeFixation: Option<map<string, Json>>,
    onPhone: Option<map<string, Json>>,
    poseDistraction: Option<map<string, Json>>,
    smoking: Option<map<string, Json>>,
    yawning: Option<map<string, Json>>)

  const ZeroDMSEventData := DMSEventData("", "", ZeroTime, None, None, None, None, None, None, None, None, None, None)

  // ---- json.Unmarshal / json.Marshal ----

  function DecodeDMSEventData(j: Json, parse: string -> Option<Instant>): (r: Option<DMSEventData>)
    ensures r.Some? ==> j.JObject? || j.JNull?
    ensures j.JNull? ==> r == Some(ZeroDMSEventData)
    ensures r.Some? && j.JObject? && "id" in j.fields && j.fields["id"].JString? ==>
              r.value.id == j.fields["id"].str
    ensures r.Some? && j.JObject? && "event_name" in j.fields && j.fields["event_name"].JString? ==>
              r.value.eventName == j.fields["event_name"].str
    ensures r.Some? && j.JObject? && "drowsiness" in j.fields && j.fields["drowsiness"].JObject? ==>
              r.value.drowsiness == Some(j.fields["drowsiness"].fields)
    ensures r.Some? && j.JObject? && "drinking" in j.fields && j.fields["drinking"].JObject? ==>
              r.value.drinking == Some(j.fields["drinking"].fields)
  {
    match j
    case JNull => Some(ZeroDMSEventData)
    case JObject(f) =>
      var id :- DecodeString(Field(f, "id"));
      var eventName :- DecodeString(Field(f, "event_name"));
      var timestamp :- DecodeTime(Field(f, "timestamp"), parse);
      var drowsiness :- DecodeObject(Field(f, "drowsiness"));
      var drinking :- DecodeObject(Field(f, "drinking"));
      var eating :- DecodeObject(Field(f, "eating"));
      var eyeClosure :- DecodeObject(Field(f, "eye_closure"));
      var gazeDistraction :- DecodeObject(Field(f, "gaze_distraction"));
      var gazeFixation :- DecodeObject(Field(f, "gaze_fixation"));
      var onPhone :- DecodeObject(Field(f, "on_phone"));
      var poseDistraction :- DecodeObject(Field(f, "pose_distraction_pitch"));
      var smoking :- DecodeObject(Field(f, "smoking"));
      var yawning :- DecodeObject(Field(f, "yawning"));
      Some(DMSEventData(id, eventName, timestamp, drowsiness, drinking, eating, eyeClosure,
                        gazeDistraction, gazeFixation, onPhone, poseDistraction, smoking, yawning))
    case _ => None
  }

  const DMSEventDataKeys: set<string> := {"id", "event_name", "timestamp", "drowsiness", "drinking",
    "eating", "eye_closure", "gaze_distraction", "gaze_fixation", "on_phone", "pose_distraction_pitch",
    "smoking", "yawning"}

  function DMSEventDataMember(x: DMSEventData, format: Instant -> string, key: string): Option<Json>
  {
    match key
    case "id" => Some(JString(x.id))
    case "event_name" => Some(JString(x.eventName))
    case "timestamp" => Some(JString(format(x.timestamp)))
    case "drowsiness" => OmitEmptyObject(x.drowsiness)
    case "drinking" => OmitEmptyObject(x.drinking)
    case "eating" => OmitEmptyObject(x.eating)
    case "eye_closure" => OmitEmptyObject(x.eyeClosure)
    case "gaze_distraction" => OmitEmptyObject(x.gazeDistraction)
    case "gaze_fixation" => OmitEmptyObject(x.gazeFixation)
    case "on_phone" => OmitEmptyObject(x.onPhone)
    case "pose_distraction_pitch" => OmitEmptyObject(x.poseDistraction)
    case "smoking" => OmitEmptyObject(x.smoking)
    case "yawning" => OmitEmptyObject(x.yawning)
    case _ => None
  }

  function EncodeDMSEventData(x: DMSEventData, format: Instant -> string): Json
  {
    JObject(map k | k in DMSEventDataKeys && DMSEventDataMember(x, format, k).Some? :: DMSEventDataMember(x, format, k).value)
  }

  predicate CanonicalDMSEventData(x: DMSEventData)
  {
    && KeptObject(x.drowsiness) && KeptObject(x.drinking) && KeptObject(x.eating)
    && KeptObject(x.eyeClosure) && KeptObject(x.gazeDistraction) && KeptObject(x.gazeFixation)
    && KeptObject(x.onPhone) && KeptObject(x.poseDistraction) && KeptObject(x.smoking)
    && KeptObject(x.yawning)
  }

  // The round trip is proved member by member, in two halves, and then assembled.

  lemma DecodeFromMembers(x: DMSEventData, f: map<string, Json>, parse: string -> Option<Instant>)
    requires DecodeString(Field(f, "id")) == Some(x.id)
    requires DecodeString(Field(f, "event_name")) == Some(x.eventName)
    requires DecodeTime(Field(f, "timestamp"), parse) == Some(x.timestamp)
    requires DecodeObject(Field(f, "drowsiness")) == Some(x.drowsiness)
    requires DecodeObject(Field(f, "drinking")) == Some(x.drinking)
    requires DecodeObject(Field(f, "eating")) == Some(x.eating)
    requires DecodeObject(Field(f, "eye_closure")) == Some(x.eyeClosure)
    requires DecodeObject(Field(f, "gaze_distraction")) == Some(x.gazeDistraction)
    requires DecodeObject(Field(f, "gaze_fixation")) == Some(x.gazeFixation)
    requires DecodeObject(Field(f, "on_phone")) == Some(x.onPhone)
    requires DecodeObject(Field(f, "pose_distraction_pitch")) == Some(x.poseDistraction)
    requires DecodeObject(Field(f, "smoking")) == Some(x.smoking)
    requires DecodeObject(Field(f, "yawning")) == Some(x.yawning)
    ensures DecodeDMSEventData(JObject(f), parse) == Some(x)
  {
  }

  lemma EncodedHead(x: DMSEventData, clock: TimeCodec)
    requires RoundTrips(clock) && CanonicalDMSEventData(x)
    ensures DecodeString(Field(EncodeDMSEventData(x, clock.format).fields, "id")) == Some(x.id)
    ensures DecodeString(Field(EncodeDMSEventData(x, clock.format).fields, "event_name")) == Some(x.eventName)
    ensures DecodeTime(Field(EncodeDMSEventData(x, clock.format).fields, "timestamp"), clock.parse) == Some(x.timestamp)
    ensures DecodeObject(Field(EncodeDMSEventData(x, clock.format).fields, "drowsiness")) == Some(x.drowsiness)
    ensures DecodeObject(Field(EncodeDMSEventData(x, clock.format).fields, "drinking")) == Some(x.drinking)
    ensures DecodeObject(Field(EncodeDMSEventData(x, clock.format).fields, "eating")) == Some(x.eating)
    ensures DecodeObject(Field(EncodeDMSEventData(x, clock.format).fields, "eye_closure")) == Some(x.eyeClosure)
  {
  }

  lemma EncodedTail(x: DMSEventData, clock: TimeCodec)
    requires CanonicalDMSEventData(x)
    ensures DecodeObject(Field(EncodeDMSEventData(x, clock.format).fields, "gaze_distraction")) == Some(x.gazeDistraction)
    ensures DecodeObject(Field(EncodeDMSEventData(x, clock.format).fields, "gaze_fixation")) == Some(x.gazeFixation)
    ensures DecodeObject(Field(EncodeDMSEventData(x, clock.format).fields, "on_phone")) == Some(x.onPhone)
    ensures DecodeObject(Field(EncodeDMSEventData(x, clock.format).fields, "pose_distraction_pitch")) == Some(x.poseDistraction)
    ensures DecodeObject(Field(EncodeDMSEventData(x, clock.format).fields, "smoking")) == Some(x.smoking)
    ensures DecodeObject(Field(EncodeDMSEventData(x, clock.format).fields, "yawning")) == Some(x.yawning)
  {
  }

  /** Encoding a DMS record and decoding the result gives it back. */
  lemma DMSEventDataRoundTrip(x: DMSEventData, clock: TimeCodec)
    requires RoundTrips(clock) && CanonicalDMSEventData(x)
    ensures DecodeDMSEventData(EncodeDMSEventData(x, clock.format), clock.parse) == Some(x)
  {
    EncodedHead(x, clock);
    EncodedTail(x, clock);
    DecodeFromMembers(x, EncodeDMSEventData(x, clock.format).fields, clock.parse);
  }

  // ---- The accessors ----

  /** `GetDMSData`: the `"dms"` member of the trip subtree; the standalone subtree is never read. */
  function GetDMSData(e: BaseEvent, clock: TimeCodec): Option<DMSEventData>
  {
    ExtractKeyed(TripOf(e), "dms", (j: Json) => DecodeDMSEventData(j, clock.parse), clock.format)
  }

  /** `GetDrowsinessData`: the drowsiness map, nil when extraction fails.
      What it yields from a document: `GetDMSDataRules` and `GetDMSDataRecovers`. */
  function GetDrowsinessData(e: BaseEvent, clock: TimeCodec): (r: Option<map<string, Json>>)
    ensures GetDMSData(e, clock).None? ==> r.None?
    ensures GetDMSData(e, clock).Some? ==> r == GetDMSData(e, clock).value.drowsiness
  {
    var dms :- GetDMSData(e, clock);
    dms.drowsiness
  }

  /** `GetDrinkingData`: the drinking map, nil when extraction fails.
      What it yields from a document: `GetDMSDataRules` and `GetDMSDataRecovers`. */
  function GetDrinkingData(e: BaseEvent, clock: TimeCodec): (r: Option<map<string, Json>>)
    ensures GetDMSData(e, clock).None? ==> r.None?
    ensures GetDMSData(e, clock).Some? ==> r == GetDMSData(e, clock).value.drinking
  {
    var dms :- GetDMSData(e, clock);
    dms.drinking
  }

  /** `GetEventName`: the DMS record's name, or "" when extraction fails.
      What it yields from a document: `GetDMSDataRules` and `GetDMSDataRecovers`. */
  function GetEventName(e: BaseEvent, clock: TimeCodec): (r: string)
    ensures GetDMSData(e, clock).None? ==> r == ""
    ensures GetDMSData(e, clock).Some? ==> r == GetDMSData(e, clock).value.eventName
  {
    match GetDMSData(e, clock)
    case Some(dms) => dms.eventName
    case None => ""
  }

  /** The absence rules of `GetDMSData`, and what it yields from a trip document. */
  lemma GetDMSDataRules(e: BaseEvent, clock: TimeCodec)
    ensures TripOf(e).None? ==> GetDMSData(e, clock).None?
    ensures GetDMSData(e, clock).Some? ==>
              && TripOf(e).Some? && TripOf(e).value.JObject?
              && Encodable(TripOf(e).value) && "dms" in TripOf(e).value.fields
    ensures var p := TripOf(e);
            p.Some? && p.value.JObject? && Plain(p.value) && "dms" in p.value.fields ==>
              GetDMSData(e, clock) == DecodeDMSEventData(p.value.fields["dms"], clock.parse)
    ensures var p := TripOf(e);
            p.Some? && p.value.JObject? && Plain(p.value) && "dms" in p.value.fields
            && p.value.fields["dms"] == JNull ==>
              GetDMSData(e, clock) == Some(ZeroDMSEventData)
  {
    var decode := (j: Json) => DecodeDMSEventData(j, clock.parse);
    ExtractKeyedIsDirect(TripOf(e), "dms", decode, clock.format);
    var p := TripOf(e);
    if p.Some? && p.value.JObject? && Plain(p.value) {
      ExtractKeyedOfPlain(p.value.fields, "dms", decode, clock.format);
    }
  }

  /** A DMS record written into the trip subtree comes back out. */
  lemma GetDMSDataRecovers(e: BaseEvent, clock: TimeCodec, m: map<string, Json>, x: DMSEventData)
    requires RoundTrips(clock) && CanonicalDMSEventData(x)
    requires TripOf(e) == Some(JObject(m)) && Plain(JObject(m))
    requires "dms" in m && m["dms"] == EncodeDMSEventData(x, clock.format)
    ensures GetDMSData(e, clock) == Some(x)
  {
    GetDMSDataRules(e, clock);
    DMSEventDataRoundTrip(x, clock);
  }
}
