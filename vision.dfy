/** Vision events (`pkg/types/vision`): the `"vision"` member of `Data.TripEvent` decoded
    into `VisionEventData`, and its projections. */
module Vision {
  import opened Wrappers
  import opened GoJson
  import opened Base
  import opened Extraction

  /** The leaf record of the `"vision"` key; the five face maps are tagged `omitempty`. */
  datatype VisionEventData = VisionEventData(
    id: string,
    eventName: string,
    timestamp: Instant,
    faceDetected: Option<map<string, Json>>,
    faceLost: Option<map<string, Json>>,
    faceTracked: Option<map<string, Json>>,
    noFaceDetected: Option<map<string, Json>>,
    cameraObstructed: Option<map<string, Json>>)

  const ZeroVisionEventData := VisionEventData("", "", ZeroTime, None, None, None, None, None)

  // ---- json.Unmarshal / json.Marshal ----

  function DecodeVisionEventData(j: Json, parse: string -> Option<Instant>): (r: Option<VisionEventData>)
    ensures r.Some? ==> j.JObject? || j.JNull?
    ensures j.JNull? ==> r == Some(ZeroVisionEventData)
    ensures r.Some? && j.JObject? && "id" in j.fields && j.fields["id"].JString? ==>
              r.value.id == j.fields["id"].str
    ensures r.Some? && j.JObject? && "event_name" in j.fields && j.fields["event_name"].JString? ==>
              r.value.eventName == j.fields["event_name"].str
    ensures r.Some? && j.JObject? && "face_detected" in j.fields && j.fields["face_detected"].JObject? ==>
              r.value.faceDetected == Some(j.fields["face_detected"].fields)
    ensures r.Some? && j.JObject? && "face_lost" in j.fields && j.fields["face_lost"].JObject? ==>
              r.value.faceLost == Some(j.fields["face_lost"].fields)
  {
    match j
    case JNull => Some(ZeroVisionEventData)
    case JObject(f) =>
      var id :- DecodeString(Field(f, "id"));
      var eventName :- DecodeString(Field(f, "event_name"));
      var timestamp :- DecodeTime(Field(f, "timestamp"), parse);
      var faceDetected :- DecodeObject(Field(f, "face_detected"));
      var faceLost :- DecodeObject(Field(f, "face_lost"));
      var faceTracked :- DecodeObject(Field(f, "face_tracked"));
      var noFaceDetected :- DecodeObject(Field(f, "no_face_detected"));
      var cameraObstructed :- DecodeObject(Field(f, "camera_obstructed"));
      Some(VisionEventData(id, eventName, timestamp, faceDetected, faceLost, faceTracked,
                           noFaceDetected, cameraObstructed))
    case _ => None
  }

  const VisionEventDataKeys: set<string> := {"id", "event_name", "timestamp", "face_detected", "face_lost",
    "face_tracked", "no_face_detected", "camera_obstructed"}

  function VisionEventDataMember(x: VisionEventData, format: Instant -> string, key: string): Option<Json>
  {
    match key
    case "id" => Some(JString(x.id))
    case "event_name" => Some(JString(x.eventName))
    case "timestamp" => Some(JString(format(x.timestamp)))
    case "face_detected" => OmitEmptyObject(x.faceDetected)
    case "face_lost" => OmitEmptyObject(x.faceLost)
    case "face_tracked" => OmitEmptyObject(x.faceTracked)
    case "no_face_detected" => OmitEmptyObject(x.noFaceDetected)
    case "camera_obstructed" => OmitEmptyObject(x.cameraObstructed)
    case _ => None
  }

  function EncodeVisionEventData(x: VisionEventData, format: Instant -> string): Json
  {
    JObject(map k | k in VisionEventDataKeys && VisionEventDataMember(x, format, k).Some? ::
                      VisionEventDataMember(x, format, k).value)
  }

  predicate CanonicalVisionEventData(x: VisionEventData)
  {
    && KeptObject(x.faceDetected) && KeptObject(x.faceLost) && KeptObject(x.faceTracked)
    && KeptObject(x.noFaceDetected) && KeptObject(x.cameraObstructed)
  }

  /** Encoding a vision record and decoding the result gives it back. */
  lemma VisionEventDataRoundTrip(x: VisionEventData, clock: TimeCodec)
    requires RoundTrips(clock) && CanonicalVisionEventData(x)
    ensures DecodeVisionEventData(EncodeVisionEventData(x, clock.format), clock.parse) == Some(x)
  {
    var f := EncodeVisionEventData(x, clock.format).fields;
    assert DecodeTime(Field(f, "timestamp"), clock.parse) == Some(x.timestamp);
  }

  // ---- The accessors ----

  /** `GetVisionEventData`: the `"vision"` member of the trip subtree. */
  function GetVisionEventData(e: BaseEvent, clock: TimeCodec): Option<VisionEventData>
  {
    ExtractKeyed(TripOf(e), "vision", (j: Json) => DecodeVisionEventData(j, clock.parse), clock.format)
  }

  /** `GetFaceDetectedData`: the face-detected map, nil when extraction fails.
      What it yields from a document: `GetVisionEventDataRules` and `GetVisionEventDataRecovers`. */
  function GetFaceDetectedData(e: BaseEvent, clock: TimeCodec): (r: Option<map<string, Json>>)
    ensures GetVisionEventData(e, clock).None? ==> r.None?
    ensures GetVisionEventData(e, clock).Some? ==> r == GetVisionEventData(e, clock).value.faceDetected
  {
    var vision :- GetVisionEventData(e, clock);
    vision.faceDetected
  }

  /** `GetFaceLostData`: the face-lost map, nil when extraction fails.
      What it yields from a document: `GetVisionEventDataRules` and `GetVisionEventDataRecovers`. */
  function GetFaceLostData(e: BaseEvent, clock: TimeCodec): (r: Option<map<string, Json>>)
    ensures GetVisionEventData(e, clock).None? ==> r.None?
    ensures GetVisionEventData(e, clock).Some? ==> r == GetVisionEventData(e, clock).value.faceLost
  {
    var vision :- GetVisionEventData(e, clock);
    vision.faceLost
  }

  /** `GetEventName`: the vision record's name, or "" when extraction fails.
      What it yields from a document: `GetVisionEventDataRules` and `GetVisionEventDataRecovers`. */
  function GetEventName(e: BaseEvent, clock: TimeCodec): (r: string)
    ensures GetVisionEventData(e, clock).None? ==> r == ""
    ensures GetVisionEventData(e, clock).Some? ==> r == GetVisionEventData(e, clock).value.eventName
  {
    match GetVisionEventData(e, clock)
    case Some(vision) => vision.eventName
    case None => ""
  }

  /** The absence rules of `GetVisionEventData`, and what it yields from a trip document. */
  lemma GetVisionEventDataRules(e: BaseEvent, clock: TimeCodec)
    ensures TripOf(e).None? ==> GetVisionEventData(e, clock).None?
    ensures GetVisionEventData(e, clock).Some? ==>
              && TripOf(e).Some? && TripOf(e).value.JObject?
              && Encodable(TripOf(e).value) && "vision" in TripOf(e).value.fields
    ensures var p := TripOf(e);
            p.Some? && p.value.JObject? && Plain(p.value) && "vision" in p.value.fields ==>
              GetVisionEventData(e, clock) == DecodeVisionEventData(p.value.fields["vision"], clock.parse)
    ensures var p := TripOf(e);
            p.Some? && p.value.JObject? && Plain(p.value) && "vision" in p.value.fields
            && p.value.fields["vision"] == JNull ==>
              GetVisionEventData(e, clock) == Some(ZeroVisionEventData)
  {
    var decode := (j: Json) => DecodeVisionEventData(j, clock.parse);
    ExtractKeyedIsDirect(TripOf(e), "vision", decode, clock.format);
    var p := TripOf(e);
    if p.Some? && p.value.JObject? && Plain(p.value) {
      ExtractKeyedOfPlain(p.value.fields, "vision", decode, clock.format);
    }
  }

  /** A vision record written into the trip subtree comes back out. */
  lemma GetVisionEventDataRecovers(e: BaseEvent, clock: TimeCodec, m: map<string, Json>, x: VisionEventData)
    requires RoundTrips(clock) && CanonicalVisionEventData(x)
    requires TripOf(e) == Some(JObject(m)) && Plain(JObject(m))
    requires "vision" in m && m["vision"] == EncodeVisionEventData(x, clock.format)
    ensures GetVisionEventData(e, clock) == Some(x)
  {
    GetVisionEventDataRules(e, clock);
    VisionEventDataRoundTrip(x, clock);
  }
}
