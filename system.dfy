/** System events (`pkg/types/system`): the `"system"` member of `Data.StandaloneEvent`,
    decoded into `SystemEventData`, and its upload projection. The hardware package declares
    the same three record shapes and reuses them from here. */
module System {
  import opened Wrappers
  import opened GoJson
  import opened Base
  import opened Extraction

  /** A file reported by an upload; `metadata` is tagged `omitempty`. */
  datatype FileInfo = FileInfo(
    id: string,
    sourceId: string,
    url: string,
    metadata: Option<map<string, Json>>,
    createdAt: Instant,
    updatedAt: Instant)

  /** An upload; `files` (a slice of pointers) and `location` are tagged `omitempty`. */
  datatype UploadEvent = UploadEvent(
    name: string,
    files: Option<seq<Option<FileInfo>>>,
    location: Option<Json>)

  /** The leaf record of the `"system"` key; `upload` is a pointer tagged `omitempty`. */
  datatype SystemEventData = SystemEventData(
    id: string,
    eventName: string,
    upload: Option<UploadEvent>,
    timestamp: Instant)

  const ZeroFileInfo := FileInfo("", "", "", None, ZeroTime, ZeroTime)
  const ZeroUploadEvent := UploadEvent("", None, None)
  const ZeroSystemEventData := SystemEventData("", "", None, ZeroTime)

  // ---- json.Unmarshal ----

  function DecodeFileInfo(j: Json, parse: string -> Option<Instant>): (r: Option<FileInfo>)
    ensures r.Some? ==> j.JObject? || j.JNull?
    ensures j.JNull? ==> r == Some(ZeroFileInfo)
    ensures r.Some? && j.JObject? ==>
              && r.value.id == TextOf(j.fields, "id")
              && r.value.sourceId == TextOf(j.fields, "source_id")
              && r.value.url == TextOf(j.fields, "url")
    ensures r.Some? && j.JObject? ==>
              && (r.value.metadata.None? <==> "metadata" !in j.fields || j.fields["metadata"].JNull?)
              && (r.value.metadata.Some? ==> j.fields["metadata"] == JObject(r.value.metadata.value))
    ensures r.Some? && j.JObject? && "created_at" in j.fields && j.fields["created_at"].JString? ==>
              Some(r.value.createdAt) == parse(j.fields["created_at"].str)
    ensures r.Some? && j.JObject? && "updated_at" in j.fields && j.fields["updated_at"].JString? ==>
              Some(r.value.updatedAt) == parse(j.fields["updated_at"].str)
  {
    match j
    case JNull => Some(ZeroFileInfo)
    case JObject(f) =>
      var id :- DecodeString(Field(f, "id"));
      var sourceId :- DecodeString(Field(f, "source_id"));
      var url :- DecodeString(Field(f, "url"));
      var metadata :- DecodeObject(Field(f, "metadata"));
      var createdAt :- DecodeTime(Field(f, "created_at"), parse);
      var updatedAt :- DecodeTime(Field(f, "updated_at"), parse);
      Some(FileInfo(id, sourceId, url, metadata, createdAt, updatedAt))
    case _ => None
  }

  /** An element of `files`: a `*FileInfo`, nil for `null`. */
  function DecodeFileRef(j: Json, parse: string -> Option<Instant>): Option<Option<FileInfo>>
  {
    DecodeNullable(j, (k: Json) => DecodeFileInfo(k, parse))
  }

  function DecodeUploadEvent(j: Json, parse: string -> Option<Instant>): (r: Option<UploadEvent>)
    ensures r.Some? ==> j.JObject? || j.JNull?
    ensures j.JNull? ==> r == Some(ZeroUploadEvent)
    ensures r.Some? && j.JObject? ==> r.value.name == TextOf(j.fields, "name")
    ensures r.Some? && j.JObject? ==>
              && (r.value.files.None? <==> "files" !in j.fields || j.fields["files"].JNull?)
              && (r.value.files.Some? ==>
                    j.fields["files"].JArray? && |r.value.files.value| == |j.fields["files"].items|)
    ensures r.Some? && j.JObject? ==>
              && (r.value.location.None? <==> "location" !in j.fields || j.fields["location"].JNull?)
              && (r.value.location.Some? ==> r.value.location.value == j.fields["location"])
  {
    match j
    case JNull => Some(ZeroUploadEvent)
    case JObject(f) =>
      var name :- DecodeString(Field(f, "name"));
      var files :- DecodeSlice(Field(f, "files"), (k: Json) => DecodeFileRef(k, parse));
      Some(UploadEvent(name, files, DecodeAny(Field(f, "location"))))
    case _ => None
  }

  function DecodeSystemEventData(j: Json, parse: string -> Option<Instant>): (r: Option<SystemEventData>)
    ensures r.Some? ==> j.JObject? || j.JNull?
    ensures j.JNull? ==> r == Some(ZeroSystemEventData)
    ensures r.Some? && j.JObject? ==>
              r.value.id == TextOf(j.fields, "id") && r.value.eventName == TextOf(j.fields, "event_name")
    ensures r.Some? && j.JObject? && ("upload" !in j.fields || j.fields["upload"].JNull?) ==> r.value.upload.None?
    ensures r.Some? && j.JObject? && "upload" in j.fields && !j.fields["upload"].JNull? ==>
              r.value.upload.Some? && r.value.upload == DecodeUploadEvent(j.fields["upload"], parse)
    ensures r.Some? && j.JObject? && "timestamp" in j.fields && j.fields["timestamp"].JString? ==>
              Some(r.value.timestamp) == parse(j.fields["timestamp"].str)
  {
    match j
    case JNull => Some(ZeroSystemEventData)
    case JObject(f) =>
      var id :- DecodeString(Field(f, "id"));
      var eventName :- DecodeString(Field(f, "event_name"));
      var upload :- DecodePointer(Field(f, "upload"), (k: Json) => DecodeUploadEvent(k, parse));
      var timestamp :- DecodeTime(Field(f, "timestamp"), parse);
      Some(SystemEventData(id, eventName, upload, timestamp))
    case _ => None
  }

  // ---- json.Marshal ----

  const FileInfoKeys: set<string> := {"id", "source_id", "url", "metadata", "created_at", "updated_at"}

  function FileInfoMember(x: FileInfo, format: Instant -> string, key: string): Option<Json>
  {
    match key
    case "id" => Some(JString(x.id))
    case "source_id" => Some(JString(x.sourceId))
    case "url" => Some(JString(x.url))
    case "metadata" => OmitEmptyObject(x.metadata)
    case "created_at" => Some(JString(format(x.createdAt)))
    case "updated_at" => Some(JString(format(x.updatedAt)))
    case _ => None
  }

  function EncodeFileInfo(x: FileInfo, format: Instant -> string): Json
  {
    JObject(map k | k in FileInfoKeys && FileInfoMember(x, format, k).Some? :: FileInfoMember(x, format, k).value)
  }

  function EncodeFileRef(p: Option<FileInfo>, format: Instant -> string): Json
  {
    EncodeNullable(p, (x: FileInfo) => EncodeFileInfo(x, format))
  }

  const UploadEventKeys: set<string> := {"name", "files", "location"}

  function UploadEventMember(x: UploadEvent, format: Instant -> string, key: string): Option<Json>
  {
    match key
    case "name" => Some(JString(x.name))
    case "files" => OmitEmptySlice(x.files, (p: Option<FileInfo>) => EncodeFileRef(p, format))
    case "location" => OmitNil(x.location)
    case _ => None
  }

  function EncodeUploadEvent(x: UploadEvent, format: Instant -> string): Json
  {
    JObject(map k | k in UploadEventKeys && UploadEventMember(x, format, k).Some? :: UploadEventMember(x, format, k).value)
  }

  const SystemEventDataKeys: set<string> := {"id", "event_name", "upload", "timestamp"}

  function SystemEventDataMember(x: SystemEventData, format: Instant -> string, key: string): Option<Json>
  {
    match key
    case "id" => Some(JString(x.id))
    case "event_name" => Some(JString(x.eventName))
    case "upload" => OmitNilPointer(x.upload, (u: UploadEvent) => EncodeUploadEvent(u, format))
    case "timestamp" => Some(JString(format(x.timestamp)))
    case _ => None
  }

  function EncodeSystemEventData(x: SystemEventData, format: Instant -> string): Json
  {
    JObject(map k | k in SystemEventDataKeys && SystemEventDataMember(x, format, k).Some? :: SystemEventDataMember(x, format, k).value)
  }

  // ---- What survives a round trip ----

  predicate CanonicalFileInfo(x: FileInfo)
  {
    KeptObject(x.metadata)
  }

  predicate CanonicalUploadEvent(x: UploadEvent)
  {
    && (x.files.None? || x.files.value != [])
    && (x.files.Some? ==> forall i | 0 <= i < |x.files.value| ::
          x.files.value[i].Some? ==> CanonicalFileInfo(x.files.value[i].value))
    && DecodableAny(x.location)
  }

  predicate CanonicalSystemEventData(x: SystemEventData)
  {
    x.upload.Some? ==> CanonicalUploadEvent(x.upload.value)
  }

  /** Encoding a file record and decoding the result gives it back. */
  lemma FileInfoRoundTrip(x: FileInfo, clock: TimeCodec)
    requires RoundTrips(clock) && CanonicalFileInfo(x)
    ensures DecodeFileInfo(EncodeFileInfo(x, clock.format), clock.parse) == Some(x)
  {
    var f := EncodeFileInfo(x, clock.format).fields;
    assert DecodeTime(Field(f, "created_at"), clock.parse) == Some(x.createdAt);
    assert DecodeTime(Field(f, "updated_at"), clock.parse) == Some(x.updatedAt);
  }

  lemma FileRefRoundTrip(p: Option<FileInfo>, clock: TimeCodec)
    requires RoundTrips(clock) && (p.Some? ==> CanonicalFileInfo(p.value))
    ensures DecodeFileRef(EncodeFileRef(p, clock.format), clock.parse) == Some(p)
  {
    if p.Some? {
      FileInfoRoundTrip(p.value, clock);
    }
  }

  /** Encoding an upload and decoding the result gives it back. */
  lemma UploadEventRoundTrip(x: UploadEvent, clock: TimeCodec)
    requires RoundTrips(clock) && CanonicalUploadEvent(x)
    ensures DecodeUploadEvent(EncodeUploadEvent(x, clock.format), clock.parse) == Some(x)
  {
    var f := EncodeUploadEvent(x, clock.format).fields;
    var encodeElem := (p: Option<FileInfo>) => EncodeFileRef(p, clock.format);
    var decodeElem := (k: Json) => DecodeFileRef(k, clock.parse);
    if x.files.Some? {
      var s := x.files.value;
      forall i | 0 <= i < |s|
        ensures decodeElem(encodeElem(s[i])) == Some(s[i])
      {
        FileRefRoundTrip(s[i], clock);
      }
      SliceRoundTrip(s, encodeElem, decodeElem);
      assert Field(f, "files") == Some(EncodeSlice(s, encodeElem));
    }
    assert DecodeSlice(Field(f, "files"), decodeElem) == Some(x.files);
  }

  /** Encoding a system record and decoding the result gives it back. */
  lemma SystemEventDataRoundTrip(x: SystemEventData, clock: TimeCodec)
    requires RoundTrips(clock) && CanonicalSystemEventData(x)
    ensures DecodeSystemEventData(EncodeSystemEventData(x, clock.format), clock.parse) == Some(x)
  {
    var f := EncodeSystemEventData(x, clock.format).fields;
    if x.upload.Some? {
      UploadEventRoundTrip(x.upload.value, clock);
      assert Field(f, "upload") == Some(EncodeUploadEvent(x.upload.value, clock.format));
    }
    assert DecodePointer(Field(f, "upload"), (k: Json) => DecodeUploadEvent(k, clock.parse)) == Some(x.upload);
    assert DecodeTime(Field(f, "timestamp"), clock.parse) == Some(x.timestamp);
  }

  // ---- The accessors ----

  /** `GetSystemData`: the `"system"` member of the standalone subtree. */
  function GetSystemData(e: BaseEvent, clock: TimeCodec): Option<SystemEventData>
  {
    ExtractKeyed(StandaloneOf(e), "system", (j: Json) => DecodeSystemEventData(j, clock.parse), clock.format)
  }

  /** `GetUploadData`: the system record's upload, absent when extraction fails. What it
      yields from a document is stated by `UploadFromDocument` and `GetSystemDataRecovers`. */
  function GetUploadData(e: BaseEvent, clock: TimeCodec): (r: Option<UploadEvent>)
    ensures GetSystemData(e, clock).None? ==> r.None?
    ensures GetSystemData(e, clock).Some? ==> r == GetSystemData(e, clock).value.upload
  {
    var sys :- GetSystemData(e, clock);
    sys.upload
  }

  /** The absence rules of `GetSystemData`, and what it yields from a standalone document. */
  lemma GetSystemDataRules(e: BaseEvent, clock: TimeCodec)
    ensures StandaloneOf(e).None? ==> GetSystemData(e, clock).None?
    ensures GetSystemData(e, clock).Some? ==>
              && StandaloneOf(e).Some? && StandaloneOf(e).value.JObject?
              && Encodable(StandaloneOf(e).value) && "system" in StandaloneOf(e).value.fields
    ensures var p := StandaloneOf(e);
            p.Some? && p.value.JObject? && Plain(p.value) && "system" in p.value.fields ==>
              GetSystemData(e, clock) == DecodeSystemEventData(p.value.fields["system"], clock.parse)
    ensures var p := StandaloneOf(e);
            p.Some? && p.value.JObject? && Plain(p.value) && "system" in p.value.fields
            && p.value.fields["system"] == JNull ==>
              GetSystemData(e, clock) == Some(ZeroSystemEventData)
  {
    var decode := (j: Json) => DecodeSystemEventData(j, clock.parse);
    ExtractKeyedIsDirect(StandaloneOf(e), "system", decode, clock.format);
    var p := StandaloneOf(e);
    if p.Some? && p.value.JObject? && Plain(p.value) {
      ExtractKeyedOfPlain(p.value.fields, "system", decode, clock.format);
    }
  }

  /** A system record written into the standalone subtree by a Go producer comes back out. */
  lemma GetSystemDataRecovers(e: BaseEvent, clock: TimeCodec, m: map<string, Json>, x: SystemEventData)
    requires RoundTrips(clock) && CanonicalSystemEventData(x)
    requires StandaloneOf(e) == Some(JObject(m)) && Plain(JObject(m))
    requires "system" in m && m["system"] == EncodeSystemEventData(x, clock.format)
    ensures GetSystemData(e, clock) == Some(x)
  {
    GetSystemDataRules(e, clock);
    SystemEventDataRoundTrip(x, clock);
  }

  /** The upload read off a standalone document whose `"system"` member is an object: nil
      when that object omits `upload` or holds `null` there, and otherwise that member
      decoded, whether or not a Go producer wrote it. */
  lemma UploadFromDocument(e: BaseEvent, clock: TimeCodec)
    requires var p := StandaloneOf(e);
             p.Some? && p.value.JObject? && Plain(p.value) && "system" in p.value.fields
             && p.value.fields["system"].JObject?
    requires GetSystemData(e, clock).Some?
    ensures var s := StandaloneOf(e).value.fields["system"].fields;
            ("upload" !in s || s["upload"].JNull?) ==> GetUploadData(e, clock).None?
    ensures var s := StandaloneOf(e).value.fields["system"].fields;
            "upload" in s && !s["upload"].JNull? ==>
              GetUploadData(e, clock).Some? && GetUploadData(e, clock) == DecodeUploadEvent(s["upload"], clock.parse)
  {
    GetSystemDataRules(e, clock);
  }
}
