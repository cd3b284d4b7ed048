# Typed fleet-telemetry events, modelled in Dafny

This project models the core of a Go SDK for fleet-telemetry webhook events. Every event
arrives as a JSON envelope (`BaseEvent`). The envelope carries an id, a status, a
`created_at` time, a type, an open-string category and sub-type, and optional attributes.
The attributes hold a device, an order and a `Data` record. `Data` has three untyped
subtrees: `Telemetry`, `StandaloneEvent` and `TripEvent`.

- The envelope layer parses the payload and repairs the `created_at` time on the way.
- It validates the five required fields and answers category questions.
- It projects device fields and looks directly into the untyped telemetry map.
- Nine category packages turn one untyped subtree into a typed record. Each runs the same
  best-effort chain: re-encode the subtree, read it back as an object, look up the
  category key, then re-encode and decode that member into the record. Every failure
  becomes "absent"; none becomes an error.

How the model is built:

- **JSON values.** `GoJson.Json` is a JSON value tree. It has two extra leaves:
  - `JTime` is a `time.Time` stored in an untyped tree.
  - `JUnencodable` is a value `json.Marshal` rejects, such as a channel.
- **`json.Marshal`** is `GoJson.Marshal`, a total function on trees. A time becomes its
  RFC 3339 text, and an unencodable leaf anywhere makes the whole call fail.
- **`json.Unmarshal`** into a Go struct is one decoder per record. The decoders follow
  Go's rules:
  - a missing or `null` member leaves the zero value;
  - a member of the wrong JSON kind fails the whole call;
  - unknown members are ignored;
  - decoding `null` into a struct leaves the zero record.
- **RFC 3339** parsing and formatting (`time.Parse` and `Time.Format` with
  `time.RFC3339Nano`) are the two functions of a `TimeCodec` parameter. `RoundTrips` says
  that parsing a formatted instant returns it.
- **The JSON text reader** of `ParseEvent` is a parameter as well.

Module by source file:

| Dafny module (file) | Go source |
|---|---|
| `Base` (base.dfy) | `pkg/types/base/base.go` |
| `Parser` (parser.dfy) | `internal/parser/parser.go` |
| `Extraction` (extraction.dfy) | the extraction chain shared by all category packages |
| `Hardware`, `Connection`, `Dms`, `DriverBehavior`, `Telemetry`, `Vision`, `Alert`, `System`, `Vehicle`, `Order` | one package each under `pkg/types/` |
| `GoJson`, `Wrappers` | the parts of `encoding/json` the SDK relies on; `Option`/`Result`/`Outcome` |

Modelling choices:

- **The generic chain.** `Extraction.ExtractKeyed` is proved equal, on every input, to a
  direct reading (`Extraction.DirectKeyed`). Each accessor instantiates that theorem in its
  `...Rules` lemma and adds a `...Recovers` lemma: a record a Go producer wrote into the
  subtree comes back out.
- **A dead branch.** The proofs show that the second `json.Marshal` of every keyed chain
  can never fail, because its input came out of the decoder (`InnerMarshalCannotFail`).
  The model keeps the branch anyway, as the code has it.
- **Duplicated Go types.** The hardware package declares its own copies of
  `SystemEventData`, `UploadEvent`, `FileInfo` and `AlertEventData`. The copies have the
  same fields and JSON tags as the system and alert packages' types. The model defines
  each shape once, in `System` and `Alert`, and `Hardware` uses those.
- **Shared shape.** `WifiConnection` and `SimCard` share the shape `Connection.NameStatus`.
- **Null caveat.** When a category key holds JSON `null`, the extraction yields the
  zero-valued record, not absence, because unmarshalling `null` into a struct is a no-op.
  Each `...Rules` lemma states this as its last clause.

## Model

| member | source | states |
|---|---|---|
| `GoJson.MarshalSucceedsIff` | internal/parser/parser.go:34-37 | `json.Marshal` fails exactly when an unencodable value occurs anywhere in the tree |
| `GoJson.MarshalWritesPlain` | internal/parser/parser.go:34 | what `json.Marshal` writes is a JSON document (no times, no unencodable values) |
| `GoJson.MarshalOfPlain` | pkg/types/system/system.go:45-53 | re-encoding a decoded JSON document gives the same document back |
| `GoJson.MarshalIdempotent` | pkg/types/system/system.go:60-63 | encoding `json.Marshal`'s own output changes nothing |
| `GoJson.MarshalObjectWithTime` | internal/parser/parser.go:29-34 | after one member of a document is replaced by a `time.Time`, encoding writes that instant's RFC 3339 text there and leaves every other member as it was |
| `GoJson.SliceRoundTrip` | pkg/types/system/system.go:19 | a slice member whose elements round-trip comes back from its encoding |
| `GoJson.MapRoundTrip` | pkg/types/telemetry/telemetry.go:24 | a map member whose values round-trip comes back from its encoding |
| `GoJson.NullableRoundTrip` | pkg/types/system/system.go:19 | a pointer stored as a slice element or map value comes back from its encoding: nil is written as `null` and read back as nil, a target that round-trips comes back as itself |
| `Base.GettersReadEnvelope` | pkg/types/base/base.go:80-89 | `GetID`, `GetCategory`, `GetSubType` and `GetCreatedAt` return the stored field; `GetDeviceID` returns the device's id when there is a device and "" when there is none |
| `Base.CategoriesDistinct` | pkg/types/base/base.go:25-34 | the ten category constants are pairwise distinct |
| `Base.AlertSubsDistinct` | pkg/types/base/base.go:40-55 | the critical, warning and info alert subs are pairwise distinct and differ from the order-status sub |
| `Base.EnumerationsAreOpen` | pkg/types/base/base.go:9-60 | any text, known constant or not, in the status, type, category and sub members of a decodable envelope is accepted and kept as it stands, with every other field unchanged |
| `Base.DecodeDevice` | pkg/types/base/base.go:91-97 | only an object or `null` decodes; `null` gives the zero device; the id, correlation id, uid and account id are the text of their members ("" when missing or `null`) |
| `Base.DecodeOrder` | pkg/types/base/base.go:105-113 | only an object or `null` decodes; `null` gives the zero order; id, correlation id, group, status and type are the text of their members |
| `Base.DecodeData` | pkg/types/base/base.go:135-140 | decodes exactly from `null` or an object whose `group_name` is text, missing or `null`; the group name is that text; each untyped subtree is nil exactly when its member is missing or `null`, and otherwise holds that member unchanged |
| `Base.DecodeAttributes` | pkg/types/base/base.go:99-103 | only an object or `null` decodes, `null` giving empty attributes; an object decodes exactly when each present non-null device, data and order member decodes; a missing or `null` member leaves its pointer nil, any other points to that member's decoding |
| `Base.DecodeBaseEvent` | pkg/types/base/base.go:70-78 | only an object or `null` decodes, `null` giving the zero event; an object decodes exactly when id, status, type, category and sub are text (or missing or `null`), `created_at` is RFC 3339 text (or missing or `null`) and `attributes`, when present, decodes; id, status, type, category and sub are then the text of their members, `created_at` the parsed instant (the zero time when missing or `null`), and the attributes those decoded from the member (none when it is missing) |
| `Base.DeviceRoundTrip` | pkg/types/base/base.go:91-97 | a device whose `orders` is nil or non-empty comes back from its JSON encoding |
| `Base.OrderRoundTrip` | pkg/types/base/base.go:105-113 | an order comes back from its JSON encoding |
| `Base.DataRoundTrip` | pkg/types/base/base.go:135-140 | a data record whose subtrees are nil or non-null documents comes back from its JSON encoding, an empty group name being omitted and read back as "" |
| `Base.AttributesRoundTrip` | pkg/types/base/base.go:99-103 | attributes whose device has nil or non-empty `orders` and whose data subtrees are nil or non-null documents come back from their JSON encoding, nil pointers being omitted and read back as nil |
| `Base.BaseEventRoundTrip` | pkg/types/base/base.go:70-78 | an envelope whose attributes are of that kind (device `orders` nil or non-empty, data subtrees nil or non-null documents) comes back from its JSON encoding |
| `Extraction.ExtractKeyedIsDirect` | pkg/types/hardware/hardware.go:69-100 | on every input, the keyed chain equals the direct reading: present only when the parent is an object that encodes and holds the key, and then it is that member re-encoded and decoded |
| `Extraction.InnerMarshalCannotFail` | pkg/types/system/system.go:60-63 | once the parent has been re-encoded and read back as an object, re-encoding the looked-up member cannot fail |
| `Extraction.ExtractKeyedOfPlain` | pkg/types/dms/dms.go:34-65 | for a parent that is a JSON document, the chain decodes the member itself, and gives absence when the key is missing |
| `Extraction.UnencodableSiblingHides` | pkg/types/alert/alert.go:46-49 | an unencodable value under any key of the parent makes every extraction from it absent |
| `Extraction.ExtractWholeRules` | pkg/types/telemetry/telemetry.go:55-71 | the telemetry chain is absent for a missing or unencodable subtree; for a document it decodes the subtree itself, with no key lookup |
| `Parser.ParseEvent` | internal/parser/parser.go:15-44 | a payload that is not JSON, or is neither an object nor `null`, fails as malformed; unparseable `created_at` text fails; on success `created_at` is the parsed instant; a document never fails to re-encode; and for a JSON document the result equals the one-pass reading `DecodeEnvelope` |
| `Parser.ParseEventFromString` | internal/parser/parser.go:47-49 | the same error cases and the same one-pass reading as `ParseEvent`, on the string's bytes |
| `Parser.NullDocumentIsEmptyObject` | internal/parser/parser.go:20-39 | a `null` payload decodes like the empty object, to the zero event |
| `Parser.EncodedEnvelopeDecodes` | internal/parser/parser.go:15-44 | the reading `ParseEvent` is proved equal to returns an envelope a Go producer marshalled unchanged: its `created_at` is accepted and no field is lost |
| `Parser.DecodeSeesCreatedAtInstant` | internal/parser/parser.go:25-39 | decoding an envelope reads `created_at` only through the instant it denotes, so the repair of `created_at` is invisible in the result |
| `Parser.ValidateEvent` | internal/parser/parser.go:52-69 | validation passes exactly when id, type and category are non-empty, `created_at` is not the zero time and a device is present |
| `Parser.FirstFailing` | internal/parser/parser.go:52-69 | the first failing check of a list: `Pass` exactly when every check passes, otherwise a failing check's cause with every earlier check passing |
| `Parser.ValidateIsFirstFailing` | internal/parser/parser.go:52-69 | `ValidateEvent` reports the first failing check in the order id, type, category, created_at, device |
| `Parser.ValidateNamesTheMissingField` | internal/parser/parser.go:53-67 | an event with all five fields passes, and one missing exactly one field fails with that field's cause |
| `Parser.CategoryPredicatesExclusive` | internal/parser/parser.go:87-114 | at most one of the six category predicates holds of any event; none holds of a DMS event or of an unknown category |
| `Parser.ProjectionsAgreeWithGetters` | internal/parser/parser.go:72-84 | the parser's category, type, sub-type, timestamp and device-id projections agree with the envelope's own getters |
| `Parser.GetDeviceID` | internal/parser/parser.go:117-122 | the device's id when a device is present, "" otherwise |
| `Parser.GetDeviceUID` | internal/parser/parser.go:125-130 | the device's uid when a device is present, "" otherwise |
| `Parser.GetAccountID` | internal/parser/parser.go:133-138 | the device's account id when a device is present, "" otherwise |
| `Parser.GetIgnitionStatus` | internal/parser/parser.go:141-150 | found exactly when the telemetry subtree is an object whose `"status"` is text, and then it is that text; otherwise `("", false)` |
| `Parser.GetConnectionType` | internal/parser/parser.go:153-164 | found exactly when the telemetry object's `"connection"` is an object whose `"type"` is text, and then it is that text; otherwise `("", false)` |
| `Parser.GetTelemetryTimestamp` | internal/parser/parser.go:172-183 | found exactly when the telemetry object's `"timestamp"` is text that parses as RFC 3339, and then it is the parsed instant; otherwise the zero time and false |
| `Parser.LookupsAgreeWithTelemetry` | internal/parser/parser.go:141-183 | on a telemetry document that decodes, the direct lookups agree with the decoded `Telemetry` record: its status, its connection and its timestamp |
| `System.DecodeFileInfo` | pkg/types/system/system.go:23-30 | only an object or `null` decodes, `null` giving the zero record; id, source id and url are the text of their members ("" when missing or `null`); metadata is nil exactly when its member is missing or `null`, and otherwise that object; `created_at` and `updated_at` text is read through the RFC 3339 parser |
| `System.DecodeUploadEvent` | pkg/types/system/system.go:17-21 | only an object or `null` decodes, `null` giving the zero upload; the name is the text of its member; `files` is nil exactly when its member is missing or `null`, and otherwise has one entry per array element; `location` is nil exactly when missing or `null`, and otherwise that member unchanged |
| `System.DecodeSystemEventData` | pkg/types/system/system.go:10-15 | only an object or `null` decodes, `null` giving the zero record; id and event name are the text of their members; an omitted or `null` `upload` leaves the pointer nil, any other points to that member decoded as an upload; `timestamp` text is read through the RFC 3339 parser |
| `System.FileInfoRoundTrip` | pkg/types/system/system.go:23-30 | a file record whose metadata is nil or a non-empty object of JSON documents comes back from its JSON encoding |
| `System.UploadEventRoundTrip` | pkg/types/system/system.go:17-21 | an upload whose file list is nil or non-empty, whose files are of the kind above and whose location is nil or a non-null document comes back from its JSON encoding |
| `System.SystemEventDataRoundTrip` | pkg/types/system/system.go:10-15 | a system record whose upload, if any, is of the kind above comes back from its JSON encoding |
| `System.GetUploadData` | pkg/types/system/system.go:73-78 | the system record's upload, absent when the system record is absent |
| `System.UploadFromDocument` | pkg/types/system/system.go:73-78 | for any standalone document whose `"system"` object decodes: the upload is nil when that object omits `upload` or holds `null` there, and otherwise it is that member decoded |
| `System.GetSystemDataRules` | pkg/types/system/system.go:40-71 | absent when Data or StandaloneEvent is nil; present only from an encodable object holding `"system"`; from a document it is that member decoded; `null` gives the zero record |
| `System.GetSystemDataRecovers` | pkg/types/system/system.go:40-71 | a system record written under `"system"` in a standalone document is what `GetSystemData` returns |
| `Alert.AlertLevelTable` | pkg/types/alert/alert.go:28-39 | each alert sub maps to its level, in both directions; the level is "unknown" exactly for any other sub; only the sub is read |
| `Alert.DecodeAlertEventData` | pkg/types/alert/alert.go:10-18 | only an object or `null` decodes; `null` gives the zero record; id and event name are carried |
| `Alert.AlertEventDataRoundTrip` | pkg/types/alert/alert.go:10-18 | an alert record whose four SD-card and SIM-card maps are each nil or a non-empty object of JSON documents comes back from its JSON encoding |
| `Alert.GetEventName` | pkg/types/alert/alert.go:74-79 | the alert record's name, or "" when extraction fails |
| `Alert.GetAlertEventDataRules` | pkg/types/alert/alert.go:41-72 | absent when Data or StandaloneEvent is nil; present only from an encodable object holding `"alert"`; from a document it is that member decoded; `null` gives the zero record |
| `Alert.GetAlertEventDataRecovers` | pkg/types/alert/alert.go:41-72 | an alert record written under `"alert"` in a standalone document is what `GetAlertEventData` returns |
| `Hardware.ExtractorsAgree` | pkg/types/hardware/hardware.go:69-133 | the hardware system and alert extractors equal those of the system and alert packages on every event |
| `Hardware.GetEventName` | pkg/types/hardware/hardware.go:135-143 | the alert record's name whenever alert extraction succeeds, even if that name is empty; otherwise the system record's name; otherwise "" |
| `Hardware.EventNameFromDocument` | pkg/types/hardware/hardware.go:135-143 | read off a standalone document: a decodable `"alert"` names the event whatever `"system"` holds; failing that, a decodable `"system"`; otherwise "" |
| `Hardware.AlertNameWins` | pkg/types/hardware/hardware.go:135-143 | with both an alert and a system record written to the standalone document, the alert's name is returned |
| `Connection.DecodeNameStatus` | pkg/types/connection/connection.go:36-44 | decodes exactly from `null` or an object whose `name` and `status` are text (or missing or `null`); `null` gives the zero record; name and status are the text of their members |
| `Connection.DecodeConnectionEventData` | pkg/types/connection/connection.go:28-34 | only an object or `null` decodes, `null` giving the zero record; id and event name are carried; an omitted or `null` Wi-Fi link or SIM card stays nil, any other is that member decoded |
| `Connection.NameStatusRoundTrip` | pkg/types/connection/connection.go:36-44 | a Wi-Fi link or SIM card comes back from its JSON encoding |
| `Connection.ConnectionEventDataRoundTrip` | pkg/types/connection/connection.go:28-34 | a connection record comes back from its JSON encoding |
| `Connection.GetWifiConnection` | pkg/types/connection/connection.go:87-92 | the connection record's Wi-Fi link, absent when the connection record is absent |
| `Connection.GetSimCard` | pkg/types/connection/connection.go:94-99 | the connection record's SIM card, absent when the connection record is absent |
| `Connection.GetConnectionDataRules` | pkg/types/connection/connection.go:54-85 | absent when Data or StandaloneEvent is nil; present only from an encodable object holding `"connection"`; from a document it is that member decoded; `null` gives the zero record |
| `Connection.GetConnectionDataRecovers` | pkg/types/connection/connection.go:54-99 | a connection record written under `"connection"` comes back out, its Wi-Fi link and SIM card included |
| `Dms.DecodeDMSEventData` | pkg/types/dms/dms.go:10-24 | only an object or `null` decodes; `null` gives the zero record; id, event name, drowsiness and drinking are carried |
| `Dms.DMSEventDataRoundTrip` | pkg/types/dms/dms.go:10-24 | a DMS record whose maps are nil or non-empty comes back from its JSON encoding |
| `Dms.GetDrowsinessData` | pkg/types/dms/dms.go:67-72 | the drowsiness map, nil when extraction fails |
| `Dms.GetDrinkingData` | pkg/types/dms/dms.go:74-79 | the drinking map, nil when extraction fails |
| `Dms.GetEventName` | pkg/types/dms/dms.go:81-86 | the DMS record's name, or "" when extraction fails |
| `Dms.GetDMSDataRules` | pkg/types/dms/dms.go:34-65 | absent when Data or TripEvent is nil, whatever StandaloneEvent holds; present only from an encodable object holding `"dms"`; from a document it is that member decoded; `null` gives the zero record |
| `Dms.GetDMSDataRecovers` | pkg/types/dms/dms.go:34-65 | a DMS record written under `"dms"` in a trip document is what `GetDMSData` returns |
| `DriverBehavior.DecodeDriverBehaviorEventData` | pkg/types/driverbehavior/driverbehavior.go:10-21 | only an object or `null` decodes; `null` gives the zero record; id, event name, harsh acceleration and harsh braking are carried |
| `DriverBehavior.DriverBehaviorEventDataRoundTrip` | pkg/types/driverbehavior/driverbehavior.go:10-21 | a driver-behaviour record whose maps are nil or non-empty comes back from its JSON encoding |
| `DriverBehavior.GetHarshAccelerationData` | pkg/types/driverbehavior/driverbehavior.go:64-69 | the harsh-acceleration map, nil when extraction fails |
| `DriverBehavior.GetHarshBrakingData` | pkg/types/driverbehavior/driverbehavior.go:71-76 | the harsh-braking map, nil when extraction fails |
| `DriverBehavior.GetEventName` | pkg/types/driverbehavior/driverbehavior.go:78-83 | the record's name, or "" when extraction fails |
| `DriverBehavior.GetDriverBehaviorDataRules` | pkg/types/driverbehavior/driverbehavior.go:31-62 | absent when Data or TripEvent is nil; present only from an encodable object holding `"driver_behavior"`; from a document it is that member decoded; `null` gives the zero record |
| `DriverBehavior.GetDriverBehaviorDataRecovers` | pkg/types/driverbehavior/driverbehavior.go:31-62 | a driver-behaviour record written under `"driver_behavior"` is what `GetDriverBehaviorData` returns |
| `Vision.DecodeVisionEventData` | pkg/types/vision/vision.go:10-19 | only an object or `null` decodes; `null` gives the zero record; id, event name, face-detected and face-lost are carried |
| `Vision.VisionEventDataRoundTrip` | pkg/types/vision/vision.go:10-19 | a vision record whose maps are nil or non-empty comes back from its JSON encoding |
| `Vision.GetFaceDetectedData` | pkg/types/vision/vision.go:62-67 | the face-detected map, nil when extraction fails |
| `Vision.GetFaceLostData` | pkg/types/vision/vision.go:69-74 | the face-lost map, nil when extraction fails |
| `Vision.GetEventName` | pkg/types/vision/vision.go:76-81 | the vision record's name, or "" when extraction fails |
| `Vision.GetVisionEventDataRules` | pkg/types/vision/vision.go:29-60 | absent when Data or TripEvent is nil; present only from an encodable object holding `"vision"`; from a document it is that member decoded; `null` gives the zero record |
| `Vision.GetVisionEventDataRecovers` | pkg/types/vision/vision.go:29-60 | a vision record written under `"vision"` in a trip document is what `GetVisionEventData` returns |
| `Telemetry.DecodeBatteryMetric` | pkg/types/telemetry/telemetry.go:28-32 | decodes exactly from `null` or an object whose `component` and `status` are text (or missing or `null`) and whose `voltage` is a number (or missing or `null`); `null` gives the zero reading; component and status are the text of their members, voltage the number (0 when missing or `null`) |
| `Telemetry.DecodeTelemetry` | pkg/types/telemetry/telemetry.go:17-26 | only an object or `null` decodes; `null` gives the zero record; id and status are carried; a metrics object keeps its metric names |
| `Telemetry.BatteryMetricRoundTrip` | pkg/types/telemetry/telemetry.go:28-32 | a battery reading comes back from its JSON encoding, a zero voltage being omitted and read back as zero |
| `Telemetry.TelemetryRoundTrip` | pkg/types/telemetry/telemetry.go:17-26 | a telemetry record whose four untyped members are nil or non-null documents and whose metrics map is nil or non-empty comes back from its JSON encoding |
| `Telemetry.GetBatteryMetrics` | pkg/types/telemetry/telemetry.go:73-78 | the decoded metrics map, nil when extraction fails |
| `Telemetry.GetTelemetryDataRules` | pkg/types/telemetry/telemetry.go:55-71 | absent when Data or Telemetry is nil, or when the subtree cannot be encoded; for a document it is the whole subtree decoded, with no key lookup |
| `Telemetry.BatteryMetricsKeepKeys` | pkg/types/telemetry/telemetry.go:73-78 | the battery metrics of a telemetry document keep the document's metric names |
| `Telemetry.GetTelemetryDataRecovers` | pkg/types/telemetry/telemetry.go:55-78 | a telemetry record written as the telemetry subtree comes back out, its metrics included |
| `Vehicle.VehicleIsTelemetry` | pkg/types/vehicle/vehicle.go:16-23 | the vehicle's telemetry equals the telemetry extractor on every envelope; absent when Data is nil or Telemetry is nil |
| `Order.GetOrderIsProjection` | pkg/types/order/order.go:15-20 | the order is the envelope's own order record, present exactly when the envelope has one, and it depends on nothing else |

## Left out

- JSON text syntax. The reader of `ParseEvent` is the parameter `syntax`. Byte-level
  encoding and its errors (invalid UTF-8, number ranges, duplicate keys) are not modelled.
- RFC 3339 internals. `time.Parse` and `Time.Format` are the two functions of a
  `TimeCodec`. Round-trip results assume only that parsing a formatted instant returns it.
  The failure of `Time.MarshalJSON` for years outside 0..9999 is not modelled.
- One RFC 3339 parser. `ParseEvent` and `GetTelemetryTimestamp` parse with
  `time.Parse(time.RFC3339Nano, …)`, while `time.Time`'s `UnmarshalJSON` reads every time
  field of a decoded record with its own, stricter parser. The
  model uses the single function `TimeCodec.parse` for both, so text that one parser accepts
  and the other rejects is not modelled. `Parser.DecodeSeesCreatedAtInstant` states that the
  `created_at` repair is invisible under this single-parser assumption.
- Case-insensitive key matching. `encoding/json` also matches struct fields to keys that
  differ only in letter case. The decoders match keys exactly.
- Floating point. `float64` values, such as `BatteryMetric.Voltage`, are exact reals,
  with no rounding and no NaN or infinity.
- Go structs in untyped trees. A Go struct stored in an untyped tree is represented by its
  JSON object. The direct type assertions in `GetIgnitionStatus`, `GetConnectionType` and
  `GetTelemetryTimestamp` therefore see a struct as a map, where Go's assertion to
  `map[string]interface{}` would fail.
- Event wrappers. The per-package `Event` wrappers and their `New` constructors are not
  modelled. Each accessor takes the `BaseEvent` directly; the envelope is never changed, so
  wrapping by reference and passing the value give the same readings.
- Nil events. The Go functions take a `*BaseEvent`, and `ValidateEvent`, the getters and the
  projections of internal/parser/parser.go dereference it, so a nil event panics there. The
  model takes the envelope by value, so a nil event cannot be passed and the panic is not
  modelled.
- Error texts. `ParseEvent` and `ValidateEvent` return Go errors with messages; the model
  keeps only the error kind (`ParseError`, `ValidationError`).
- Types with no logic:
  - `Hardware`, `HardwareModel` and `FirmwareVersion` (pkg/types/hardware/hardware.go:10-27);
  - `TripTelemetry` and `IgnitionEvent` (pkg/types/telemetry/telemetry.go:34-45);
  - `Connection` (pkg/types/connection/connection.go:18-26);
  - the carriers in `pkg/types/common/common.go`, which is not part of this model.
- Test file I/O. The sample payloads the tests read from disk are not modelled.
