/** The event envelope (`pkg/types/base`): the open-string enumerations, the `BaseEvent`
    shape with its optional device, order and untyped data subtrees, the envelope's getters,
    and how `json.Unmarshal` fills these shapes from a JSON document. */
module Base {
  import opened Wrappers
  import opened GoJson

  // The enumerations are open: any string is a legal value, the constants only name the
  // values the SDK knows about.
  type EventStatus = string
  type EventType = string
  type EventCategory = string
  type EventSub = string
  type OrderStatus = string
  type OrderGroup = string
  type OrderType = string

  const StatusReceived: EventStatus := "STATUS_RECEIVED"
  const StatusProcessed: EventStatus := "STATUS_PROCESSED"
  const StatusFailed: EventStatus := "STATUS_FAILED"

  const EventTypeOrder: EventType := "EVENT_TYPE_ORDER"
  const EventTypeGeneral: EventType := "EVENT_TYPE_GENERAL"

  const EventCategoryOrder: EventCategory := "EVENT_CATEGORY_ORDER"
  const EventCategorySystem: EventCategory := "EVENT_CATEGORY_SYSTEM"
  const EventCategoryHardware: EventCategory := "EVENT_CATEGORY_HARDWARE"
  const EventCategoryConnection: EventCategory := "EVENT_CATEGORY_CONNECTION"
  const EventCategoryVision: EventCategory := "EVENT_CATEGORY_VISION"
  const EventCategoryTelemetry: EventCategory := "EVENT_CATEGORY_TELEMETRY"
  const EventCategoryDMS: EventCategory := "EVENT_CATEGORY_DMS"
  const EventCategoryDriverBehavior: EventCategory := "EVENT_CATEGORY_DRIVER_BEHAVIOR"
  const EventCategoryVehicle: EventCategory := "EVENT_CATEGORY_VEHICLE"
  const EventCategoryAlert: EventCategory := "EVENT_CATEGORY_ALERT"

  /** The ten known categories, in declaration order. */
  const Categories: seq<EventCategory> := [
    EventCategoryOrder, EventCategorySystem, EventCategoryHardware, EventCategoryConnection,
    EventCategoryVision, EventCategoryTelemetry, EventCategoryDMS, EventCategoryDriverBehavior,
    EventCategoryVehicle, EventCategoryAlert]

  const EventSubOrderStatus: EventSub := "EVENT_SUB_ORDER_STATUS"
  const EventSubSystemUpload: EventSub := "EVENT_SUB_SYSTEM_UPLOAD"
  const EventSubConnectionStatusChanged: EventSub := "EVENT_SUB_CONNECTION_STATUS_CHANGED"
  const EventSubAlertCritical: EventSub := "EVENT_SUB_ALERT_CRITICAL"
  const EventSubVisionBasic: EventSub := "EVENT_SUB_VISION_BASIC"
  const EventSubDMSBasic: EventSub := "EVENT_SUB_DMS_BASIC"
  const EventSubDMSAdvanced: EventSub := "EVENT_SUB_DMS_ADVANCED"
  const EventSubDriverBehaviorAdvanced: EventSub := "EVENT_SUB_DRIVER_BEHAVIOR_ADVANCED"
  const EventSubAlertWarning: EventSub := "EVENT_SUB_ALERT_WARNING"
  const EventSubAlertInfo: EventSub := "EVENT_SUB_ALERT_INFO"
  const EventSubTelemetryBattery: EventSub := "EVENT_SUB_TELEMETRY_BATTERY"
  const EventSubTelemetryIgnition: EventSub := "EVENT_SUB_TELEMETRY_IGNITION"
  const EventSubTelemetryLocation: EventSub := "EVENT_SUB_TELEMETRY_LOCATION"

  const OrderStatusAck: OrderStatus := "ORDER_STATUS_ACK"
  const OrderStatusSent: OrderStatus := "ORDER_STATUS_SENT"
  const OrderStatusFailed: OrderStatus := "ORDER_STATUS_FAILED"
  const OrderGroupConfig: OrderGroup := "ORDER_GROUP_CONFIG"
  const OrderTypeConfig: OrderType := "CONFIG"

  /** The device that emitted an event; `orders` is nil when the payload has none. */
  datatype Device = Device(
    id: string,
    correlationId: string,
    uid: string,
    accountId: string,
    orders: Option<seq<string>>)

  /** An order record carried by order-category events. */
  datatype Order = Order(
    id: string,
    correlationId: string,
    group: OrderGroup,
    status: OrderStatus,
    orderType: OrderType,
    createdAt: Instant,
    updatedAt: Instant)

  /** The three untyped subtrees; each is independently nil (None) or set. */
  datatype Data = Data(
    telemetry: Option<Json>,
    groupName: string,
    standaloneEvent: Option<Json>,
    tripEvent: Option<Json>)

  /** Device, data and order are each independently optional. */
  datatype Attributes = Attributes(device: Option<Device>, data: Option<Data>, order: Option<Order>)

  /** The envelope. Its getters mirror the methods of Go's `BaseEvent`. */
  datatype BaseEvent = BaseEvent(
    id: string,
    status: EventStatus,
    createdAt: Instant,
    eventType: EventType,
    category: EventCategory,
    sub: EventSub,
    attributes: Attributes)
  {
    function GetID(): string { id }

    function GetCategory(): EventCategory { category }

    function GetSubType(): EventSub { sub }

    /** The device's id, or "" when the event carries no device. */
    function GetDeviceID(): string
    {
      if attributes.device.Some? then attributes.device.value.id else ""
    }

    function GetCreatedAt(): Instant { createdAt }
  }

  const NoAttributes := Attributes(None, None, None)
  const ZeroEvent := BaseEvent("", "", ZeroTime, "", "", "", NoAttributes)

  /** The stored-field getters return the stored field; `GetDeviceID` defaults to "". */
  lemma GettersReadEnvelope(e: BaseEvent)
    ensures e.GetID() == e.id && e.GetCategory() == e.category && e.GetSubType() == e.sub
    ensures e.GetCreatedAt() == e.createdAt
    ensures e.attributes.device.Some? ==> e.GetDeviceID() == e.attributes.device.value.id
    ensures e.attributes.device.None? ==> e.GetDeviceID() == ""
  {
  }

  /** The ten category constants are pairwise distinct. */
  lemma CategoriesDistinct()
    ensures |Categories| == 10
    ensures forall i, j | 0 <= i < j < |Categories| :: Categories[i] != Categories[j]
  {
  }

  /** The three alert subs are pairwise distinct and differ from the order-status sub. */
  lemma AlertSubsDistinct()
    ensures EventSubAlertCritical != EventSubAlertWarning
    ensures EventSubAlertCritical != EventSubAlertInfo
    ensures EventSubAlertWarning != EventSubAlertInfo
    ensures EventSubOrderStatus !in {EventSubAlertCritical, EventSubAlertWarning, EventSubAlertInfo}
  {
  }

  // ---- json.Unmarshal into the envelope types ----

  /** A `[]string` element: `null` reads as "". */
  function DecodeStringElem(j: Json): Option<string>
  {
    DecodeString(Some(j))
  }

  const ZeroDevice := Device("", "", "", "", None)
  const ZeroOrder := Order("", "", "", "", "", ZeroTime, ZeroTime)
  const ZeroData := Data(None, "", None, None)

  function DecodeDevice(j: Json): (r: Option<Device>)
    ensures r.Some? ==> j.JObject? || j.JNull?
    ensures j.JNull? ==> r == Some(ZeroDevice)
    ensures r.Some? && j.JObject? ==>
              && r.value.id == TextOf(j.fields, "id")
              && r.value.correlationId == TextOf(j.fields, "correlation_id")
              && r.value.uid == TextOf(j.fields, "uid")
              && r.value.accountId == TextOf(j.fields, "account_id")
  {
    match j
    case JNull => Some(ZeroDevice)
    case JObject(f) =>
      var id :- DecodeString(Field(f, "id"));
      var correlationId :- DecodeString(Field(f, "correlation_id"));
      var uid :- DecodeString(Field(f, "uid"));
      var accountId :- DecodeString(Field(f, "account_id"));
      var orders :- DecodeSlice(Field(f, "orders"), DecodeStringElem);
      Some(Device(id, correlationId, uid, accountId, orders))
    case _ => None
  }

  function DecodeOrder(j: Json, parse: string -> Option<Instant>): (r: Option<Order>)
    ensures r.Some? ==> j.JObject? || j.JNull?
    ensures j.JNull? ==> r == Some(ZeroOrder)
    ensures r.Some? && j.JObject? ==>
              && r.value.id == TextOf(j.fields, "id")
              && r.value.correlationId == TextOf(j.fields, "correlation_id")
              && r.value.group == TextOf(j.fields, "group")
              && r.value.status == TextOf(j.fields, "status")
              && r.value.orderType == TextOf(j.fields, "type")
  {
    match j
    case JNull => Some(ZeroOrder)
    case JObject(f) =>
      var id :- DecodeString(Field(f, "id"));
      var correlationId :- DecodeString(Field(f, "correlation_id"));
      var group :- DecodeString(Field(f, "group"));
      var status :- DecodeString(Field(f, "status"));
      var orderType :- DecodeString(Field(f, "type"));
      var createdAt :- DecodeTime(Field(f, "created_at"), parse);
      var updatedAt :- DecodeTime(Field(f, "updated_at"), parse);
      Some(Order(id, correlationId, group, status, orderType, createdAt, updatedAt))
    case _ => None
  }

  /** The three subtrees are read independently: each is nil exactly when its member is
      missing or `null`, and otherwise holds that member as it stands. */
  function DecodeData(j: Json): (r: Option<Data>)
    ensures r.Some? <==> j.JNull? || (j.JObject? && TextMember(j.fields, "group_name"))
    ensures r.Some? && j.JObject? ==> r.value.groupName == TextOf(j.fields, "group_name")
    ensures r.Some? && j.JObject? ==>
              && (r.value.telemetry.None? <==> ("telemetry" !in j.fields || j.fields["telemetry"].JNull?))
              && (r.value.standaloneEvent.None? <==>
                    ("standalone_event" !in j.fields || j.fields["standalone_event"].JNull?))
              && (r.value.tripEvent.None? <==> ("trip_event" !in j.fields || j.fields["trip_event"].JNull?))
    ensures r.Some? && j.JObject? ==>
              && (r.value.telemetry.Some? ==> r.value.telemetry.value == j.fields["telemetry"])
              && (r.value.standaloneEvent.Some? ==> r.value.standaloneEvent.value == j.fields["standalone_event"])
              && (r.value.tripEvent.Some? ==> r.value.tripEvent.value == j.fields["trip_event"])
  {
    match j
    case JNull => Some(ZeroData)
    case JObject(f) =>
      var groupName :- DecodeString(Field(f, "group_name"));
      Some(Data(DecodeAny(Field(f, "telemetry")), groupName,
                DecodeAny(Field(f, "standalone_event")), DecodeAny(Field(f, "trip_event"))))
    case _ => None
  }

  /** Device, data and order are read independently: a missing or `null` member leaves its
      pointer nil, any other member must decode and is then pointed to. */
  function DecodeAttributes(j: Json, parse: string -> Option<Instant>): (r: Option<Attributes>)
    ensures r.Some? ==> j.JObject? || j.JNull?
    ensures j.JNull? ==> r == Some(NoAttributes)
    ensures j.JObject? ==>
              (r.Some? <==>
                 && ("device" in j.fields && !j.fields["device"].JNull? ==> DecodeDevice(j.fields["device"]).Some?)
                 && ("data" in j.fields && !j.fields["data"].JNull? ==> DecodeData(j.fields["data"]).Some?)
                 && ("order" in j.fields && !j.fields["order"].JNull? ==>
                       DecodeOrder(j.fields["order"], parse).Some?))
    ensures r.Some? && j.JObject? ==>
              && ("device" !in j.fields || j.fields["device"].JNull? ==> r.value.device.None?)
              && ("data" !in j.fields || j.fields["data"].JNull? ==> r.value.data.None?)
              && ("order" !in j.fields || j.fields["order"].JNull? ==> r.value.order.None?)
    ensures r.Some? && j.JObject? ==>
              && ("device" in j.fields && !j.fields["device"].JNull? ==>
                    r.value.device == DecodeDevice(j.fields["device"]))
              && ("data" in j.fields && !j.fields["data"].JNull? ==> r.value.data == DecodeData(j.fields["data"]))
              && ("order" in j.fields && !j.fields["order"].JNull? ==>
                    r.value.order == DecodeOrder(j.fields["order"], parse))
  {
    match j
    case JNull => Some(NoAttributes)
    case JObject(f) =>
      var device :- DecodePointer(Field(f, "device"), DecodeDevice);
      var data :- DecodePointer(Field(f, "data"), DecodeData);
      var order :- DecodePointer(Field(f, "order"), (o: Json) => DecodeOrder(o, parse));
      Some(Attributes(device, data, order))
    case _ => None
  }

  /** `json.Unmarshal` into a `BaseEvent`: an object decodes exactly when its string members
      are text (or missing or `null`), its `created_at` parses as RFC 3339 and its
      `attributes` decode; each field then holds its member, defaults filling the gaps;
      `null` leaves the zero event. */
  function DecodeBaseEvent(j: Json, parse: string -> Option<Instant>): (r: Option<BaseEvent>)
    ensures r.Some? ==> j.JObject? || j.JNull?
    ensures j.JNull? ==> r == Some(ZeroEvent)
    ensures j.JObject? ==>
              (r.Some? <==>
                 && TextMember(j.fields, "id") && TextMember(j.fields, "status")
                 && TimeMember(j.fields, "created_at", parse)
                 && TextMember(j.fields, "type") && TextMember(j.fields, "category") && TextMember(j.fields, "sub")
                 && ("attributes" in j.fields ==> DecodeAttributes(j.fields["attributes"], parse).Some?))
    ensures r.Some? && j.JObject? ==>
              && r.value.id == TextOf(j.fields, "id")
              && r.value.status == TextOf(j.fields, "status")
              && r.value.eventType == TextOf(j.fields, "type")
              && r.value.category == TextOf(j.fields, "category")
              && r.value.sub == TextOf(j.fields, "sub")
    ensures r.Some? && j.JObject? && "created_at" in j.fields && j.fields["created_at"].JString? ==>
              Some(r.value.createdAt) == parse(j.fields["created_at"].str)
    ensures r.Some? && j.JObject? && ("created_at" !in j.fields || j.fields["created_at"].JNull?) ==>
              r.value.createdAt == ZeroTime
    ensures r.Some? && j.JObject? ==>
              Some(r.value.attributes) ==
                (if "attributes" in j.fields then DecodeAttributes(j.fields["attributes"], parse) else Some(NoAttributes))
  {
    match j
    case JNull => Some(ZeroEvent)
    case JObject(f) =>
      var id :- DecodeString(Field(f, "id"));
      var status :- DecodeString(Field(f, "status"));
      var createdAt :- DecodeTime(Field(f, "created_at"), parse);
      var eventType :- DecodeString(Field(f, "type"));
      var category :- DecodeString(Field(f, "category"));
      var sub :- DecodeString(Field(f, "sub"));
      var attributes :- if "attributes" in f then DecodeAttributes(f["attributes"], parse) else Some(NoAttributes);
      Some(BaseEvent(id, status, createdAt, eventType, category, sub, attributes))
    case _ => None
  }

  /** The enumerations are open: whatever text, known or not (such as
      "EVENT_CATEGORY_HEALTH"), an envelope carries as its status, type, category and sub,
      it decodes as before with those four fields holding that text and nothing else
      changed. */
  lemma EnumerationsAreOpen(f: map<string, Json>, parse: string -> Option<Instant>,
                            status: EventStatus, eventType: EventType, category: EventCategory, sub: EventSub)
    requires DecodeBaseEvent(JObject(f), parse).Some?
    ensures var g := f["status" := JString(status)]["type" := JString(eventType)]
                      ["category" := JString(category)]["sub" := JString(sub)];
            DecodeBaseEvent(JObject(g), parse) ==
              Some(DecodeBaseEvent(JObject(f), parse).value.(status := status, eventType := eventType,
                                                             category := category, sub := sub))
    ensures "EVENT_CATEGORY_HEALTH" !in Categories
  {
    var g := f["status" := JString(status)]["type" := JString(eventType)]
               ["category" := JString(category)]["sub" := JString(sub)];
    assert Field(g, "id") == Field(f, "id");
    assert Field(g, "created_at") == Field(f, "created_at");
    assert ("attributes" in g) == ("attributes" in f);
    assert "attributes" in g ==> g["attributes"] == f["attributes"];
    assert Field(g, "status") == Some(JString(status));
    assert Field(g, "type") == Some(JString(eventType));
    assert Field(g, "category") == Some(JString(category));
    assert Field(g, "sub") == Some(JString(sub));
  }

  // ---- json.Marshal of the envelope types ----

  const DeviceKeys: set<string> := {"id", "correlation_id", "uid", "account_id", "orders"}

  function DeviceMember(x: Device, key: string): Option<Json>
  {
    match key
    case "id" => Some(JString(x.id))
    case "correlation_id" => Some(JString(x.correlationId))
    case "uid" => Some(JString(x.uid))
    case "account_id" => Some(JString(x.accountId))
    case "orders" => OmitEmptySlice(x.orders, (s: string) => JString(s))
    case _ => None
  }

  function EncodeDevice(x: Device): Json
  {
    JObject(map k | k in DeviceKeys && DeviceMember(x, k).Some? :: DeviceMember(x, k).value)
  }

  const OrderKeys: set<string> := {"id", "correlation_id", "group", "status", "type", "created_at", "updated_at"}

  function OrderMember(x: Order, format: Instant -> string, key: string): Option<Json>
  {
    match key
    case "id" => Some(JString(x.id))
    case "correlation_id" => Some(JString(x.correlationId))
    case "group" => Some(JString(x.group))
    case "status" => Some(JString(x.status))
    case "type" => Some(JString(x.orderType))
    case "created_at" => Some(JString(format(x.createdAt)))
    case "updated_at" => Some(JString(format(x.updatedAt)))
    case _ => None
  }

  function EncodeOrder(x: Order, format: Instant -> string): Json
  {
    JObject(map k | k in OrderKeys && OrderMember(x, format, k).Some? :: OrderMember(x, format, k).value)
  }

  const DataKeys: set<string> := {"telemetry", "group_name", "standalone_event", "trip_event"}

  function DataMember(x: Data, key: string): Option<Json>
  {
    match key
    case "telemetry" => OmitNil(x.telemetry)
    case "group_name" => OmitEmptyString(x.groupName)
    case "standalone_event" => OmitNil(x.standaloneEvent)
    case "trip_event" => OmitNil(x.tripEvent)
    case _ => None
  }

  function EncodeData(x: Data): Json
  {
    JObject(map k | k in DataKeys && DataMember(x, k).Some? :: DataMember(x, k).value)
  }

  const AttributesKeys: set<string> := {"device", "data", "order"}

  function AttributesMember(x: Attributes, format: Instant -> string, key: string): Option<Json>
  {
    match key
    case "device" => OmitNilPointer(x.device, EncodeDevice)
    case "data" => OmitNilPointer(x.data, EncodeData)
    case "order" => OmitNilPointer(x.order, (o: Order) => EncodeOrder(o, format))
    case _ => None
  }

  function EncodeAttributes(x: Attributes, format: Instant -> string): Json
  {
    JObject(map k | k in AttributesKeys && AttributesMember(x, format, k).Some? :: AttributesMember(x, format, k).value)
  }

  const BaseEventKeys: set<string> := {"id", "status", "created_at", "type", "category", "sub", "attributes"}

  function BaseEventMember(x: BaseEvent, format: Instant -> string, key: string): Option<Json>
  {
    match key
    case "id" => Some(JString(x.id))
    case "status" => Some(JString(x.status))
    case "created_at" => Some(JString(format(x.createdAt)))
    case "type" => Some(JString(x.eventType))
    case "category" => Some(JString(x.category))
    case "sub" => Some(JString(x.sub))
    case "attributes" => Some(EncodeAttributes(x.attributes, format))
    case _ => None
  }

  function EncodeBaseEvent(x: BaseEvent, format: Instant -> string): Json
  {
    JObject(map k | k in BaseEventKeys && BaseEventMember(x, format, k).Some? :: BaseEventMember(x, format, k).value)
  }

  /** What survives a round trip through the `omitempty` members: `orders` nil or non-empty,
      and each untyped subtree nil or a non-null document. */
  predicate CanonicalAttributes(x: Attributes)
  {
    && (x.device.Some? ==> x.device.value.orders.None? || x.device.value.orders.value != [])
    && (x.data.Some? ==>
          DecodableAny(x.data.value.telemetry) && DecodableAny(x.data.value.standaloneEvent)
          && DecodableAny(x.data.value.tripEvent))
  }

  /** Encoding a device and decoding the result gives it back. */
  lemma DeviceRoundTrip(x: Device)
    requires x.orders.None? || x.orders.value != []
    ensures DecodeDevice(EncodeDevice(x)) == Some(x)
  {
    var f := EncodeDevice(x).fields;
    if x.orders.Some? {
      SliceRoundTrip(x.orders.value, (s: string) => JString(s), DecodeStringElem);
      assert Field(f, "orders") == Some(EncodeSlice(x.orders.value, (s: string) => JString(s)));
    }
    assert DecodeSlice(Field(f, "orders"), DecodeStringElem) == Some(x.orders);
  }

  /** Encoding an order and decoding the result gives it back. */
  lemma OrderRoundTrip(x: Order, clock: TimeCodec)
    requires RoundTrips(clock)
    ensures DecodeOrder(EncodeOrder(x, clock.format), clock.parse) == Some(x)
  {
    var f := EncodeOrder(x, clock.format).fields;
    assert DecodeTime(Field(f, "created_at"), clock.parse) == Some(x.createdAt);
    assert DecodeTime(Field(f, "updated_at"), clock.parse) == Some(x.updatedAt);
  }

  /** Encoding a data record and decoding the result gives it back. */
  lemma DataRoundTrip(x: Data)
    requires DecodableAny(x.telemetry) && DecodableAny(x.standaloneEvent) && DecodableAny(x.tripEvent)
    ensures DecodeData(EncodeData(x)) == Some(x)
  {
    var f := EncodeData(x).fields;
    assert DecodeString(Field(f, "group_name")) == Some(x.groupName);
    assert DecodeAny(Field(f, "telemetry")) == x.telemetry;
    assert DecodeAny(Field(f, "standalone_event")) == x.standaloneEvent;
    assert DecodeAny(Field(f, "trip_event")) == x.tripEvent;
  }

  /** Encoding the attributes and decoding the result gives them back. */
  lemma AttributesRoundTrip(x: Attributes, clock: TimeCodec)
    requires RoundTrips(clock) && CanonicalAttributes(x)
    ensures DecodeAttributes(EncodeAttributes(x, clock.format), clock.parse) == Some(x)
  {
    var f := EncodeAttributes(x, clock.format).fields;
    if x.device.Some? {
      DeviceRoundTrip(x.device.value);
      assert Field(f, "device") == Some(EncodeDevice(x.device.value));
    }
    if x.data.Some? {
      DataRoundTrip(x.data.value);
      assert Field(f, "data") == Some(EncodeData(x.data.value));
    }
    if x.order.Some? {
      OrderRoundTrip(x.order.value, clock);
      assert Field(f, "order") == Some(EncodeOrder(x.order.value, clock.format));
    }
    assert DecodePointer(Field(f, "device"), DecodeDevice) == Some(x.device);
    assert DecodePointer(Field(f, "data"), DecodeData) == Some(x.data);
    assert DecodePointer(Field(f, "order"), (o: Json) => DecodeOrder(o, clock.parse)) == Some(x.order);
  }

  /** Encoding an envelope and decoding the result gives it back. */
  lemma BaseEventRoundTrip(x: BaseEvent, clock: TimeCodec)
    requires RoundTrips(clock) && CanonicalAttributes(x.attributes)
    ensures DecodeBaseEvent(EncodeBaseEvent(x, clock.format), clock.parse) == Some(x)
  {
    var f := EncodeBaseEvent(x, clock.format).fields;
    AttributesRoundTrip(x.attributes, clock);
    assert f["attributes"] == EncodeAttributes(x.attributes, clock.format);
    assert DecodeTime(Field(f, "created_at"), clock.parse) == Some(x.createdAt);
  }
}
