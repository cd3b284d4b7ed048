/** Vehicle events (`pkg/types/vehicle`): the vehicle's telemetry, read by delegating to the
    telemetry extractor once `Data` is known to be present. */
module Vehicle {
  import opened Wrappers
  import opened GoJson
  import opened Base
  import opened Extraction
  import Telemetry

  /** `GetVehicleTelemetry`: absent when `Data` is nil, otherwise the telemetry extractor on
      the same envelope. */
  function GetVehicleTelemetry(e: BaseEvent, clock: TimeCodec): Option<Telemetry.Telemetry>
  {
    if e.attributes.data.None? then None
    else Telemetry.GetTelemetryData(e, clock)
  }

  /** The nil check on `Data` changes nothing: the vehicle reading is the telemetry reading on
      every envelope, so it is absent when `Data` is nil or `Data.Telemetry` is nil, and on
      success carries the telemetry's id and ignition status. */
  lemma VehicleIsTelemetry(e: BaseEvent, clock: TimeCodec)
    ensures GetVehicleTelemetry(e, clock) == Telemetry.GetTelemetryData(e, clock)
    ensures e.attributes.data.None? ==> GetVehicleTelemetry(e, clock).None?
    ensures e.attributes.data.Some? && e.attributes.data.value.telemetry.None? ==>
              GetVehicleTelemetry(e, clock).None?
  {
    Telemetry.GetTelemetryDataRules(e, clock);
  }
}
