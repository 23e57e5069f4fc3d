/** The shipment as the object the application holds, updated in place. */
module Shipments {
  import opened Common
  import opened Envelope
  import opened ShipmentRules

  class Shipment {
    const id: string
    const waybill: string
    var status: TrackingStatus
    var manifest: Option<Manifest>

    constructor (value: ShipmentValue)
      ensures Value() == value
    {
      id, waybill := value.id, value.waybill;
      status, manifest := value.status, value.manifest;
    }

    /** A new shipment starts as a draft without a manifest. */
    static method Create(id: string, waybill: string) returns (s: Shipment)
      ensures fresh(s) && s.Value() == ShipmentValue(id, waybill, Draft, None)
    {
      s := new Shipment(ShipmentValue(id, waybill, Draft, None));
    }

    function Value(): ShipmentValue
      reads this
    {
      ShipmentValue(id, waybill, status, manifest)
    }

    /** Declares the cargo and returns the body of the event to publish. */
    method FinalizeManifest(m: Manifest) returns (r: Result<Body, ShipmentError>)
      modifies this
      ensures match Finalize(old(Value()), m)
              case Ok((value, body)) => r == Ok(body) && Value() == value
              case Err(error) => r == Err(error) && Value() == old(Value())
    {
      if status != Draft {
        return Err(ManifestNotFinalizable);
      }
      if m.weightKg <= 0.0 {
        return Err(InvalidCargoManifest);
      }
      manifest := Some(m);
      status := ReadyForManifest;
      return Ok(map[ShipmentIdField := id, WaybillNumberField := waybill, CommodityCodeField := m.commodityCode]);
    }
  }
}
