/** The shipment as a value: declaring the cargo moves a draft on, once, and yields
    the event customs is told about. */
module ShipmentRules {
  import opened Common
  import opened Envelope
  import Text

  datatype TrackingStatus =
    | Draft
    | ReadyForManifest
    | AwaitingCustomsRelease
    | InTransit
    | Delivered
    | ExceptionHeld

  /** Weights and volumes are exact here. */
  datatype Manifest = Manifest(weightKg: real, volumeCbm: real, commodityCode: string)

  datatype ShipmentValue = ShipmentValue(id: string, waybill: string, status: TrackingStatus,
                                         manifest: Option<Manifest>)

  datatype ShipmentError = InvalidCargoManifest | ManifestNotFinalizable

  const MAX_COMMODITY_CODE_LENGTH := 16

  function MakeManifest(weightKg: real, volumeCbm: real, commodityCode: string): Result<Manifest, ShipmentError> {
    var code := Text.Upper(Text.Trim(commodityCode));
    if weightKg < 0.0 || volumeCbm < 0.0 || code == "" || |code| > MAX_COMMODITY_CODE_LENGTH
    then Err(InvalidCargoManifest)
    else Ok(Manifest(weightKg, volumeCbm, code))
  }

  /** A manifest as the constructor leaves it. */
  predicate WellMade(m: Manifest) {
    MakeManifest(m.weightKg, m.volumeCbm, m.commodityCode) == Ok(m)
  }

  lemma {:induction false} MadeIsWellMade(weightKg: real, volumeCbm: real, commodityCode: string)
    requires MakeManifest(weightKg, volumeCbm, commodityCode).Ok?
    ensures WellMade(MakeManifest(weightKg, volumeCbm, commodityCode).value)
  {
    var code := Text.Upper(Text.Trim(commodityCode));
    Text.UpperKeepsTrimmed(Text.Trim(commodityCode));
    assert Text.Upper(code) == code;
  }

  lemma {:induction false} WellMadeCode(m: Manifest)
    requires WellMade(m)
    ensures Text.Trim(m.commodityCode) == m.commodityCode && 1 <= |m.commodityCode| <= MAX_COMMODITY_CODE_LENGTH
  {
    Text.UpperKeepsTrimmed(Text.Trim(m.commodityCode));
  }

  function ManifestBody(s: ShipmentValue, m: Manifest): Body {
    map[ShipmentIdField := s.id, WaybillNumberField := s.waybill, CommodityCodeField := m.commodityCode]
  }

  /** Only a draft can be finalized, and only with something on board. */
  function Finalize(s: ShipmentValue, m: Manifest): Result<(ShipmentValue, Body), ShipmentError> {
    if s.status != Draft then Err(ManifestNotFinalizable)
    else if m.weightKg <= 0.0 then Err(InvalidCargoManifest)
    else Ok((s.(manifest := Some(m), status := ReadyForManifest), ManifestBody(s, m)))
  }

  /** A manifest is made of a non-negative weight and volume and a commodity code of 1 to
      16 characters, which is upper-cased; everything else is refused. */
  lemma {:induction false} MakesExactly(weightKg: real, volumeCbm: real, commodityCode: string)
    ensures MakeManifest(weightKg, volumeCbm, commodityCode) ==
              if weightKg >= 0.0 && volumeCbm >= 0.0 && 1 <= |Text.Trim(commodityCode)| <= 16
              then Ok(Manifest(weightKg, volumeCbm, Text.Upper(Text.Trim(commodityCode))))
                   else Err(InvalidCargoManifest)
  {
  }

  /** Finalizing succeeds exactly on a draft with something on board: an empty manifest is
      refused, and so is any shipment that left Draft. */
  lemma {:induction false} FinalizesExactly(s: ShipmentValue, m: Manifest)
    ensures Finalize(s, m).Ok? <==> s.status == Draft && m.weightKg > 0.0
    ensures s.status != Draft ==> Finalize(s, m) == Err(ManifestNotFinalizable)
    ensures s.status == Draft && m.weightKg <= 0.0 ==> Finalize(s, m) == Err(InvalidCargoManifest)
    ensures Finalize(s, m).Ok? ==>
              var body := Finalize(s, m).value.1;
              body.Keys == {ShipmentIdField, WaybillNumberField, CommodityCodeField} && body[ShipmentIdField] == s.id &&
              body[WaybillNumberField] == s.waybill && body[CommodityCodeField] == m.commodityCode
  {
  }

  /** Finalizing is once and for all: the shipment is ready with the declared cargo, the
      event names it, and no further attempt can change either. */
  lemma {:induction false} FinalizedForGood(s: ShipmentValue, m: Manifest, again: Manifest)
    requires Finalize(s, m).Ok?
    ensures var (updated, body) := Finalize(s, m).value;
            updated.status == ReadyForManifest && updated.manifest == Some(m) && updated.id == s.id &&
            updated.waybill == s.waybill &&
            body == ManifestBody(updated, m) && Finalize(updated, again) == Err(ManifestNotFinalizable)
  {
  }
}
