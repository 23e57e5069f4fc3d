/** The clearance case as the object the application holds: documents and status
    updated in place, agreeing call by call with the rules on values. */
module ClearanceCases {
  import opened Common
  import opened CaseRules
  import Text

  class DocumentRegistryItem {
    const id: nat
    const dtype: DocumentType
    const file: nat
    var isVerified: bool
    var inspector: Option<string>

    constructor (id: nat, dtype: DocumentType, file: nat)
      ensures Value() == Doc(id, dtype, file, false, None)
    {
      this.id, this.dtype, this.file := id, dtype, file;
      isVerified, inspector := false, None;
    }

    function Value(): Doc
      reads this
    {
      Doc(id, dtype, file, isVerified, inspector)
    }

    /** Clears the document, once: a second attempt keeps the first inspector. */
    method Verify(inspectorId: string) returns (error: Option<CaseError>)
      modifies this
      ensures error == if old(isVerified) then Some(DocumentAlreadyVerified)
                       else if 1 <= |Text.Trim(inspectorId)| <= 128 then None else Some(InvalidInspector)
      ensures error.None? ==> isVerified && inspector == Some(Text.Trim(inspectorId))
      ensures error.Some? ==> isVerified == old(isVerified) && inspector == old(inspector)
    {
      if isVerified {
        return Some(DocumentAlreadyVerified);
      }
      var trimmed := Text.Trim(inspectorId);
      if trimmed == "" || |trimmed| > MAX_INSPECTOR_ID_LENGTH {
        return Some(InvalidInspector);
      }
      inspector := Some(trimmed);
      isVerified := true;
      return None;
    }
  }

  /** What a sign-off call leaves and returns is what the rule on values says. */
  predicate VerifiedAs(before: CaseValue, docId: nat, inspector: string, r: Result<Option<Completion>, CaseError>,
                       after: CaseValue) {
    match Verify(before, docId, inspector)
    case Ok((value, event)) => r == Ok(event) && after == value
    case Err(error) => r == Err(error) && after == before
  }

  /** Once the document is cleared, or refused, only the status is left to decide. */
  lemma {:induction false} SignOffDecides(before: CaseValue, docId: nat, inspector: string, error: Option<CaseError>,
                                          after: CaseValue)
    requires !Decided(before.status) && Find(before.docs, docId).Some?
    requires var i := Find(before.docs, docId).value;
             error == (if before.docs[i].verified then Some(DocumentAlreadyVerified)
                       else if !ValidInspector(inspector) then Some(InvalidInspector) else None) &&
             after == if error.None? then before.(docs := before.docs[i := Mark(before.docs[i], inspector)]) else before
    ensures error.Some? ==> VerifiedAs(before, docId, inspector, Err(error.value), after)
    ensures error.None? && (before.status != DocumentVerification || !Complete(after.docs)) ==>
              VerifiedAs(before, docId, inspector, Ok(None), after)
    ensures error.None? && before.status == DocumentVerification && Complete(after.docs) ==>
              VerifiedAs(before, docId, inspector, Ok(Some(Completion(before.id, before.shipment))),
                         after.(status := RiskAssessment))
  {
  }

  class ClearanceCase {
    const id: string
    const shipmentId: string
    var status: AssessmentStatus
    var documents: seq<DocumentRegistryItem>

    /** The documents are distinct objects. */
    ghost predicate Valid()
      reads this
    {
      forall i, j :: 0 <= i < j < |documents| ==> documents[i] != documents[j]
    }

    constructor (id: string, shipmentId: string)
      ensures Valid() && Value() == CaseValue(id, shipmentId, Opened, [])
    {
      this.id, this.shipmentId := id, shipmentId;
      status, documents := Opened, [];
    }

    static method OpenForShipment(id: string, shipmentId: string) returns (r: Result<ClearanceCase, CaseError>)
      ensures match Open(id, shipmentId)
              case Ok(value) => r.Ok? && fresh(r.value) && r.value.Valid() && r.value.Value() == value
              case Err(error) => r == Err(error)
    {
      var reference := Text.Trim(shipmentId);
      if reference == "" {
        return Err(InvalidShipmentReference);
      }
      var tracked := new ClearanceCase(id, reference);
      return Ok(tracked);
    }

    /** The aggregate as a repository rebuilds it from its rows. */
    static method Load(value: CaseValue) returns (tracked: ClearanceCase)
      ensures fresh(tracked) && tracked.Valid() && tracked.Value() == value && fresh(tracked.documents)
    {
      tracked := new ClearanceCase(value.id, value.shipment);
      tracked.status := value.status;
      for i := 0 to |value.docs|
        invariant fresh(tracked) && tracked.Valid() && fresh(tracked.documents) && |tracked.documents| == i
        invariant tracked.id == value.id && tracked.shipmentId == value.shipment && tracked.status == value.status
        invariant forall j :: 0 <= j < i ==> tracked.documents[j].Value() == value.docs[j]
      {
        var d := value.docs[i];
        var document := new DocumentRegistryItem(d.id, d.dtype, d.file);
        document.isVerified, document.inspector := d.verified, d.inspector;
        tracked.documents := tracked.documents + [document];
      }
    }

    function Docs(): (docs: seq<Doc>)
      reads this, documents
      ensures |docs| == |documents| && forall i :: 0 <= i < |docs| ==> docs[i] == documents[i].Value()
    {
      seq(|documents|, i requires 0 <= i < |documents| reads this, documents => documents[i].Value())
    }

    function Value(): CaseValue
      reads this, documents
    {
      CaseValue(id, shipmentId, status, Docs())
    }

    method FindDocument(docId: nat) returns (found: Option<nat>)
      ensures found == Find(Docs(), docId)
    {
      for i := 0 to |documents|
        invariant forall j :: 0 <= j < i ==> documents[j].id != docId
      {
        if documents[i].id == docId {
          return Some(i);
        }
      }
      return None;
    }

    /** Files a document; the first one starts the verification stage. */
    method AttachDocument(docId: nat, dtype: Option<DocumentType>, file: Option<nat>)
      returns (r: Result<DocumentRegistryItem, CaseError>)
      requires Valid()
      modifies this
      ensures Valid()
      ensures match Attach(old(Value()), docId, dtype, file)
              case Ok(value) => r.Ok? && fresh(r.value) && documents == old(documents) + [r.value] && Value() == value
              case Err(error) => r == Err(error) && Value() == old(Value()) && documents == old(documents)
    {
      if status in {Released, Rejected} {
        return Err(DocumentsNotAttachable);
      }
      if dtype.None? || file.None? {
        return Err(InvalidDocumentReference);
      }
      if HoldsFile(Docs(), file.value) {
        return Err(DocumentAlreadyAttached);
      }
      ghost var before := Docs();
      var document := new DocumentRegistryItem(docId, dtype.value, file.value);
      documents := documents + [document];
      if status == Opened {
        status := DocumentVerification;
      }
      assert Docs() == before + [Doc(docId, dtype.value, file.value, false, None)];
      return Ok(document);
    }

    /** Clears one of the documents; the others stay as they are. */
    method SignOff(i: nat, inspectorId: string) returns (error: Option<CaseError>)
      requires Valid() && i < |documents|
      modifies documents
      ensures error == if old(documents[i].isVerified) then Some(DocumentAlreadyVerified)
                       else if !ValidInspector(inspectorId) then Some(InvalidInspector) else None
      ensures Docs() == if error.None? then old(Docs())[i := Mark(old(Docs())[i], inspectorId)] else old(Docs())
    {
      ghost var before := Docs();
      error := documents[i].Verify(inspectorId);
      forall j | 0 <= j < |documents| && j != i
        ensures documents[j].Value() == before[j]
      {
        assert documents[j] != documents[i];
      }
    }

    /** Records a sign-off, and returns the announcement if it completes the paperwork. */
    method VerifyDocument(docId: nat, inspectorId: string) returns (r: Result<Option<Completion>, CaseError>)
      requires Valid()
      modifies this, documents
      ensures documents == old(documents)
      ensures VerifiedAs(old(Value()), docId, inspectorId, r, Value())
    {
      ghost var before := Value();
      if status == Released || status == Rejected {
        return Err(DocumentNotVerifiable);
      }
      var found := FindDocument(docId);
      if found.None? {
        return Err(DocumentNotFound);
      }
      var error := SignOff(found.value, inspectorId);
      ghost var i := found.value;
      assert Value() == if error.None? then before.(docs := before.docs[i := Mark(before.docs[i], inspectorId)])
             else before;
      SignOffDecides(before, docId, inspectorId, error, Value());
      if error.Some? {
        return Err(error.value);
      }
      if status != DocumentVerification || !Complete(Docs()) {
        return Ok(None);
      }
      status := RiskAssessment;
      return Ok(Some(Completion(id, shipmentId)));
    }
  }
}
