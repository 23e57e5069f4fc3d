/** How often the outbox says something about an aggregate, and the coupling of that
    count with what the aggregate has become. */
module Announcements {
  import opened Envelope
  import opened Store
  import opened ShipmentRules

  predicate Says(row: Row, mtype: MessageType, field: Field, id: string) {
    row.content.mtype == mtype && field in row.content.body && row.content.body[field] == id
  }

  /** How many rows of that type name that aggregate. */
  function TimesSaid(rows: seq<Row>, mtype: MessageType, field: Field, id: string): nat {
    if rows == [] then 0
    else TimesSaid(rows[..|rows| - 1], mtype, field, id) + if Says(rows[|rows| - 1], mtype, field, id) then 1 else 0
  }

  function ManifestRows(rows: seq<Row>, ship: string): nat {
    TimesSaid(rows, ShipmentManifestFinalized, ShipmentIdField, ship)
  }

  function CompletionRows(rows: seq<Row>, caseId: string): nat {
    TimesSaid(rows, DocumentVerificationCompleted, CaseIdField, caseId)
  }

  /** A shipment has left Draft iff the outbox announces it, and it does so once. */
  ghost predicate ShipmentsCoupled(shipments: map<string, ShipmentValue>, rows: seq<Row>) {
    (forall id :: id in shipments ==> shipments[id].id == id) &&
    (forall id :: ManifestRows(rows, id) == if id in shipments && shipments[id].status != Draft then 1 else 0)
  }

  lemma {:induction false} OneMoreRow(rows: seq<Row>, row: Row, mtype: MessageType, field: Field, id: string)
    ensures TimesSaid(rows + [row], mtype, field, id)
         == TimesSaid(rows, mtype, field, id) + if Says(row, mtype, field, id) then 1 else 0
  {
    assert (rows + [row])[..|rows|] == rows;
  }

  /** Only contents speak: marking rows sent, say, changes no count. */
  lemma {:induction false} SameContentsSaySame(rows: seq<Row>, later: seq<Row>, mtype: MessageType, field: Field,
                                               id: string)
    requires |later| == |rows| && forall i :: 0 <= i < |rows| ==> later[i].content == rows[i].content
    ensures TimesSaid(later, mtype, field, id) == TimesSaid(rows, mtype, field, id)
  {
    if rows != [] {
      SameContentsSaySame(rows[..|rows| - 1], later[..|rows| - 1], mtype, field, id);
    }
  }

  lemma {:induction false} SaidByARow(rows: seq<Row>, i: nat, mtype: MessageType, field: Field, id: string)
    requires i < |rows| && Says(rows[i], mtype, field, id)
    ensures TimesSaid(rows, mtype, field, id) >= 1
  {
    if i < |rows| - 1 {
      SaidByARow(rows[..|rows| - 1], i, mtype, field, id);
    }
  }

  lemma {:induction false} SaidByTwoRows(rows: seq<Row>, i: nat, j: nat, mtype: MessageType, field: Field, id: string)
    requires i < j < |rows| && Says(rows[i], mtype, field, id) && Says(rows[j], mtype, field, id)
    ensures TimesSaid(rows, mtype, field, id) >= 2
  {
    if j < |rows| - 1 {
      SaidByTwoRows(rows[..|rows| - 1], i, j, mtype, field, id);
    } else {
      SaidByARow(rows[..|rows| - 1], i, mtype, field, id);
    }
  }

  lemma {:induction false} SayingRow(rows: seq<Row>, mtype: MessageType, field: Field, id: string) returns (i: nat)
    requires TimesSaid(rows, mtype, field, id) >= 1
    ensures i < |rows| && Says(rows[i], mtype, field, id)
  {
    if Says(rows[|rows| - 1], mtype, field, id) {
      i := |rows| - 1;
    } else {
      i := SayingRow(rows[..|rows| - 1], mtype, field, id);
    }
  }

  /** A shipment that leaves Draft together with the row that says so. */
  lemma {:induction false} LeavingDraftStaysCoupled(shipments: map<string, ShipmentValue>, rows: seq<Row>,
                                                    later: seq<Row>, updated: ShipmentValue)
    requires ShipmentsCoupled(shipments, rows) && updated.id in shipments
    requires shipments[updated.id].status == Draft && updated.status != Draft
    requires forall id :: ManifestRows(later, id) == ManifestRows(rows, id) + if id == updated.id then 1 else 0
    ensures ShipmentsCoupled(shipments[updated.id := updated], later)
  {
  }

  lemma {:induction false} ManifestRowCounts(rows: seq<Row>, row: Row, ship: string, id: string)
    requires Says(row, ShipmentManifestFinalized, ShipmentIdField, ship)
    ensures ManifestRows(rows + [row], id) == ManifestRows(rows, id) + if id == ship then 1 else 0
    ensures CompletionRows(rows + [row], id) == CompletionRows(rows, id)
  {
    OneMoreRow(rows, row, ShipmentManifestFinalized, ShipmentIdField, id);
    OneMoreRow(rows, row, DocumentVerificationCompleted, CaseIdField, id);
  }

  lemma {:induction false} CompletionRowCounts(rows: seq<Row>, row: Row, caseId: string, id: string)
    requires Says(row, DocumentVerificationCompleted, CaseIdField, caseId)
    ensures CompletionRows(rows + [row], id) == CompletionRows(rows, id) + if id == caseId then 1 else 0
    ensures ManifestRows(rows + [row], id) == ManifestRows(rows, id)
  {
    OneMoreRow(rows, row, ShipmentManifestFinalized, ShipmentIdField, id);
    OneMoreRow(rows, row, DocumentVerificationCompleted, CaseIdField, id);
  }
}
