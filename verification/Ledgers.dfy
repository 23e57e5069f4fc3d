/** What one request does to the committed tables - all of its writes or none - and
    what every serial history of requests keeps: a state change and the announcement
    it calls for stand or fall together. */
module Ledgers {
  import opened Common
  import opened Envelope
  import opened Topology
  import opened Store
  import opened Outbox
  import opened ShipmentRules
  import opened CaseRules
  import opened Announcements
  import Text

  /** The aggregates and the outbox, as committed. */
  datatype Ledger = Ledger(shipments: map<string, ShipmentValue>, cases: map<string, CaseValue>, outbox: seq<Row>)

  const EMPTY := Ledger(map[], map[], [])

  datatype RequestError =
    | NotFound
    | ShipmentRefused(shipmentError: ShipmentError)
    | CaseRefused(caseError: CaseError)
    | StorageFailed

  /** What may go wrong below the domain: writing the aggregate, writing the outbox
      row, and the commit. */
  datatype Faults = Faults(persistFails: bool, scheduleFails: bool, commit: CommitOutcome)

  datatype Command =
    | CreateDraftShipment(shipmentId: string, waybill: string)
    | FinalizeManifest(finalizedId: string, weightKg: real, volumeCbm: real, commodityCode: string)
    | OpenCase(openedId: string, shipment: string)
    | AttachDocument(attachedTo: string, docId: nat, dtype: Option<DocumentType>, file: Option<nat>)
    | VerifyDocument(verifiedIn: string, verifiedId: nat, inspector: string)

  /** Where the two announcements are addressed, and the id a new one would get. */
  datatype Addressing = Addressing(manifests: Target, completions: Target, nextId: MessageId)

  /** The outbox with one more row, unless the insert is refused. */
  function Scheduled(rows: seq<Row>, content: Content, target: Target, fails: bool): Result<seq<Row>, RequestError> {
    if fails || MessageIdTaken(rows, content.id) then Err(StorageFailed)
    else Ok(rows + [Row(content, target, map[], false)])
  }

  function CompletionBody(event: Completion): Body {
    map[CaseIdField := event.caseId, ShipmentIdField := event.shipment]
  }

  function CreateOn(l: Ledger, id: string, waybill: string, f: Faults): Result<Ledger, RequestError> {
    if f.persistFails || id in l.shipments then Err(StorageFailed)
    else Ok(l.(shipments := l.shipments[id := ShipmentValue(id, waybill, Draft, None)]))
  }

  function FinalizeOn(l: Ledger, c: Command, at: Addressing, f: Faults): Result<Ledger, RequestError>
    requires c.FinalizeManifest?
  {
    if c.finalizedId !in l.shipments then Err(NotFound)
    else match MakeManifest(c.weightKg, c.volumeCbm, c.commodityCode)
      case Err(error) => Err(ShipmentRefused(error))
      case Ok(m) =>
        match Finalize(l.shipments[c.finalizedId], m)
        case Err(error) => Err(ShipmentRefused(error))
        case Ok((updated, body)) =>
          if f.persistFails then Err(StorageFailed)
          else match Scheduled(l.outbox, Content(at.nextId, ShipmentManifestFinalized, body), at.manifests,
                               f.scheduleFails)
            case Err(error) => Err(error)
            case Ok(rows) => Ok(l.(shipments := l.shipments[c.finalizedId := updated], outbox := rows))
  }

  function OpenOn(l: Ledger, id: string, shipment: string, f: Faults): Result<Ledger, RequestError> {
    match Open(id, shipment)
    case Err(error) => Err(CaseRefused(error))
    case Ok(started) =>
      if f.persistFails || id in l.cases then Err(StorageFailed)
      else Ok(l.(cases := l.cases[id := started]))
  }

  function AttachOn(l: Ledger, c: Command, f: Faults): Result<Ledger, RequestError>
    requires c.AttachDocument?
  {
    if c.attachedTo !in l.cases then Err(NotFound)
    else match Attach(l.cases[c.attachedTo], c.docId, c.dtype, c.file)
      case Err(error) => Err(CaseRefused(error))
      case Ok(updated) =>
        if f.persistFails then Err(StorageFailed)
        else Ok(l.(cases := l.cases[c.attachedTo := updated]))
  }

  function VerifyOn(l: Ledger, c: Command, at: Addressing, f: Faults): Result<Ledger, RequestError>
    requires c.VerifyDocument?
  {
    if c.verifiedIn !in l.cases then Err(NotFound)
    else match Verify(l.cases[c.verifiedIn], c.verifiedId, c.inspector)
      case Err(error) => Err(CaseRefused(error))
      case Ok((updated, event)) =>
        if f.persistFails then Err(StorageFailed)
        else if event.None? then Ok(l.(cases := l.cases[c.verifiedIn := updated]))
        else match Scheduled(l.outbox, Content(at.nextId, DocumentVerificationCompleted, CompletionBody(event.value)),
                             at.completions, f.scheduleFails)
          case Err(error) => Err(error)
          case Ok(rows) => Ok(l.(cases := l.cases[c.verifiedIn := updated], outbox := rows))
  }

  /** What the handler leaves in its session, or why it raised. */
  function HandledOn(l: Ledger, c: Command, at: Addressing, f: Faults): Result<Ledger, RequestError> {
    match c
    case CreateDraftShipment(id, waybill) => CreateOn(l, id, waybill, f)
    case FinalizeManifest(_, _, _, _) => FinalizeOn(l, c, at, f)
    case OpenCase(id, shipment) => OpenOn(l, id, shipment, f)
    case AttachDocument(_, _, _, _) => AttachOn(l, c, f)
    case VerifyDocument(_, _, _) => VerifyOn(l, c, at, f)
  }

  /** The committed tables after the request: its session's, or as they were. */
  function Served(l: Ledger, c: Command, at: Addressing, f: Faults): Ledger {
    match HandledOn(l, c, at, f)
    case Ok(working) => if f.commit == CommitOutcome.Refused then l else working
    case Err(_) => l
  }

  // ----- when a request succeeds, and what it then does --------------------

  /** No outbox row carries this message identifier. */
  predicate FreshMessage(rows: seq<Row>, id: MessageId) {
    forall row :: row in rows ==> row.content.id != id
  }

  lemma {:induction false} FreshIsNotTaken(rows: seq<Row>, id: MessageId)
    ensures FreshMessage(rows, id) <==> !MessageIdTaken(rows, id)
  {
    if i :| 0 <= i < |rows| && rows[i].content.id == id {
      assert rows[i] in rows;
    }
  }

  /** Creating a draft succeeds unless the identifier is stored or the insert fails. */
  lemma {:induction false} CreatesExactly(l: Ledger, c: Command, at: Addressing, f: Faults)
    requires c.CreateDraftShipment?
    ensures HandledOn(l, c, at, f).Ok? <==> c.shipmentId !in l.shipments && !f.persistFails
    ensures HandledOn(l, c, at, f).Ok? && f.commit != CommitOutcome.Refused ==>
              Served(l, c, at, f) ==
              Ledger(l.shipments[c.shipmentId := ShipmentValue(c.shipmentId, c.waybill, Draft, None)], l.cases,
                     l.outbox)
    ensures HandledOn(l, c, at, f).Err? || f.commit == CommitOutcome.Refused ==> Served(l, c, at, f) == l
  {
  }

  /** Finalizing succeeds exactly for a stored draft with a manifest that can be made and
      something on board, when nothing fails below. Then the shipment is ready with that
      cargo and one row announces it, naming shipment, waybill and commodity. */
  lemma {:induction false} FinalizesOn(l: Ledger, c: Command, at: Addressing, f: Faults)
    requires c.FinalizeManifest?
    ensures HandledOn(l, c, at, f) == Err(NotFound) <==> c.finalizedId !in l.shipments
    ensures HandledOn(l, c, at, f).Ok? <==>
              c.finalizedId in l.shipments && l.shipments[c.finalizedId].status == Draft && c.weightKg > 0.0 &&
              c.volumeCbm >= 0.0 && 1 <= |Text.Trim(c.commodityCode)| <= 16 &&
              !f.persistFails && !f.scheduleFails && FreshMessage(l.outbox, at.nextId)
    ensures HandledOn(l, c, at, f).Ok? && f.commit != CommitOutcome.Refused ==>
              var s, code := l.shipments[c.finalizedId], Text.Upper(Text.Trim(c.commodityCode));
              var updated := ShipmentValue(s.id, s.waybill, ReadyForManifest,
                                           Some(Manifest(c.weightKg, c.volumeCbm, code)));
              var body := map[ShipmentIdField := s.id, WaybillNumberField := s.waybill, CommodityCodeField := code];
              var row := Row(Content(at.nextId, ShipmentManifestFinalized, body), at.manifests, map[], false);
              Served(l, c, at, f) == Ledger(l.shipments[c.finalizedId := updated], l.cases, l.outbox + [row])
    ensures HandledOn(l, c, at, f).Err? || f.commit == CommitOutcome.Refused ==> Served(l, c, at, f) == l
  {
    FreshIsNotTaken(l.outbox, at.nextId);
    MakesExactly(c.weightKg, c.volumeCbm, c.commodityCode);
    if c.finalizedId in l.shipments && MakeManifest(c.weightKg, c.volumeCbm, c.commodityCode).Ok? {
      FinalizesExactly(l.shipments[c.finalizedId], MakeManifest(c.weightKg, c.volumeCbm, c.commodityCode).value);
    }
  }

  /** Opening succeeds for every non-blank reference under a new identifier. */
  lemma {:induction false} OpensOn(l: Ledger, c: Command, at: Addressing, f: Faults)
    requires c.OpenCase?
    ensures HandledOn(l, c, at, f).Ok? <==>
              |Text.Trim(c.shipment)| >= 1 && c.openedId !in l.cases && !f.persistFails
    ensures HandledOn(l, c, at, f).Ok? && f.commit != CommitOutcome.Refused ==>
              var started := CaseValue(c.openedId, Text.Trim(c.shipment), Opened, []);
              Served(l, c, at, f) == Ledger(l.shipments, l.cases[c.openedId := started], l.outbox)
    ensures HandledOn(l, c, at, f).Err? || f.commit == CommitOutcome.Refused ==> Served(l, c, at, f) == l
  {
  }

  /** Attaching succeeds exactly when the case is stored and takes the document. */
  lemma {:induction false} AttachesOn(l: Ledger, c: Command, at: Addressing, f: Faults)
    requires c.AttachDocument?
    ensures HandledOn(l, c, at, f) == Err(NotFound) <==> c.attachedTo !in l.cases
    ensures HandledOn(l, c, at, f).Ok? <==>
              c.attachedTo in l.cases && Attach(l.cases[c.attachedTo], c.docId, c.dtype, c.file).Ok? && !f.persistFails
    ensures HandledOn(l, c, at, f).Ok? && f.commit != CommitOutcome.Refused ==>
              var updated := Attach(l.cases[c.attachedTo], c.docId, c.dtype, c.file).value;
              Served(l, c, at, f) == Ledger(l.shipments, l.cases[c.attachedTo := updated], l.outbox)
    ensures HandledOn(l, c, at, f).Err? || f.commit == CommitOutcome.Refused ==> Served(l, c, at, f) == l
  {
  }

  /** Signing off succeeds exactly when the case is stored and takes the sign-off; when it
      completes the paperwork, one row announces the case and its shipment. */
  lemma {:induction false} VerifiesOn(l: Ledger, c: Command, at: Addressing, f: Faults)
    requires c.VerifyDocument?
    ensures HandledOn(l, c, at, f) == Err(NotFound) <==> c.verifiedIn !in l.cases
    ensures HandledOn(l, c, at, f).Ok? <==>
              c.verifiedIn in l.cases && Verify(l.cases[c.verifiedIn], c.verifiedId, c.inspector).Ok? &&
              !f.persistFails &&
              (Verify(l.cases[c.verifiedIn], c.verifiedId, c.inspector).value.1.Some? ==>
                 !f.scheduleFails && FreshMessage(l.outbox, at.nextId))
    ensures HandledOn(l, c, at, f).Ok? && f.commit != CommitOutcome.Refused ==>
              var (updated, event) := Verify(l.cases[c.verifiedIn], c.verifiedId, c.inspector).value;
              var body := map[CaseIdField := updated.id, ShipmentIdField := updated.shipment];
              var row := Row(Content(at.nextId, DocumentVerificationCompleted, body), at.completions, map[], false);
              Served(l, c, at, f) == Ledger(l.shipments, l.cases[c.verifiedIn := updated],
                                            if event.Some? then l.outbox + [row] else l.outbox)
    ensures HandledOn(l, c, at, f).Err? || f.commit == CommitOutcome.Refused ==> Served(l, c, at, f) == l
  {
    FreshIsNotTaken(l.outbox, at.nextId);
  }

  // ----- histories ---------------------------------------------------------

  /** One step of a history: a request with the faults that struck it, or an outbox
      pass marking rows sent. */
  datatype Event = Request(command: Command, addressing: Addressing, faults: Faults) | RowsSent(rows: seq<nat>)

  function Next(l: Ledger, e: Event): Ledger {
    match e
    case Request(c, at, f) => Served(l, c, at, f)
    case RowsSent(rows) => l.(outbox := MarkSent(l.outbox, rows))
  }

  function Past(events: seq<Event>): Ledger {
    if events == [] then EMPTY else Next(Past(events[..|events| - 1]), events[|events| - 1])
  }

  // ----- coupling ----------------------------------------------------------

  /** A committed case is one a history of calls on the aggregate could produce. */
  ghost predicate CaseCoupled(c: CaseValue, announced: nat) {
    Lifecycle(History(c, announced))
  }

  ghost predicate CasesCoupled(cases: map<string, CaseValue>, rows: seq<Row>) {
    (forall id :: id in cases ==> cases[id].id == id && CaseCoupled(cases[id], CompletionRows(rows, id))) &&
    (forall id :: id !in cases ==> CompletionRows(rows, id) == 0)
  }

  ghost predicate LedgerCoupled(l: Ledger) {
    ShipmentsCoupled(l.shipments, l.outbox) && CasesCoupled(l.cases, l.outbox)
  }

  lemma {:induction false} SentStaysCoupled(l: Ledger, sent: seq<nat>)
    requires LedgerCoupled(l)
    ensures LedgerCoupled(l.(outbox := MarkSent(l.outbox, sent)))
  {
    var later := MarkSent(l.outbox, sent);
    forall id
      ensures ManifestRows(later, id) == ManifestRows(l.outbox, id) &&
              CompletionRows(later, id) == CompletionRows(l.outbox, id)
    {
      SameContentsSaySame(l.outbox, later, ShipmentManifestFinalized, ShipmentIdField, id);
      SameContentsSaySame(l.outbox, later, DocumentVerificationCompleted, CaseIdField, id);
    }
  }

  lemma {:induction false} SameCompletions(cases: map<string, CaseValue>, rows: seq<Row>, later: seq<Row>)
    requires CasesCoupled(cases, rows) && forall id :: CompletionRows(later, id) == CompletionRows(rows, id)
    ensures CasesCoupled(cases, later)
  {
  }

  lemma {:induction false} FinalizeStaysCoupled(l: Ledger, c: Command, at: Addressing, f: Faults)
    requires LedgerCoupled(l) && c.FinalizeManifest? && FinalizeOn(l, c, at, f).Ok?
    ensures LedgerCoupled(FinalizeOn(l, c, at, f).value)
  {
    var after := FinalizeOn(l, c, at, f).value;
    var (updated, body) := Finalize(l.shipments[c.finalizedId],
                                    MakeManifest(c.weightKg, c.volumeCbm, c.commodityCode).value).value;
    var row := Row(Content(at.nextId, ShipmentManifestFinalized, body), at.manifests, map[], false);
    assert after.outbox == l.outbox + [row] && after.shipments == l.shipments[updated.id := updated];
    forall id
      ensures ManifestRows(after.outbox, id) == ManifestRows(l.outbox, id) + if id == updated.id then 1 else 0
      ensures CompletionRows(after.outbox, id) == CompletionRows(l.outbox, id)
    {
      ManifestRowCounts(l.outbox, row, updated.id, id);
    }
    LeavingDraftStaysCoupled(l.shipments, l.outbox, after.outbox, updated);
    SameCompletions(l.cases, l.outbox, after.outbox);
  }

  /** A call on one case moves that case's rows along with it, and no other's. */
  lemma {:induction false} CaseStaysCoupled(l: Ledger, after: Ledger, id: string, call: Call)
    requires LedgerCoupled(l) && id in l.cases && after.shipments == l.shipments
    requires after.cases == l.cases[id := CaseRules.After(History(l.cases[id], CompletionRows(l.outbox, id)),
                                                          call).state]
    requires forall other :: CompletionRows(after.outbox, other) ==
               if other == id then CaseRules.After(History(l.cases[id], CompletionRows(l.outbox, id)), call).events
               else CompletionRows(l.outbox, other)
    requires forall ship :: ManifestRows(after.outbox, ship) == ManifestRows(l.outbox, ship)
    ensures LedgerCoupled(after)
  {
    var h := History(l.cases[id], CompletionRows(l.outbox, id));
    CallKeepsLifecycle(h, call);
    var later := CaseRules.After(h, call);
    assert later.state.id == id && CaseCoupled(later.state, later.events);
    OneCaseMoves(l.cases, l.outbox, after.outbox, later.state, later.events);
  }

  lemma {:induction false} OneCaseMoves(cases: map<string, CaseValue>, rows: seq<Row>, later: seq<Row>, c: CaseValue,
                                        announced: nat)
    requires CasesCoupled(cases, rows) && c.id in cases && CaseCoupled(c, announced)
    requires forall id :: CompletionRows(later, id) == if id == c.id then announced else CompletionRows(rows, id)
    ensures CasesCoupled(cases[c.id := c], later)
  {
  }

  /** The rows after a sign-off: one more for its own case iff it was announced. */
  lemma {:induction false} CompletionsAfter(rows: seq<Row>, event: Option<Completion>, caseId: string, target: Target,
                                            nextId: MessageId, id: string)
    requires event.Some? ==> event.value.caseId == caseId
    ensures var later := if event.None? then rows
                         else rows + [Row(Content(nextId, DocumentVerificationCompleted, CompletionBody(event.value)),
                                          target, map[], false)];
            CompletionRows(later, id) == CompletionRows(rows, id) + (if event.Some? && id == caseId then 1 else 0) &&
            ManifestRows(later, id) == ManifestRows(rows, id)
  {
    if event.Some? {
      CompletionRowCounts(rows, Row(Content(nextId, DocumentVerificationCompleted, CompletionBody(event.value)), target,
                                    map[], false), caseId, id);
    }
  }

  lemma {:induction false} VerifyAnnounces(l: Ledger, c: Command, at: Addressing, f: Faults, id: string)
    requires c.VerifyDocument? && VerifyOn(l, c, at, f).Ok?
    requires c.verifiedIn in l.cases ==> l.cases[c.verifiedIn].id == c.verifiedIn
    ensures c.verifiedIn in l.cases && Verify(l.cases[c.verifiedIn], c.verifiedId, c.inspector).Ok?
    ensures var after, event := VerifyOn(l, c, at, f).value,
                                Verify(l.cases[c.verifiedIn], c.verifiedId, c.inspector).value.1;
            CompletionRows(after.outbox, id)
             == CompletionRows(l.outbox, id) + (if event.Some? && id == c.verifiedIn then 1 else 0) &&
            ManifestRows(after.outbox, id) == ManifestRows(l.outbox, id)
  {
    var event := Verify(l.cases[c.verifiedIn], c.verifiedId, c.inspector).value.1;
    CompletionsAfter(l.outbox, event, c.verifiedIn, at.completions, at.nextId, id);
  }

  lemma {:induction false} VerifyStaysCoupled(l: Ledger, c: Command, at: Addressing, f: Faults)
    requires LedgerCoupled(l) && c.VerifyDocument? && VerifyOn(l, c, at, f).Ok?
    ensures LedgerCoupled(VerifyOn(l, c, at, f).value)
  {
    var after, key := VerifyOn(l, c, at, f).value, c.verifiedIn;
    VerifyAnnounces(l, c, at, f, key);
    var h := History(l.cases[key], CompletionRows(l.outbox, key));
    var later := CaseRules.After(h, VerifyCall(c.verifiedId, c.inspector));
    assert after.shipments == l.shipments && after.cases == l.cases[key := later.state];
    forall id
      ensures CompletionRows(after.outbox, id) == if id == key then later.events else CompletionRows(l.outbox, id)
      ensures ManifestRows(after.outbox, id) == ManifestRows(l.outbox, id)
    {
      VerifyAnnounces(l, c, at, f, id);
    }
    CaseStaysCoupled(l, after, key, VerifyCall(c.verifiedId, c.inspector));
  }

  lemma {:induction false} AttachStaysCoupled(l: Ledger, c: Command, f: Faults)
    requires LedgerCoupled(l) && c.AttachDocument? && AttachOn(l, c, f).Ok?
    ensures LedgerCoupled(AttachOn(l, c, f).value)
  {
    CaseStaysCoupled(l, AttachOn(l, c, f).value, c.attachedTo, AttachCall(c.docId, c.dtype, c.file));
  }

  lemma {:induction false} OpenStaysCoupled(l: Ledger, id: string, shipment: string, f: Faults)
    requires LedgerCoupled(l) && OpenOn(l, id, shipment, f).Ok?
    ensures LedgerCoupled(OpenOn(l, id, shipment, f).value)
  {
    EveryHistory(id, shipment, []);
  }

  lemma {:induction false} RequestStaysCoupled(l: Ledger, c: Command, at: Addressing, f: Faults)
    requires LedgerCoupled(l)
    ensures LedgerCoupled(Served(l, c, at, f))
  {
    if HandledOn(l, c, at, f).Ok? {
      match c
      case CreateDraftShipment(id, waybill) =>
      case FinalizeManifest(_, _, _, _) => FinalizeStaysCoupled(l, c, at, f);
      case OpenCase(id, shipment) => OpenStaysCoupled(l, id, shipment, f);
      case AttachDocument(_, _, _, _) => AttachStaysCoupled(l, c, f);
      case VerifyDocument(_, _, _) => VerifyStaysCoupled(l, c, at, f);
    }
  }

  lemma {:induction false} PastIsCoupled(events: seq<Event>)
    ensures LedgerCoupled(Past(events))
  {
    if events != [] {
      var before, e := Past(events[..|events| - 1]), events[|events| - 1];
      PastIsCoupled(events[..|events| - 1]);
      match e
      case Request(c, at, f) => RequestStaysCoupled(before, c, at, f);
      case RowsSent(rows) => SentStaysCoupled(before, rows);
    }
  }

  /** In every committed state any serial history reaches, whatever fails in it: a
      shipment has left Draft iff exactly one manifest row names it, and a case is in
      RiskAssessment iff exactly one completion row names it; otherwise none does. */
  lemma {:induction false} StateAndAnnouncementAgree(events: seq<Event>, ship: string, caseId: string)
    ensures var l := Past(events);
            ManifestRows(l.outbox, ship) <= 1 && CompletionRows(l.outbox, caseId) <= 1 &&
            (ship in l.shipments ==> (l.shipments[ship].status != Draft <==> ManifestRows(l.outbox, ship) == 1)) &&
            (ship !in l.shipments ==> ManifestRows(l.outbox, ship) == 0) &&
            (caseId in l.cases ==> (l.cases[caseId].status == RiskAssessment <==>
                                    CompletionRows(l.outbox, caseId) == 1)) &&
            (caseId !in l.cases ==> CompletionRows(l.outbox, caseId) == 0)
  {
    PastIsCoupled(events);
  }

  // ----- what the announcements say ----------------------------------------

  /** A manifest row repeats its shipment's own facts, a completion row its case's. */
  ghost predicate TellsTheTruth(l: Ledger, row: Row) {
    var body := row.content.body;
    (row.content.mtype == ShipmentManifestFinalized ==>
       ShipmentIdField in body && body[ShipmentIdField] in l.shipments &&
       var s := l.shipments[body[ShipmentIdField]];
       s.status == ReadyForManifest && s.manifest.Some? && body == ManifestBody(s, s.manifest.value)) &&
    (row.content.mtype == DocumentVerificationCompleted ==>
       CaseIdField in body && body[CaseIdField] in l.cases &&
       body == CompletionBody(Completion(body[CaseIdField], l.cases[body[CaseIdField]].shipment)))
  }

  ghost predicate AllTrue(l: Ledger) {
    forall i :: 0 <= i < |l.outbox| ==> TellsTheTruth(l, l.outbox[i])
  }

  /** Nothing a row speaks of is taken back: what left Draft stays as it is, and a case
      keeps its shipment. */
  ghost predicate KeepsFacts(l: Ledger, later: Ledger) {
    (forall id :: id in l.shipments && l.shipments[id].status != Draft ==>
                    id in later.shipments && later.shipments[id] == l.shipments[id]) &&
    (forall id :: id in l.cases ==> id in later.cases && later.cases[id].shipment == l.cases[id].shipment)
  }

  lemma {:induction false} TruthLasts(l: Ledger, later: Ledger, row: Row, again: Row)
    requires TellsTheTruth(l, row) && KeepsFacts(l, later) && again.content == row.content
    ensures TellsTheTruth(later, again)
  {
  }

  lemma {:induction false} OldRowsStayTrue(l: Ledger, later: Ledger)
    requires AllTrue(l) && KeepsFacts(l, later) && l.outbox <= later.outbox
    requires forall i :: |l.outbox| <= i < |later.outbox| ==> TellsTheTruth(later, later.outbox[i])
    ensures AllTrue(later)
  {
    forall i | 0 <= i < |l.outbox|
      ensures TellsTheTruth(later, later.outbox[i])
    {
      TruthLasts(l, later, l.outbox[i], later.outbox[i]);
    }
  }

  lemma {:induction false} FinalizeTellsTheTruth(l: Ledger, c: Command, at: Addressing, f: Faults)
    requires LedgerCoupled(l) && AllTrue(l) && c.FinalizeManifest? && FinalizeOn(l, c, at, f).Ok?
    ensures AllTrue(FinalizeOn(l, c, at, f).value)
  {
    FinalizedForGood(l.shipments[c.finalizedId], MakeManifest(c.weightKg, c.volumeCbm, c.commodityCode).value,
                     MakeManifest(c.weightKg, c.volumeCbm, c.commodityCode).value);
    OldRowsStayTrue(l, FinalizeOn(l, c, at, f).value);
  }

  lemma {:induction false} SignOffKeepsTheCase(c: CaseValue, docId: nat, inspector: string)
    requires Verify(c, docId, inspector).Ok?
    ensures var (updated, event) := Verify(c, docId, inspector).value;
            updated.id == c.id && updated.shipment == c.shipment &&
            (event.Some? ==> event.value == Completion(c.id, c.shipment))
  {
  }

  lemma {:induction false} VerifyTellsTheTruth(l: Ledger, c: Command, at: Addressing, f: Faults)
    requires LedgerCoupled(l) && AllTrue(l) && c.VerifyDocument? && VerifyOn(l, c, at, f).Ok?
    ensures AllTrue(VerifyOn(l, c, at, f).value)
  {
    SignOffKeepsTheCase(l.cases[c.verifiedIn], c.verifiedId, c.inspector);
    var later := VerifyOn(l, c, at, f).value;
    assert KeepsFacts(l, later);
    OldRowsStayTrue(l, later);
  }

  lemma {:induction false} RequestTellsTheTruth(l: Ledger, c: Command, at: Addressing, f: Faults)
    requires LedgerCoupled(l) && AllTrue(l)
    ensures AllTrue(Served(l, c, at, f))
  {
    if HandledOn(l, c, at, f).Ok? {
      match c
      case FinalizeManifest(_, _, _, _) => FinalizeTellsTheTruth(l, c, at, f);
      case VerifyDocument(_, _, _) => VerifyTellsTheTruth(l, c, at, f);
      case _ => OldRowsStayTrue(l, HandledOn(l, c, at, f).value);
    }
  }

  lemma {:induction false} MarkingStaysTrue(l: Ledger, sent: seq<nat>)
    requires AllTrue(l)
    ensures AllTrue(l.(outbox := MarkSent(l.outbox, sent)))
  {
    var later := l.(outbox := MarkSent(l.outbox, sent));
    forall i | 0 <= i < |later.outbox|
      ensures TellsTheTruth(later, later.outbox[i])
    {
      TruthLasts(l, later, l.outbox[i], later.outbox[i]);
    }
  }

  /** After every serial history, each announcement still says what is so: the shipment
      it names is ready with exactly the waybill and cargo it gives, the case it names
      belongs to the shipment it gives. */
  lemma {:induction false} AnnouncementsTellTheTruth(events: seq<Event>)
    ensures AllTrue(Past(events))
  {
    if events != [] {
      var before, e := Past(events[..|events| - 1]), events[|events| - 1];
      AnnouncementsTellTheTruth(events[..|events| - 1]);
      PastIsCoupled(events[..|events| - 1]);
      match e
      case Request(c, at, f) => RequestTellsTheTruth(before, c, at, f);
      case RowsSent(rows) => MarkingStaysTrue(before, rows);
    }
  }
}
