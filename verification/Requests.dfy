/** Requests as the application runs them: repositories over one session, a handler
    per use case, and the scope that commits the session or rolls it back. */
module Requests {
  import opened Common
  import opened Envelope
  import opened Topology
  import opened Store
  import opened Relay
  import opened ShipmentRules
  import opened Shipments
  import opened CaseRules
  import opened ClearanceCases
  import opened Ledgers

  class RequestDatabase {
    const bus: Database<Tables>
    var shipments: map<string, ShipmentValue>
    var cases: map<string, CaseValue>

    constructor (bus: Database<Tables>)
      ensures this.bus == bus && shipments == map[] && cases == map[]
    {
      this.bus := bus;
      shipments, cases := map[], map[];
    }

    function Committed(): Ledger
      reads this, bus
    {
      Ledger(shipments, cases, bus.tables.outbox)
    }
  }

  /** One transaction over the aggregates and the outbox alike. */
  class RequestSession {
    const db: RequestDatabase
    const bus: Session<Tables>
    var shipments: map<string, ShipmentValue>
    var cases: map<string, CaseValue>

    constructor (db: RequestDatabase)
      ensures this.db == db && fresh(bus) && bus.db == db.bus && bus.working == db.bus.tables
      ensures Working() == db.Committed()
    {
      this.db := db;
      bus := new Session(db.bus);
      shipments, cases := db.shipments, db.cases;
    }

    function Working(): Ledger
      reads this, bus
    {
      Ledger(shipments, cases, bus.working.outbox)
    }

    method Commit(outcome: CommitOutcome) returns (ok: bool)
      requires bus.db == db.bus
      modifies db, db.bus
      ensures ok <==> outcome == Stored
      ensures db.Committed() == if outcome == CommitOutcome.Refused then old(db.Committed()) else Working()
    {
      ok := bus.Commit(outcome);
      if outcome != CommitOutcome.Refused {
        db.shipments, db.cases := shipments, cases;
      }
    }

    method Rollback()
      requires bus.db == db.bus
      modifies this, bus
      ensures Working() == db.Committed()
    {
      bus.Rollback();
      shipments, cases := db.shipments, db.cases;
    }
  }

  class ShipmentRepository {
    const session: RequestSession

    constructor (session: RequestSession)
      ensures this.session == session
    {
      this.session := session;
    }

    /** Inserts a new aggregate, or flushes the changes of a loaded one. */
    method Persist(s: Shipment, isNew: bool, fails: bool) returns (ok: bool)
      modifies session`shipments
      ensures ok <==> !fails && !(isNew && s.id in old(session.shipments))
      ensures session.shipments == if ok then old(session.shipments)[s.id := s.Value()] else old(session.shipments)
    {
      ok := !fails && !(isNew && s.id in session.shipments);
      if ok {
        session.shipments := session.shipments[s.id := s.Value()];
      }
    }

    method FindById(id: string) returns (found: Option<Shipment>)
      ensures found.Some? <==> id in session.shipments
      ensures found.Some? ==> fresh(found.value) && found.value.Value() == session.shipments[id]
    {
      if id !in session.shipments {
        return None;
      }
      var s := new Shipment(session.shipments[id]);
      return Some(s);
    }
  }

  class ClearanceCaseRepository {
    const session: RequestSession

    constructor (session: RequestSession)
      ensures this.session == session
    {
      this.session := session;
    }

    method Persist(c: ClearanceCase, isNew: bool, fails: bool) returns (ok: bool)
      modifies session`cases
      ensures ok <==> !fails && !(isNew && c.id in old(session.cases))
      ensures session.cases == if ok then old(session.cases)[c.id := c.Value()] else old(session.cases)
    {
      ok := !fails && !(isNew && c.id in session.cases);
      if ok {
        session.cases := session.cases[c.id := c.Value()];
      }
    }

    method FindById(id: string) returns (found: Option<ClearanceCase>)
      ensures found.Some? <==> id in session.cases
      ensures found.Some? ==> fresh(found.value) && fresh(found.value.documents) && found.value.Valid() &&
                              found.value.Value() == session.cases[id]
    {
      if id !in session.cases {
        return None;
      }
      var c := ClearanceCase.Load(session.cases[id]);
      return Some(c);
    }
  }

  /** Keys are the identifiers of what they lead to. */
  ghost predicate KeyedById(l: Ledger) {
    (forall id :: id in l.shipments ==> l.shipments[id].id == id) &&
    (forall id :: id in l.cases ==> l.cases[id].id == id)
  }

  /** The outbox of the session: a row the flush refuses raises. */
  method ScheduleIn(outbox: OutboxMessageRepository, content: Content, target: Target, fails: bool) returns (ok: bool)
    modifies outbox.session`working
    ensures match Scheduled(old(outbox.session.working.outbox), content, target, fails)
            case Ok(rows) => ok && outbox.session.working.outbox == rows
            case Err(_) => !ok
  {
    if fails {
      return false;
    }
    ok := outbox.Schedule(content, target, map[]);
  }

  /** The handlers of one session; each raises with the error its rule gives, and what
      it leaves in the session then is for the scope to discard. */
  class RequestHandlers {
    const shipments: ShipmentRepository
    const cases: ClearanceCaseRepository
    const outbox: OutboxMessageRepository

    constructor (session: RequestSession)
      ensures shipments.session == session && cases.session == session && outbox.session == session.bus
    {
      shipments := new ShipmentRepository(session);
      cases := new ClearanceCaseRepository(session);
      outbox := new OutboxMessageRepository(session.bus);
    }

    predicate SharesSession(session: RequestSession) {
      shipments.session == session && cases.session == session && outbox.session == session.bus
    }

    method CreateDraftShipment(id: string, waybill: string, f: Faults, ghost session: RequestSession)
      returns (error: Option<RequestError>)
      requires SharesSession(session)
      modifies session
      ensures match CreateOn(old(session.Working()), id, waybill, f)
              case Ok(l) => error == None && session.Working() == l
              case Err(e) => error == Some(e)
    {
      var s := Shipment.Create(id, waybill);
      var ok := shipments.Persist(s, true, f.persistFails);
      error := if ok then None else Some(StorageFailed);
    }

    method FinalizeManifest(c: Command, at: Addressing, f: Faults, ghost session: RequestSession)
      returns (error: Option<RequestError>)
      requires SharesSession(session) && c.FinalizeManifest? && KeyedById(session.Working())
      modifies session, session.bus
      ensures match FinalizeOn(old(session.Working()), c, at, f)
              case Ok(l) => error == None && session.Working() == l
              case Err(e) => error == Some(e)
    {
      var found := shipments.FindById(c.finalizedId);
      if found.None? {
        return Some(NotFound);
      }
      var manifest := MakeManifest(c.weightKg, c.volumeCbm, c.commodityCode);
      if manifest.Err? {
        return Some(ShipmentRefused(manifest.error));
      }
      var event := found.value.FinalizeManifest(manifest.value);
      if event.Err? {
        return Some(ShipmentRefused(event.error));
      }
      var ok := shipments.Persist(found.value, false, f.persistFails);
      if !ok {
        return Some(StorageFailed);
      }
      ok := ScheduleIn(outbox, Content(at.nextId, ShipmentManifestFinalized, event.value), at.manifests,
                       f.scheduleFails);
      error := if ok then None else Some(StorageFailed);
    }

    method OpenClearanceCase(id: string, shipment: string, f: Faults, ghost session: RequestSession)
      returns (error: Option<RequestError>)
      requires SharesSession(session)
      modifies session
      ensures match OpenOn(old(session.Working()), id, shipment, f)
              case Ok(l) => error == None && session.Working() == l
              case Err(e) => error == Some(e)
    {
      var started := ClearanceCase.OpenForShipment(id, shipment);
      if started.Err? {
        return Some(CaseRefused(started.error));
      }
      var ok := cases.Persist(started.value, true, f.persistFails);
      error := if ok then None else Some(StorageFailed);
    }

    method AttachDocument(c: Command, f: Faults, ghost session: RequestSession) returns (error: Option<RequestError>)
      requires SharesSession(session) && c.AttachDocument? && KeyedById(session.Working())
      modifies session
      ensures match AttachOn(old(session.Working()), c, f)
              case Ok(l) => error == None && session.Working() == l
              case Err(e) => error == Some(e)
    {
      var found := cases.FindById(c.attachedTo);
      if found.None? {
        return Some(NotFound);
      }
      var document := found.value.AttachDocument(c.docId, c.dtype, c.file);
      if document.Err? {
        return Some(CaseRefused(document.error));
      }
      var ok := cases.Persist(found.value, false, f.persistFails);
      error := if ok then None else Some(StorageFailed);
    }

    method VerifyDocument(c: Command, at: Addressing, f: Faults, ghost session: RequestSession)
      returns (error: Option<RequestError>)
      requires SharesSession(session) && c.VerifyDocument? && KeyedById(session.Working())
      modifies session, session.bus
      ensures match VerifyOn(old(session.Working()), c, at, f)
              case Ok(l) => error == None && session.Working() == l
              case Err(e) => error == Some(e)
    {
      var found := cases.FindById(c.verifiedIn);
      if found.None? {
        return Some(NotFound);
      }
      var event := found.value.VerifyDocument(c.verifiedId, c.inspector);
      if event.Err? {
        return Some(CaseRefused(event.error));
      }
      var ok := cases.Persist(found.value, false, f.persistFails);
      if !ok {
        return Some(StorageFailed);
      }
      if event.value.Some? {
        ok := ScheduleIn(outbox, Content(at.nextId, DocumentVerificationCompleted, CompletionBody(event.value.value)),
                         at.completions, f.scheduleFails);
      }
      error := if ok then None else Some(StorageFailed);
    }

    method Handle(c: Command, at: Addressing, f: Faults, ghost session: RequestSession)
      returns (error: Option<RequestError>)
      requires SharesSession(session) && KeyedById(session.Working())
      modifies session, session.bus
      ensures match HandledOn(old(session.Working()), c, at, f)
              case Ok(l) => error == None && session.Working() == l
              case Err(e) => error == Some(e)
    {
      match c
      case CreateDraftShipment(id, waybill) => error := CreateDraftShipment(id, waybill, f, session);
      case FinalizeManifest(_, _, _, _) => error := FinalizeManifest(c, at, f, session);
      case OpenCase(id, shipment) => error := OpenClearanceCase(id, shipment, f, session);
      case AttachDocument(_, _, _, _) => error := AttachDocument(c, f, session);
      case VerifyDocument(_, _, _) => error := VerifyDocument(c, at, f, session);
    }
  }

  /** One request in one session: committed when the handler returns, rolled back when
      it raises or the commit does. Answers whether the caller was told of success. */
  method Serve(db: RequestDatabase, c: Command, at: Addressing, f: Faults) returns (ok: bool)
    requires KeyedById(db.Committed())
    modifies db, db.bus
    ensures db.Committed() == Served(old(db.Committed()), c, at, f)
    ensures ok <==> HandledOn(old(db.Committed()), c, at, f).Ok? && f.commit == Stored
  {
    var session := new RequestSession(db);
    var handlers := new RequestHandlers(session);
    var error := handlers.Handle(c, at, f, session);
    ok := error.None?;
    if ok {
      ok := session.Commit(f.commit);
    }
    if !ok {
      session.Rollback();
    }
  }
}
