/** The dispatcher's loops over handlers and attempts, run against a database with
    faults injected anywhere, agreeing with what the inbox rules say they leave. */
module Dispatcher {
  import opened Common
  import opened Envelope
  import opened Handlers
  import opened Store
  import opened Inbox
  import opened ClearanceCases
  import Text

  class InboxMessageRepository {
    const session: Session<Tables>

    constructor (session: Session<Tables>)
      ensures this.session == session
    {
      this.session := session;
    }

    method WasHandled(key: Key) returns (handled: bool)
      ensures handled <==> key in session.working.inbox
    {
      handled := key in session.working.inbox;
    }

    /** Inserts the row; the unique constraint refuses a key already there. */
    method Record(key: Key, fails: bool) returns (ok: bool)
      modifies session`working
      ensures ok <==> !fails && key !in old(session.working.inbox)
      ensures session.working == if ok then old(session.working).(inbox := old(session.working.inbox) + [key])
                                 else old(session.working)
    {
      ok := !fails && key !in session.working.inbox;
      if ok {
        session.working := session.working.(inbox := session.working.inbox + [key]);
      }
    }
  }

  /** Opens the case for the shipment a delivered body names, and persists it. */
  method OpenClearanceCaseMessage(session: Session<Tables>, key: Key, body: Body) returns (ok: bool)
    modifies session`working
    ensures ok <==> ShipmentIdField in body && 1 <= |Text.Trim(body[ShipmentIdField])| <= 64 &&
                    CommodityCodeField in body && 1 <= |Text.Trim(body[CommodityCodeField])| <= 16
    ensures ok ==> session.working == old(session.working).(effects :=
              old(session.working.effects) + [Effect(key, OpenedCase(Text.Trim(body[ShipmentIdField])))])
    ensures !ok ==> session.working == old(session.working)
  {
    if !ValidOpening(body) {
      return false;
    }
    var caseId: string := *;  // a random identifier
    var tracked := ClearanceCase.OpenForShipment(caseId, Text.Trim(body[ShipmentIdField]));
    if tracked.Err? {
      return false;
    }
    session.working := session.working.(effects := session.working.effects +
                                                   [Effect(key, OpenedCase(tracked.value.shipmentId))]);
    return true;
  }

  /** Runs one handler on the attempt's session. */
  method RunHandler(name: HandlerName, session: Session<Tables>, key: Key, body: Body, fails: bool) returns (ok: bool)
    modifies session`working
    ensures ok <==> !fails && HandlerWrite(name, body).Some?
    ensures ok ==> session.working == old(session.working).(effects :=
              old(session.working.effects) + [Effect(key, HandlerWrite(name, body).value)])
  {
    match name {
      case OpenClearanceCase =>
        ok := OpenClearanceCaseMessage(session, key, body);
      case NamedHandler(_) =>
        session.working := session.working.(effects := session.working.effects + [Effect(key, OtherWrite(body))]);
        ok := true;
    }
    ok := ok && !fails;
  }

  class InboxMessageDispatcher {
    const db: Database<Tables>
    const schema: Schema
    const handlers: MessageHandlerRegistry
    const immediateRetries: nat

    constructor (db: Database<Tables>, schema: Schema, handlers: MessageHandlerRegistry, immediateRetries: int)
      ensures this.db == db && this.schema == schema && this.handlers == handlers
      ensures this.immediateRetries == if immediateRetries > 0 then immediateRetries else 0
    {
      this.db, this.schema, this.handlers := db, schema, handlers;
      this.immediateRetries := if immediateRetries > 0 then immediateRetries else 0;
    }

    /** One attempt in its own transaction; `bodies` counts handler runs. */
    method Attempt(h: Handler, content: Content, fault: Fault) returns (result: AttemptResult, bodies: nat)
      modifies db
      ensures (db.tables, result) == Attempted(old(db.tables), KeyFor(schema, content, h),
                                               HandlerWrite(h.name, content.body), fault)
      ensures bodies == if BodyRuns(old(db.tables), KeyFor(schema, content, h), fault) then 1 else 0
    {
      if fault == LookupFails {
        return AttemptRaised, 0;
      }
      var session := new Session(db);
      var inbox := new InboxMessageRepository(session);
      var key := KeyFor(schema, content, h);
      var handled := inbox.WasHandled(key);
      if handled {
        return AlreadyHandled, 0;
      }
      var ok := RunHandler(h.name, session, key, content.body, fault == HandlerFails);
      if ok {
        ok := inbox.Record(key, fault == RecordFails);
      }
      if ok {
        ok := session.Commit(if fault == CommitFails then Refused else if fault == CommitLost then StoredButFailed
                             else CommitOutcome.Stored);
      }
      if !ok {
        session.Rollback();
        return AttemptRaised, 1;
      }
      return Handled, 1;
    }

    /** One handler, retried in place before giving up - or before the worker is
        cancelled, which no attempt catches. */
    method Run(h: Handler, content: Content, script: Script, i: nat, cut: Option<Cut>)
      returns (end: RunEnd, bodies: nat)
      modifies db
      ensures CutRun(db.tables, end, bodies)
           == RunUntil(old(db.tables), KeyFor(schema, content, h), HandlerWrite(h.name, content.body), script, i, 0,
                       immediateRetries, cut)
    {
      ghost var key, write := KeyFor(schema, content, h), HandlerWrite(h.name, content.body);
      var attempt := 0;
      bodies := 0;
      while attempt < immediateRetries + 1
        invariant attempt <= immediateRetries + 1
        invariant var rest := RunUntil(db.tables, key, write, script, i, attempt, immediateRetries, cut);
                  RunUntil(old(db.tables), key, write, script, i, 0, immediateRetries, cut)
                   == rest.(bodies := bodies + rest.bodies)
      {
        var cancelled := Strikes(cut, i, attempt);
        var result, ran := Attempt(h, content, if cancelled then CutFault(cut.value) else script(i, attempt));
        bodies := bodies + ran;
        if cancelled {
          return CancelledRun, bodies;
        }
        if result != AttemptRaised {
          return Returned, bodies;
        }
        attempt := attempt + 1;
      }
      return GaveUp, bodies;
    }

    /** Every subscriber in turn; raises iff the returned failures are not empty, and
        stops in its tracks when it is cancelled. */
    method Dispatch(content: Content, script: Script, cut: Option<Cut>)
      returns (failures: seq<nat>, bodies: seq<nat>, cancelled: bool)
      modifies db
      ensures CutDispatch(db.tables, failures, bodies, cancelled)
           == DispatchUntil(old(db.tables), schema, content, SubscribersOf(handlers.handlers, content.mtype), script, 0,
                            immediateRetries, cut)
    {
      var subs := handlers.HandlersFor(content.mtype);
      failures, bodies, cancelled := [], [], false;
      if subs == [] {
        return;
      }
      var i := 0;
      while i < |subs|
        invariant i <= |subs| && !cancelled
        invariant DispatchUntil(old(db.tables), schema, content, subs, script, 0, immediateRetries, cut)
               == AfterEarlier(failures, bodies, DispatchUntil(db.tables, schema, content, subs, script, i,
                                                               immediateRetries, cut))
      {
        NextUntil(db.tables, schema, content, subs, script, i, immediateRetries, cut, failures, bodies);
        var end, ran := Run(subs[i], content, script, i, cut);
        bodies := bodies + [ran];
        if end == CancelledRun {
          return failures, bodies, true;
        }
        if end == GaveUp {
          failures := failures + [i];
        }
        i := i + 1;
      }
    }
  }
}
