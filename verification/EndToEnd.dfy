/** From a finalized shipment to its clearance case: at most one case over every run,
    and it exists exactly when the inbox says the opening handler did its work. */
module EndToEnd {
  import opened Common
  import opened Envelope
  import opened Topology
  import opened Handlers
  import opened Store
  import opened Inbox
  import opened Outbox
  import opened Recovery
  import opened ShipmentRules
  import opened Announcements
  import opened Bus
  import opened BusOnce
  import opened BusNoLoss
  import Text

  /** The opening handler is a customs handler, subscribed to the manifest event only. */
  ghost predicate OpeningIsCustoms(cfg: Config) {
    forall q, mtype, h :: q in cfg.endpoints && h in SubscribersOf(cfg.endpoints[q].subs, mtype) &&
                          h.name == OpenClearanceCase ==>
      mtype == ShipmentManifestFinalized && cfg.endpoints[q].schema == CustomsSchema
  }

  // ----- shipments and their manifest rows ---------------------------------

  predicate IsManifest(row: Row) { row.content.mtype == ShipmentManifestFinalized }

  predicate Announces(row: Row, ship: string) {
    Says(row, ShipmentManifestFinalized, ShipmentIdField, ship)
  }

  ghost predicate UniqueIds(rows: seq<Row>) {
    forall i, j :: 0 <= i < j < |rows| ==> rows[i].content.id != rows[j].content.id
  }

  /** What the shipment module announces the opening handler understands: it opens the
      case of exactly that shipment, and is never refused. */
  predicate OpensItsCase(row: Row) {
    IsManifest(row) ==>
      ShipmentIdField in row.content.body &&
      HandlerWrite(OpenClearanceCase, row.content.body) == Some(OpenedCase(row.content.body[ShipmentIdField]))
  }

  ghost predicate AllOpenTheirCases(rows: seq<Row>) {
    forall i :: 0 <= i < |rows| ==> OpensItsCase(rows[i])
  }

  predicate CanonicalIds(shipments: map<string, ShipmentValue>) {
    forall ship :: ship in shipments ==> CanonicalId(ship)
  }

  /** A shipment has left Draft iff the outbox announces it, once, in terms customs
      understands. */
  ghost predicate Announcing(b: Books) {
    UniqueIds(b.outbox) && AllOpenTheirCases(b.outbox) && CanonicalIds(b.shipments) &&
    ShipmentsCoupled(b.shipments, b.outbox)
  }

  /** The contract between the two modules: the event of any finalized manifest is a
      valid command to open that shipment's case. */
  lemma {:induction false} AnnouncedBodyOpens(s: ShipmentValue, m: Manifest)
    requires CanonicalId(s.id) && WellMade(m)
    ensures ValidOpening(ManifestBody(s, m))
    ensures HandlerWrite(OpenClearanceCase, ManifestBody(s, m)) == Some(OpenedCase(s.id))
  {
    WellMadeCode(m);
  }

  /** The text of a UUID, as `str()` prints it. */
  predicate UuidText(s: string) {
    |s| == 36 &&
    forall i :: 0 <= i < 36 ==>
      if i in {8, 13, 18, 23} then s[i] == '-' else '0' <= s[i] <= '9' || 'a' <= s[i] <= 'f'
  }

  /** No real shipment is excluded: a draft with a UUID can be created wherever the
      identifier is new, and finalized with any positive weight, non-negative volume and
      commodity code of 1 to 16 characters - and customs then accepts what is announced. */
  lemma {:induction false} EveryShipmentCanBeAnnounced(cfg: Config, b: Books, id: string, waybill: string,
                                                       weightKg: real, volumeCbm: real, code: string, mid: MessageId)
    requires UuidText(id) && id !in b.shipments && !MessageIdTaken(b.outbox, mid)
    requires weightKg > 0.0 && volumeCbm >= 0.0 && 1 <= |Text.Trim(code)| <= 16
    ensures var create := CreateDraft(ShipmentValue(id, waybill, Draft, None));
            CanBook(cfg, b, create) &&
            var made := MakeManifest(weightKg, volumeCbm, code);
            made.Ok? &&
            var created, finalize := Booked(cfg, b, create), FinalizeManifest(id, made.value, mid);
            CanBook(cfg, created, finalize) &&
            var rows := Booked(cfg, created, finalize).outbox;
            |rows| == |b.outbox| + 1 && rows[..|b.outbox|] == b.outbox &&
            HandlerWrite(OpenClearanceCase, rows[|b.outbox|].content.body) == Some(OpenedCase(id))
  {
    assert Text.Trim(id) == id;
    MadeIsWellMade(weightKg, volumeCbm, code);
    AnnouncedBodyOpens(ShipmentValue(id, waybill, Draft, None), MakeManifest(weightKg, volumeCbm, code).value);
  }

  lemma {:induction false} AppendKeepsRows(rows: seq<Row>, row: Row)
    requires UniqueIds(rows) && AllOpenTheirCases(rows) && !MessageIdTaken(rows, row.content.id) && OpensItsCase(row)
    ensures UniqueIds(rows + [row]) && AllOpenTheirCases(rows + [row])
  {
  }

  lemma {:induction false} FinalizeKeepsAnnouncing(cfg: Config, b: Books, ship: string, m: Manifest, id: MessageId)
    requires Announcing(b) && CanBook(cfg, b, FinalizeManifest(ship, m, id))
    ensures Announcing(Booked(cfg, b, FinalizeManifest(ship, m, id)))
  {
    var after := Booked(cfg, b, FinalizeManifest(ship, m, id));
    var row, updated := ManifestRow(cfg, id, ManifestBody(b.shipments[ship], m)),
                        Finalize(b.shipments[ship], m).value.0;
    assert after.outbox == b.outbox + [row] && after.shipments == b.shipments[ship := updated] && updated.id == ship;
    AnnouncedBodyOpens(b.shipments[ship], m);
    AppendKeepsRows(b.outbox, row);
    forall other
      ensures ManifestRows(after.outbox, other) == ManifestRows(b.outbox, other) + if other == ship then 1 else 0
    {
      ManifestRowCounts(b.outbox, row, ship, other);
    }
    LeavingDraftStaysCoupled(b.shipments, b.outbox, after.outbox, updated);
  }

  lemma {:induction false} OtherRowKeepsAnnouncing(cfg: Config, b: Books, row: Row)
    requires Announcing(b) && CanBook(cfg, b, ScheduleOther(row))
    ensures Announcing(Booked(cfg, b, ScheduleOther(row)))
  {
    AppendKeepsRows(b.outbox, row);
    forall ship
      ensures ManifestRows(b.outbox + [row], ship) == ManifestRows(b.outbox, ship)
    {
      OneMoreRow(b.outbox, row, ShipmentManifestFinalized, ShipmentIdField, ship);
    }
  }

  /** Marking rows sent announces nothing new. */
  lemma {:induction false} MarkingKeepsAnnouncing(b: Books, after: Books)
    requires Announcing(b) && after.shipments == b.shipments && |after.outbox| == |b.outbox|
    requires forall i :: 0 <= i < |b.outbox| ==> after.outbox[i].content == b.outbox[i].content
    ensures Announcing(after)
  {
    forall i | 0 <= i < |after.outbox|
      ensures OpensItsCase(after.outbox[i])
    {
      assert OpensItsCase(b.outbox[i]);
    }
    forall ship
      ensures ManifestRows(after.outbox, ship) == ManifestRows(b.outbox, ship)
    {
      SameContentsSaySame(b.outbox, after.outbox, ShipmentManifestFinalized, ShipmentIdField, ship);
    }
  }

  lemma {:induction false} BookKeepsAnnouncing(cfg: Config, b: Books, a: BookAction)
    requires Announcing(b) && CanBook(cfg, b, a)
    ensures Announcing(Booked(cfg, b, a))
  {
    match a
    case CreateDraft(draft) =>
    case FinalizeManifest(ship, m, id) => FinalizeKeepsAnnouncing(cfg, b, ship, m, id);
    case ScheduleOther(row) => OtherRowKeepsAnnouncing(cfg, b, row);
    case _ => MarkingKeepsAnnouncing(b, Booked(cfg, b, a));
  }

  lemma {:induction false} RunKeepsAnnouncing(cfg: Config, s: State, actions: seq<Action>)
    requires Announcing(s.books) && Possible(cfg, s, actions)
    ensures Announcing(Exec(cfg, s, actions).books)
    decreases actions
  {
    if actions != [] {
      match actions[0] {
        case InBooks(book) => BookKeepsAnnouncing(cfg, s.books, book);
        case PublishNext(p, outcome) => MarkingKeepsAnnouncing(s.books, Offered(s.books, p, outcome));
        case AtWork(_) =>
      }
      RunKeepsAnnouncing(cfg, Apply(cfg, s, actions[0]), actions[1..]);
    }
  }

  /** What a row announces has left Draft, and no other row announces it. */
  lemma {:induction false} AnnouncedHasLeft(b: Books, i: nat, ship: string)
    requires Announcing(b) && i < |b.outbox| && Announces(b.outbox[i], ship)
    ensures ship in b.shipments && b.shipments[ship].status != Draft && Text.Trim(ship) == ship
    ensures forall j :: 0 <= j < |b.outbox| && Announces(b.outbox[j], ship) ==> j == i
  {
    SaidByARow(b.outbox, i, ShipmentManifestFinalized, ShipmentIdField, ship);
    assert ManifestRows(b.outbox, ship) == 1;
    forall j | 0 <= j < |b.outbox| && Announces(b.outbox[j], ship)
      ensures j == i
    {
      if j != i {
        SaidByTwoRows(b.outbox, if i < j then i else j, if i < j then j else i, ShipmentManifestFinalized,
                      ShipmentIdField, ship);
      }
    }
  }

  // ----- where copies and effects come from --------------------------------

  ghost predicate InOutbox(rows: seq<Row>, content: Content) {
    exists i :: 0 <= i < |rows| && rows[i].content == content
  }

  /** A committed write is what its handler writes for some committed row's body. */
  ghost predicate FromRow(rows: seq<Row>, effect: Effect, i: nat) {
    i < |rows| && rows[i].content.id == effect.key.id &&
    HandlerWrite(effect.key.handler, rows[i].content.body) == Some(effect.write) &&
    (effect.key.handler == OpenClearanceCase ==>
       rows[i].content.mtype == ShipmentManifestFinalized && effect.key.schema == CustomsSchema)
  }

  ghost predicate Sourced(rows: seq<Row>, effect: Effect) {
    exists i :: FromRow(rows, effect, i)
  }

  ghost predicate CarriesWrite(cfg: Config, task: Task) {
    InDispatch(cfg, task) ==>
      (task.stage.tx.Wrote? ==> TaskWrite(cfg, task) == Some(task.stage.tx.write)) &&
      (task.stage.tx.Recorded? ==> TaskWrite(cfg, task) == Some(task.stage.tx.recordedWrite))
  }

  ghost predicate QueuesSourced(rows: seq<Row>, queues: Queues) {
    forall q, c :: c in Ready(queues, q) ==> InOutbox(rows, c.content)
  }

  ghost predicate TasksSourced(cfg: Config, rows: seq<Row>, tasks: map<nat, Task>) {
    forall t :: t in tasks ==> InOutbox(rows, tasks[t].copy.content) && CarriesWrite(cfg, tasks[t])
  }

  ghost predicate EffectsSourced(rows: seq<Row>, effects: seq<Effect>) {
    forall k :: 0 <= k < |effects| ==> Sourced(rows, effects[k])
  }

  ghost predicate AllSourced(cfg: Config, rows: seq<Row>, w: Work) {
    QueuesSourced(rows, w.queues) && TasksSourced(cfg, rows, w.tasks) && EffectsSourced(rows, w.effects)
  }

  /** A commit's write comes from the row its delivery carries. */
  lemma {:induction false} CommitIsSourced(cfg: Config, rows: seq<Row>, task: Task)
    requires OpeningIsCustoms(cfg) && InOutbox(rows, task.copy.content) && HoldsRow(cfg, task) &&
             CarriesWrite(cfg, task)
    ensures Sourced(rows, Effect(TaskKey(cfg, task), task.stage.tx.recordedWrite))
  {
    var i :| 0 <= i < |rows| && rows[i].content == task.copy.content;
    assert SubsOf(cfg, task)[task.stage.i] in SubscribersOf(cfg.endpoints[task.endpoint].subs, task.copy.content.mtype);
    assert FromRow(rows, Effect(TaskKey(cfg, task), task.stage.tx.recordedWrite), i);
  }

  lemma {:induction false} EnqueueSourced(rows: seq<Row>, queues: Queues, targets: set<string>, c: Copy)
    requires QueuesSourced(rows, queues) && InOutbox(rows, c.content)
    ensures QueuesSourced(rows, Enqueue(queues, targets, c))
  {
    var after := Enqueue(queues, targets, c);
    forall q, d | d in Ready(after, q)
      ensures InOutbox(rows, d.content)
    {
      assert Ready(after, q) == Ready(queues, q) + if q in targets then multiset{c} else multiset{};
    }
  }

  lemma {:induction false} RemoveSourced(rows: seq<Row>, queues: Queues, q: string, c: Copy)
    requires QueuesSourced(rows, queues)
    ensures QueuesSourced(rows, Remove(queues, q, c))
  {
    forall p, d | d in Ready(Remove(queues, q, c), p)
      ensures InOutbox(rows, d.content)
    {
      assert d in Ready(queues, p);
    }
  }

  lemma {:induction false} QueuesStaySourced(cfg: Config, rows: seq<Row>, w: Work, t: nat, move: Move)
    requires QueuesSourced(rows, w.queues) && CanMove(cfg, w, t, move) && InOutbox(rows, w.tasks[t].copy.content)
    ensures QueuesSourced(rows, QueuesAfter(cfg, w, t, move))
  {
    var task, e := w.tasks[t], cfg.endpoints[w.tasks[t].endpoint];
    EnqueueSourced(rows, w.queues, {task.endpoint}, task.copy);
    if move.Recover? {
      EnqueueSourced(rows, w.queues, cfg.routes(RecoveryTarget(e, task.copy)),
                     RecoveryCopy(e, task.copy, move.failures));
    }
  }

  /** A move's own delivery goes on carrying its handler's write. */
  lemma {:induction false} OwnWriteCarried(cfg: Config, w: Work, t: nat, move: Move)
    requires CanMove(cfg, w, t, move) && CarriesWrite(cfg, w.tasks[t])
    ensures CarriesWrite(cfg, w.tasks[t].(stage := StageAfter(cfg, w, t, move)))
  {
  }

  lemma {:induction false} CarriesWhicheverChannel(cfg: Config, task: Task, attached: bool)
    requires CarriesWrite(cfg, task)
    ensures CarriesWrite(cfg, task.(attached := attached))
  {
  }

  lemma {:induction false} TasksStaySourced(cfg: Config, rows: seq<Row>, w: Work, t: nat, move: Move)
    requires TasksSourced(cfg, rows, w.tasks) && CanMove(cfg, w, t, move)
    ensures TasksSourced(cfg, rows, Moved(cfg, w, t, move).tasks)
  {
    OwnWriteCarried(cfg, w, t, move);
    var stepped := w.tasks[t].(stage := StageAfter(cfg, w, t, move));
    CarriesWhicheverChannel(cfg, stepped, stepped.attached && !move.LoseChannel?);
    var tasks := Moved(cfg, w, t, move).tasks;
    forall u | u in tasks
      ensures InOutbox(rows, tasks[u].copy.content) && CarriesWrite(cfg, tasks[u])
    {
      assert InOutbox(rows, w.tasks[u].copy.content);
      assert u != t ==> tasks[u] == w.tasks[u];
    }
  }

  lemma {:induction false} WorkStaysSourced(cfg: Config, rows: seq<Row>, w: Work, a: WorkAction)
    requires OpeningIsCustoms(cfg) && AllSourced(cfg, rows, w) && CanWork(cfg, w, a)
    ensures AllSourced(cfg, rows, Worked(cfg, w, a))
  {
    match a
    case Deliver(t, q, c) => RemoveSourced(rows, w.queues, q, c);
    case TaskMoves(t, move) =>
      QueuesStaySourced(cfg, rows, w, t, move);
      TasksStaySourced(cfg, rows, w, t, move);
      if move.Commit? {
        CommitIsSourced(cfg, rows, w.tasks[t]);
      }
    case Expire(q, c) =>
      RemoveSourced(rows, w.queues, q, c);
      EnqueueSourced(rows, Remove(w.queues, q, c), cfg.routes(cfg.wayBack[q]), c);
    case Replay(q, c) =>
      var d := c.headers[EndpointDescriptor].descriptor;
      RemoveSourced(rows, w.queues, q, c);
      EnqueueSourced(rows, Remove(w.queues, q, c), cfg.routes(Target(d.exchange, d.routingKey)), c);
  }

  /** Rows stay where they are, with their content. */
  ghost predicate Grows(rows: seq<Row>, later: seq<Row>) {
    |rows| <= |later| && forall i :: 0 <= i < |rows| ==> later[i].content == rows[i].content
  }

  lemma {:induction false} SourcedInLaterRows(cfg: Config, rows: seq<Row>, later: seq<Row>, w: Work)
    requires AllSourced(cfg, rows, w) && Grows(rows, later)
    ensures AllSourced(cfg, later, w)
  {
    forall content | InOutbox(rows, content)
      ensures InOutbox(later, content)
    {
      var i :| 0 <= i < |rows| && rows[i].content == content;
      assert later[i].content == content;
    }
    forall k | 0 <= k < |w.effects|
      ensures Sourced(later, w.effects[k])
    {
      assert Sourced(rows, w.effects[k]);
      var i :| FromRow(rows, w.effects[k], i);
      assert FromRow(later, w.effects[k], i);
    }
  }

  // ----- over runs ---------------------------------------------------------

  ghost predicate Traced(cfg: Config, s: State) {
    Announcing(s.books) && AllSourced(cfg, s.books.outbox, s.work) && Once(cfg, s.work)
  }

  lemma {:induction false} StepStaysTraced(cfg: Config, s: State, a: Action)
    requires OpeningIsCustoms(cfg) && Traced(cfg, s) && Enabled(cfg, s, a)
    ensures Traced(cfg, Apply(cfg, s, a))
  {
    match a
    case InBooks(book) =>
      BookKeepsAnnouncing(cfg, s.books, book);
      SourcedInLaterRows(cfg, s.books.outbox, Booked(cfg, s.books, book).outbox, s.work);
    case PublishNext(p, outcome) =>
      MarkingKeepsAnnouncing(s.books, Offered(s.books, p, outcome));
      var row := s.books.outbox[NextRow(s.books, p)];
      EnqueueSourced(s.books.outbox, s.work.queues, cfg.routes(row.target), CopyOf(row));
      QuietKeepsOnce(cfg, s.work, Apply(cfg, s, a).work);
    case AtWork(work) =>
      WorkStaysSourced(cfg, s.books.outbox, s.work, work);
      WorkKeepsOnce(cfg, s.work, work);
  }

  lemma {:induction false} RunStaysTraced(cfg: Config, s: State, actions: seq<Action>)
    requires OpeningIsCustoms(cfg) && Traced(cfg, s) && Possible(cfg, s, actions)
    ensures Traced(cfg, Exec(cfg, s, actions))
    decreases actions
  {
    if actions != [] {
      StepStaysTraced(cfg, s, actions[0]);
      RunStaysTraced(cfg, Apply(cfg, s, actions[0]), actions[1..]);
    }
  }

  /** The effect of opening a case for this shipment. */
  predicate Opens(effect: Effect, ship: string) {
    effect.write == OpenedCase(ship)
  }

  ghost predicate CaseExists(effects: seq<Effect>, ship: string) {
    exists k :: 0 <= k < |effects| && Opens(effects[k], ship)
  }

  function OpeningKey(id: MessageId): Key {
    Key(CustomsSchema, id, OpenClearanceCase)
  }

  /** An opened case was opened by the customs handler for the row announcing it. */
  lemma {:induction false} CaseComesFromAnnouncement(cfg: Config, s: State, k: nat, ship: string) returns (i: nat)
    requires Traced(cfg, s) && k < |s.work.effects| && Opens(s.work.effects[k], ship)
    ensures i < |s.books.outbox| && Announces(s.books.outbox[i], ship)
    ensures s.work.effects[k].key == OpeningKey(s.books.outbox[i].content.id)
  {
    var rows, effect := s.books.outbox, s.work.effects[k];
    assert Sourced(rows, effect);
    i :| FromRow(rows, effect, i);
    assert effect.key.handler == OpenClearanceCase;
    assert OpensItsCase(rows[i]);
  }

  /** Over every run - crashes, duplicates, retries, replays, interleaved workers - a
      shipment has at most one clearance case, and only if it left Draft by finalizing. */
  lemma {:induction false} AtMostOneCase(cfg: Config, actions: seq<Action>, ship: string, k: nat, l: nat)
    requires OpeningIsCustoms(cfg) && Possible(cfg, INITIAL, actions)
    requires k < |Exec(cfg, INITIAL, actions).work.effects| && l < |Exec(cfg, INITIAL, actions).work.effects|
    requires Opens(Exec(cfg, INITIAL, actions).work.effects[k], ship) &&
             Opens(Exec(cfg, INITIAL, actions).work.effects[l], ship)
    ensures k == l
    ensures ship in Exec(cfg, INITIAL, actions).books.shipments &&
            Exec(cfg, INITIAL, actions).books.shipments[ship].status != Draft
  {
    RunStaysTraced(cfg, INITIAL, actions);
    var s := Exec(cfg, INITIAL, actions);
    var i := CaseComesFromAnnouncement(cfg, s, k, ship);
    var j := CaseComesFromAnnouncement(cfg, s, l, ship);
    AnnouncedHasLeft(s.books, i, ship);
    assert i == j;
    assert s.work.inbox[k] == s.work.inbox[l];
  }

  /** The case exists exactly when the inbox holds the shipment's message for the
      opening handler. */
  lemma {:induction false} CaseIffRecorded(cfg: Config, actions: seq<Action>, ship: string, i: nat)
    requires OpeningIsCustoms(cfg) && Possible(cfg, INITIAL, actions)
    requires i < |Exec(cfg, INITIAL, actions).books.outbox| &&
             Announces(Exec(cfg, INITIAL, actions).books.outbox[i], ship)
    ensures var s := Exec(cfg, INITIAL, actions);
            CaseExists(s.work.effects, ship) <==> OpeningKey(s.books.outbox[i].content.id) in s.work.inbox
  {
    RunStaysTraced(cfg, INITIAL, actions);
    CaseIffRecordedIn(cfg, Exec(cfg, INITIAL, actions), ship, i);
  }

  lemma {:induction false} RecordedOpens(cfg: Config, s: State, ship: string, i: nat, k: nat)
    requires Traced(cfg, s) && i < |s.books.outbox| && Announces(s.books.outbox[i], ship)
    requires k < |s.work.inbox| && s.work.inbox[k] == OpeningKey(s.books.outbox[i].content.id)
    ensures CaseExists(s.work.effects, ship)
  {
    assert Sourced(s.books.outbox, s.work.effects[k]);
    var j :| FromRow(s.books.outbox, s.work.effects[k], j);
    assert i == j;
    assert OpensItsCase(s.books.outbox[i]);
    assert Opens(s.work.effects[k], ship);
  }

  lemma {:induction false} CaseIffRecordedIn(cfg: Config, s: State, ship: string, i: nat)
    requires Traced(cfg, s) && i < |s.books.outbox| && Announces(s.books.outbox[i], ship)
    ensures CaseExists(s.work.effects, ship) <==> OpeningKey(s.books.outbox[i].content.id) in s.work.inbox
  {
    AnnouncedHasLeft(s.books, i, ship);
    if k :| 0 <= k < |s.work.effects| && Opens(s.work.effects[k], ship) {
      var j := CaseComesFromAnnouncement(cfg, s, k, ship);
      assert i == j;
      assert s.work.inbox[k] == OpeningKey(s.books.outbox[i].content.id);
    }
    if k :| 0 <= k < |s.work.inbox| && s.work.inbox[k] == OpeningKey(s.books.outbox[i].content.id) {
      RecordedOpens(cfg, s, ship, i, k);
    }
  }

  /** Where a committed row stands with the customs worker. */
  ghost predicate Underway(cfg: Config, s: State, customs: string, i: nat)
    requires customs in cfg.endpoints && i < |s.books.outbox|
  {
    !s.books.outbox[i].sent ||
    Waiting(cfg, s.work.queues, customs, s.books.outbox[i].content) ||
    InHand(cfg, s.work.tasks, customs, s.books.outbox[i].content)
  }

  /** The customs endpoint hears of finalized manifests and opens cases for them. */
  ghost predicate OpensCases(cfg: Config, customs: string) {
    customs in cfg.endpoints && customs in cfg.routes(cfg.manifestTarget) &&
    cfg.endpoints[customs].schema == CustomsSchema &&
    exists h :: h in SubscribersOf(cfg.endpoints[customs].subs, ShipmentManifestFinalized) &&
                h.name == OpenClearanceCase
  }

  lemma {:induction false} RecordedEverywhereIsRecordedHere(cfg: Config, customs: string, content: Content,
                                                            inbox: seq<Key>)
    requires OpensCases(cfg, customs) && content.mtype == ShipmentManifestFinalized
    requires AllRecorded(cfg.endpoints[customs], content, inbox)
    ensures OpeningKey(content.id) in inbox
  {
    var h :| h in SubscribersOf(cfg.endpoints[customs].subs, ShipmentManifestFinalized) && h.name == OpenClearanceCase;
    assert KeyFor(CustomsSchema, content, h) == OpeningKey(content.id);
  }

  lemma {:induction false} RowReachesItsCase(cfg: Config, s: State, ship: string, customs: string, i: nat)
    requires Traced(cfg, s) && OpensCases(cfg, customs) && i < |s.books.outbox| && Announces(s.books.outbox[i], ship)
    requires !s.books.outbox[i].sent || Survives(cfg, s.work, customs, s.books.outbox[i].content)
    ensures Underway(cfg, s, customs, i) || CaseExists(s.work.effects, ship)
  {
    if AllRecorded(cfg.endpoints[customs], s.books.outbox[i].content, s.work.inbox) {
      RecordedEverywhereIsRecordedHere(cfg, customs, s.books.outbox[i].content, s.work.inbox);
      CaseIffRecordedIn(cfg, s, ship, i);
    }
  }

  lemma {:induction false} AnnouncementIsDue(cfg: Config, b: Books, ship: string, customs: string) returns (i: nat)
    requires Announcing(b) && Addressed(cfg, b) && OpensCases(cfg, customs)
    requires ship in b.shipments && b.shipments[ship].status != Draft
    ensures i < |b.outbox| && Announces(b.outbox[i], ship) && Due(cfg, b.outbox[i], customs) &&
            OpensItsCase(b.outbox[i])
  {
    i := SayingRow(b.outbox, ShipmentManifestFinalized, ShipmentIdField, ship);
  }

  /** No finalized shipment is forgotten: with recovery publications that succeed and
      no cancellation, its announcement is still pending, or on its way to customs, or
      the case is open. And what is on its way is never refused for what it says. */
  lemma {:induction false} FinalizedShipmentGetsItsCase(cfg: Config, actions: seq<Action>, ship: string,
                                                        customs: string) returns (i: nat)
    requires OpeningIsCustoms(cfg) && Deployed(cfg) && OpensCases(cfg, customs) && Possible(cfg, INITIAL, actions)
    requires forall a :: a in actions ==> !Drops(a)
    requires ship in Exec(cfg, INITIAL, actions).books.shipments &&
             Exec(cfg, INITIAL, actions).books.shipments[ship].status != Draft
    ensures var s := Exec(cfg, INITIAL, actions);
            i < |s.books.outbox| && Announces(s.books.outbox[i], ship) &&
            HandlerWrite(OpenClearanceCase, s.books.outbox[i].content.body) == Some(OpenedCase(ship)) &&
            (Underway(cfg, s, customs, i) || CaseExists(s.work.effects, ship))
  {
    RunStaysTraced(cfg, INITIAL, actions);
    ManifestRowsAreAddressed(cfg, INITIAL, actions);
    var s := Exec(cfg, INITIAL, actions);
    i := AnnouncementIsDue(cfg, s.books, ship, customs);
    NothingIsLost(cfg, actions, i, customs);
    RowReachesItsCase(cfg, s, ship, customs, i);
  }

  ghost predicate Addressed(cfg: Config, b: Books) {
    forall i :: 0 <= i < |b.outbox| && b.outbox[i].content.mtype == ShipmentManifestFinalized ==>
      b.outbox[i].target == cfg.manifestTarget && b.outbox[i].headers == map[]
  }

  lemma {:induction false} ManifestRowsAreAddressed(cfg: Config, s: State, actions: seq<Action>)
    requires Addressed(cfg, s.books) && Possible(cfg, s, actions)
    ensures Addressed(cfg, Exec(cfg, s, actions).books)
    decreases actions
  {
    if actions != [] {
      ManifestRowsAreAddressed(cfg, Apply(cfg, s, actions[0]), actions[1..]);
    }
  }
}
