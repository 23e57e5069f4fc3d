/** The message bus as a state machine: committed tables, open outbox passes, queues,
    and deliveries in progress, stepped by every process at once. Nothing here is
    scheduled: any enabled action of any process may come next. */
module Bus {
  import opened Common
  import opened Envelope
  import opened Topology
  import opened Connection
  import opened Handlers
  import opened Store
  import opened Inbox
  import opened Outbox
  import opened Recovery
  import opened ShipmentRules
  import Text

  /** Endpoints by primary queue, the broker's routing, where each retry queue sends
      what expires, and where manifest events are addressed. */
  datatype Config = Config(
    endpoints: map<string, Endpoint>,
    routes: Routes,
    wayBack: map<string, Target>,
    manifestTarget: Target)

  /** An outbox pass between locking its batch and committing: rows `batch[..pos]`
      were offered to the broker, those in `sent` were confirmed. Once its database
      connection is lost the locks are gone, and the loop goes on without knowing. */
  datatype Pass = Pass(batch: seq<nat>, pos: nat, sent: seq<nat>, held: bool)

  /** An attempt's transaction: not opened, past a lookup that found nothing, holding
      the handler's write, holding the write and its inbox row. */
  datatype Tx = NoTx | Checked | Wrote(write: Write) | Recorded(recordedWrite: Write)

  datatype Stage =
    | Received
    | Dispatching(i: nat, attempt: nat, failed: seq<nat>, tx: Tx)
    | Recovering(failed: seq<nat>)
    | Settled

  /** A delivery in a worker's hands. Once its channel is lost the broker has taken
      the copy back, and the worker goes on without knowing. */
  datatype Task = Task(endpoint: string, copy: Copy, attached: bool, stage: Stage)

  /** What requests and outbox passes work on. */
  datatype Books = Books(
    shipments: map<string, ShipmentValue>,
    outbox: seq<Row>,
    accepted: seq<nat>,      // per row: publications the broker accepted
    unconfirmed: seq<nat>,   // per row: accepted publications no commit ever confirmed
    passes: map<nat, Pass>)

  /** What the broker and the consuming workers work on. */
  datatype Work = Work(
    queues: Queues,
    tasks: map<nat, Task>,
    inbox: seq<Key>,
    effects: seq<Effect>,
    dropped: set<(string, Content)>)  // acknowledged although recovery failed or was cancelled

  datatype State = State(books: Books, work: Work)

  datatype Move =
    | Filter
    | Lookup
    | RunHandler
    | Record
    | Commit(reported: bool)
    | Fail
    | Finish
    | Recover(outcome: PublishOutcome, failures: seq<Failure>)
    | Cancel
    | Ack
    | Crash
    | LoseChannel

  datatype BookAction =
    | CreateDraft(draft: ShipmentValue)
    | FinalizeManifest(shipment: string, manifest: Manifest, id: MessageId)
    | ScheduleOther(row: Row)
    | BeginPass(pass: nat, limit: nat, hidden: set<nat>)  // other modules' rows are hidden
    | LoseLocks(pass: nat)
    | CommitPass(pass: nat)
    | AbortPass(pass: nat)

  datatype WorkAction =
    | Deliver(task: nat, queue: string, copy: Copy)
    | TaskMoves(task: nat, move: Move)
    | Expire(queue: string, copy: Copy)
    | Replay(queue: string, copy: Copy)

  /** Publishing is the one action that spans the two. */
  datatype Action =
    | InBooks(book: BookAction)
    | PublishNext(pass: nat, outcome: PublishOutcome)
    | AtWork(work: WorkAction)

  // ----- helpers -----------------------------------------------------------

  /** A canonical identifier: short, and without surrounding space. */
  predicate CanonicalId(id: string) {
    Text.Trim(id) == id && 1 <= |id| <= MAX_SHIPMENT_ID
  }

  /** Rows some open pass holds locked. */
  function Locked(passes: map<nat, Pass>): set<nat> {
    set p, i | p in passes.Keys && passes[p].held && i in passes[p].batch :: i
  }

  /** The batch a pass takes: the oldest rows it sees that no other pass holds. */
  function Batch(b: Books, limit: nat, hidden: set<nat>): seq<nat> {
    FindPending(b.outbox, Locked(b.passes) + hidden, limit, 0)
  }

  function Insert(b: Books, row: Row): Books {
    b.(outbox := b.outbox + [row], accepted := b.accepted + [0], unconfirmed := b.unconfirmed + [0])
  }

  function ManifestRow(cfg: Config, id: MessageId, body: Body): Row {
    Row(Content(id, ShipmentManifestFinalized, body), cfg.manifestTarget, map[], false)
  }

  function Closed(passes: map<nat, Pass>, p: nat): map<nat, Pass> {
    map q | q in passes && q != p :: passes[q]
  }

  function Bump(counts: seq<nat>, i: nat): seq<nat> {
    if i < |counts| then counts[i := counts[i] + 1] else counts
  }

  function BumpAll(counts: seq<nat>, rows: seq<nat>): (r: seq<nat>)
    ensures |r| == |counts|
    ensures forall i :: 0 <= i < |counts| ==> r[i] == counts[i] + if i in rows then 1 else 0
  {
    seq(|counts|, i requires 0 <= i < |counts| => counts[i] + if i in rows then 1 else 0)
  }

  function SubsOf(cfg: Config, task: Task): seq<Handler>
    requires task.endpoint in cfg.endpoints
  {
    SubscribersOf(cfg.endpoints[task.endpoint].subs, task.copy.content.mtype)
  }

  predicate InDispatch(cfg: Config, task: Task) {
    task.endpoint in cfg.endpoints && task.stage.Dispatching? && task.stage.i < |SubsOf(cfg, task)|
  }

  /** The inbox key of the subscriber the delivery is at. */
  function TaskKey(cfg: Config, task: Task): Key
    requires InDispatch(cfg, task)
  {
    KeyFor(cfg.endpoints[task.endpoint].schema, task.copy.content, SubsOf(cfg, task)[task.stage.i])
  }

  function TaskWrite(cfg: Config, task: Task): Option<Write>
    requires InDispatch(cfg, task)
  {
    HandlerWrite(SubsOf(cfg, task)[task.stage.i].name, task.copy.content.body)
  }

  predicate HoldsRow(cfg: Config, task: Task) {
    InDispatch(cfg, task) && task.stage.tx.Recorded?
  }

  /** Another open transaction holds the same inbox key: the insert waits. */
  ghost predicate Blocked(cfg: Config, w: Work, t: nat, key: Key) {
    exists u :: u in w.tasks && u != t && HoldsRow(cfg, w.tasks[u]) && TaskKey(cfg, w.tasks[u]) == key
  }

  /** The attempt raised: retry in place, or give this subscriber up. */
  function AfterRaise(e: Endpoint, stage: Stage): Stage
    requires stage.Dispatching?
  {
    if stage.attempt < e.Last() then stage.(attempt := stage.attempt + 1, tx := NoTx)
    else Dispatching(stage.i + 1, 0, stage.failed + [stage.i], NoTx)
  }

  function AfterReturn(stage: Stage): Stage
    requires stage.Dispatching?
  {
    Dispatching(stage.i + 1, 0, stage.failed, NoTx)
  }

  // ----- moves of one delivery ---------------------------------------------

  /** The subscriber's handler body runs, past a look-up that found nothing: it returned
      with its write, or the attempt broke off in it - it raised, the worker was cancelled
      in it, or died in it. */
  predicate RunsBody(stage: Stage, move: Move, subscriber: nat) {
    stage.Dispatching? && stage.i == subscriber &&
    (move.RunHandler? || ((move.Fail? || move.Cancel? || move.Crash?) && stage.tx == Checked))
  }

  ghost predicate CanMove(cfg: Config, w: Work, t: nat, move: Move) {
    t in w.tasks && w.tasks[t].endpoint in cfg.endpoints &&
    var task := w.tasks[t];
    match move
    case Filter => task.stage == Received
    case Lookup => InDispatch(cfg, task) && task.stage.tx == NoTx
    case RunHandler => InDispatch(cfg, task) && task.stage.tx == Checked && TaskWrite(cfg, task).Some?
    case Record => InDispatch(cfg, task) && task.stage.tx.Wrote? && TaskKey(cfg, task) !in w.inbox &&
                   !Blocked(cfg, w, t, TaskKey(cfg, task))
    case Commit(_) => InDispatch(cfg, task) && task.stage.tx.Recorded?
    case Fail => InDispatch(cfg, task)
    case Finish => task.stage.Dispatching? && !InDispatch(cfg, task)
    case Recover(_, _) => task.stage.Recovering?
    case Cancel => task.stage.Dispatching?
    case Ack => task.stage == Settled
    case Crash => true
    case LoseChannel => task.attached
  }

  function Without(tasks: map<nat, Task>, t: nat): map<nat, Task> {
    map u | u in tasks && u != t :: tasks[u]
  }

  /** Where a move takes the delivery that makes it. */
  ghost function StageAfter(cfg: Config, w: Work, t: nat, move: Move): Stage
    requires CanMove(cfg, w, t, move)
  {
    var task := w.tasks[t];
    var e := cfg.endpoints[task.endpoint];
    match move
    case Filter => if Accepts(e, task.copy) then Dispatching(0, 0, [], NoTx) else Settled
    case Lookup => if TaskKey(cfg, task) in w.inbox then AfterReturn(task.stage) else task.stage.(tx := Checked)
    case RunHandler => task.stage.(tx := Wrote(TaskWrite(cfg, task).value))
    case Record => task.stage.(tx := Recorded(task.stage.tx.write))
    case Commit(reported) => if reported then AfterReturn(task.stage) else AfterRaise(e, task.stage)
    case Fail => AfterRaise(e, task.stage)
    case Finish => if task.stage.failed == [] then Settled else Recovering(task.stage.failed)
    case Recover(_, _) => Settled
    case Cancel => Settled
    case Ack => task.stage
    case Crash => task.stage
    case LoseChannel => task.stage
  }

  /** A recovery that arrives puts a copy where the policy sends it; a worker that dies
      or loses its channel makes the broker take its unacknowledged copy back. */
  ghost function QueuesAfter(cfg: Config, w: Work, t: nat, move: Move): Queues
    requires t in w.tasks && w.tasks[t].endpoint in cfg.endpoints
  {
    var task, e := w.tasks[t], cfg.endpoints[w.tasks[t].endpoint];
    if move.Recover? && Arrives(move.outcome)
    then Enqueue(w.queues, cfg.routes(RecoveryTarget(e, task.copy)), RecoveryCopy(e, task.copy, move.failures))
    else if (move.Crash? || move.LoseChannel?) && task.attached then Enqueue(w.queues, {task.endpoint}, task.copy)
    else w.queues
  }

  /** A move that gives the message up without putting it anywhere. */
  predicate GivesUp(move: Move) {
    move.Cancel? || (move.Recover? && move.outcome == Raised)
  }

  ghost function Moved(cfg: Config, w: Work, t: nat, move: Move): Work
    requires CanMove(cfg, w, t, move)
  {
    var task := w.tasks[t];
    Work(
      QueuesAfter(cfg, w, t, move),
      if move.Ack? || move.Crash? then Without(w.tasks, t)
      else w.tasks[t := task.(stage := StageAfter(cfg, w, t, move), attached := task.attached && !move.LoseChannel?)],
      if move.Commit? then w.inbox + [TaskKey(cfg, task)] else w.inbox,
      if move.Commit? then w.effects + [Effect(TaskKey(cfg, task), task.stage.tx.recordedWrite)] else w.effects,
      if GivesUp(move) && task.attached then w.dropped + {(task.endpoint, task.copy.content)} else w.dropped)
  }

  // ----- all actions -------------------------------------------------------

  ghost predicate CanBook(cfg: Config, b: Books, a: BookAction) {
    match a
    case CreateDraft(draft) => draft.id !in b.shipments && CanonicalId(draft.id) && draft.status == Draft &&
                               draft.manifest == None
    case FinalizeManifest(ship, m, id) => ship in b.shipments && WellMade(m) && Finalize(b.shipments[ship], m).Ok? &&
                                          !MessageIdTaken(b.outbox, id)
    case ScheduleOther(row) => !row.sent && row.content.mtype != ShipmentManifestFinalized &&
                               !MessageIdTaken(b.outbox, row.content.id) &&
                               ReadCount(row.headers) <= 0
    case BeginPass(p, limit, hidden) => p !in b.passes && Batch(b, limit, hidden) != []
    case LoseLocks(p) => p in b.passes && b.passes[p].held
    case CommitPass(p) => p in b.passes && b.passes[p].held && b.passes[p].pos == |b.passes[p].batch|
    case AbortPass(p) => p in b.passes
  }

  ghost function Booked(cfg: Config, b: Books, a: BookAction): Books
    requires CanBook(cfg, b, a)
  {
    match a
    case CreateDraft(draft) => b.(shipments := b.shipments[draft.id := draft])
    case FinalizeManifest(ship, m, id) =>
      var (updated, body) := Finalize(b.shipments[ship], m).value;
      Insert(b, ManifestRow(cfg, id, body)).(shipments := b.shipments[ship := updated])
    case ScheduleOther(row) => Insert(b, row)
    case BeginPass(p, limit, hidden) => b.(passes := b.passes[p := Pass(Batch(b, limit, hidden), 0, [], true)])
    case LoseLocks(p) =>
      b.(unconfirmed := BumpAll(b.unconfirmed, b.passes[p].sent), passes := b.passes[p := b.passes[p].(held := false)])
    case CommitPass(p) => b.(outbox := MarkSent(b.outbox, b.passes[p].sent), passes := Closed(b.passes, p))
    case AbortPass(p) =>
      b.(unconfirmed := if b.passes[p].held then BumpAll(b.unconfirmed, b.passes[p].sent) else b.unconfirmed,
         passes := Closed(b.passes, p))
  }

  predicate CanPublish(b: Books, p: nat) {
    p in b.passes && b.passes[p].pos < |b.passes[p].batch| && b.passes[p].batch[b.passes[p].pos] < |b.outbox|
  }

  /** The row a pass offers next. */
  function NextRow(b: Books, p: nat): nat
    requires CanPublish(b, p)
  {
    b.passes[p].batch[b.passes[p].pos]
  }

  /** The broker took the message, and no commit will ever say so. */
  predicate GoesUnconfirmed(pass: Pass, outcome: PublishOutcome) {
    outcome == AcceptedButRaised || (outcome == Accepted && !pass.held)
  }

  function Offered(b: Books, p: nat, outcome: PublishOutcome): Books
    requires CanPublish(b, p)
  {
    var pass, i := b.passes[p], NextRow(b, p);
    b.(accepted := if Arrives(outcome) then Bump(b.accepted, i) else b.accepted,
       unconfirmed := if GoesUnconfirmed(pass, outcome) then Bump(b.unconfirmed, i) else b.unconfirmed,
       passes := b.passes[p := pass.(pos := pass.pos + 1,
                                            sent := if outcome == Accepted then pass.sent + [i] else pass.sent)])
  }

  ghost predicate CanWork(cfg: Config, w: Work, a: WorkAction) {
    match a
    case Deliver(t, q, c) => t !in w.tasks && q in cfg.endpoints && c in Ready(w.queues, q)
    case TaskMoves(t, move) => CanMove(cfg, w, t, move)
    case Expire(q, c) => q in cfg.wayBack && c in Ready(w.queues, q)
    case Replay(q, c) => q !in cfg.endpoints && q !in cfg.wayBack && c in Ready(w.queues, q) &&
                         EndpointDescriptor in c.headers && c.headers[EndpointDescriptor].Describes?
  }

  ghost function Worked(cfg: Config, w: Work, a: WorkAction): Work
    requires CanWork(cfg, w, a)
  {
    match a
    case Deliver(t, q, c) => w.(queues := Remove(w.queues, q, c), tasks := w.tasks[t := Task(q, c, true, Received)])
    case TaskMoves(t, move) => Moved(cfg, w, t, move)
    case Expire(q, c) => w.(queues := Enqueue(Remove(w.queues, q, c), cfg.routes(cfg.wayBack[q]), c))
    case Replay(q, c) =>
      var d := c.headers[EndpointDescriptor].descriptor;
      w.(queues := Enqueue(Remove(w.queues, q, c), cfg.routes(Target(d.exchange, d.routingKey)), c))
  }

  ghost predicate Enabled(cfg: Config, s: State, a: Action) {
    match a
    case InBooks(book) => CanBook(cfg, s.books, book)
    case PublishNext(p, _) => CanPublish(s.books, p)
    case AtWork(work) => CanWork(cfg, s.work, work)
  }

  ghost function Apply(cfg: Config, s: State, a: Action): State
    requires Enabled(cfg, s, a)
  {
    match a
    case InBooks(book) => s.(books := Booked(cfg, s.books, book))
    case PublishNext(p, outcome) =>
      State(Offered(s.books, p, outcome),
            if Arrives(outcome)
            then s.work.(queues := Enqueue(s.work.queues, cfg.routes(s.books.outbox[NextRow(s.books, p)].target),
                                           CopyOf(s.books.outbox[NextRow(s.books, p)])))
            else s.work)
    case AtWork(work) => s.(work := Worked(cfg, s.work, work))
  }

  const INITIAL := State(Books(map[], [], [], [], map[]), Work(map[], map[], [], [], {}))

  // ----- runs --------------------------------------------------------------

  /** Every action is enabled when its turn comes. */
  ghost predicate Possible(cfg: Config, s: State, actions: seq<Action>)
    decreases actions
  {
    actions == [] || (Enabled(cfg, s, actions[0]) && Possible(cfg, Apply(cfg, s, actions[0]), actions[1..]))
  }

  ghost function Exec(cfg: Config, s: State, actions: seq<Action>): State
    requires Possible(cfg, s, actions)
    decreases actions
  {
    if actions == [] then s else Exec(cfg, Apply(cfg, s, actions[0]), actions[1..])
  }
}
