/** Whatever happened so far, every message can still be finished: unless it was given up
    at an endpoint, a run without any further fault leads from here to a state in which
    every handler there that takes the message has recorded it. */
module BusFinishes {
  import opened Common
  import opened Envelope
  import opened Connection
  import opened Handlers
  import opened Store
  import opened Inbox
  import opened Outbox
  import opened Recovery
  import opened Bus
  import opened BusRelay
  import opened BusNoLoss
  import opened ShipmentRules
  import opened EndToEnd
  import opened Runs

  // ----- runs in which nothing goes wrong ----------------------------------

  /** The code itself must raise here: the handler refuses the body, or another worker
      inserted the inbox row first. */
  predicate MustRaise(cfg: Config, w: Work, task: Task) {
    InDispatch(cfg, task) &&
    if task.stage.tx == Checked then TaskWrite(cfg, task).None?
    else task.stage.tx.Wrote? && TaskKey(cfg, task) in w.inbox
  }

  predicate SmoothMove(cfg: Config, w: Work, t: nat, move: Move) {
    match move
    case Commit(reported) => reported
    case Fail => t in w.tasks && MustRaise(cfg, w, w.tasks[t])
    case Recover(outcome, _) => outcome == Accepted
    case Cancel => false
    case Crash => false
    case LoseChannel => false
    case _ => true
  }

  /** No fault, no cancellation, no crash, no lost connection - and no new request. */
  predicate Smooth(cfg: Config, s: State, a: Action) {
    match a
    case InBooks(book) => book.BeginPass? || book.CommitPass?
    case PublishNext(_, outcome) => outcome == Accepted
    case AtWork(TaskMoves(t, move)) => SmoothMove(cfg, s.work, t, move)
    case AtWork(_) => true
  }

  ghost function SmoothStep(cfg: Config): (State, Action) -> Option<State> {
    (s: State, a: Action) => if Enabled(cfg, s, a) && Smooth(cfg, s, a) then Some(Apply(cfg, s, a)) else None
  }

  /** A smooth run leads there. */
  ghost predicate Reaches(cfg: Config, s: State, actions: seq<Action>, after: State) {
    RunsTo(SmoothStep(cfg), s, actions, after)
  }

  lemma {:induction false} OneStep(cfg: Config, s: State, a: Action)
    requires Enabled(cfg, s, a) && Smooth(cfg, s, a)
    ensures Reaches(cfg, s, [a], Apply(cfg, s, a))
  {
    assert [a][1..] == [];
  }

  lemma {:induction false} ThenReaches(cfg: Config, s: State, first: seq<Action>, mid: State, second: seq<Action>,
                                       after: State)
    requires Reaches(cfg, s, first, mid) && Reaches(cfg, mid, second, after)
    ensures Reaches(cfg, s, first + second, after)
  {
    RunOn(SmoothStep(cfg), s, first, mid, second, after);
  }

  /** A row with this content stands there still, and is sent if it was. */
  predicate SameRow(rows: seq<Row>, later: seq<Row>, i: nat) {
    i < |rows| && i < |later| && later[i].content == rows[i].content && later[i].target == rows[i].target &&
    later[i].headers == rows[i].headers && (rows[i].sent ==> later[i].sent)
  }

  /** A smooth run is a run of the bus, keeps what every run keeps and drops nothing. */
  lemma {:induction false} ReachesIsRun(cfg: Config, s: State, actions: seq<Action>, after: State)
    requires Reaches(cfg, s, actions, after)
    ensures Possible(cfg, s, actions) && Exec(cfg, s, actions) == after
    ensures after.work.dropped == s.work.dropped
    decreases actions
  {
    if actions != [] {
      var a := actions[0];
      if a.AtWork? && a.work.TaskMoves? {
        DroppedForGood(cfg, s.work, a.work.task, a.work.move);
      }
      ReachesIsRun(cfg, Apply(cfg, s, a), actions[1..], after);
    }
  }

  lemma {:induction false} ReachesKeeps(cfg: Config, s: State, actions: seq<Action>, after: State)
    requires Deployed(cfg) && AllKept(cfg, s) && Reaches(cfg, s, actions, after)
    ensures AllKept(cfg, after) && after.work.dropped == s.work.dropped
  {
    ReachesIsRun(cfg, s, actions, after);
    RunKeeps(cfg, s, actions);
  }

  // ----- the row is published ----------------------------------------------

  /** What a pass marks if nothing more goes wrong: what it had confirmed, and the rest. */
  function ToMark(pass: Pass): seq<nat> {
    if pass.pos <= |pass.batch| then pass.sent + pass.batch[pass.pos..] else pass.sent
  }

  /** The books after the pass closed with all of that marked. */
  ghost predicate Completed(b: Books, p: nat, after: Books)
    requires p in b.passes
  {
    after.passes == Closed(b.passes, p) && after.outbox == MarkSent(b.outbox, ToMark(b.passes[p]))
  }

  lemma {:induction false} OfferedCompletes(b: Books, p: nat, after: Books)
    requires CanPublish(b, p) && Completed(Offered(b, p, Accepted), p, after)
    ensures Completed(b, p, after)
  {
    var pass, next := b.passes[p], Offered(b, p, Accepted);
    assert ToMark(next.passes[p]) == ToMark(pass);
    assert Closed(next.passes, p) == Closed(b.passes, p);
  }

  /** The pass offers what is left of its batch, and commits. */
  lemma {:induction false} PassCompletes(cfg: Config, s: State, p: nat) returns (actions: seq<Action>, after: State)
    requires Relaying(s.books) && Holding(s.books.passes, p)
    ensures Reaches(cfg, s, actions, after) && Completed(s.books, p, after.books)
    decreases |s.books.passes[p].batch| - s.books.passes[p].pos
  {
    var pass := s.books.passes[p];
    assert Sound(s.books.outbox, pass);
    if pass.pos == |pass.batch| {
      actions, after := [InBooks(CommitPass(p))], Apply(cfg, s, InBooks(CommitPass(p)));
      OneStep(cfg, s, InBooks(CommitPass(p)));
      assert ToMark(pass) == pass.sent;
    } else {
      var offer := PublishNext(p, Accepted);
      var next := Apply(cfg, s, offer);
      OneStep(cfg, s, offer);
      PublishKeepsRelaying(s.books, p, Accepted);
      actions, after := PassCompletes(cfg, next, p);
      OfferedCompletes(s.books, p, after.books);
      ThenReaches(cfg, s, [offer], next, actions, after);
      actions := [offer] + actions;
    }
  }

  lemma {:induction false} GrowsAtLeast(batch: seq<nat>, k: nat)
    requires k < |batch| && forall x, y :: 0 <= x < y < |batch| ==> batch[x] < batch[y]
    ensures k <= batch[k]
  {
    if k > 0 {
      GrowsAtLeast(batch, k - 1);
      assert batch[k - 1] < batch[k];
    }
  }

  /** A pass that asks for as many rows as there are takes every free pending one. */
  lemma {:induction false} BatchTakesIt(b: Books, i: nat)
    requires Eligible(b.outbox, Locked(b.passes), i)
    ensures i in Batch(b, |b.outbox|, {})
  {
    var locked, limit := Locked(b.passes) + {}, |b.outbox|;
    assert locked == Locked(b.passes);
    FindsOldestBatch(b.outbox, locked, limit, 0);
    var batch := Batch(b, limit, {});
    if |batch| == limit {
      GrowsAtLeast(batch, limit - 1);
    }
  }

  /** A free pending row is published by a pass of its own. */
  lemma {:induction false} FreeRowIsPublished(cfg: Config, s: State, i: nat)
    returns (actions: seq<Action>, after: State)
    requires Relaying(s.books) && Eligible(s.books.outbox, Locked(s.books.passes), i)
    ensures Reaches(cfg, s, actions, after)
    ensures SameRow(s.books.outbox, after.books.outbox, i) && after.books.outbox[i].sent
  {
    BatchTakesIt(s.books, i);
    var p := Unused(s.books.passes.Keys);
    var begin := InBooks(BeginPass(p, |s.books.outbox|, {}));
    var begun := Apply(cfg, s, begin);
    OneStep(cfg, s, begin);
    BeginKeepsRelaying(cfg, s.books, p, |s.books.outbox|, {});
    actions, after := PassCompletes(cfg, begun, p);
    ThenReaches(cfg, s, [begin], begun, actions, after);
    actions := [begin] + actions;
    assert i in ToMark(begun.books.passes[p]);
  }

  /** A number greater than all of these. */
  lemma {:induction false} Unused(taken: set<nat>) returns (n: nat)
    ensures forall x :: x in taken ==> x < n
    decreases taken
  {
    n := 0;
    if taken != {} {
      var x :| x in taken;
      var above := Unused(taken - {x});
      n := if x < above then above else x + 1;
      assert forall y :: y in taken ==> y == x || y in taken - {x};
    }
  }

  lemma {:induction false} FreedByClosing(b: Books, p: nat, after: Books, i: nat)
    requires Relaying(b) && Holding(b.passes, p) && i in b.passes[p].batch && Completed(b, p, after)
    ensures i !in Locked(after.passes)
  {
    forall q | q in after.passes && after.passes[q].held
      ensures i !in after.passes[q].batch
    {
      assert Holding(b.passes, q);
    }
  }

  /** Every committed row can still be published. */
  lemma {:induction false} RowIsPublished(cfg: Config, s: State, i: nat) returns (actions: seq<Action>, after: State)
    requires Relaying(s.books) && i < |s.books.outbox|
    ensures Reaches(cfg, s, actions, after)
    ensures SameRow(s.books.outbox, after.books.outbox, i) && after.books.outbox[i].sent
  {
    actions, after := [], s;
    if i in Locked(s.books.passes) {
      var p :| p in s.books.passes && s.books.passes[p].held && i in s.books.passes[p].batch;
      actions, after := PassCompletes(cfg, s, p);
      FreedByClosing(s.books, p, after.books, i);
      ReachesIsRun(cfg, s, actions, after);
      RunKeepsRelaying(cfg, s, actions);
    }
    if !after.books.outbox[i].sent {
      var more, done := FreeRowIsPublished(cfg, after, i);
      ThenReaches(cfg, s, actions, after, more, done);
      actions, after := actions + more, done;
    }
  }

  // ----- every delivery is settled -----------------------------------------

  /** No other delivery has a transaction open that holds an inbox row. */
  ghost predicate Alone(cfg: Config, w: Work, t: nat) {
    forall u :: u in w.tasks && u != t ==> !HoldsRow(cfg, w.tasks[u])
  }

  ghost predicate Unsettled(w: Work, t: nat) {
    t in w.tasks && w.tasks[t].stage != Settled
  }

  /** What the worker does next when nothing goes wrong. */
  function NextMove(cfg: Config, w: Work, task: Task): Move {
    match task.stage
    case Received => Filter
    case Recovering(_) => Recover(Accepted, [])
    case Settled => Ack
    case Dispatching(_, _, _, tx) =>
      if !InDispatch(cfg, task) then Finish
      else if MustRaise(cfg, w, task) then Fail
      else match tx
        case NoTx => Lookup
        case Checked => RunHandler
        case Wrote(_) => Record
        case Recorded(_) => Commit(true)
  }

  lemma {:induction false} NextMoveIsSmooth(cfg: Config, w: Work, t: nat)
    requires Unsettled(w, t) && w.tasks[t].endpoint in cfg.endpoints && Alone(cfg, w, t)
    ensures var move := NextMove(cfg, w, w.tasks[t]);
            CanMove(cfg, w, t, move) && SmoothMove(cfg, w, t, move)
  {
    var task := w.tasks[t];
    if InDispatch(cfg, task) && task.stage.tx.Wrote? {
      assert !Blocked(cfg, w, t, TaskKey(cfg, task));
    }
  }

  // How far a delivery has to go: its phase, the subscribers, attempts and steps left.

  function PhaseLeft(stage: Stage): nat {
    match stage
    case Received => 3
    case Dispatching(_, _, _, _) => 2
    case Recovering(_) => 1
    case Settled => 0
  }

  function SubscribersLeft(cfg: Config, task: Task): nat {
    if InDispatch(cfg, task) then |SubsOf(cfg, task)| - task.stage.i else 0
  }

  function AttemptsLeft(cfg: Config, task: Task): nat {
    if InDispatch(cfg, task) && task.stage.attempt < cfg.endpoints[task.endpoint].Last()
    then cfg.endpoints[task.endpoint].Last() - task.stage.attempt else 0
  }

  function StepsLeft(stage: Stage): nat {
    if !stage.Dispatching? then 0
    else match stage.tx
      case NoTx => 3
      case Checked => 2
      case Wrote(_) => 1
      case Recorded(_) => 0
  }

  // ----- and records on the way --------------------------------------------

  function SubWrite(cfg: Config, task: Task, j: nat): Option<Write>
    requires task.endpoint in cfg.endpoints && j < |SubsOf(cfg, task)|
  {
    HandlerWrite(SubsOf(cfg, task)[j].name, task.copy.content.body)
  }

  /** Every handler of the endpoint that takes this message has recorded it. */
  ghost predicate TakersRecorded(e: Endpoint, content: Content, inbox: seq<Key>) {
    forall h :: h in SubscribersOf(e.subs, content.mtype) && HandlerWrite(h.name, content.body).Some? ==>
      KeyFor(e.schema, content, h) in inbox
  }

  /** A dispatch in which nothing went wrong so far: only handlers that refuse the
      message have failed, and the row it is about to insert is still free. */
  ghost predicate OnTrack(cfg: Config, inbox: seq<Key>, task: Task) {
    task.endpoint in cfg.endpoints &&
    match task.stage
    case Received => Accepts(cfg.endpoints[task.endpoint], task.copy)
    case Dispatching(_, _, failed, tx) =>
      (forall j :: j in failed && j < |SubsOf(cfg, task)| ==> SubWrite(cfg, task, j).None?) &&
      (InDispatch(cfg, task) && tx != NoTx ==> TaskKey(cfg, task) !in inbox)
    case _ => false
  }

  lemma {:induction false} StaysOnTrack(cfg: Config, w: Work, t: nat)
    requires Unsettled(w, t) && w.tasks[t].endpoint in cfg.endpoints && Alone(cfg, w, t)
    requires OnTrack(cfg, w.inbox, w.tasks[t]) && Progress(cfg, w.inbox, w.tasks[t])
    requires CanMove(cfg, w, t, NextMove(cfg, w, w.tasks[t]))
    ensures var task, move := w.tasks[t], NextMove(cfg, w, w.tasks[t]);
            var after := Moved(cfg, w, t, move);
            if move.Finish? then TakersRecorded(cfg.endpoints[task.endpoint], task.copy.content, after.inbox)
            else OnTrack(cfg, after.inbox, after.tasks[t])
  {
    var task, move := w.tasks[t], NextMove(cfg, w, w.tasks[t]);
    if move.Finish? {
      var e, subs := cfg.endpoints[task.endpoint], SubsOf(cfg, task);
      forall h | h in subs && HandlerWrite(h.name, task.copy.content.body).Some?
        ensures KeyFor(e.schema, task.copy.content, h) in w.inbox
      {
        var j :| 0 <= j < |subs| && subs[j] == h;
        assert SubWrite(cfg, task, j).Some?;
      }
    }
  }

  /** One move further, and nobody else was touched. */
  ghost predicate OneFurther(cfg: Config, s: State, t: nat, next: State)
    requires t in s.work.tasks
  {
    next.books == s.books && s.work.inbox <= next.work.inbox && t in next.work.tasks &&
    next.work.tasks == s.work.tasks[t := s.work.tasks[t].(stage := next.work.tasks[t].stage)] &&
    Progressing(cfg, next.work)
  }

  /** Fewer phases, subscribers, attempts or steps are left, in this order. */
  predicate Closer(cfg: Config, task: Task, next: Task) {
    PhaseLeft(next.stage) < PhaseLeft(task.stage) ||
    (PhaseLeft(next.stage) == PhaseLeft(task.stage) &&
     (SubscribersLeft(cfg, next) < SubscribersLeft(cfg, task) ||
      (SubscribersLeft(cfg, next) == SubscribersLeft(cfg, task) &&
       (AttemptsLeft(cfg, next) < AttemptsLeft(cfg, task) ||
        (AttemptsLeft(cfg, next) == AttemptsLeft(cfg, task) && StepsLeft(next.stage) < StepsLeft(task.stage))))))
  }

  lemma {:induction false} MovesOn(cfg: Config, s: State, t: nat) returns (a: Action, next: State)
    requires Unsettled(s.work, t) && Alone(cfg, s.work, t) && Progressing(cfg, s.work)
    ensures a == AtWork(TaskMoves(t, NextMove(cfg, s.work, s.work.tasks[t])))
    ensures Enabled(cfg, s, a) && Apply(cfg, s, a) == next && Reaches(cfg, s, [a], next)
    ensures OneFurther(cfg, s, t, next) && Closer(cfg, s.work.tasks[t], next.work.tasks[t])
  {
    assert Progress(cfg, s.work.inbox, s.work.tasks[t]);
    NextMoveIsSmooth(cfg, s.work, t);
    a := AtWork(TaskMoves(t, NextMove(cfg, s.work, s.work.tasks[t])));
    next := Apply(cfg, s, a);
    OneStep(cfg, s, a);
    MovesProgress(cfg, s.work, t, a.work.move);
  }

  /** Once its own transaction is the only one that may hold a row, a delivery can be
      brought to its end, and leaves no transaction open. */
  lemma {:induction false} SettlesOne(cfg: Config, s: State, t: nat) returns (actions: seq<Action>, after: State)
    requires Unsettled(s.work, t) && Alone(cfg, s.work, t) && Progressing(cfg, s.work)
    ensures Reaches(cfg, s, actions, after) && OneFurther(cfg, s, t, after)
    ensures after.work.tasks[t].stage == Settled
    ensures var task := s.work.tasks[t];
            OnTrack(cfg, s.work.inbox, task) ==>
              TakersRecorded(cfg.endpoints[task.endpoint], task.copy.content, after.work.inbox)
    decreases PhaseLeft(s.work.tasks[t].stage), SubscribersLeft(cfg, s.work.tasks[t]),
              AttemptsLeft(cfg, s.work.tasks[t]), StepsLeft(s.work.tasks[t].stage)
  {
    var task := s.work.tasks[t];
    var a, next := MovesOn(cfg, s, t);
    assert Progress(cfg, s.work.inbox, task);
    if OnTrack(cfg, s.work.inbox, task) {
      StaysOnTrack(cfg, s.work, t);
    }
    if next.work.tasks[t].stage == Settled {
      actions, after := [a], next;
    } else {
      actions, after := SettlesOne(cfg, next, t);
      ThenReaches(cfg, s, [a], next, actions, after);
      actions := [a] + actions;
    }
  }

  /** The deliveries whose open transaction holds an inbox row. */
  function Holders(cfg: Config, w: Work): set<nat> {
    set t | t in w.tasks && HoldsRow(cfg, w.tasks[t])
  }

  /** All of them commit. */
  lemma {:induction false} HoldersCommit(cfg: Config, s: State) returns (actions: seq<Action>, after: State)
    ensures Reaches(cfg, s, actions, after) && after.books == s.books && Holders(cfg, after.work) == {}
    decreases |Holders(cfg, s.work)|
  {
    actions, after := [], s;
    if Holders(cfg, s.work) != {} {
      var t :| t in Holders(cfg, s.work);
      var a := AtWork(TaskMoves(t, Commit(true)));
      var next := Apply(cfg, s, a);
      OneStep(cfg, s, a);
      assert Holders(cfg, next.work) == Holders(cfg, s.work) - {t};
      actions, after := HoldersCommit(cfg, next);
      ThenReaches(cfg, s, [a], next, actions, after);
      actions := [a] + actions;
    }
  }

  function Open(w: Work): set<nat> {
    set t | t in w.tasks && w.tasks[t].stage != Settled
  }

  /** And then every delivery is brought to its end. */
  lemma {:induction false} AllSettle(cfg: Config, s: State) returns (actions: seq<Action>, after: State)
    requires Progressing(cfg, s.work) && Holders(cfg, s.work) == {}
    ensures Reaches(cfg, s, actions, after) && after.books == s.books && Open(after.work) == {}
    decreases |Open(s.work)|
  {
    actions, after := [], s;
    if Open(s.work) != {} {
      var t :| t in Open(s.work);
      assert forall u :: u in s.work.tasks && HoldsRow(cfg, s.work.tasks[u]) ==> u in Holders(cfg, s.work);
      var next;
      actions, next := SettlesOne(cfg, s, t);
      assert Open(next.work) == Open(s.work) - {t};
      assert Holders(cfg, next.work) <= Holders(cfg, s.work);
      var more;
      more, after := AllSettle(cfg, next);
      ThenReaches(cfg, s, actions, next, more, after);
      actions := actions + more;
    }
  }

  // ----- one more delivery -------------------------------------------------

  /** A copy waiting anywhere on its way home can be brought there: a retry expires, a
      parked copy is replayed. */
  lemma {:induction false} CopyComesHome(cfg: Config, s: State, ep: string, content: Content)
    returns (actions: seq<Action>, after: State, c: Copy)
    requires Deployed(cfg) && ep in cfg.endpoints && Waiting(cfg, s.work.queues, ep, content)
    ensures Reaches(cfg, s, actions, after) && after.books == s.books
    ensures after.work == s.work.(queues := after.work.queues)
    ensures WaitsAs(cfg, after.work.queues, ep, content, ep, c)
  {
    var q;
    q, c :| WaitsAs(cfg, s.work.queues, ep, content, q, c);
    assert DeployedAt(cfg, ep);
    actions, after := [], s;
    if q != ep {
      var a := AtWork(if q in cfg.wayBack then Expire(q, c) else Replay(q, c));
      if q in cfg.wayBack {
        ExpiryLeadsHome(cfg, s.work.queues, ep, content, q, c);
      } else {
        ReplayLeadsHome(cfg, s.work.queues, ep, content, q, c);
      }
      actions, after := [a], Apply(cfg, s, a);
      OneStep(cfg, s, a);
    }
  }

  /** With nothing else under way, one delivery of a copy that is home records it. */
  lemma {:induction false} HomeCopyIsRecorded(cfg: Config, s: State, ep: string, content: Content, c: Copy)
    returns (actions: seq<Action>, after: State)
    requires ep in cfg.endpoints && content.mtype in cfg.endpoints[ep].subs && Progressing(cfg, s.work)
    requires Open(s.work) == {} && WaitsAs(cfg, s.work.queues, ep, content, ep, c)
    ensures Reaches(cfg, s, actions, after) && after.books == s.books
    ensures TakersRecorded(cfg.endpoints[ep], content, after.work.inbox)
  {
    var t := Unused(s.work.tasks.Keys);
    var deliver := AtWork(Deliver(t, ep, c));
    var next := Apply(cfg, s, deliver);
    OneStep(cfg, s, deliver);
    WorkProgresses(cfg, s.work, deliver.work);
    forall u | u in next.work.tasks && u != t
      ensures !HoldsRow(cfg, next.work.tasks[u])
    {
      assert u !in Open(s.work);
    }
    actions, after := SettlesOne(cfg, next, t);
    ThenReaches(cfg, s, [deliver], next, actions, after);
    actions := [deliver] + actions;
  }

  /** The row is published, every open transaction commits and every delivery ends. */
  lemma {:induction false} EverythingSettles(cfg: Config, s: State, i: nat) returns (actions: seq<Action>, after: State)
    requires Deployed(cfg) && AllKept(cfg, s) && i < |s.books.outbox|
    ensures Reaches(cfg, s, actions, after) && Open(after.work) == {}
    ensures SameRow(s.books.outbox, after.books.outbox, i) && after.books.outbox[i].sent
  {
    var more, next;
    actions, after := RowIsPublished(cfg, s, i);
    more, next := HoldersCommit(cfg, after);
    ThenReaches(cfg, s, actions, after, more, next);
    actions, after := actions + more, next;
    ReachesKeeps(cfg, s, actions, after);
    more, next := AllSettle(cfg, after);
    ThenReaches(cfg, s, actions, after, more, next);
    actions, after := actions + more, next;
  }

  /** With nothing else under way, a sent row that is kept is recorded, or one more
      delivery records it. */
  lemma {:induction false} KeptIsRecorded(cfg: Config, s: State, ep: string, content: Content)
    returns (actions: seq<Action>, after: State)
    requires Deployed(cfg) && ep in cfg.endpoints && content.mtype in cfg.endpoints[ep].subs
    requires Progressing(cfg, s.work) && Open(s.work) == {} && Survives(cfg, s.work, ep, content)
    ensures Reaches(cfg, s, actions, after) && after.books == s.books
    ensures TakersRecorded(cfg.endpoints[ep], content, after.work.inbox)
  {
    actions, after := [], s;
    forall t | t in s.work.tasks
      ensures !Holds(cfg, s.work.tasks[t], ep, content)
    {
      assert t !in Open(s.work);
    }
    if !AllRecorded(cfg.endpoints[ep], content, s.work.inbox) {
      var home, c, more;
      actions, home, c := CopyComesHome(cfg, s, ep, content);
      more, after := HomeCopyIsRecorded(cfg, home, ep, content, c);
      ThenReaches(cfg, s, actions, home, more, after);
      actions := actions + more;
    }
  }

  /** From every state of the bus, and for every row due at an endpoint that was not
      given up there: a run in which nothing more goes wrong ends with every handler that
      takes the message having recorded it. */
  lemma {:induction false} RowCanBeFinished(cfg: Config, s: State, i: nat, ep: string)
    returns (actions: seq<Action>, after: State)
    requires Deployed(cfg) && AllKept(cfg, s) && i < |s.books.outbox| && Due(cfg, s.books.outbox[i], ep)
    requires (ep, s.books.outbox[i].content) !in s.work.dropped
    ensures Reaches(cfg, s, actions, after) && SameRow(s.books.outbox, after.books.outbox, i)
    ensures TakersRecorded(cfg.endpoints[ep], s.books.outbox[i].content, after.work.inbox)
  {
    var content := s.books.outbox[i].content;
    var more, settled;
    actions, settled := EverythingSettles(cfg, s, i);
    ReachesKeeps(cfg, s, actions, settled);
    assert settled.books.accepted[i] > 0 && Due(cfg, settled.books.outbox[i], ep);
    assert Kept(cfg, settled.work, ep, content);
    more, after := KeptIsRecorded(cfg, settled, ep, content);
    ThenReaches(cfg, s, actions, settled, more, after);
    actions := actions + more;
  }

  /** Whatever happened in a run - crashes, failures, lost connections, losses elsewhere -
      a row that was not given up at an endpoint where it is due can still be recorded by
      every handler there that takes it, without one more thing going wrong. */
  lemma {:induction false} EveryMessageCanBeFinished(cfg: Config, actions: seq<Action>, i: nat, ep: string)
    returns (more: seq<Action>, after: State)
    requires Deployed(cfg) && Possible(cfg, INITIAL, actions)
    requires i < |Exec(cfg, INITIAL, actions).books.outbox| && Due(cfg, Exec(cfg, INITIAL, actions).books.outbox[i], ep)
    requires (ep, Exec(cfg, INITIAL, actions).books.outbox[i].content) !in Exec(cfg, INITIAL, actions).work.dropped
    ensures var s := Exec(cfg, INITIAL, actions);
            Reaches(cfg, s, more, after) && SameRow(s.books.outbox, after.books.outbox, i) &&
            TakersRecorded(cfg.endpoints[ep], s.books.outbox[i].content, after.work.inbox)
  {
    RunKeeps(cfg, INITIAL, actions);
    more, after := RowCanBeFinished(cfg, Exec(cfg, INITIAL, actions), i, ep);
  }

  lemma {:induction false} OpenerRecorded(cfg: Config, customs: string, row: Row, inbox: seq<Key>)
    requires OpensCases(cfg, customs) && row.content.mtype == ShipmentManifestFinalized
    requires HandlerWrite(OpenClearanceCase, row.content.body).Some?
    requires TakersRecorded(cfg.endpoints[customs], row.content, inbox)
    ensures OpeningKey(row.content.id) in inbox
  {
    var h :| h in SubscribersOf(cfg.endpoints[customs].subs, ShipmentManifestFinalized) && h.name == OpenClearanceCase;
    assert KeyFor(CustomsSchema, row.content, h) == OpeningKey(row.content.id);
  }

  /** Customs gave up no announcement of this shipment. */
  ghost predicate NotGivenUp(s: State, ship: string, customs: string) {
    forall i :: 0 <= i < |s.books.outbox| && Announces(s.books.outbox[i], ship) ==>
      (customs, s.books.outbox[i].content) !in s.work.dropped
  }

  /** So every finalized shipment can still get its clearance case: unless customs gave
      its announcement up, some run in which nothing more goes wrong opens it. */
  lemma {:induction false} CaseCanBeOpened(cfg: Config, actions: seq<Action>, ship: string, customs: string)
    returns (more: seq<Action>, after: State)
    requires OpeningIsCustoms(cfg) && Deployed(cfg) && OpensCases(cfg, customs) && Possible(cfg, INITIAL, actions)
    requires NotGivenUp(Exec(cfg, INITIAL, actions), ship, customs)
    requires ship in Exec(cfg, INITIAL, actions).books.shipments
    requires Exec(cfg, INITIAL, actions).books.shipments[ship].status != Draft
    ensures Reaches(cfg, Exec(cfg, INITIAL, actions), more, after) && CaseExists(after.work.effects, ship)
  {
    var s := Exec(cfg, INITIAL, actions);
    RunStaysTraced(cfg, INITIAL, actions);
    ManifestRowsAreAddressed(cfg, INITIAL, actions);
    var i := AnnouncementIsDue(cfg, s.books, ship, customs);
    more, after := EveryMessageCanBeFinished(cfg, actions, i, customs);
    ReachesIsRun(cfg, s, more, after);
    RunStaysTraced(cfg, s, more);
    OpenerRecorded(cfg, customs, s.books.outbox[i], after.work.inbox);
    CaseIffRecordedIn(cfg, after, ship, i);
  }
}
