/** No message is lost: whatever happens, a published row is still in some queue or
    some worker's hands on its way to each bound endpoint, or every handler there has
    recorded it - unless a recovery publication raised or a dispatch was cancelled. */
module BusNoLoss {
  import opened Envelope
  import opened Topology
  import opened Connection
  import opened Store
  import opened Inbox
  import opened Outbox
  import opened Recovery
  import opened Bus
  import opened BusRelay

  /** Queues are bound and named as each endpoint's own declaration binds them. */
  ghost predicate Deployed(cfg: Config) {
    (forall q :: q in cfg.wayBack ==> q !in cfg.endpoints) &&
    forall q :: q in cfg.endpoints ==> DeployedAt(cfg, q)
  }

  ghost predicate DeployedAt(cfg: Config, q: string)
    requires q in cfg.endpoints
  {
    var t := cfg.endpoints[q].topology;
    t.retryQueue in cfg.routes(t.RetryTarget()) &&
    t.errorQueue in cfg.routes(t.ErrorTarget()) &&
    q in cfg.routes(t.ReturnTarget()) &&
    t.retryQueue in cfg.wayBack && cfg.wayBack[t.retryQueue] == t.ReturnTarget() &&
    t.errorQueue !in cfg.endpoints && t.errorQueue !in cfg.wayBack
  }

  /** A copy in this queue is on its way to the endpoint, and will be accepted there. */
  ghost predicate Homebound(e: Endpoint, home: string, q: string, c: Copy) {
    BelongsTo(c.headers, e.topology.appName) &&
    (q == home || q == e.topology.retryQueue ||
     (q == e.topology.errorQueue && EndpointDescriptor in c.headers &&
      c.headers[EndpointDescriptor] == Describes(DescriptorOf(e.topology, c.content.mtype))))
  }

  ghost predicate WaitsAs(cfg: Config, queues: Queues, ep: string, content: Content, q: string, c: Copy)
    requires ep in cfg.endpoints
  {
    c in Ready(queues, q) && c.content == content && Homebound(cfg.endpoints[ep], ep, q, c)
  }

  ghost predicate Waiting(cfg: Config, queues: Queues, ep: string, content: Content)
    requires ep in cfg.endpoints
  {
    exists q, c :: WaitsAs(cfg, queues, ep, content, q, c)
  }

  ghost predicate Holds(cfg: Config, task: Task, ep: string, content: Content)
    requires ep in cfg.endpoints
  {
    task.attached && task.endpoint == ep && task.copy.content == content && task.stage != Settled &&
    BelongsTo(task.copy.headers, cfg.endpoints[ep].topology.appName)
  }

  ghost predicate InHand(cfg: Config, tasks: map<nat, Task>, ep: string, content: Content)
    requires ep in cfg.endpoints
  {
    exists t :: t in tasks && Holds(cfg, tasks[t], ep, content)
  }

  ghost predicate Survives(cfg: Config, w: Work, ep: string, content: Content)
    requires ep in cfg.endpoints
  {
    Waiting(cfg, w.queues, ep, content) ||
    InHand(cfg, w.tasks, ep, content) ||
    AllRecorded(cfg.endpoints[ep], content, w.inbox)
  }

  ghost predicate Kept(cfg: Config, w: Work, ep: string, content: Content)
    requires ep in cfg.endpoints
  {
    Survives(cfg, w, ep, content) || (ep, content) in w.dropped
  }

  // ----- dispatch progress -------------------------------------------------

  /** A dispatch has dealt with every subscriber before the current one: it failed, or
      its key is in the inbox. */
  ghost predicate Progress(cfg: Config, inbox: seq<Key>, task: Task) {
    task.endpoint in cfg.endpoints &&
    (task.stage.Dispatching? ==>
       task.copy.content.mtype in cfg.endpoints[task.endpoint].subs &&
       task.stage.i <= |SubsOf(cfg, task)| &&
       forall j :: 0 <= j < task.stage.i ==>
         j in task.stage.failed ||
         KeyFor(cfg.endpoints[task.endpoint].schema, task.copy.content, SubsOf(cfg, task)[j]) in inbox)
  }

  ghost predicate Progressing(cfg: Config, w: Work) {
    forall t :: t in w.tasks ==> Progress(cfg, w.inbox, w.tasks[t])
  }

  lemma {:induction false} MovesProgress(cfg: Config, w: Work, t: nat, move: Move)
    requires Progressing(cfg, w) && CanMove(cfg, w, t, move)
    ensures Progressing(cfg, Moved(cfg, w, t, move))
  {
    var after := Moved(cfg, w, t, move);
    forall u | u in after.tasks
      ensures Progress(cfg, after.inbox, after.tasks[u])
    {
      assert Progress(cfg, w.inbox, w.tasks[u]);
      if u == t {
        OwnProgress(cfg, w, t, move);
      }
    }
  }

  lemma {:induction false} OwnProgress(cfg: Config, w: Work, t: nat, move: Move)
    requires CanMove(cfg, w, t, move) && Progress(cfg, w.inbox, w.tasks[t])
    requires t in Moved(cfg, w, t, move).tasks
    ensures Progress(cfg, Moved(cfg, w, t, move).inbox, Moved(cfg, w, t, move).tasks[t])
  {
  }

  lemma {:induction false} WorkProgresses(cfg: Config, w: Work, a: WorkAction)
    requires Progressing(cfg, w) && CanWork(cfg, w, a)
    ensures Progressing(cfg, Worked(cfg, w, a))
  {
    if a.TaskMoves? {
      MovesProgress(cfg, w, a.task, a.move);
    }
  }

  // ----- one step keeps one message ----------------------------------------

  lemma {:induction false} StillWaiting(cfg: Config, before: Queues, after: Queues, ep: string, content: Content)
    requires ep in cfg.endpoints && Waiting(cfg, before, ep, content)
    requires forall q :: Ready(before, q) <= Ready(after, q)
    ensures Waiting(cfg, after, ep, content)
  {
    var q, c :| WaitsAs(cfg, before, ep, content, q, c);
    assert Ready(before, q) <= Ready(after, q);
    assert WaitsAs(cfg, after, ep, content, q, c);
  }

  lemma {:induction false} QueuesOnlyGrow(cfg: Config, w: Work, t: nat, move: Move, q: string)
    requires CanMove(cfg, w, t, move)
    ensures Ready(w.queues, q) <= Ready(Moved(cfg, w, t, move).queues, q)
  {
  }

  lemma {:induction false} EnqueuedWaits(cfg: Config, queues: Queues, targets: set<string>, ep: string, q: string,
                                         c: Copy)
    requires ep in cfg.endpoints && q in targets && Homebound(cfg.endpoints[ep], ep, q, c)
    ensures Waiting(cfg, Enqueue(queues, targets, c), ep, c.content)
  {
    var after := Enqueue(queues, targets, c);
    assert Ready(after, q) == Ready(queues, q) + multiset{c};
    assert WaitsAs(cfg, after, ep, c.content, q, c);
  }

  lemma {:induction false} RetryIsHomebound(e: Endpoint, home: string, c: Copy)
    ensures Homebound(e, home, e.topology.retryQueue, RetryCopy(e.topology, c))
  {
  }

  lemma {:induction false} DeadIsHomebound(e: Endpoint, home: string, c: Copy, failures: seq<Failure>)
    requires BelongsTo(c.headers, e.topology.appName)
    ensures Homebound(e, home, e.topology.errorQueue, DeadCopy(e.topology, c, failures))
  {
  }

  /** The republication of a failed message is on its way back to the same endpoint. */
  lemma {:induction false} RecoveryIsHomebound(cfg: Config, queues: Queues, ep: string, c: Copy, failures: seq<Failure>)
    requires Deployed(cfg) && ep in cfg.endpoints
    requires BelongsTo(c.headers, cfg.endpoints[ep].topology.appName)
    ensures var e := cfg.endpoints[ep];
            Waiting(cfg, Enqueue(queues, cfg.routes(RecoveryTarget(e, c)), RecoveryCopy(e, c, failures)), ep, c.content)
  {
    var e := cfg.endpoints[ep];
    assert DeployedAt(cfg, ep);
    RetryIsHomebound(e, ep, c);
    DeadIsHomebound(e, ep, c, failures);
    EnqueuedWaits(cfg, queues, cfg.routes(RecoveryTarget(e, c)), ep,
                  if Exhausted(e, c) then e.topology.errorQueue else e.topology.retryQueue,
                  RecoveryCopy(e, c, failures));
  }

  lemma {:induction false} RequeuedIsHomebound(cfg: Config, queues: Queues, ep: string, c: Copy)
    requires ep in cfg.endpoints && BelongsTo(c.headers, cfg.endpoints[ep].topology.appName)
    ensures Waiting(cfg, Enqueue(queues, {ep}, c), ep, c.content)
  {
    EnqueuedWaits(cfg, queues, {ep}, ep, ep, c);
  }

  /** Handing the copy to the broker, or to the retry or error queue, keeps it. */
  lemma {:induction false} HandingOverKeeps(cfg: Config, w: Work, t: nat, move: Move, ep: string, content: Content)
    requires Deployed(cfg) && ep in cfg.endpoints
    requires CanMove(cfg, w, t, move) && Holds(cfg, w.tasks[t], ep, content)
    requires (move.Recover? || move.Crash? || move.LoseChannel?) && !GivesUp(move)
    ensures Survives(cfg, Moved(cfg, w, t, move), ep, content)
  {
    var c := w.tasks[t].copy;
    if move.Recover? {
      RecoveryIsHomebound(cfg, w.queues, ep, c, move.failures);
    } else {
      RequeuedIsHomebound(cfg, w.queues, ep, c);
    }
  }

  /** Until then the delivery keeps holding it, or finishes with every row recorded. */
  lemma {:induction false} WorkingOnKeeps(cfg: Config, w: Work, t: nat, move: Move, ep: string, content: Content)
    requires ep in cfg.endpoints && content.mtype in cfg.endpoints[ep].subs
    requires CanMove(cfg, w, t, move) && Holds(cfg, w.tasks[t], ep, content)
    requires !move.Recover? && !move.Crash? && !move.LoseChannel? && !GivesUp(move)
    requires Progress(cfg, w.inbox, w.tasks[t])
    ensures Survives(cfg, Moved(cfg, w, t, move), ep, content)
  {
    var after := Moved(cfg, w, t, move);
    if move.Finish? && w.tasks[t].stage.failed == [] {
      FinishedIsRecorded(cfg, w.inbox, w.tasks[t]);
    } else {
      assert Holds(cfg, after.tasks[t], ep, content);
    }
  }

  /** The move of the delivery that holds the message. */
  lemma {:induction false} HolderKeeps(cfg: Config, w: Work, t: nat, move: Move, ep: string, content: Content)
    requires Deployed(cfg) && ep in cfg.endpoints && content.mtype in cfg.endpoints[ep].subs && !GivesUp(move)
    requires CanMove(cfg, w, t, move) && Progress(cfg, w.inbox, w.tasks[t]) && Holds(cfg, w.tasks[t], ep, content)
    ensures Survives(cfg, Moved(cfg, w, t, move), ep, content)
  {
    if move.Recover? || move.Crash? || move.LoseChannel? {
      HandingOverKeeps(cfg, w, t, move, ep, content);
    } else {
      WorkingOnKeeps(cfg, w, t, move, ep, content);
    }
  }

  lemma {:induction false} FinishedIsRecorded(cfg: Config, inbox: seq<Key>, task: Task)
    requires Progress(cfg, inbox, task) && task.stage.Dispatching? && !InDispatch(cfg, task) && task.stage.failed == []
    ensures AllRecorded(cfg.endpoints[task.endpoint], task.copy.content, inbox)
  {
    forall h | h in SubsOf(cfg, task)
      ensures KeyFor(cfg.endpoints[task.endpoint].schema, task.copy.content, h) in inbox
    {
      var j :| 0 <= j < |SubsOf(cfg, task)| && SubsOf(cfg, task)[j] == h;
    }
  }

  lemma {:induction false} RecordedForGood(e: Endpoint, content: Content, inbox: seq<Key>, later: seq<Key>)
    requires AllRecorded(e, content, inbox) && inbox <= later
    ensures AllRecorded(e, content, later)
  {
    forall k | k in inbox
      ensures k in later
    {
    }
  }

  /** Another delivery than this one holds the message as well. */
  ghost predicate HeldElsewhere(cfg: Config, tasks: map<nat, Task>, t: nat, ep: string, content: Content)
    requires ep in cfg.endpoints
  {
    exists u :: u in tasks && u != t && Holds(cfg, tasks[u], ep, content)
  }

  /** The last copy of a message not recorded everywhere is given up. */
  ghost predicate GivesUpTheLast(cfg: Config, w: Work, t: nat, move: Move, ep: string, content: Content)
    requires ep in cfg.endpoints && t in w.tasks
  {
    GivesUp(move) && Holds(cfg, w.tasks[t], ep, content) && !Waiting(cfg, w.queues, ep, content) &&
    !HeldElsewhere(cfg, w.tasks, t, ep, content) && !AllRecorded(cfg.endpoints[ep], content, w.inbox)
  }

  lemma {:induction false} StillHeld(cfg: Config, w: Work, t: nat, move: Move, ep: string, content: Content)
    requires ep in cfg.endpoints && CanMove(cfg, w, t, move) && HeldElsewhere(cfg, w.tasks, t, ep, content)
    ensures InHand(cfg, Moved(cfg, w, t, move).tasks, ep, content)
  {
    var u :| u in w.tasks && u != t && Holds(cfg, w.tasks[u], ep, content);
    assert u in Moved(cfg, w, t, move).tasks && Holds(cfg, Moved(cfg, w, t, move).tasks[u], ep, content);
  }

  lemma {:induction false} MoveSurvives(cfg: Config, w: Work, t: nat, move: Move, ep: string, content: Content)
    requires Deployed(cfg) && ep in cfg.endpoints && content.mtype in cfg.endpoints[ep].subs
    requires Progressing(cfg, w) && CanMove(cfg, w, t, move) && Survives(cfg, w, ep, content)
    requires !GivesUpTheLast(cfg, w, t, move, ep, content)
    ensures Survives(cfg, Moved(cfg, w, t, move), ep, content)
  {
    var after := Moved(cfg, w, t, move);
    if Waiting(cfg, w.queues, ep, content) {
      forall q
        ensures Ready(w.queues, q) <= Ready(after.queues, q)
      {
        QueuesOnlyGrow(cfg, w, t, move, q);
      }
      StillWaiting(cfg, w.queues, after.queues, ep, content);
    } else if AllRecorded(cfg.endpoints[ep], content, w.inbox) {
      RecordedForGood(cfg.endpoints[ep], content, w.inbox, after.inbox);
    } else if HeldElsewhere(cfg, w.tasks, t, ep, content) {
      StillHeld(cfg, w, t, move, ep, content);
    } else {
      HolderKeeps(cfg, w, t, move, ep, content);
    }
  }

  lemma {:induction false} GivenUpIsGone(cfg: Config, w: Work, t: nat, move: Move, ep: string, content: Content)
    requires ep in cfg.endpoints && CanMove(cfg, w, t, move) && GivesUpTheLast(cfg, w, t, move, ep, content)
    ensures !Survives(cfg, Moved(cfg, w, t, move), ep, content) && (ep, content) in Moved(cfg, w, t, move).dropped
  {
    var after := Moved(cfg, w, t, move);
    assert after.queues == w.queues && after.inbox == w.inbox;
    forall u | u in after.tasks
      ensures !Holds(cfg, after.tasks[u], ep, content)
    {
      assert u != t ==> after.tasks[u] == w.tasks[u];
    }
  }

  /** Exactly what loses a message: in one move of one delivery, a message that was
      pending somewhere is lost if and only if the delivery holds its last copy, not
      every subscriber has recorded it, and the move gives it up - a recovery
      publication that never arrives, or a cancelled dispatch. */
  lemma {:induction false} LostExactlyWhenGivenUp(cfg: Config, w: Work, t: nat, move: Move, ep: string,
                                                  content: Content)
    requires Deployed(cfg) && ep in cfg.endpoints && content.mtype in cfg.endpoints[ep].subs
    requires Progressing(cfg, w) && CanMove(cfg, w, t, move) && Survives(cfg, w, ep, content)
    ensures !Survives(cfg, Moved(cfg, w, t, move), ep, content) <==> GivesUpTheLast(cfg, w, t, move, ep, content)
  {
    if GivesUpTheLast(cfg, w, t, move, ep, content) {
      GivenUpIsGone(cfg, w, t, move, ep, content);
    } else {
      MoveSurvives(cfg, w, t, move, ep, content);
    }
  }

  lemma {:induction false} MoveKeeps(cfg: Config, w: Work, t: nat, move: Move, ep: string, content: Content)
    requires Deployed(cfg) && ep in cfg.endpoints && content.mtype in cfg.endpoints[ep].subs
    requires Progressing(cfg, w) && CanMove(cfg, w, t, move) && Kept(cfg, w, ep, content)
    ensures Kept(cfg, Moved(cfg, w, t, move), ep, content)
  {
    if (ep, content) in w.dropped {
      DroppedForGood(cfg, w, t, move);
    } else if GivesUpTheLast(cfg, w, t, move, ep, content) {
      GivenUpIsGone(cfg, w, t, move, ep, content);
    } else {
      MoveSurvives(cfg, w, t, move, ep, content);
    }
  }

  lemma {:induction false} DroppedForGood(cfg: Config, w: Work, t: nat, move: Move)
    requires CanMove(cfg, w, t, move)
    ensures w.dropped <= Moved(cfg, w, t, move).dropped
    ensures Moved(cfg, w, t, move).dropped != w.dropped ==> GivesUp(move)
  {
  }

  /** Taking one copy out of a queue leaves every other copy there. */
  lemma {:induction false} OthersStay(before: Queues, after: Queues, q: string, c: Copy, p: string, d: Copy)
    requires d in Ready(before, p) && (p != q || d != c)
    requires Ready(Remove(before, q, c), p) <= Ready(after, p)
    ensures d in Ready(after, p)
  {
    assert d in Ready(Remove(before, q, c), p);
  }

  lemma {:induction false} OthersWait(cfg: Config, before: Queues, after: Queues, ep: string, content: Content,
                                      q: string, c: Copy)
    requires ep in cfg.endpoints && Waiting(cfg, before, ep, content)
    requires forall p :: Ready(Remove(before, q, c), p) <= Ready(after, p)
    ensures Waiting(cfg, after, ep, content) || WaitsAs(cfg, before, ep, content, q, c)
  {
    var p, d :| WaitsAs(cfg, before, ep, content, p, d);
    if p != q || d != c {
      OthersStay(before, after, q, c, p, d);
      assert WaitsAs(cfg, after, ep, content, p, d);
    }
  }

  /** Only its own endpoint takes a homebound copy. */
  lemma {:induction false} TakenAtHome(cfg: Config, queues: Queues, ep: string, content: Content, q: string, c: Copy,
                                       task: Task)
    requires Deployed(cfg) && ep in cfg.endpoints && q in cfg.endpoints
    requires WaitsAs(cfg, queues, ep, content, q, c) && task == Task(q, c, true, Received)
    ensures Holds(cfg, task, ep, content)
  {
    assert DeployedAt(cfg, ep);
  }

  lemma {:induction false} ExpiryLeadsHome(cfg: Config, queues: Queues, ep: string, content: Content, q: string,
                                           c: Copy)
    requires Deployed(cfg) && ep in cfg.endpoints && q in cfg.wayBack
    requires WaitsAs(cfg, queues, ep, content, q, c)
    ensures ep in cfg.routes(cfg.wayBack[q])
  {
    assert DeployedAt(cfg, ep);
  }

  lemma {:induction false} ReplayLeadsHome(cfg: Config, queues: Queues, ep: string, content: Content, q: string,
                                           c: Copy)
    requires Deployed(cfg) && ep in cfg.endpoints && q !in cfg.endpoints && q !in cfg.wayBack
    requires EndpointDescriptor in c.headers && c.headers[EndpointDescriptor].Describes?
    requires WaitsAs(cfg, queues, ep, content, q, c)
    ensures var d := c.headers[EndpointDescriptor].descriptor;
            ep in cfg.routes(Target(d.exchange, d.routingKey))
  {
    assert DeployedAt(cfg, ep);
    assert c.headers[EndpointDescriptor] == Describes(DescriptorOf(cfg.endpoints[ep].topology, c.content.mtype));
  }

  /** A delivery moves a copy from a queue into a worker's hands. */
  lemma {:induction false} QueuedOrInHand(cfg: Config, queues: Queues, tasks: map<nat, Task>, t: nat, q: string,
                                          c: Copy, ep: string, content: Content)
    requires Deployed(cfg) && ep in cfg.endpoints && t !in tasks && q in cfg.endpoints
    requires Waiting(cfg, queues, ep, content) || InHand(cfg, tasks, ep, content)
    ensures Waiting(cfg, Remove(queues, q, c), ep, content) ||
            InHand(cfg, tasks[t := Task(q, c, true, Received)], ep, content)
  {
    var after := tasks[t := Task(q, c, true, Received)];
    if Waiting(cfg, queues, ep, content) {
      OthersWait(cfg, queues, Remove(queues, q, c), ep, content, q, c);
      if WaitsAs(cfg, queues, ep, content, q, c) {
        TakenAtHome(cfg, queues, ep, content, q, c, after[t]);
      }
    } else {
      var u :| u in tasks && Holds(cfg, tasks[u], ep, content);
      assert u in after && Holds(cfg, after[u], ep, content);
    }
  }

  lemma {:induction false} DeliverKeeps(cfg: Config, w: Work, t: nat, q: string, c: Copy, ep: string, content: Content)
    requires Deployed(cfg) && ep in cfg.endpoints
    requires t !in w.tasks && q in cfg.endpoints && Kept(cfg, w, ep, content)
    ensures Kept(cfg, w.(queues := Remove(w.queues, q, c), tasks := w.tasks[t := Task(q, c, true, Received)]), ep,
                 content)
  {
    if Waiting(cfg, w.queues, ep, content) || InHand(cfg, w.tasks, ep, content) {
      QueuedOrInHand(cfg, w.queues, w.tasks, t, q, c, ep, content);
    }
  }

  /** A copy moved from one queue into the queues of a target that includes home. */
  lemma {:induction false} ForwardKeeps(cfg: Config, w: Work, target: Target, q: string, c: Copy, ep: string,
                                        content: Content)
    requires ep in cfg.endpoints && Kept(cfg, w, ep, content)
    requires WaitsAs(cfg, w.queues, ep, content, q, c) ==> ep in cfg.routes(target)
    ensures Kept(cfg, w.(queues := Enqueue(Remove(w.queues, q, c), cfg.routes(target), c)), ep, content)
  {
    if Waiting(cfg, w.queues, ep, content) {
      var after := Enqueue(Remove(w.queues, q, c), cfg.routes(target), c);
      OthersWait(cfg, w.queues, after, ep, content, q, c);
      if WaitsAs(cfg, w.queues, ep, content, q, c) {
        assert Ready(after, ep) == Ready(Remove(w.queues, q, c), ep) + multiset{c};
        assert WaitsAs(cfg, after, ep, content, ep, c);
      }
    }
  }

  lemma {:induction false} WorkKeeps(cfg: Config, w: Work, a: WorkAction, ep: string, content: Content)
    requires Deployed(cfg) && ep in cfg.endpoints && content.mtype in cfg.endpoints[ep].subs
    requires Progressing(cfg, w) && CanWork(cfg, w, a) && Kept(cfg, w, ep, content)
    ensures Kept(cfg, Worked(cfg, w, a), ep, content)
  {
    match a
    case Deliver(t, q, c) => DeliverKeeps(cfg, w, t, q, c, ep, content);
    case TaskMoves(t, move) => MoveKeeps(cfg, w, t, move, ep, content);
    case Expire(q, c) =>
      if WaitsAs(cfg, w.queues, ep, content, q, c) {
        ExpiryLeadsHome(cfg, w.queues, ep, content, q, c);
      }
      ForwardKeeps(cfg, w, cfg.wayBack[q], q, c, ep, content);
    case Replay(q, c) =>
      if WaitsAs(cfg, w.queues, ep, content, q, c) {
        ReplayLeadsHome(cfg, w.queues, ep, content, q, c);
      }
      var d := c.headers[EndpointDescriptor].descriptor;
      ForwardKeeps(cfg, w, Target(d.exchange, d.routingKey), q, c, ep, content);
  }

  // ----- over runs ---------------------------------------------------------

  /** The row is addressed to this endpoint, which subscribes to its type, and it was
      scheduled as a fresh message. */
  ghost predicate Due(cfg: Config, row: Row, ep: string) {
    ep in cfg.endpoints && ep in cfg.routes(row.target) &&
    row.content.mtype in cfg.endpoints[ep].subs && ReadCount(row.headers) <= 0
  }

  ghost predicate AllKept(cfg: Config, s: State) {
    Progressing(cfg, s.work) && Relaying(s.books) &&
    forall i, ep :: 0 <= i < |s.books.outbox| && s.books.accepted[i] > 0 && Due(cfg, s.books.outbox[i], ep) ==>
      Kept(cfg, s.work, ep, s.books.outbox[i].content)
  }

  lemma {:induction false} PublishKeeps(cfg: Config, s: State, p: nat, outcome: PublishOutcome)
    requires Deployed(cfg) && AllKept(cfg, s) && CanPublish(s.books, p)
    ensures AllKept(cfg, Apply(cfg, s, PublishNext(p, outcome)))
  {
    PublishKeepsRelaying(s.books, p, outcome);
    var after := Apply(cfg, s, PublishNext(p, outcome));
    var n := NextRow(s.books, p);
    forall i, ep | 0 <= i < |s.books.outbox| && after.books.accepted[i] > 0 && Due(cfg, s.books.outbox[i], ep)
      ensures Kept(cfg, after.work, ep, s.books.outbox[i].content)
    {
      var row := s.books.outbox[i];
      if s.books.accepted[i] > 0 {
        if Waiting(cfg, s.work.queues, ep, row.content) {
          StillWaiting(cfg, s.work.queues, after.work.queues, ep, row.content);
        }
      } else {
        assert i == n && Arrives(outcome);
        assert Ready(after.work.queues, ep) == Ready(s.work.queues, ep) + multiset{CopyOf(row)};
        assert WaitsAs(cfg, after.work.queues, ep, row.content, ep, CopyOf(row));
      }
    }
  }

  lemma {:induction false} BooksKeep(cfg: Config, s: State, a: BookAction)
    requires AllKept(cfg, s) && CanBook(cfg, s.books, a)
    ensures AllKept(cfg, Apply(cfg, s, InBooks(a)))
  {
    BookKeepsRelaying(cfg, s.books, a);
    var after := Booked(cfg, s.books, a);
    forall i, ep | 0 <= i < |after.outbox| && after.accepted[i] > 0 && Due(cfg, after.outbox[i], ep)
      ensures Kept(cfg, s.work, ep, after.outbox[i].content)
    {
      assert i < |s.books.outbox| && s.books.accepted[i] > 0 && Due(cfg, s.books.outbox[i], ep);
    }
  }

  lemma {:induction false} StepKeeps(cfg: Config, s: State, a: Action)
    requires Deployed(cfg) && AllKept(cfg, s) && Enabled(cfg, s, a)
    ensures AllKept(cfg, Apply(cfg, s, a))
  {
    match a
    case InBooks(book) => BooksKeep(cfg, s, book);
    case PublishNext(p, outcome) => PublishKeeps(cfg, s, p, outcome);
    case AtWork(work) =>
      WorkProgresses(cfg, s.work, work);
      forall i, ep | 0 <= i < |s.books.outbox| && s.books.accepted[i] > 0 && Due(cfg, s.books.outbox[i], ep)
        ensures Kept(cfg, Worked(cfg, s.work, work), ep, s.books.outbox[i].content)
      {
        WorkKeeps(cfg, s.work, work, ep, s.books.outbox[i].content);
      }
  }

  lemma {:induction false} RunKeeps(cfg: Config, s: State, actions: seq<Action>)
    requires Deployed(cfg) && AllKept(cfg, s) && Possible(cfg, s, actions)
    ensures AllKept(cfg, Exec(cfg, s, actions))
    decreases actions
  {
    if actions != [] {
      StepKeeps(cfg, s, actions[0]);
      RunKeeps(cfg, Apply(cfg, s, actions[0]), actions[1..]);
    }
  }

  /** The two things that lose a message: a recovery publication that raises, and a
      dispatch cancelled midway. Both are followed by an acknowledgement. */
  predicate Drops(a: Action) {
    a.AtWork? && a.work.TaskMoves? && GivesUp(a.work.move)
  }

  lemma {:induction false} CleanRunDropsNothing(cfg: Config, s: State, actions: seq<Action>)
    requires Possible(cfg, s, actions)
    requires forall a :: a in actions ==> !Drops(a)
    ensures Exec(cfg, s, actions).work.dropped == s.work.dropped
    decreases actions
  {
    if actions != [] {
      assert actions[0] in actions && !Drops(actions[0]);
      if actions[0].AtWork? && actions[0].work.TaskMoves? {
        DroppedForGood(cfg, s.work, actions[0].work.task, actions[0].work.move);
      }
      CleanRunDropsNothing(cfg, Apply(cfg, s, actions[0]), actions[1..]);
    }
  }

  /** In every state any run without those two reaches: a committed row due at an
      endpoint is still pending, or a copy is on its way there - queued or in hand -
      or every handler subscribed there has recorded it. */
  lemma {:induction false} NothingIsLost(cfg: Config, actions: seq<Action>, i: nat, ep: string)
    requires Deployed(cfg) && Possible(cfg, INITIAL, actions)
    requires forall a :: a in actions ==> !Drops(a)
    requires i < |Exec(cfg, INITIAL, actions).books.outbox| && Due(cfg, Exec(cfg, INITIAL, actions).books.outbox[i], ep)
    ensures var s := Exec(cfg, INITIAL, actions);
            !s.books.outbox[i].sent || Survives(cfg, s.work, ep, s.books.outbox[i].content)
  {
    RunKeeps(cfg, INITIAL, actions);
    CleanRunDropsNothing(cfg, INITIAL, actions);
  }

  /** With them: the row survives, or it was dropped at that very endpoint. */
  lemma {:induction false} LostOnlyIfDropped(cfg: Config, actions: seq<Action>, i: nat, ep: string)
    requires Deployed(cfg) && Possible(cfg, INITIAL, actions)
    requires i < |Exec(cfg, INITIAL, actions).books.outbox| && Due(cfg, Exec(cfg, INITIAL, actions).books.outbox[i], ep)
    ensures var s := Exec(cfg, INITIAL, actions);
            !s.books.outbox[i].sent || Survives(cfg, s.work, ep, s.books.outbox[i].content) ||
            (ep, s.books.outbox[i].content) in s.work.dropped
  {
    RunKeeps(cfg, INITIAL, actions);
  }
}
