/** Retries stay home: over every run, a copy that has been retried is only ever on
    its way to the endpoint that retried it, so no filter ever has to reject it. */
module BusHome {
  import opened Envelope
  import opened Topology
  import opened Connection
  import opened Outbox
  import opened Recovery
  import opened Bus
  import opened BusNoLoss

  /** Each hop of the recovery path addresses exactly one queue. */
  ghost predicate PointToPoint(cfg: Config) {
    forall q :: q in cfg.endpoints ==>
      var t := cfg.endpoints[q].topology;
      cfg.routes(t.RetryTarget()) == {t.retryQueue} &&
      cfg.routes(t.ErrorTarget()) == {t.errorQueue} &&
      cfg.routes(t.ReturnTarget()) == {q}
  }

  /** This endpoint may have retried the copy, and not more often than it retries. */
  ghost predicate OwnedBy(cfg: Config, p: string, q: string, c: Copy) {
    p in cfg.endpoints && Homebound(cfg.endpoints[p], p, q, c) && ReadCount(c.headers) <= cfg.endpoints[p].MostRetries()
  }

  /** A retried copy in this queue is on its way to the endpoint that retried it. */
  ghost predicate Owned(cfg: Config, q: string, c: Copy) {
    ReadCount(c.headers) > 0 ==> exists p :: OwnedBy(cfg, p, q, c)
  }

  ghost predicate AllOwned(cfg: Config, queues: Queues) {
    forall q, c :: c in Ready(queues, q) ==> Owned(cfg, q, c)
  }

  ghost predicate OwnTask(cfg: Config, task: Task) {
    task.endpoint in cfg.endpoints && OwnCopy(cfg.endpoints[task.endpoint], task.copy)
  }

  /** A fresh message, or this endpoint's own retry within its retries. */
  predicate OwnCopy(e: Endpoint, c: Copy) {
    BelongsTo(c.headers, e.topology.appName) && ReadCount(c.headers) <= e.MostRetries()
  }

  ghost predicate AtHome(cfg: Config, w: Work) {
    AllOwned(cfg, w.queues) && forall t :: t in w.tasks ==> OwnTask(cfg, w.tasks[t])
  }

  lemma {:induction false} EnqueueOwned(cfg: Config, queues: Queues, targets: set<string>, c: Copy)
    requires AllOwned(cfg, queues) && forall q :: q in targets ==> Owned(cfg, q, c)
    ensures AllOwned(cfg, Enqueue(queues, targets, c))
  {
    var after := Enqueue(queues, targets, c);
    forall q, d | d in Ready(after, q)
      ensures Owned(cfg, q, d)
    {
      assert Ready(after, q) == Ready(queues, q) + if q in targets then multiset{c} else multiset{};
    }
  }

  lemma {:induction false} RemoveOwned(cfg: Config, queues: Queues, q: string, c: Copy)
    requires AllOwned(cfg, queues)
    ensures AllOwned(cfg, Remove(queues, q, c))
  {
    var after := Remove(queues, q, c);
    forall p, d | d in Ready(after, p)
      ensures Owned(cfg, p, d)
    {
      assert d in Ready(queues, p);
    }
  }

  lemma {:induction false} HomeIsOwned(cfg: Config, p: string, q: string, c: Copy)
    requires OwnedBy(cfg, p, q, c)
    ensures Owned(cfg, q, c)
  {
  }

  /** What a primary queue delivers is a fresh message or this endpoint's own retry. */
  lemma {:induction false} DeliveredIsOwn(cfg: Config, q: string, c: Copy)
    requires Deployed(cfg) && q in cfg.endpoints && Owned(cfg, q, c)
    ensures OwnCopy(cfg.endpoints[q], c)
  {
    if ReadCount(c.headers) > 0 {
      var p :| OwnedBy(cfg, p, q, c);
      assert DeployedAt(cfg, p);
    }
  }

  lemma {:induction false} ExpiredIsOwned(cfg: Config, q: string, c: Copy, target: string)
    requires Deployed(cfg) && PointToPoint(cfg) && q in cfg.wayBack && Owned(cfg, q, c)
    requires target in cfg.routes(cfg.wayBack[q])
    ensures Owned(cfg, target, c)
  {
    if ReadCount(c.headers) > 0 {
      var p :| OwnedBy(cfg, p, q, c);
      assert DeployedAt(cfg, p);
      assert target == p;
      HomeIsOwned(cfg, p, p, c);
    }
  }

  lemma {:induction false} ReplayedIsOwned(cfg: Config, q: string, c: Copy, target: string)
    requires Deployed(cfg) && PointToPoint(cfg) && q !in cfg.endpoints && q !in cfg.wayBack && Owned(cfg, q, c)
    requires EndpointDescriptor in c.headers && c.headers[EndpointDescriptor].Describes?
    requires var d := c.headers[EndpointDescriptor].descriptor; target in cfg.routes(Target(d.exchange, d.routingKey))
    ensures Owned(cfg, target, c)
  {
    if ReadCount(c.headers) > 0 {
      var p :| OwnedBy(cfg, p, q, c);
      assert DeployedAt(cfg, p);
      assert c.headers[EndpointDescriptor] == Describes(DescriptorOf(cfg.endpoints[p].topology, c.content.mtype));
      assert target == p;
      HomeIsOwned(cfg, p, p, c);
    }
  }

  lemma {:induction false} RecoveredIsOwned(cfg: Config, ep: string, c: Copy, failures: seq<Failure>, target: string)
    requires PointToPoint(cfg) && ep in cfg.endpoints && OwnCopy(cfg.endpoints[ep], c)
    requires target in cfg.routes(RecoveryTarget(cfg.endpoints[ep], c))
    ensures Owned(cfg, target, RecoveryCopy(cfg.endpoints[ep], c, failures))
  {
    RetryIsHomebound(cfg.endpoints[ep], ep, c);
    DeadIsHomebound(cfg.endpoints[ep], ep, c, failures);
    HomeIsOwned(cfg, ep, target, RecoveryCopy(cfg.endpoints[ep], c, failures));
  }

  lemma {:induction false} RecoveryStaysOwned(cfg: Config, queues: Queues, ep: string, c: Copy, failures: seq<Failure>)
    requires PointToPoint(cfg) && AllOwned(cfg, queues)
    requires ep in cfg.endpoints && OwnCopy(cfg.endpoints[ep], c)
    ensures var e := cfg.endpoints[ep];
            AllOwned(cfg, Enqueue(queues, cfg.routes(RecoveryTarget(e, c)), RecoveryCopy(e, c, failures)))
  {
    var e := cfg.endpoints[ep];
    forall q | q in cfg.routes(RecoveryTarget(e, c))
      ensures Owned(cfg, q, RecoveryCopy(e, c, failures))
    {
      RecoveredIsOwned(cfg, ep, c, failures, q);
    }
    EnqueueOwned(cfg, queues, cfg.routes(RecoveryTarget(e, c)), RecoveryCopy(e, c, failures));
  }

  lemma {:induction false} RequeueStaysOwned(cfg: Config, queues: Queues, ep: string, c: Copy)
    requires AllOwned(cfg, queues)
    requires ep in cfg.endpoints && OwnCopy(cfg.endpoints[ep], c)
    ensures AllOwned(cfg, Enqueue(queues, {ep}, c))
  {
    if ReadCount(c.headers) > 0 {
      HomeIsOwned(cfg, ep, ep, c);
    }
    EnqueueOwned(cfg, queues, {ep}, c);
  }

  lemma {:induction false} RecoveringStaysOwned(cfg: Config, w: Work, t: nat, move: Move)
    requires PointToPoint(cfg) && AllOwned(cfg, w.queues) && CanMove(cfg, w, t, move) && OwnTask(cfg, w.tasks[t]) &&
             move.Recover?
    ensures AllOwned(cfg, QueuesAfter(cfg, w, t, move))
  {
    if Arrives(move.outcome) {
      RecoveryStaysOwned(cfg, w.queues, w.tasks[t].endpoint, w.tasks[t].copy, move.failures);
    }
  }

  lemma {:induction false} ReturningStaysOwned(cfg: Config, w: Work, t: nat, move: Move)
    requires AllOwned(cfg, w.queues) && CanMove(cfg, w, t, move) && OwnTask(cfg, w.tasks[t]) && !move.Recover?
    ensures AllOwned(cfg, QueuesAfter(cfg, w, t, move))
  {
    if (move.Crash? || move.LoseChannel?) && w.tasks[t].attached {
      RequeueStaysOwned(cfg, w.queues, w.tasks[t].endpoint, w.tasks[t].copy);
    }
  }

  lemma {:induction false} QueuesStayOwned(cfg: Config, w: Work, t: nat, move: Move)
    requires PointToPoint(cfg) && AllOwned(cfg, w.queues) && CanMove(cfg, w, t, move) && OwnTask(cfg, w.tasks[t])
    ensures AllOwned(cfg, QueuesAfter(cfg, w, t, move))
  {
    if move.Recover? {
      RecoveringStaysOwned(cfg, w, t, move);
    } else {
      ReturningStaysOwned(cfg, w, t, move);
    }
  }

  lemma {:induction false} MoveStaysHome(cfg: Config, w: Work, t: nat, move: Move)
    requires PointToPoint(cfg) && AtHome(cfg, w) && CanMove(cfg, w, t, move)
    ensures AtHome(cfg, Moved(cfg, w, t, move))
  {
    var after := Moved(cfg, w, t, move);
    QueuesStayOwned(cfg, w, t, move);
    assert after.queues == QueuesAfter(cfg, w, t, move);
    forall u | u in after.tasks
      ensures OwnTask(cfg, after.tasks[u])
    {
      assert OwnTask(cfg, w.tasks[u]);
    }
  }

  lemma {:induction false} WorkStaysHome(cfg: Config, w: Work, a: WorkAction)
    requires Deployed(cfg) && PointToPoint(cfg) && AtHome(cfg, w) && CanWork(cfg, w, a)
    ensures AtHome(cfg, Worked(cfg, w, a))
  {
    match a
    case Deliver(t, q, c) =>
      RemoveOwned(cfg, w.queues, q, c);
      DeliveredIsOwn(cfg, q, c);
    case TaskMoves(t, move) => MoveStaysHome(cfg, w, t, move);
    case Expire(q, c) =>
      RemoveOwned(cfg, w.queues, q, c);
      forall target | target in cfg.routes(cfg.wayBack[q])
        ensures Owned(cfg, target, c)
      {
        ExpiredIsOwned(cfg, q, c, target);
      }
      EnqueueOwned(cfg, Remove(w.queues, q, c), cfg.routes(cfg.wayBack[q]), c);
    case Replay(q, c) =>
      var d := c.headers[EndpointDescriptor].descriptor;
      RemoveOwned(cfg, w.queues, q, c);
      forall target | target in cfg.routes(Target(d.exchange, d.routingKey))
        ensures Owned(cfg, target, c)
      {
        ReplayedIsOwned(cfg, q, c, target);
      }
      EnqueueOwned(cfg, Remove(w.queues, q, c), cfg.routes(Target(d.exchange, d.routingKey)), c);
  }

  ghost predicate FreshRows(b: Books) {
    forall i :: 0 <= i < |b.outbox| ==> ReadCount(b.outbox[i].headers) <= 0
  }

  lemma {:induction false} BooksStayFresh(cfg: Config, b: Books, a: BookAction)
    requires FreshRows(b) && CanBook(cfg, b, a)
    ensures FreshRows(Booked(cfg, b, a))
  {
  }

  lemma {:induction false} StepStaysHome(cfg: Config, s: State, a: Action)
    requires Deployed(cfg) && PointToPoint(cfg) && AtHome(cfg, s.work) && FreshRows(s.books) && Enabled(cfg, s, a)
    ensures AtHome(cfg, Apply(cfg, s, a).work) && FreshRows(Apply(cfg, s, a).books)
  {
    match a
    case InBooks(book) => BooksStayFresh(cfg, s.books, book);
    case PublishNext(p, outcome) =>
      var row := s.books.outbox[NextRow(s.books, p)];
      EnqueueOwned(cfg, s.work.queues, cfg.routes(row.target), CopyOf(row));
    case AtWork(work) => WorkStaysHome(cfg, s.work, work);
  }

  lemma {:induction false} RunStaysHome(cfg: Config, s: State, actions: seq<Action>)
    requires Deployed(cfg) && PointToPoint(cfg) && AtHome(cfg, s.work) && FreshRows(s.books) &&
             Possible(cfg, s, actions)
    ensures AtHome(cfg, Exec(cfg, s, actions).work)
    decreases actions
  {
    if actions != [] {
      StepStaysHome(cfg, s, actions[0]);
      RunStaysHome(cfg, Apply(cfg, s, actions[0]), actions[1..]);
    }
  }

  /** A worker takes on exactly what it subscribes to. */
  ghost predicate AcceptsItsTypes(cfg: Config, task: Task) {
    task.endpoint in cfg.endpoints &&
    (Accepts(cfg.endpoints[task.endpoint], task.copy) <==> task.copy.content.mtype in cfg.endpoints[task.endpoint].subs)
  }

  /** In every reachable state: whatever sits in a primary queue is a fresh message or
      that endpoint's own retry, and a worker accepts exactly the types it subscribes
      to - its second line of defence never fires. */
  lemma {:induction false} RetriesStayHome(cfg: Config, actions: seq<Action>)
    requires Deployed(cfg) && PointToPoint(cfg) && Possible(cfg, INITIAL, actions)
    ensures var w := Exec(cfg, INITIAL, actions).work;
            (forall q, c :: q in cfg.endpoints && c in Ready(w.queues, q) ==> OwnCopy(cfg.endpoints[q], c)) &&
            (forall t :: t in w.tasks ==> AcceptsItsTypes(cfg, w.tasks[t]))
  {
    RunStaysHome(cfg, INITIAL, actions);
    var w := Exec(cfg, INITIAL, actions).work;
    forall q, c | q in cfg.endpoints && c in Ready(w.queues, q)
      ensures OwnCopy(cfg.endpoints[q], c)
    {
      DeliveredIsOwn(cfg, q, c);
    }
    forall t | t in w.tasks
      ensures AcceptsItsTypes(cfg, w.tasks[t])
    {
      assert OwnTask(cfg, w.tasks[t]);
    }
  }

  /** In every reachable state: no delivery carries more retries than its endpoint makes,
      and one that is about to be parked has used up every one of them. */
  lemma {:induction false} ParkedAfterEveryRetry(cfg: Config, actions: seq<Action>, t: nat)
    requires Deployed(cfg) && PointToPoint(cfg) && Possible(cfg, INITIAL, actions)
    requires t in Exec(cfg, INITIAL, actions).work.tasks
    ensures var task := Exec(cfg, INITIAL, actions).work.tasks[t];
            task.endpoint in cfg.endpoints &&
            var e, count := cfg.endpoints[task.endpoint], ReadCount(task.copy.headers);
            count <= e.MostRetries() &&
            (Exhausted(e, task.copy) && count >= 0 ==> count == e.MostRetries())
  {
    RunStaysHome(cfg, INITIAL, actions);
    assert OwnTask(cfg, Exec(cfg, INITIAL, actions).work.tasks[t]);
  }
}
