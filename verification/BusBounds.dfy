/** Recovery is bounded: over every run, handler bodies and recoveries of a message are
    paid for by its publications - and, where a worker dies, loses its channel or an
    operator replays, by the copies that puts back. */
module BusBounds {
  import opened Envelope
  import opened Topology
  import opened Connection
  import opened Store
  import opened Outbox
  import opened Recovery
  import opened Bus
  import opened BusNoLoss
  import opened BusHome
  import opened ShipmentRules
  import opened EndToEnd
  import opened Refinement

  /** What is counted: runs of one subscriber's handler body, or recoveries. */
  datatype Meter = Bodies(subscriber: nat) | Recoveries

  /** The most one delivery can spend: a body per attempt, or one recovery. */
  function PerDelivery(e: Endpoint, meter: Meter): nat {
    if meter.Bodies? then e.Last() + 1 else 1
  }

  /** The most a copy can spend: now, and once more for each delayed retry it has left. */
  function CopyFuel(e: Endpoint, meter: Meter, content: Content, c: Copy): nat {
    if c.content == content then PerDelivery(e, meter) * (e.Left(ReadCount(c.headers)) + 1) else 0
  }

  /** What the current delivery can still spend. */
  function StageFuel(e: Endpoint, meter: Meter, stage: Stage): nat {
    match stage
    case Received => PerDelivery(e, meter)
    case Dispatching(i, attempt, _, tx) =>
      if meter.Recoveries? || i < meter.subscriber then PerDelivery(e, meter)
      else if i > meter.subscriber then 0
      else (if attempt < e.Last() then e.Last() - attempt else 0) + (if tx == NoTx || tx == Checked then 1 else 0)
    case Recovering(_) => if meter.Recoveries? then 1 else 0
    case Settled => 0
  }

  /** What the delivery and the retries after it can still spend. */
  function TaskFuel(e: Endpoint, meter: Meter, content: Content, task: Task): nat {
    if task.copy.content != content || task.stage == Settled then 0
    else StageFuel(e, meter, task.stage) + PerDelivery(e, meter) * e.Left(ReadCount(task.copy.headers))
  }

  // ----- sums --------------------------------------------------------------

  ghost function QueueFuel(e: Endpoint, meter: Meter, content: Content, copies: multiset<Copy>): nat
    decreases |copies|
  {
    if copies == multiset{} then 0
    else
      var c :| c in copies;
      CopyFuel(e, meter, content, c) + QueueFuel(e, meter, content, copies - multiset{c})
  }

  lemma {:induction false} TakeFromQueue(e: Endpoint, meter: Meter, content: Content, copies: multiset<Copy>, c: Copy)
    requires c in copies
    ensures QueueFuel(e, meter, content, copies)
             == CopyFuel(e, meter, content, c) + QueueFuel(e, meter, content, copies - multiset{c})
    decreases |copies|
  {
    var d :| d in copies &&
             QueueFuel(e, meter, content, copies)
              == CopyFuel(e, meter, content, d) + QueueFuel(e, meter, content, copies - multiset{d});
    if c != d {
      var withoutC, withoutD := copies - multiset{c}, copies - multiset{d};
      assert withoutD - multiset{c} == withoutC - multiset{d};
      TakeFromQueue(e, meter, content, withoutD, c);
      TakeFromQueue(e, meter, content, withoutC, d);
    }
  }

  lemma {:induction false} PutIntoQueue(e: Endpoint, meter: Meter, content: Content, copies: multiset<Copy>, c: Copy)
    ensures QueueFuel(e, meter, content, copies + multiset{c})
             == QueueFuel(e, meter, content, copies) + CopyFuel(e, meter, content, c)
  {
    TakeFromQueue(e, meter, content, copies + multiset{c}, c);
    assert copies + multiset{c} - multiset{c} == copies;
  }

  /** What one delivery weighs at this endpoint. */
  function Share(e: Endpoint, ep: string, meter: Meter, content: Content, task: Task): nat {
    if task.endpoint == ep then TaskFuel(e, meter, content, task) else 0
  }

  ghost function HandsFuel(e: Endpoint, ep: string, meter: Meter, content: Content, tasks: map<nat, Task>): nat
    decreases |tasks|
  {
    if tasks == map[] then 0
    else
      var t :| t in tasks;
      WithoutIsSmaller(tasks, t);
      Share(e, ep, meter, content, tasks[t]) + HandsFuel(e, ep, meter, content, Without(tasks, t))
  }

  lemma {:induction false} WithoutIsSmaller(tasks: map<nat, Task>, t: nat)
    requires t in tasks
    ensures |Without(tasks, t)| < |tasks|
  {
    assert Without(tasks, t).Keys == tasks.Keys - {t};
    assert |tasks.Keys - {t}| < |tasks.Keys|;
    assert |Without(tasks, t)| == |Without(tasks, t).Keys| && |tasks| == |tasks.Keys|;
  }

  lemma {:induction false} WithoutCommutes(tasks: map<nat, Task>, t: nat, u: nat)
    ensures Without(Without(tasks, t), u) == Without(Without(tasks, u), t)
  {
  }

  lemma {:induction false} TakeFromHands(e: Endpoint, ep: string, meter: Meter, content: Content, tasks: map<nat, Task>,
                                         t: nat)
    requires t in tasks
    ensures HandsFuel(e, ep, meter, content, tasks)
         == Share(e, ep, meter, content, tasks[t]) + HandsFuel(e, ep, meter, content, Without(tasks, t))
    decreases |tasks|
  {
    var u :| u in tasks &&
             HandsFuel(e, ep, meter, content, tasks)
               == Share(e, ep, meter, content, tasks[u]) + HandsFuel(e, ep, meter, content, Without(tasks, u));
    if t != u {
      WithoutIsSmaller(tasks, t);
      WithoutIsSmaller(tasks, u);
      TakeFromHands(e, ep, meter, content, Without(tasks, u), t);
      TakeFromHands(e, ep, meter, content, Without(tasks, t), u);
      WithoutCommutes(tasks, t, u);
    }
  }

  lemma {:induction false} PutIntoHands(e: Endpoint, ep: string, meter: Meter, content: Content, tasks: map<nat, Task>,
                                        t: nat, task: Task)
    ensures HandsFuel(e, ep, meter, content, tasks[t := task])
         == Share(e, ep, meter, content, task) + HandsFuel(e, ep, meter, content, Without(tasks, t))
  {
    TakeFromHands(e, ep, meter, content, tasks[t := task], t);
    assert Without(tasks[t := task], t) == Without(tasks, t);
  }

  // ----- the fuel of a state -----------------------------------------------

  /** What the bus can still spend on this message at this endpoint. */
  ghost function Fuel(cfg: Config, meter: Meter, ep: string, content: Content, w: Work): nat
    requires ep in cfg.endpoints
  {
    var e := cfg.endpoints[ep];
    QueuedFuel(e, ep, meter, content, w.queues) + HandsFuel(e, ep, meter, content, w.tasks)
  }

  ghost function QueuedFuel(e: Endpoint, ep: string, meter: Meter, content: Content, queues: Queues): nat {
    QueueFuel(e, meter, content, Ready(queues, ep)) + QueueFuel(e, meter, content, Ready(queues, e.topology.retryQueue))
  }

  /** The fuel a copy brings into one of the two queues that lead to the endpoint. */
  function Into(e: Endpoint, meter: Meter, content: Content, targets: set<string>, c: Copy, q: string): nat {
    if q in targets then CopyFuel(e, meter, content, c) else 0
  }

  /** The fuel a copy brings when it is put into these queues. */
  function Arriving(e: Endpoint, ep: string, meter: Meter, content: Content, targets: set<string>, c: Copy): nat {
    Into(e, meter, content, targets, c, ep) + Into(e, meter, content, targets, c, e.topology.retryQueue)
  }

  lemma {:induction false} EnqueueFuelsOne(e: Endpoint, meter: Meter, content: Content, queues: Queues,
                                           targets: set<string>, c: Copy, q: string)
    ensures QueueFuel(e, meter, content, Ready(Enqueue(queues, targets, c), q))
         == QueueFuel(e, meter, content, Ready(queues, q)) + Into(e, meter, content, targets, c, q)
  {
    var after := Enqueue(queues, targets, c);
    if q in targets {
      assert Ready(after, q) == Ready(queues, q) + multiset{c};
      PutIntoQueue(e, meter, content, Ready(queues, q), c);
    } else {
      assert Ready(after, q) == Ready(queues, q);
    }
  }

  lemma {:induction false} EnqueueFuels(e: Endpoint, ep: string, meter: Meter, content: Content, queues: Queues,
                                        targets: set<string>, c: Copy)
    ensures QueuedFuel(e, ep, meter, content, Enqueue(queues, targets, c))
         == QueuedFuel(e, ep, meter, content, queues) + Arriving(e, ep, meter, content, targets, c)
  {
    EnqueueFuelsOne(e, meter, content, queues, targets, c, ep);
    EnqueueFuelsOne(e, meter, content, queues, targets, c, e.topology.retryQueue);
  }

  lemma {:induction false} RemoveFuelsOne(e: Endpoint, meter: Meter, content: Content, queues: Queues, q: string,
                                          c: Copy, p: string)
    requires c in Ready(queues, q)
    ensures QueueFuel(e, meter, content, Ready(queues, p))
         == QueueFuel(e, meter, content, Ready(Remove(queues, q, c), p)) + Into(e, meter, content, {q}, c, p)
  {
    var after := Remove(queues, q, c);
    if p == q {
      assert Ready(after, p) == Ready(queues, p) - multiset{c};
      TakeFromQueue(e, meter, content, Ready(queues, p), c);
    } else {
      assert Ready(after, p) == Ready(queues, p);
    }
  }

  lemma {:induction false} RemoveFuels(e: Endpoint, ep: string, meter: Meter, content: Content, queues: Queues,
                                       q: string, c: Copy)
    requires c in Ready(queues, q)
    ensures QueuedFuel(e, ep, meter, content, queues)
         == QueuedFuel(e, ep, meter, content, Remove(queues, q, c)) + Arriving(e, ep, meter, content, {q}, c)
  {
    RemoveFuelsOne(e, meter, content, queues, q, c, ep);
    RemoveFuelsOne(e, meter, content, queues, q, c, e.topology.retryQueue);
  }

  // ----- what a step spends and what it puts back --------------------------

  /** The delivery works on this message at this endpoint. */
  predicate Concerns(task: Task, ep: string, content: Content) {
    task.endpoint == ep && task.copy.content == content
  }

  /** One unit for each counted move: every run of the handler body, whether it returned,
      raised, was cancelled or died with its worker, or every recovery. */
  function Spends(meter: Meter, ep: string, content: Content, w: Work, a: WorkAction): nat {
    if a.TaskMoves? && a.task in w.tasks && Concerns(w.tasks[a.task], ep, content) &&
       match meter
       case Bodies(j) => RunsBody(w.tasks[a.task].stage, a.move, j)
       case Recoveries => a.move.Recover?
    then 1 else 0
  }

  /** What is put back besides: the copy of a worker that dies or loses its channel, and
      the copies a replay leads here. */
  function PutsBack(cfg: Config, meter: Meter, ep: string, content: Content, w: Work, a: WorkAction): nat
    requires ep in cfg.endpoints
  {
    var e := cfg.endpoints[ep];
    match a
    case TaskMoves(t, move) =>
      if (move.Crash? || move.LoseChannel?) && t in w.tasks && w.tasks[t].endpoint == ep && w.tasks[t].attached
      then CopyFuel(e, meter, content, w.tasks[t].copy) else 0
    case Replay(_, c) =>
      if EndpointDescriptor in c.headers && c.headers[EndpointDescriptor].Describes?
      then
        var d := c.headers[EndpointDescriptor].descriptor;
        Arriving(e, ep, meter, content, cfg.routes(Target(d.exchange, d.routingKey)), c)
      else 0
    case _ => 0
  }

  /** Only retry queues expire anything, as the workers declare them. */
  ghost predicate OnlyRetriesExpire(cfg: Config) {
    forall q :: q in cfg.wayBack ==> exists p :: p in cfg.endpoints && cfg.endpoints[p].topology.retryQueue == q
  }

  /** The routing the bounds rest on. */
  ghost predicate ClosedRouting(cfg: Config) {
    Deployed(cfg) && PointToPoint(cfg) && OnlyRetriesExpire(cfg)
  }

  lemma {:induction false} FreshDeliveryFuel(e: Endpoint, meter: Meter, content: Content, c: Copy, ep: string)
    ensures TaskFuel(e, meter, content, Task(ep, c, true, Received)) == CopyFuel(e, meter, content, c)
  {
    assert PerDelivery(e, meter) * (e.Left(ReadCount(c.headers)) + 1)
        == PerDelivery(e, meter) * e.Left(ReadCount(c.headers)) + PerDelivery(e, meter);
  }

  /** Taking a copy out of a queue takes out just what the delivery then carries. */
  lemma {:induction false} DeliveryCarriesItsFuel(e: Endpoint, meter: Meter, ep: string, content: Content, q: string,
                                                  c: Copy)
    requires e.topology.retryQueue != q
    ensures Arriving(e, ep, meter, content, {q}, c) == Share(e, ep, meter, content, Task(q, c, true, Received))
  {
    FreshDeliveryFuel(e, meter, content, c, q);
  }

  lemma {:induction false} DeliverSpendsNothing(e: Endpoint, meter: Meter, ep: string, content: Content, queues: Queues,
                                                tasks: map<nat, Task>, t: nat, q: string, c: Copy)
    requires e.topology.retryQueue != q && t !in tasks && c in Ready(queues, q)
    ensures QueuedFuel(e, ep, meter, content, Remove(queues, q, c)) +
              HandsFuel(e, ep, meter, content, tasks[t := Task(q, c, true, Received)])
         == QueuedFuel(e, ep, meter, content, queues) + HandsFuel(e, ep, meter, content, tasks)
  {
    RemoveFuels(e, ep, meter, content, queues, q, c);
    PutIntoHands(e, ep, meter, content, tasks, t, Task(q, c, true, Received));
    assert Without(tasks, t) == tasks;
    DeliveryCarriesItsFuel(e, meter, ep, content, q, c);
  }

  /** An expiring copy goes from its endpoint's retry queue into that endpoint's own. */
  lemma {:induction false} ExpiresHome(cfg: Config, ep: string, q: string) returns (p: string)
    requires ClosedRouting(cfg) && ep in cfg.endpoints && q in cfg.wayBack
    ensures cfg.routes(cfg.wayBack[q]) == {p} && q != ep && p != cfg.endpoints[ep].topology.retryQueue
    ensures q == cfg.endpoints[ep].topology.retryQueue <==> p == ep
  {
    p :| p in cfg.endpoints && cfg.endpoints[p].topology.retryQueue == q;
    assert DeployedAt(cfg, ep) && DeployedAt(cfg, p);
    assert cfg.routes(cfg.endpoints[ep].topology.ReturnTarget()) == {ep};
  }

  lemma {:induction false} ForwardFuels(e: Endpoint, ep: string, meter: Meter, content: Content, queues: Queues,
                                        q: string, c: Copy, targets: set<string>)
    requires c in Ready(queues, q)
    ensures QueuedFuel(e, ep, meter, content, Enqueue(Remove(queues, q, c), targets, c)) +
            Arriving(e, ep, meter, content, {q}, c)
         == QueuedFuel(e, ep, meter, content, queues) + Arriving(e, ep, meter, content, targets, c)
  {
    RemoveFuels(e, ep, meter, content, queues, q, c);
    EnqueueFuels(e, ep, meter, content, Remove(queues, q, c), targets, c);
  }

  lemma {:induction false} HomeIsAsGood(e: Endpoint, ep: string, meter: Meter, content: Content, q: string, p: string,
                                        c: Copy)
    requires q != ep && p != e.topology.retryQueue && (q == e.topology.retryQueue <==> p == ep)
    ensures Arriving(e, ep, meter, content, {q}, c) == Arriving(e, ep, meter, content, {p}, c)
  {
  }

  lemma {:induction false} ExpirySpendsNothing(e: Endpoint, meter: Meter, ep: string, content: Content, queues: Queues,
                                               q: string, c: Copy, p: string)
    requires c in Ready(queues, q) && q != ep && p != e.topology.retryQueue && (q == e.topology.retryQueue <==> p == ep)
    ensures QueuedFuel(e, ep, meter, content, Enqueue(Remove(queues, q, c), {p}, c))
             == QueuedFuel(e, ep, meter, content, queues)
  {
    ForwardFuels(e, ep, meter, content, queues, q, c, {p});
    HomeIsAsGood(e, ep, meter, content, q, p, c);
  }

  lemma {:induction false} ReplayPutsBack(cfg: Config, meter: Meter, ep: string, content: Content, w: Work, q: string,
                                          c: Copy)
    requires ClosedRouting(cfg) && ep in cfg.endpoints && CanWork(cfg, w, Replay(q, c))
    ensures Fuel(cfg, meter, ep, content, Worked(cfg, w, Replay(q, c)))
         == Fuel(cfg, meter, ep, content, w) + PutsBack(cfg, meter, ep, content, w, Replay(q, c))
  {
    var e, d := cfg.endpoints[ep], c.headers[EndpointDescriptor].descriptor;
    assert DeployedAt(cfg, ep);
    ForwardFuels(e, ep, meter, content, w.queues, q, c, cfg.routes(Target(d.exchange, d.routingKey)));
    assert Arriving(e, ep, meter, content, {q}, c) == 0;
  }

  // ----- moves of one delivery ---------------------------------------------

  /** Within a delivery, each counted move uses up one unit, and no move adds any. */
  lemma {:induction false} StageSpends(cfg: Config, meter: Meter, w: Work, t: nat, move: Move)
    requires CanMove(cfg, w, t, move) && !move.Recover? && !move.Ack? && !move.Crash?
    ensures var e, task := cfg.endpoints[w.tasks[t].endpoint], w.tasks[t];
            TaskFuel(e, meter, task.copy.content,
                     task.(stage := StageAfter(cfg, w, t, move), attached := task.attached && !move.LoseChannel?))
              + Spends(meter, task.endpoint, task.copy.content, w, TaskMoves(t, move))
              <= TaskFuel(e, meter, task.copy.content, task)
  {
  }

  /** One retry fewer is left to the copy a recovery republishes. */
  lemma {:induction false} RetrySpends(e: Endpoint, meter: Meter, content: Content, c: Copy)
    requires !Exhausted(e, c)
    ensures CopyFuel(e, meter, content, RetryCopy(e.topology, c))
         == if c.content == content then PerDelivery(e, meter) * e.Left(ReadCount(c.headers)) else 0
  {
    assert e.Left(ReadCount(RetryCopy(e.topology, c).headers)) + 1 == e.Left(ReadCount(c.headers));
  }

  /** A recovery at this endpoint leaves in its retry queue at most what is left. */
  lemma {:induction false} OwnRecoverySpends(cfg: Config, meter: Meter, ep: string, content: Content, c: Copy,
                                             failures: seq<Failure>)
    requires ClosedRouting(cfg) && ep in cfg.endpoints
    ensures var e := cfg.endpoints[ep];
            Arriving(e, ep, meter, content, cfg.routes(RecoveryTarget(e, c)), RecoveryCopy(e, c, failures))
              <= if c.content == content then PerDelivery(e, meter) * e.Left(ReadCount(c.headers)) else 0
  {
    var e := cfg.endpoints[ep];
    assert DeployedAt(cfg, ep);
    if !Exhausted(e, c) {
      RetrySpends(e, meter, content, c);
      assert cfg.routes(RecoveryTarget(e, c)) == {e.topology.retryQueue};
    } else {
      assert cfg.routes(RecoveryTarget(e, c)) == {e.topology.errorQueue};
    }
  }

  /** No two endpoints share a retry queue: it would have to send to both. */
  lemma {:induction false} RetryQueuesApart(cfg: Config, ep: string, p: string)
    requires ClosedRouting(cfg) && ep in cfg.endpoints && p in cfg.endpoints && p != ep
    ensures cfg.endpoints[p].topology.retryQueue != cfg.endpoints[ep].topology.retryQueue
  {
    assert DeployedAt(cfg, ep) && DeployedAt(cfg, p);
    assert cfg.routes(cfg.endpoints[p].topology.ReturnTarget()) == {p};
    assert p !in cfg.routes(cfg.endpoints[ep].topology.ReturnTarget());
  }

  /** A recovery at another endpoint brings nothing here. */
  lemma {:induction false} OtherRecoveryBringsNothing(cfg: Config, meter: Meter, ep: string, content: Content,
                                                      p: string, c: Copy, failures: seq<Failure>)
    requires ClosedRouting(cfg) && ep in cfg.endpoints && p in cfg.endpoints && p != ep
    ensures Arriving(cfg.endpoints[ep], ep, meter, content, cfg.routes(RecoveryTarget(cfg.endpoints[p], c)),
                     RecoveryCopy(cfg.endpoints[p], c, failures)) == 0
  {
    var e, f := cfg.endpoints[ep], cfg.endpoints[p];
    assert DeployedAt(cfg, ep) && DeployedAt(cfg, p);
    RetryQueuesApart(cfg, ep, p);
    var q := if Exhausted(f, c) then f.topology.errorQueue else f.topology.retryQueue;
    assert cfg.routes(RecoveryTarget(f, c)) == {q};
  }

  /** What a recovered delivery has left over for its retries. */
  function LeftOver(e: Endpoint, meter: Meter, ep: string, content: Content, task: Task, move: Move): nat {
    if move.Recover? && Concerns(task, ep, content) then PerDelivery(e, meter) * e.Left(ReadCount(task.copy.headers))
    else 0
  }

  lemma {:induction false} RecoveryFuels(cfg: Config, meter: Meter, ep: string, content: Content, queues: Queues,
                                         task: Task, move: Move)
    requires ClosedRouting(cfg) && ep in cfg.endpoints && task.endpoint in cfg.endpoints && move.Recover?
    ensures var e, f := cfg.endpoints[ep], cfg.endpoints[task.endpoint];
            Arriving(e, ep, meter, content, cfg.routes(RecoveryTarget(f, task.copy)),
                     RecoveryCopy(f, task.copy, move.failures))
              <= LeftOver(e, meter, ep, content, task, move)
  {
    if task.endpoint == ep {
      OwnRecoverySpends(cfg, meter, ep, content, task.copy, move.failures);
    } else {
      OtherRecoveryBringsNothing(cfg, meter, ep, content, task.endpoint, task.copy, move.failures);
    }
  }

  lemma {:induction false} ReturningFuels(e: Endpoint, meter: Meter, ep: string, content: Content, queues: Queues,
                                          q: string, c: Copy)
    requires e.topology.retryQueue != q
    ensures QueuedFuel(e, ep, meter, content, Enqueue(queues, {q}, c))
         == QueuedFuel(e, ep, meter, content, queues) + if q == ep then CopyFuel(e, meter, content, c) else 0
  {
    EnqueueFuels(e, ep, meter, content, queues, {q}, c);
  }

  /** What a recovery puts into the queues. */
  lemma {:induction false} RecoveringFuelsQueues(cfg: Config, meter: Meter, ep: string, content: Content, w: Work,
                                                 t: nat, move: Move)
    requires ep in cfg.endpoints && t in w.tasks && w.tasks[t].endpoint in cfg.endpoints
    requires move.Recover? && Arrives(move.outcome)
    ensures var e, f, c := cfg.endpoints[ep], cfg.endpoints[w.tasks[t].endpoint], w.tasks[t].copy;
            QueuedFuel(e, ep, meter, content, QueuesAfter(cfg, w, t, move)) ==
              QueuedFuel(e, ep, meter, content, w.queues) +
              Arriving(e, ep, meter, content, cfg.routes(RecoveryTarget(f, c)), RecoveryCopy(f, c, move.failures))
  {
    var e, f, c := cfg.endpoints[ep], cfg.endpoints[w.tasks[t].endpoint], w.tasks[t].copy;
    EnqueueFuels(e, ep, meter, content, w.queues, cfg.routes(RecoveryTarget(f, c)), RecoveryCopy(f, c, move.failures));
  }

  /** What a crash or a lost channel puts back into the queues. */
  lemma {:induction false} LosingFuelsQueues(cfg: Config, meter: Meter, ep: string, content: Content, w: Work,
                                             t: nat, move: Move)
    requires ep in cfg.endpoints && cfg.endpoints[ep].topology.retryQueue !in cfg.endpoints
    requires t in w.tasks && w.tasks[t].endpoint in cfg.endpoints && !move.Recover?
    ensures QueuedFuel(cfg.endpoints[ep], ep, meter, content, QueuesAfter(cfg, w, t, move)) ==
              QueuedFuel(cfg.endpoints[ep], ep, meter, content, w.queues) +
              PutsBack(cfg, meter, ep, content, w, TaskMoves(t, move))
  {
    if (move.Crash? || move.LoseChannel?) && w.tasks[t].attached {
      ReturningFuels(cfg.endpoints[ep], meter, ep, content, w.queues, w.tasks[t].endpoint, w.tasks[t].copy);
    }
  }

  /** The queues after a move: what recovery, a crash or a lost channel puts there. */
  lemma {:induction false} MoveFuelsQueues(cfg: Config, meter: Meter, ep: string, content: Content, w: Work, t: nat,
                                           move: Move)
    requires ep in cfg.endpoints && cfg.endpoints[ep].topology.retryQueue !in cfg.endpoints && CanMove(cfg, w, t, move)
    requires move.Recover? ==>
               Arriving(cfg.endpoints[ep], ep, meter, content,
                        cfg.routes(RecoveryTarget(cfg.endpoints[w.tasks[t].endpoint], w.tasks[t].copy)),
                        RecoveryCopy(cfg.endpoints[w.tasks[t].endpoint], w.tasks[t].copy, move.failures))
                 <= LeftOver(cfg.endpoints[ep], meter, ep, content, w.tasks[t], move)
    ensures QueuedFuel(cfg.endpoints[ep], ep, meter, content, QueuesAfter(cfg, w, t, move)) <=
              QueuedFuel(cfg.endpoints[ep], ep, meter, content, w.queues) +
              PutsBack(cfg, meter, ep, content, w, TaskMoves(t, move)) +
              LeftOver(cfg.endpoints[ep], meter, ep, content, w.tasks[t], move)
  {
    if move.Recover? && Arrives(move.outcome) {
      RecoveringFuelsQueues(cfg, meter, ep, content, w, t, move);
    } else if move.Recover? {
      assert QueuesAfter(cfg, w, t, move) == w.queues;
    } else {
      LosingFuelsQueues(cfg, meter, ep, content, w, t, move);
    }
  }

  /** The hands after a move: the delivery that made it, one unit shorter if it counts. */
  lemma {:induction false} MoveFuelsHands(cfg: Config, meter: Meter, ep: string, content: Content, w: Work, t: nat,
                                          move: Move)
    requires ep in cfg.endpoints && CanMove(cfg, w, t, move)
    ensures HandsFuel(cfg.endpoints[ep], ep, meter, content, Moved(cfg, w, t, move).tasks) +
              Spends(meter, ep, content, w, TaskMoves(t, move)) +
              LeftOver(cfg.endpoints[ep], meter, ep, content, w.tasks[t], move)
              <= HandsFuel(cfg.endpoints[ep], ep, meter, content, w.tasks)
  {
    var e, task := cfg.endpoints[ep], w.tasks[t];
    TakeFromHands(e, ep, meter, content, w.tasks, t);
    if !move.Ack? && !move.Crash? {
      PutIntoHands(e, ep, meter, content, w.tasks, t, Moved(cfg, w, t, move).tasks[t]);
      if !move.Recover? && Concerns(task, ep, content) {
        StageSpends(cfg, meter, w, t, move);
      }
    }
  }

  lemma {:induction false} MoveIsPaidFor(cfg: Config, meter: Meter, ep: string, content: Content, w: Work, t: nat,
                                         move: Move)
    requires ClosedRouting(cfg) && ep in cfg.endpoints && CanMove(cfg, w, t, move)
    ensures Fuel(cfg, meter, ep, content, Moved(cfg, w, t, move)) + Spends(meter, ep, content, w, TaskMoves(t, move))
         <= Fuel(cfg, meter, ep, content, w) + PutsBack(cfg, meter, ep, content, w, TaskMoves(t, move))
  {
    assert DeployedAt(cfg, ep);
    if move.Recover? {
      RecoveryFuels(cfg, meter, ep, content, w.queues, w.tasks[t], move);
    }
    MoveFuelsQueues(cfg, meter, ep, content, w, t, move);
    MoveFuelsHands(cfg, meter, ep, content, w, t, move);
  }

  lemma {:induction false} WorkIsPaidFor(cfg: Config, meter: Meter, ep: string, content: Content, w: Work,
                                         a: WorkAction)
    requires ClosedRouting(cfg) && ep in cfg.endpoints && CanWork(cfg, w, a)
    ensures Fuel(cfg, meter, ep, content, Worked(cfg, w, a)) + Spends(meter, ep, content, w, a)
         <= Fuel(cfg, meter, ep, content, w) + PutsBack(cfg, meter, ep, content, w, a)
  {
    match a
    case Deliver(t, q, c) =>
      assert DeployedAt(cfg, ep);
      DeliverSpendsNothing(cfg.endpoints[ep], meter, ep, content, w.queues, w.tasks, t, q, c);
    case TaskMoves(t, move) => MoveIsPaidFor(cfg, meter, ep, content, w, t, move);
    case Expire(q, c) =>
      var p := ExpiresHome(cfg, ep, q);
      ExpirySpendsNothing(cfg.endpoints[ep], meter, ep, content, w.queues, q, c, p);
    case Replay(q, c) => ReplayPutsBack(cfg, meter, ep, content, w, q, c);
  }

  // ----- what publications pay for -----------------------------------------

  /** What one accepted publication of the row brings to this endpoint. */
  function Pays(cfg: Config, meter: Meter, ep: string, content: Content, row: Row): nat
    requires ep in cfg.endpoints
  {
    Arriving(cfg.endpoints[ep], ep, meter, content, cfg.routes(row.target), CopyOf(row))
  }

  /** What all publications the broker accepted brought to this endpoint. */
  function Budget(cfg: Config, meter: Meter, ep: string, content: Content, rows: seq<Row>, accepted: seq<nat>): nat
    requires ep in cfg.endpoints && |accepted| == |rows|
  {
    if rows == [] then 0
    else
      var last := |rows| - 1;
      Budget(cfg, meter, ep, content, rows[..last], accepted[..last]) +
      accepted[last] * Pays(cfg, meter, ep, content, rows[last])
  }

  lemma {:induction false} OneMoreAccepted(cfg: Config, meter: Meter, ep: string, content: Content, rows: seq<Row>,
                                           accepted: seq<nat>, i: nat)
    requires ep in cfg.endpoints && |accepted| == |rows| && i < |rows|
    ensures Budget(cfg, meter, ep, content, rows, Bump(accepted, i))
         == Budget(cfg, meter, ep, content, rows, accepted) + Pays(cfg, meter, ep, content, rows[i])
  {
    var last := |rows| - 1;
    if i == last {
      assert Bump(accepted, i)[..last] == accepted[..last];
      OneTimeMore(accepted[last], Pays(cfg, meter, ep, content, rows[last]));
    } else {
      assert Bump(accepted, i)[..last] == Bump(accepted[..last], i);
      OneMoreAccepted(cfg, meter, ep, content, rows[..last], accepted[..last], i);
    }
  }

  lemma {:induction false} OneTimeMore(times: nat, unit: nat)
    ensures (times + 1) * unit == times * unit + unit
  {
  }

  /** Marking rows sent pays for nothing. */
  lemma {:induction false} SameRowsPaySame(cfg: Config, meter: Meter, ep: string, content: Content, rows: seq<Row>,
                                           later: seq<Row>, accepted: seq<nat>)
    requires ep in cfg.endpoints && |accepted| == |rows| == |later|
    requires forall i :: 0 <= i < |rows| ==> later[i].(sent := true) == rows[i].(sent := true)
    ensures Budget(cfg, meter, ep, content, later, accepted) == Budget(cfg, meter, ep, content, rows, accepted)
  {
    if rows != [] {
      var last := |rows| - 1;
      SameRowsPaySame(cfg, meter, ep, content, rows[..last], later[..last], accepted[..last]);
      assert later[last].(sent := true) == rows[last].(sent := true);
      assert CopyOf(later[last]) == CopyOf(rows[last]) && later[last].target == rows[last].target;
    }
  }

  /** Appending an unpublished row pays for nothing yet. */
  lemma {:induction false} NewRowPaysNothing(cfg: Config, meter: Meter, ep: string, content: Content, rows: seq<Row>,
                                             accepted: seq<nat>, row: Row)
    requires ep in cfg.endpoints && |accepted| == |rows|
    ensures Budget(cfg, meter, ep, content, rows + [row], accepted + [0])
             == Budget(cfg, meter, ep, content, rows, accepted)
  {
    assert (rows + [row])[..|rows|] == rows && (accepted + [0])[..|rows|] == accepted;
  }

  /** One count of accepted publications for each row. */
  predicate Counted(b: Books) {
    |b.accepted| == |b.outbox|
  }

  ghost function Paid(cfg: Config, meter: Meter, ep: string, content: Content, b: Books): nat
    requires ep in cfg.endpoints && Counted(b)
  {
    Budget(cfg, meter, ep, content, b.outbox, b.accepted)
  }

  lemma {:induction false} BookingPaysNothing(cfg: Config, meter: Meter, ep: string, content: Content, b: Books,
                                              a: BookAction)
    requires ep in cfg.endpoints && Counted(b) && CanBook(cfg, b, a)
    ensures Counted(Booked(cfg, b, a)) &&
            Paid(cfg, meter, ep, content, Booked(cfg, b, a)) == Paid(cfg, meter, ep, content, b)
  {
    match a
    case FinalizeManifest(ship, m, id) =>
      NewRowPaysNothing(cfg, meter, ep, content, b.outbox, b.accepted,
                        ManifestRow(cfg, id, Finalize(b.shipments[ship], m).value.1));
    case ScheduleOther(row) => NewRowPaysNothing(cfg, meter, ep, content, b.outbox, b.accepted, row);
    case CommitPass(p) => SameRowsPaySame(cfg, meter, ep, content, b.outbox, Booked(cfg, b, a).outbox, b.accepted);
    case _ =>
  }

  lemma {:induction false} OfferPays(cfg: Config, meter: Meter, ep: string, content: Content, b: Books, p: nat,
                                     outcome: PublishOutcome)
    requires ep in cfg.endpoints && Counted(b) && CanPublish(b, p)
    ensures Counted(Offered(b, p, outcome))
    ensures Paid(cfg, meter, ep, content, Offered(b, p, outcome))
         == Paid(cfg, meter, ep, content, b) +
         if Arrives(outcome) then Pays(cfg, meter, ep, content, b.outbox[NextRow(b, p)]) else 0
  {
    OneMoreAccepted(cfg, meter, ep, content, b.outbox, b.accepted, NextRow(b, p));
  }

  lemma {:induction false} PublishingPays(cfg: Config, meter: Meter, ep: string, content: Content, s: State, p: nat,
                                          outcome: PublishOutcome)
    requires ep in cfg.endpoints && Counted(s.books) && CanPublish(s.books, p)
    ensures Counted(Apply(cfg, s, PublishNext(p, outcome)).books)
    ensures Fuel(cfg, meter, ep, content, Apply(cfg, s, PublishNext(p, outcome)).work) +
            Paid(cfg, meter, ep, content, s.books)
         == Fuel(cfg, meter, ep, content, s.work) +
         Paid(cfg, meter, ep, content, Apply(cfg, s, PublishNext(p, outcome)).books)
  {
    OfferPays(cfg, meter, ep, content, s.books, p, outcome);
    var row := s.books.outbox[NextRow(s.books, p)];
    if Arrives(outcome) {
      EnqueueFuels(cfg.endpoints[ep], ep, meter, content, s.work.queues, cfg.routes(row.target), CopyOf(row));
    }
  }

  // ----- over runs ---------------------------------------------------------

  /** How many counted moves a run makes for this message at this endpoint. */
  ghost function Spent(cfg: Config, meter: Meter, ep: string, content: Content, s: State, actions: seq<Action>): nat
    requires Possible(cfg, s, actions)
    decreases actions
  {
    if actions == [] then 0
    else (if actions[0].AtWork? then Spends(meter, ep, content, s.work, actions[0].work) else 0) +
         Spent(cfg, meter, ep, content, Apply(cfg, s, actions[0]), actions[1..])
  }

  /** What crashes, lost channels and replays put back in the course of a run. */
  ghost function PutBack(cfg: Config, meter: Meter, ep: string, content: Content, s: State, actions: seq<Action>): nat
    requires ep in cfg.endpoints && Possible(cfg, s, actions)
    decreases actions
  {
    if actions == [] then 0
    else (if actions[0].AtWork? then PutsBack(cfg, meter, ep, content, s.work, actions[0].work) else 0) +
         PutBack(cfg, meter, ep, content, Apply(cfg, s, actions[0]), actions[1..])
  }

  lemma {:induction false} StepIsPaidFor(cfg: Config, meter: Meter, ep: string, content: Content, s: State, a: Action)
    requires ClosedRouting(cfg) && ep in cfg.endpoints && Counted(s.books) && Enabled(cfg, s, a)
    ensures var after := Apply(cfg, s, a);
            Counted(after.books) &&
            Fuel(cfg, meter, ep, content, after.work) +
            (if a.AtWork? then Spends(meter, ep, content, s.work, a.work) else 0) +
              Paid(cfg, meter, ep, content, s.books)
              <= Fuel(cfg, meter, ep, content, s.work) +
              (if a.AtWork? then PutsBack(cfg, meter, ep, content, s.work, a.work) else 0) +
                 Paid(cfg, meter, ep, content, after.books)
  {
    match a
    case InBooks(book) => BookingPaysNothing(cfg, meter, ep, content, s.books, book);
    case PublishNext(p, outcome) => PublishingPays(cfg, meter, ep, content, s, p, outcome);
    case AtWork(work) => WorkIsPaidFor(cfg, meter, ep, content, s.work, work);
  }

  lemma {:induction false} RunIsPaidFor(cfg: Config, meter: Meter, ep: string, content: Content, s: State,
                                        actions: seq<Action>)
    requires ClosedRouting(cfg) && ep in cfg.endpoints && Counted(s.books) && Possible(cfg, s, actions)
    ensures var after := Exec(cfg, s, actions);
            Counted(after.books) &&
            Spent(cfg, meter, ep, content, s, actions) + Paid(cfg, meter, ep, content, s.books) +
            Fuel(cfg, meter, ep, content, after.work)
              <= Fuel(cfg, meter, ep, content, s.work) + PutBack(cfg, meter, ep, content, s, actions) +
                 Paid(cfg, meter, ep, content, after.books)
    decreases actions
  {
    if actions != [] {
      StepIsPaidFor(cfg, meter, ep, content, s, actions[0]);
      RunIsPaidFor(cfg, meter, ep, content, Apply(cfg, s, actions[0]), actions[1..]);
    }
  }

  /** Rows of other messages pay nothing for this one. */
  lemma {:induction false} OthersPayNothing(cfg: Config, meter: Meter, ep: string, content: Content, rows: seq<Row>,
                                            accepted: seq<nat>)
    requires ep in cfg.endpoints && |accepted| == |rows| && forall k :: 0 <= k < |rows| ==> rows[k].content != content
    ensures Budget(cfg, meter, ep, content, rows, accepted) == 0
  {
    if rows != [] {
      OthersPayNothing(cfg, meter, ep, content, rows[..|rows| - 1], accepted[..|rows| - 1]);
    }
  }

  lemma {:induction false} OneRowPays(cfg: Config, meter: Meter, ep: string, rows: seq<Row>, accepted: seq<nat>, i: nat)
    requires ep in cfg.endpoints && |accepted| == |rows| && i < |rows| && UniqueIds(rows)
    ensures Budget(cfg, meter, ep, rows[i].content, rows, accepted)
             == accepted[i] * Pays(cfg, meter, ep, rows[i].content, rows[i])
  {
    var last := |rows| - 1;
    if i == last {
      OthersPayNothing(cfg, meter, ep, rows[i].content, rows[..last], accepted[..last]);
    } else {
      OneRowPays(cfg, meter, ep, rows[..last], accepted[..last], i);
      assert Pays(cfg, meter, ep, rows[i].content, rows[last]) == 0;
    }
  }

  /** Over every run, with crashes and replays: the counted moves a message costs at an
      endpoint are at most what its accepted publications bring there, and what crashes,
      lost channels and replays put back. */
  lemma {:induction false} MovesArePaidFor(cfg: Config, meter: Meter, actions: seq<Action>, ep: string, i: nat)
    requires ClosedRouting(cfg) && ep in cfg.endpoints && Possible(cfg, INITIAL, actions)
    requires i < |Exec(cfg, INITIAL, actions).books.outbox|
    ensures var b := Exec(cfg, INITIAL, actions).books;
            |b.accepted| == |b.outbox| &&
            Spent(cfg, meter, ep, b.outbox[i].content, INITIAL, actions)
              <= b.accepted[i] * Pays(cfg, meter, ep, b.outbox[i].content, b.outbox[i]) +
                 PutBack(cfg, meter, ep, b.outbox[i].content, INITIAL, actions)
  {
    var b := Exec(cfg, INITIAL, actions).books;
    RunIsPaidFor(cfg, meter, ep, b.outbox[i].content, INITIAL, actions);
    RunKeepsAnnouncing(cfg, INITIAL, actions);
    OneRowPays(cfg, meter, ep, b.outbox, b.accepted, i);
  }

  /** The meter counts the handler bodies of a delivery's run. */
  lemma {:induction false} SpentIsBodies(cfg: Config, s: State, t: nat, moves: seq<Move>, after: Work, j: nat)
    requires Leads(cfg, s.work, t, moves, after) && t in s.work.tasks
    ensures Possible(cfg, s, AsActions(t, moves))
    ensures var task := s.work.tasks[t];
            Spent(cfg, Bodies(j), task.endpoint, task.copy.content, s, AsActions(t, moves)) ==
            BodiesIn(cfg, s.work, t, moves, j)
    decreases moves
  {
    RunsOnTheBus(cfg, s, t, moves, after);
    if moves != [] {
      var next := Moved(cfg, s.work, t, moves[0]);
      assert AsActions(t, moves)[1..] == AsActions(t, moves[1..]);
      if t in next.tasks {
        SpentIsBodies(cfg, s.(work := next), t, moves[1..], after, j);
      } else {
        assert moves[1..] == [];
      }
    }
  }

  /** What the dispatcher itself counts is what the meter counts: a delivery handled with
      these bodies spends exactly them. */
  lemma {:induction false} DeliveryIsMetered(cfg: Config, s: State, t: nat, moves: seq<Move>, after: Work,
                                             bodies: seq<nat>, j: nat)
    requires Works(cfg, s.work, t, moves, after, 0, bodies) && t in s.work.tasks
    ensures Possible(cfg, s, AsActions(t, moves)) && Exec(cfg, s, AsActions(t, moves)) == s.(work := after)
    ensures var task := s.work.tasks[t];
            Spent(cfg, Bodies(j), task.endpoint, task.copy.content, s, AsActions(t, moves)) ==
            if j < |bodies| then bodies[j] else 0
  {
    RunsOnTheBus(cfg, s, t, moves, after);
    SpentIsBodies(cfg, s, t, moves, after, j);
  }

  /** No worker dies or loses its channel, and nobody replays. */
  predicate Calm(a: Action) {
    a.AtWork? ==> !a.work.Replay? && (a.work.TaskMoves? ==> !a.work.move.Crash? && !a.work.move.LoseChannel?)
  }

  lemma {:induction false} CalmPutsNothingBack(cfg: Config, meter: Meter, ep: string, content: Content, s: State,
                                               actions: seq<Action>)
    requires ep in cfg.endpoints && Possible(cfg, s, actions) && forall a :: a in actions ==> Calm(a)
    ensures PutBack(cfg, meter, ep, content, s, actions) == 0
    decreases actions
  {
    if actions != [] {
      assert actions[0] in actions;
      CalmPutsNothingBack(cfg, meter, ep, content, Apply(cfg, s, actions[0]), actions[1..]);
    }
  }

  lemma {:induction false} FreshRowPays(cfg: Config, meter: Meter, ep: string, row: Row)
    requires ep in cfg.endpoints && ReadCount(row.headers) == 0 &&
             cfg.endpoints[ep].topology.retryQueue !in cfg.routes(row.target)
    ensures Pays(cfg, meter, ep, row.content, row)
             <= PerDelivery(cfg.endpoints[ep], meter) * (cfg.endpoints[ep].MostRetries() + 1)
  {
  }

  lemma {:induction false} TimesInOrder(times: nat, small: nat, large: nat)
    requires small <= large
    ensures times * small <= times * large
  {
  }

  /** Bounded recovery: over every run without crashes, lost channels and replays, a
      fresh message that is not addressed to the retry queue itself runs each
      subscriber's body at an endpoint at most `(max(immediate,0)+1) * (max(delayed,0)+1)`
      times, and is recovered there at most `max(delayed,0)+1` times, per publication the
      broker accepted. */
  lemma {:induction false} RecoveryIsBounded(cfg: Config, meter: Meter, actions: seq<Action>, b: Books, ep: string,
                                             i: nat)
    requires ClosedRouting(cfg) && ep in cfg.endpoints && Possible(cfg, INITIAL, actions)
    requires b == Exec(cfg, INITIAL, actions).books && forall a :: a in actions ==> Calm(a)
    requires i < |b.outbox| && ReadCount(b.outbox[i].headers) == 0
    requires cfg.endpoints[ep].topology.retryQueue !in cfg.routes(b.outbox[i].target)
    ensures |b.accepted| == |b.outbox|
    ensures var e := cfg.endpoints[ep];
            Spent(cfg, meter, ep, b.outbox[i].content, INITIAL, actions)
             <= b.accepted[i] * (PerDelivery(e, meter) * (e.MostRetries() + 1))
  {
    var e, row := cfg.endpoints[ep], b.outbox[i];
    MovesArePaidFor(cfg, meter, actions, ep, i);
    CalmPutsNothingBack(cfg, meter, ep, row.content, INITIAL, actions);
    FreshRowPays(cfg, meter, ep, row);
    TimesInOrder(b.accepted[i], Pays(cfg, meter, ep, row.content, row), PerDelivery(e, meter) * (e.MostRetries() + 1));
  }
}
