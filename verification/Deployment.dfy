/** A fleet of workers as they declare themselves gives the bus exactly the routing
    its guarantees rest on. */
module Deployment {
  import opened Common
  import opened Connection
  import opened Declarations
  import opened Envelope
  import opened Topology
  import opened Recovery
  import opened Bus
  import opened BusNoLoss
  import opened BusHome
  import opened BusBounds
  import Text

  function Topologies(fleet: seq<Endpoint>): (r: seq<BrokerTopology>)
    ensures |r| == |fleet| && forall i :: 0 <= i < |fleet| ==> r[i] == fleet[i].topology
  {
    seq(|fleet|, i requires 0 <= i < |fleet| => fleet[i].topology)
  }

  /** Workers by the queue they consume. */
  function ByQueue(fleet: seq<Endpoint>): map<string, Endpoint> {
    if fleet == [] then map[]
    else ByQueue(fleet[..|fleet| - 1])[fleet[|fleet| - 1].topology.primaryQueue := fleet[|fleet| - 1]]
  }

  function ConfigOf(w: Wiring, fleet: seq<Endpoint>, manifestTarget: Target): Config {
    Config(ByQueue(fleet), RoutesOf(w), w.deadLetters, manifestTarget)
  }

  lemma {:induction false} ConsumerOf(fleet: seq<Endpoint>, q: string) returns (i: nat)
    requires q in ByQueue(fleet)
    ensures i < |fleet| && fleet[i].topology.primaryQueue == q && ByQueue(fleet)[q] == fleet[i]
  {
    var last := |fleet| - 1;
    if q == fleet[last].topology.primaryQueue {
      i := last;
    } else {
      i := ConsumerOf(fleet[..last], q);
    }
  }

  lemma {:induction false} ConsumedBy(fleet: seq<Endpoint>, i: nat)
    requires DistinctQueues(Topologies(fleet)) && i < |fleet|
    ensures fleet[i].topology.primaryQueue in ByQueue(fleet) &&
            ByQueue(fleet)[fleet[i].topology.primaryQueue] == fleet[i]
  {
    var last := |fleet| - 1;
    if i < last {
      assert Topologies(fleet[..last]) == Topologies(fleet)[..last];
      assert Topologies(fleet)[i].primaryQueue != Topologies(fleet)[last].primaryQueue;
      ConsumedBy(fleet[..last], i);
    }
  }

  /** The return pair the retry queue carries is the one the primary queue is bound to. */
  predicate ReturnIsBound(t: BrokerTopology) {
    SitsOn(ReturnBinding(t), t.ReturnTarget())
  }

  /** No queue plays two parts: primary, retry and error queues have different names. */
  ghost predicate QueuesApart(fleet: seq<BrokerTopology>) {
    forall i, j :: 0 <= i < |fleet| && 0 <= j < |fleet| ==>
      fleet[i].retryQueue != fleet[j].primaryQueue &&
      fleet[i].errorQueue != fleet[j].primaryQueue &&
      fleet[i].errorQueue != fleet[j].retryQueue
  }

  /** A topic pattern matches itself. */
  lemma {:induction false} PatternMatchesItself(pattern: seq<string>)
    ensures TopicMatches(pattern, pattern)
  {
    if pattern != [] {
      PatternMatchesItself(pattern[1..]);
      assert TopicMatches(pattern, pattern[1..]) || pattern[0] != "#";
    }
  }

  /** Whatever the exchange type, a queue receives what is sent to its own binding key. */
  lemma {:induction false} OwnBindingRoutes(w: Wiring, fleet: seq<BrokerTopology>, i: nat, b: Binding)
    requires WiredFor(w, fleet) && i < |fleet| && b in BindingsOf(fleet[i]) && b.exchange in w.kinds
    ensures b.queue in Route(w, Target(b.exchange, b.key))
  {
    PatternMatchesItself(Text.Split(b.key, '.'));
    BoundTo(w, fleet, i, b, Target(b.exchange, b.key));
  }

  lemma {:induction false} WorkerIsDeployed(w: Wiring, fleet: seq<Endpoint>, manifestTarget: Target, i: nat)
    requires WiredFor(w, Topologies(fleet)) && QueuesApart(Topologies(fleet)) && i < |fleet| &&
             ReturnIsBound(fleet[i].topology)
    requires fleet[i].topology.primaryQueue in ByQueue(fleet) &&
             ByQueue(fleet)[fleet[i].topology.primaryQueue] == fleet[i]
    ensures DeployedAt(ConfigOf(w, fleet, manifestTarget), fleet[i].topology.primaryQueue)
  {
    var ts, t := Topologies(fleet), fleet[i].topology;
    assert KindsAgree(w, ts[i]) && ReturnsExpired(w, ts[i]);
    OwnBindingRoutes(w, ts, i, RetryBinding(t));
    OwnBindingRoutes(w, ts, i, ErrorBinding(t));
    OwnBindingRoutes(w, ts, i, ReturnBinding(t));
    forall q | q in ByQueue(fleet)
      ensures q != t.errorQueue
    {
      var j := ConsumerOf(fleet, q);
      assert ts[i].errorQueue != ts[j].primaryQueue;
    }
  }

  /** Workers that declared themselves on one broker, each with its own queues, meet
      everything the bus asks of a deployment - whatever their exchange types. */
  lemma {:induction false} FleetIsDeployed(w: Wiring, fleet: seq<Endpoint>, manifestTarget: Target)
    requires WiredFor(w, Topologies(fleet)) && QueuesApart(Topologies(fleet))
    requires forall i :: 0 <= i < |fleet| ==> ReturnIsBound(fleet[i].topology)
    ensures Deployed(ConfigOf(w, fleet, manifestTarget))
  {
    var cfg := ConfigOf(w, fleet, manifestTarget);
    forall q | q in cfg.endpoints
      ensures DeployedAt(cfg, q) && q !in cfg.wayBack
    {
      var i := ConsumerOf(fleet, q);
      assert Topologies(fleet)[i].primaryQueue == q;
      WorkerIsDeployed(w, fleet, manifestTarget, i);
    }
  }

  /** One retry or error address never leads to two queues. */
  ghost predicate AddressesApart(fleet: seq<BrokerTopology>) {
    forall i, j :: 0 <= i < |fleet| && 0 <= j < |fleet| ==>
      (fleet[i].RetryTarget() == fleet[j].RetryTarget() ==> fleet[i].retryQueue == fleet[j].retryQueue) &&
      (fleet[i].ErrorTarget() == fleet[j].ErrorTarget() ==> fleet[i].errorQueue == fleet[j].errorQueue) &&
      fleet[i].RetryTarget() != fleet[j].ErrorTarget()
  }

  /** Named by the convention, errors on a direct exchange and integration events not. */
  predicate ByConvention(t: BrokerTopology) {
    NamedByConvention(t) && KindOf(t.errorExchangeType) == Direct && KindOf(t.primaryExchangeType) != Direct
  }

  ghost predicate Conventional(fleet: seq<BrokerTopology>) {
    forall i :: 0 <= i < |fleet| ==> ByConvention(fleet[i])
  }

  /** On a direct exchange, a key that is no queue's return key is taken by the retry
      and error bindings alone. */
  lemma {:induction false} OnlyRetryOrError(w: Wiring, u: BrokerTopology, b: Binding, target: Target)
    requires KindsAgree(w, u) && ByConvention(u) && b in BindingsOf(u) && Takes(w, b, target)
    requires HasKind(w, target.exchange, Direct) && !Text.EndsWith(target.key, RETRY_RETURN_SUFFIX)
    ensures (b == RetryBinding(u) && target == u.RetryTarget()) || (b == ErrorBinding(u) && target == u.ErrorTarget())
  {
    Text.AppendedSuffix(u.primaryQueue, RETRY_RETURN_SUFFIX);
    assert b != PrimaryBinding(u);
    assert b != ReturnBinding(u);
  }

  lemma {:induction false} RetryIsPointToPoint(w: Wiring, fleet: seq<BrokerTopology>, i: nat)
    requires WiredFor(w, fleet) && Conventional(fleet) && AddressesApart(fleet) && i < |fleet|
    ensures Route(w, fleet[i].RetryTarget()) == {fleet[i].retryQueue}
  {
    var t := fleet[i];
    assert KindsAgree(w, t) && ByConvention(t);
    OwnBindingRoutes(w, fleet, i, RetryBinding(t));
    SuffixesDiffer(t.retryBindingKey);
    forall b | b in w.bindings && Takes(w, b, t.RetryTarget())
      ensures b.queue == t.retryQueue
    {
      var j := DeclaredBySome(fleet, b);
      assert KindsAgree(w, fleet[j]) && ByConvention(fleet[j]);
      OnlyRetryOrError(w, fleet[j], b, t.RetryTarget());
    }
  }

  lemma {:induction false} ErrorIsPointToPoint(w: Wiring, fleet: seq<BrokerTopology>, i: nat)
    requires WiredFor(w, fleet) && Conventional(fleet) && AddressesApart(fleet) && i < |fleet|
    ensures Route(w, fleet[i].ErrorTarget()) == {fleet[i].errorQueue}
  {
    var t := fleet[i];
    assert KindsAgree(w, t) && ByConvention(t);
    OwnBindingRoutes(w, fleet, i, ErrorBinding(t));
    forall b | b in w.bindings && Takes(w, b, t.ErrorTarget())
      ensures b.queue == t.errorQueue
    {
      var j := DeclaredBySome(fleet, b);
      assert KindsAgree(w, fleet[j]) && ByConvention(fleet[j]);
      OnlyRetryOrError(w, fleet[j], b, t.ErrorTarget());
    }
  }

  /** Named by the convention, every hop of the recovery path reaches one queue only. */
  lemma {:induction false} FleetIsPointToPoint(w: Wiring, fleet: seq<Endpoint>, manifestTarget: Target)
    requires WiredFor(w, Topologies(fleet)) && DistinctQueues(Topologies(fleet))
    requires Conventional(Topologies(fleet)) && AddressesApart(Topologies(fleet))
    ensures PointToPoint(ConfigOf(w, fleet, manifestTarget))
  {
    var cfg, ts := ConfigOf(w, fleet, manifestTarget), Topologies(fleet);
    assert forall j :: 0 <= j < |ts| ==> ByConvention(ts[j]);
    forall q | q in cfg.endpoints
      ensures var t := cfg.endpoints[q].topology;
              cfg.routes(t.RetryTarget()) == {t.retryQueue} &&
              cfg.routes(t.ErrorTarget()) == {t.errorQueue} &&
              cfg.routes(t.ReturnTarget()) == {q}
    {
      var i := ConsumerOf(fleet, q);
      RetryIsPointToPoint(w, ts, i);
      ErrorIsPointToPoint(w, ts, i);
      RetryComesHome(w, ts, i, ShipmentManifestFinalized);
    }
  }

  /** A broker that started empty, and each worker of the fleet declaring in turn. */
  ghost predicate DeclaredInTurn(wirings: seq<Wiring>, fleet: seq<BrokerTopology>) {
    |wirings| == |fleet| + 1 && wirings[0] == Wiring(map[], {}, map[]) &&
    forall i :: 0 <= i < |fleet| ==> DeclaresNext(wirings, fleet, i)
  }

  lemma {:induction false} DeclaredIsWired(wirings: seq<Wiring>, fleet: seq<BrokerTopology>)
    requires DeclaredInTurn(wirings, fleet)
    ensures WiredFor(wirings[|fleet|], fleet)
  {
    FleetIsWired(wirings, fleet, |fleet|);
    assert fleet[..|fleet|] == fleet;
  }

  /** Every fleet whose workers get on with each other can in fact be declared in turn. */
  lemma {:induction false} CompatibleFleetDeclares(fleet: seq<BrokerTopology>) returns (wirings: seq<Wiring>)
    requires Compatible(fleet) && forall i :: 0 <= i < |fleet| ==> ConsistentTypes(fleet[i])
    ensures DeclaredInTurn(wirings, fleet)
    ensures wirings == seq(|fleet| + 1, n requires 0 <= n <= |fleet| => JoinedAll(fleet[..n]).wiring)
  {
    wirings := seq(|fleet| + 1, n requires 0 <= n <= |fleet| => JoinedAll(fleet[..n]).wiring);
    assert fleet[..0] == [];
    forall n | 0 <= n < |fleet|
      ensures DeclaresNext(wirings, fleet, n)
    {
      NextDeclares(fleet, n);
    }
  }

  lemma {:induction false} NextDeclares(fleet: seq<BrokerTopology>, n: nat)
    requires Compatible(fleet) && n < |fleet| && ConsistentTypes(fleet[n])
    ensures var before, after := JoinedAll(fleet[..n]).wiring, JoinedAll(fleet[..n + 1]).wiring;
            Adds(before, after, fleet[n]) && KindsAgree(after, fleet[n])
  {
    var b, t := JoinedAll(fleet[..n]), fleet[n];
    TakeOneMore(fleet, n);
    FleetDeclaresIff(fleet[..n + 1]);
    assert fleet[..n + 1][..n] == fleet[..n];
    FleetIsTold(fleet[..n]);
    InOrderIff({}, b.wiring.kinds, Asked(t));
    InOrderIntroduces({}, b.wiring.kinds, Asked(t));
    QueuesAdd(b.(wiring := b.wiring.(kinds := InOrder({}, b.wiring.kinds, Asked(t)).kinds)), b.wiring, t);
    ExchangesAgree(b.wiring, t);
  }

  /** A fleet named by the convention gives the routing every theory of the bus asks for. */
  lemma {:induction false} DeclaredFleetIsClosed(wirings: seq<Wiring>, fleet: seq<Endpoint>, manifestTarget: Target)
    requires DeclaredInTurn(wirings, Topologies(fleet))
    requires DistinctQueues(Topologies(fleet)) && QueuesApart(Topologies(fleet))
    requires Conventional(Topologies(fleet)) && AddressesApart(Topologies(fleet))
    ensures ClosedRouting(ConfigOf(wirings[|fleet|], fleet, manifestTarget))
  {
    var w, ts := wirings[|fleet|], Topologies(fleet);
    var cfg := ConfigOf(w, fleet, manifestTarget);
    DeclaredIsWired(wirings, ts);
    forall j | 0 <= j < |fleet|
      ensures ReturnIsBound(fleet[j].topology)
    {
      assert ByConvention(ts[j]);
    }
    FleetIsDeployed(w, fleet, manifestTarget);
    FleetIsPointToPoint(w, fleet, manifestTarget);
    forall q | q in cfg.wayBack
      ensures exists p :: p in cfg.endpoints && cfg.endpoints[p].topology.retryQueue == q
    {
      var i :| 0 <= i < |ts| && ts[i].retryQueue == q;
      ConsumedBy(fleet, i);
      assert cfg.endpoints[ts[i].primaryQueue].topology.retryQueue == q;
    }
  }

  /** From declarations to guarantees: workers that declare themselves in turn, named by
      the convention, lose no message and keep every retry at home, over every run
      without a dropped recovery. */
  lemma {:induction false} DeclaredFleetIsSafe(wirings: seq<Wiring>, fleet: seq<Endpoint>, manifestTarget: Target,
                                               actions: seq<Action>, i: nat, ep: string)
    requires DeclaredInTurn(wirings, Topologies(fleet))
    requires DistinctQueues(Topologies(fleet)) && QueuesApart(Topologies(fleet))
    requires Conventional(Topologies(fleet)) && AddressesApart(Topologies(fleet))
    requires Possible(ConfigOf(wirings[|fleet|], fleet, manifestTarget), INITIAL, actions)
    requires forall a :: a in actions ==> !Drops(a)
    ensures var cfg := ConfigOf(wirings[|fleet|], fleet, manifestTarget);
            var s := Exec(cfg, INITIAL, actions);
            (i < |s.books.outbox| && Due(cfg, s.books.outbox[i], ep) && s.books.outbox[i].sent ==>
               Survives(cfg, s.work, ep, s.books.outbox[i].content)) &&
            (forall t :: t in s.work.tasks ==> AcceptsItsTypes(cfg, s.work.tasks[t]))
  {
    var cfg := ConfigOf(wirings[|fleet|], fleet, manifestTarget);
    DeclaredFleetIsClosed(wirings, fleet, manifestTarget);
    var s := Exec(cfg, INITIAL, actions);
    if i < |s.books.outbox| && Due(cfg, s.books.outbox[i], ep) {
      NothingIsLost(cfg, actions, i, ep);
    }
    RetriesStayHome(cfg, actions);
  }

  /** From declarations to bounds: on such a fleet, while no worker dies and nothing is
      replayed, a fresh message addressed past the retry queue runs each subscriber's body
      and is recovered only so often per accepted publication. */
  lemma {:induction false} DeclaredFleetIsBounded(wirings: seq<Wiring>, fleet: seq<Endpoint>, cfg: Config,
                                                  meter: Meter, actions: seq<Action>, b: Books, ep: string, i: nat)
    requires DeclaredInTurn(wirings, Topologies(fleet))
    requires DistinctQueues(Topologies(fleet)) && QueuesApart(Topologies(fleet))
    requires Conventional(Topologies(fleet)) && AddressesApart(Topologies(fleet))
    requires cfg == ConfigOf(wirings[|fleet|], fleet, cfg.manifestTarget) && ep in cfg.endpoints
    requires Possible(cfg, INITIAL, actions) && b == Exec(cfg, INITIAL, actions).books
    requires forall a :: a in actions ==> Calm(a)
    requires i < |b.outbox| && ReadCount(b.outbox[i].headers) == 0
    requires cfg.endpoints[ep].topology.retryQueue !in cfg.routes(b.outbox[i].target)
    ensures |b.accepted| == |b.outbox|
    ensures var e := cfg.endpoints[ep];
            Spent(cfg, meter, ep, b.outbox[i].content, INITIAL, actions)
             <= b.accepted[i] * (PerDelivery(e, meter) * (e.MostRetries() + 1))
  {
    DeclaredFleetIsClosed(wirings, fleet, cfg.manifestTarget);
    RecoveryIsBounded(cfg, meter, actions, b, ep, i);
  }
}
