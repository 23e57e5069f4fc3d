/** What declaring a worker does to a broker, as values: when the broker refuses it,
    what it adds, and which fleets of workers can be declared one after another. */
module Declarations {
  import opened Common
  import opened Topology

  // ----- exchanges ---------------------------------------------------------

  /** Declaring this exchange raises: the connection has not declared it yet, and the
      broker has it with another type. */
  predicate Refuses(cached: set<string>, kinds: map<string, ExchangeKind>, name: string, kind: ExchangeKind) {
    name !in cached && name in kinds && kinds[name] != kind
  }

  /** The first declaration of a name decides its type. */
  function Introduced(kinds: map<string, ExchangeKind>, name: string, kind: ExchangeKind): map<string, ExchangeKind> {
    if name in kinds then kinds else kinds[name := kind]
  }

  /** An exchange as somebody asks for it. */
  datatype Ask = Ask(name: string, kind: ExchangeKind)

  /** The five declarations of a worker, in order. */
  function Asked(t: BrokerTopology): seq<Ask> {
    AskedToWork(t) + AskedToReturn(t)
  }

  function AskedToWork(t: BrokerTopology): seq<Ask> {
    [Ask(t.primaryExchange, KindOf(t.primaryExchangeType)),
     Ask(t.retryExchange, KindOf(t.retryExchangeType)),
     Ask(t.errorExchange, KindOf(t.errorExchangeType))]
  }

  function AskedToReturn(t: BrokerTopology): seq<Ask> {
    [Ask(t.ResolvedPrimaryRetryBindingExchange(), KindOf(t.retryExchangeType)),
     Ask(t.ResolvedRetryDeadLetterExchange(), KindOf(t.retryExchangeType))]
  }

  /** What a connection has cached, what the broker has, and whether nothing was refused. */
  datatype Exchanges = Exchanges(cached: set<string>, kinds: map<string, ExchangeKind>, ok: bool)

  /** One declaration after another, up to the first that is refused. */
  function InOrder(cached: set<string>, kinds: map<string, ExchangeKind>, asked: seq<Ask>): Exchanges
    decreases asked
  {
    if asked == [] then Exchanges(cached, kinds, true)
    else if Refuses(cached, kinds, asked[0].name, asked[0].kind) then Exchanges(cached, kinds, false)
    else InOrder(cached + {asked[0].name}, Introduced(kinds, asked[0].name, asked[0].kind), asked[1..])
  }

  lemma {:induction false} InOrderAppend(cached: set<string>, kinds: map<string, ExchangeKind>, asked: seq<Ask>,
                                         more: seq<Ask>)
    ensures var r := InOrder(cached, kinds, asked);
            InOrder(cached, kinds, asked + more) == if r.ok then InOrder(r.cached, r.kinds, more) else r
    decreases asked
  {
    if asked == [] {
      assert asked + more == more;
    } else {
      assert (asked + more)[1..] == asked[1..] + more;
      InOrderAppend(cached + {asked[0].name}, Introduced(kinds, asked[0].name, asked[0].kind), asked[1..], more);
    }
  }

  /** The first time the name is asked for; later ones are served from the cache. */
  predicate FirstAsk(asked: seq<Ask>, i: nat) {
    i < |asked| && forall j :: 0 <= j < i ==> asked[j].name != asked[i].name
  }

  /** Nothing is refused if and only if each exchange, where it is first asked for, is
      cached, free, or of the type asked for. */
  ghost predicate NoneRefused(cached: set<string>, kinds: map<string, ExchangeKind>, asked: seq<Ask>) {
    forall i: nat :: FirstAsk(asked, i) ==>
      asked[i].name in cached || asked[i].name !in kinds || kinds[asked[i].name] == asked[i].kind
  }

  lemma {:induction false} InOrderIff(cached: set<string>, kinds: map<string, ExchangeKind>, asked: seq<Ask>)
    ensures InOrder(cached, kinds, asked).ok <==> NoneRefused(cached, kinds, asked)
    decreases asked
  {
    if asked != [] {
      assert FirstAsk(asked, 0);
      if !Refuses(cached, kinds, asked[0].name, asked[0].kind) {
        var laterCached, laterKinds := cached + {asked[0].name}, Introduced(kinds, asked[0].name, asked[0].kind);
        InOrderIff(laterCached, laterKinds, asked[1..]);
        if NoneRefused(laterCached, laterKinds, asked[1..]) {
          forall i: nat | FirstAsk(asked, i)
            ensures asked[i].name in cached || asked[i].name !in kinds || kinds[asked[i].name] == asked[i].kind
          {
            assert i > 0 ==> FirstAsk(asked[1..], i - 1) && asked[1..][i - 1] == asked[i];
          }
        }
        if NoneRefused(cached, kinds, asked) {
          forall i: nat | FirstAsk(asked[1..], i)
            ensures var a := asked[1..][i];
                    a.name in laterCached || a.name !in laterKinds || laterKinds[a.name] == a.kind
          {
            assert asked[1..][i].name != asked[0].name ==> FirstAsk(asked, i + 1);
          }
        }
      }
    }
  }

  predicate AskedFor(asked: seq<Ask>, name: string) {
    exists i :: 0 <= i < |asked| && asked[i].name == name
  }

  /** Afterwards every name asked for is cached and exists - with its first type, unless it
      existed before - and nothing else changed. */
  ghost predicate AllIntroduced(cached: set<string>, kinds: map<string, ExchangeKind>, asked: seq<Ask>, r: Exchanges) {
    (forall n :: n in r.cached <==> n in cached || AskedFor(asked, n)) &&
    (forall n :: n in r.kinds <==> n in kinds || AskedFor(asked, n)) &&
    Keeps(kinds, r.kinds) &&
    forall i: nat :: FirstAsk(asked, i) && asked[i].name !in kinds ==>
      asked[i].name in r.kinds && r.kinds[asked[i].name] == asked[i].kind
  }

  lemma {:induction false} InOrderIntroduces(cached: set<string>, kinds: map<string, ExchangeKind>, asked: seq<Ask>)
    requires InOrder(cached, kinds, asked).ok
    ensures AllIntroduced(cached, kinds, asked, InOrder(cached, kinds, asked))
    decreases asked
  {
    if asked != [] {
      var laterCached, laterKinds := cached + {asked[0].name}, Introduced(kinds, asked[0].name, asked[0].kind);
      InOrderIntroduces(laterCached, laterKinds, asked[1..]);
      var r := InOrder(cached, kinds, asked);
      forall n
        ensures AskedFor(asked, n) <==> n == asked[0].name || AskedFor(asked[1..], n)
      {
        if i :| 0 <= i < |asked[1..]| && asked[1..][i].name == n {
          assert asked[i + 1].name == n;
        }
      }
      forall i: nat | FirstAsk(asked, i) && asked[i].name !in kinds
        ensures asked[i].name in r.kinds && r.kinds[asked[i].name] == asked[i].kind
      {
        if i > 0 {
          assert asked[0].name != asked[i].name;
          assert FirstAsk(asked[1..], i - 1) && asked[1..][i - 1] == asked[i];
        }
      }
    }
  }

  // ----- queues ------------------------------------------------------------

  /** Everything a broker has been told: its wiring, the times to live of its retry
      queues, and the names of all queues. */
  datatype BrokerTables = BrokerTables(wiring: Wiring, ttls: map<string, int>, names: set<string>)

  const NO_TABLES := BrokerTables(Wiring(map[], {}, map[]), map[], {})

  predicate RetryQueueFits(b: BrokerTables, t: BrokerTopology) {
    t.retryQueue !in b.names ||
    (t.retryQueue in b.wiring.deadLetters && b.wiring.deadLetters[t.retryQueue] == t.ReturnTarget() &&
     t.retryQueue in b.ttls && b.ttls[t.retryQueue] == t.retryMessageTtlMs)
  }

  function WithPrimary(b: BrokerTables, t: BrokerTopology): BrokerTables {
    b.(names := b.names + {t.primaryQueue},
       wiring := b.wiring.(bindings := b.wiring.bindings + {PrimaryBinding(t), ReturnBinding(t)}))
  }

  function WithRetryQueue(b: BrokerTables, t: BrokerTopology): BrokerTables {
    BrokerTables(b.wiring.(bindings := b.wiring.bindings + {RetryBinding(t)},
                           deadLetters := b.wiring.deadLetters[t.retryQueue := t.ReturnTarget()]),
                 b.ttls[t.retryQueue := t.retryMessageTtlMs],
                 b.names + {t.retryQueue})
  }

  function WithErrorQueue(b: BrokerTables, t: BrokerTopology): BrokerTables {
    b.(names := b.names + {t.errorQueue},
       wiring := b.wiring.(bindings := b.wiring.bindings + {ErrorBinding(t)}))
  }

  function WithQueues(b: BrokerTables, t: BrokerTopology): BrokerTables {
    WithErrorQueue(WithRetryQueue(WithPrimary(b, t), t), t)
  }

  /** The primary and the error queue are no retry queues on the broker and are not this
      worker's own, and the retry queue is new or has this return pair and time to live. */
  predicate QueuesFit(b: BrokerTables, t: BrokerTopology) {
    t.primaryQueue !in b.wiring.deadLetters && t.primaryQueue != t.retryQueue &&
    t.errorQueue !in b.wiring.deadLetters && t.errorQueue != t.retryQueue &&
    RetryQueueFits(b, t)
  }

  /** The tables a declaration of queues leaves: all of them, or those before the refusal. */
  function QueuesDeclared(b: BrokerTables, t: BrokerTopology): (BrokerTables, bool) {
    if t.primaryQueue in b.wiring.deadLetters then (b, false)
    else if t.retryQueue == t.primaryQueue || !RetryQueueFits(b, t) then (WithPrimary(b, t), false)
    else if t.errorQueue in b.wiring.deadLetters || t.errorQueue == t.retryQueue
    then (WithRetryQueue(WithPrimary(b, t), t), false)
    else (WithQueues(b, t), true)
  }

  /** Queue names and retry queues as declared. */
  predicate Orderly(b: BrokerTables) {
    b.wiring.deadLetters.Keys <= b.names && b.wiring.deadLetters.Keys == b.ttls.Keys
  }

  // ----- a whole worker ----------------------------------------------------

  /** A fresh connection can declare this worker. */
  ghost predicate Fits(b: BrokerTables, t: BrokerTopology) {
    NoneRefused({}, b.wiring.kinds, Asked(t)) && QueuesFit(b, t)
  }

  /** The broker after it did. */
  function Joined(b: BrokerTables, t: BrokerTopology): BrokerTables {
    WithQueues(b.(wiring := b.wiring.(kinds := InOrder({}, b.wiring.kinds, Asked(t)).kinds)), t)
  }

  /** An empty broker takes every worker whose retry queue has a name of its own. */
  lemma {:induction false} EmptyBrokerTakesIff(t: BrokerTopology)
    ensures Fits(NO_TABLES, t) <==> t.retryQueue != t.primaryQueue && t.retryQueue != t.errorQueue
  {
  }

  /** What a worker adds, as configured: the primary queue under its own key and under the
      return pair, the retry queue with its return pair and time to live, and the error
      queue. A setting left empty is derived: from the retry exchange, from the queue's name. */
  lemma {:induction false} DeclaresAsConfigured(b: BrokerTables, t: BrokerTopology)
    ensures var exchange := if t.retryDeadLetterExchange != "" then t.retryDeadLetterExchange else t.retryExchange;
            var key := if t.retryDeadLetterRoutingKey != "" then t.retryDeadLetterRoutingKey
                       else t.primaryQueue + ".retry";
            var back := Binding(if t.primaryRetryBindingExchange != "" then t.primaryRetryBindingExchange else exchange,
                                if t.primaryRetryBindingKey != "" then t.primaryRetryBindingKey else key,
                                t.primaryQueue);
            var after := Joined(b, t);
            after.wiring.bindings == b.wiring.bindings +
              {Binding(t.primaryExchange, t.primaryBindingKey, t.primaryQueue), back,
               Binding(t.retryExchange, t.retryBindingKey, t.retryQueue),
               Binding(t.errorExchange, t.errorRoutingKey, t.errorQueue)} &&
            after.wiring.deadLetters == b.wiring.deadLetters[t.retryQueue := Target(exchange, key)] &&
            after.ttls == b.ttls[t.retryQueue := t.retryMessageTtlMs] &&
            after.names == b.names + {t.primaryQueue, t.retryQueue, t.errorQueue}
  {
  }

  lemma {:induction false} SameExchangesAgain(kinds: map<string, ExchangeKind>, asked: seq<Ask>)
    requires NoneRefused({}, kinds, asked)
    ensures var later := InOrder({}, kinds, asked).kinds;
            NoneRefused({}, later, asked) && InOrder({}, later, asked).kinds == later
  {
    InOrderIff({}, kinds, asked);
    InOrderIntroduces({}, kinds, asked);
    var later := InOrder({}, kinds, asked).kinds;
    forall i: nat | FirstAsk(asked, i)
      ensures later[asked[i].name] == asked[i].kind
    {
      assert asked[i].name in kinds ==> kinds[asked[i].name] == asked[i].kind;
    }
    InOrderIff({}, later, asked);
    InOrderIntroduces({}, later, asked);
    var again := InOrder({}, later, asked).kinds;
    assert again.Keys == later.Keys;
    assert again == later;
  }

  /** A worker that starts again finds everything as it declared it, and changes nothing. */
  lemma {:induction false} DeclaringAgain(b: BrokerTables, t: BrokerTopology)
    requires Fits(b, t)
    ensures Fits(Joined(b, t), t) && Joined(Joined(b, t), t) == Joined(b, t)
  {
    SameExchangesAgain(b.wiring.kinds, Asked(t));
    var once := Joined(b, t);
    assert WithQueues(once, t).wiring.bindings == once.wiring.bindings;
    assert WithQueues(once, t).names == once.names;
  }

  lemma {:induction false} AskedNames(t: BrokerTopology)
    ensures AskedFor(Asked(t), t.primaryExchange) && AskedFor(Asked(t), t.retryExchange) &&
            AskedFor(Asked(t), t.errorExchange) && AskedFor(Asked(t), t.ResolvedPrimaryRetryBindingExchange()) &&
            AskedFor(Asked(t), t.ResolvedRetryDeadLetterExchange())
  {
    var asked := Asked(t);
    assert asked[0].name == t.primaryExchange && asked[1].name == t.retryExchange && asked[2].name == t.errorExchange;
    assert asked[3].name == t.ResolvedPrimaryRetryBindingExchange();
    assert asked[4].name == t.ResolvedRetryDeadLetterExchange();
  }

  // ----- what a declaration adds to the wiring -----------------------------

  /** The same exchange name always asked for with the same type. */
  predicate ConsistentTypes(t: BrokerTopology) {
    var primary, retry, error := KindOf(t.primaryExchangeType), KindOf(t.retryExchangeType),
                                 KindOf(t.errorExchangeType);
    var wayBack := {t.retryExchange, t.ResolvedRetryDeadLetterExchange(), t.ResolvedPrimaryRetryBindingExchange()};
    (t.primaryExchange in wayBack ==> primary == retry) &&
    (t.errorExchange in wayBack ==> error == retry) &&
    (t.primaryExchange == t.errorExchange ==> primary == error)
  }

  /** One worker's declaration, read off the broker before and after it. */
  ghost predicate Adds(before: Wiring, after: Wiring, t: BrokerTopology) {
    after.bindings == before.bindings + BindingsOf(t) &&
    Keeps(before.kinds, after.kinds) && Keeps(before.deadLetters, after.deadLetters) &&
    after.deadLetters.Keys == before.deadLetters.Keys + {t.retryQueue} &&
    ReturnsExpired(after, t)
  }

  /** A broker wired for a fleet is wired for the fleet plus the new worker. */
  lemma {:induction false} FleetGrows(before: Wiring, after: Wiring, fleet: seq<BrokerTopology>, t: BrokerTopology)
    requires WiredFor(before, fleet) && Adds(before, after, t) && KindsAgree(after, t)
    ensures WiredFor(after, fleet + [t])
  {
    assert (fleet + [t])[..|fleet|] == fleet;
    forall i | 0 <= i < |fleet|
      ensures KindsAgree(after, fleet[i]) && ReturnsExpired(after, fleet[i])
    {
      assert KindsAgree(before, fleet[i]) && ReturnsExpired(before, fleet[i]);
    }
    forall q | q in after.deadLetters
      ensures IsRetryQueue(fleet + [t], q)
    {
      RetryQueueOf(before, fleet, t, q);
    }
  }

  lemma {:induction false} RetryQueueOf(before: Wiring, fleet: seq<BrokerTopology>, t: BrokerTopology, q: string)
    requires q in before.deadLetters ==> IsRetryQueue(fleet, q)
    requires q in before.deadLetters || q == t.retryQueue
    ensures IsRetryQueue(fleet + [t], q)
  {
    if q in before.deadLetters {
      var i :| 0 <= i < |fleet| && fleet[i].retryQueue == q;
      assert (fleet + [t])[i].retryQueue == q;
    } else {
      assert (fleet + [t])[|fleet|].retryQueue == q;
    }
  }

  /** Worker `i` declares itself between two states of the broker's wiring. */
  ghost predicate DeclaresNext(wirings: seq<Wiring>, fleet: seq<BrokerTopology>, i: nat)
    requires |wirings| == |fleet| + 1 && i < |fleet|
  {
    Adds(wirings[i], wirings[i + 1], fleet[i]) && KindsAgree(wirings[i + 1], fleet[i])
  }

  /** A broker that started empty, each worker declaring in turn: after `n` workers it
      is wired for those `n`. */
  lemma {:induction false} FleetIsWired(wirings: seq<Wiring>, fleet: seq<BrokerTopology>, n: nat)
    requires |wirings| == |fleet| + 1 && wirings[0] == Wiring(map[], {}, map[]) && n <= |fleet|
    requires forall i :: 0 <= i < |fleet| ==> DeclaresNext(wirings, fleet, i)
    ensures WiredFor(wirings[n], fleet[..n])
  {
    if n > 0 {
      TakeOneMore(fleet, n - 1);
      FleetIsWired(wirings, fleet, n - 1);
      assert DeclaresNext(wirings, fleet, n - 1);
      FleetGrows(wirings[n - 1], wirings[n], fleet[..n - 1], fleet[n - 1]);
    }
  }

  lemma {:induction false} FirstOf(asked: seq<Ask>, i: nat) returns (j: nat)
    requires i < |asked|
    ensures FirstAsk(asked, j) && asked[j].name == asked[i].name
    decreases i
  {
    j := i;
    if k :| 0 <= k < i && asked[k].name == asked[i].name {
      j := FirstOf(asked, k);
    }
  }

  lemma {:induction false} SameNameSameKind(t: BrokerTopology, i: nat, j: nat)
    requires ConsistentTypes(t) && i < |Asked(t)| && j < |Asked(t)| && Asked(t)[i].name == Asked(t)[j].name
    ensures Asked(t)[i].kind == Asked(t)[j].kind
  {
  }

  /** A fresh connection leaves each exchange with the type this worker asked for. */
  lemma {:induction false} ExchangesAgree(w: Wiring, t: BrokerTopology)
    requires NoneRefused({}, w.kinds, Asked(t)) && ConsistentTypes(t)
    ensures KindsAgree(w.(kinds := InOrder({}, w.kinds, Asked(t)).kinds), t)
  {
    var asked := Asked(t);
    InOrderIff({}, w.kinds, asked);
    InOrderIntroduces({}, w.kinds, asked);
    var after := InOrder({}, w.kinds, asked).kinds;
    forall i: nat | i < |asked|
      ensures asked[i].name in after && after[asked[i].name] == asked[i].kind
    {
      var j := FirstOf(asked, i);
      SameNameSameKind(t, i, j);
    }
    assert asked[0].name in after && asked[1].name in after && asked[2].name in after && asked[3].name in after &&
           asked[4].name in after;
  }

  /** What fits is added, whatever the connection had declared before. */
  lemma {:induction false} QueuesAdd(b: BrokerTables, before: Wiring, t: BrokerTopology)
    requires Orderly(b) && QueuesFit(b, t) && Keeps(before.kinds, b.wiring.kinds)
    requires before.bindings == b.wiring.bindings && before.deadLetters == b.wiring.deadLetters
    ensures Adds(before, WithQueues(b, t).wiring, t)
  {
    assert WithQueues(b, t).wiring.bindings == before.bindings + BindingsOf(t);
  }

  // ----- fleets ------------------------------------------------------------

  /** Two workers get on: exchanges both ask for have one type; neither's retry queue is
      the other's primary or error queue; a shared retry queue is declared alike. */
  ghost predicate GetOn(t: BrokerTopology, u: BrokerTopology) {
    (forall i: nat, j: nat :: FirstAsk(Asked(t), i) && FirstAsk(Asked(u), j) && Asked(t)[i].name == Asked(u)[j].name ==>
       Asked(t)[i].kind == Asked(u)[j].kind) &&
    t.retryQueue != u.primaryQueue && t.retryQueue != u.errorQueue &&
    u.retryQueue != t.primaryQueue && u.retryQueue != t.errorQueue &&
    (t.retryQueue == u.retryQueue ==>
       t.ReturnTarget() == u.ReturnTarget() && t.retryMessageTtlMs == u.retryMessageTtlMs)
  }

  ghost predicate Compatible(fleet: seq<BrokerTopology>) {
    forall i, j :: 0 <= i < |fleet| && 0 <= j < |fleet| ==> GetOn(fleet[i], fleet[j])
  }

  /** The broker after all of them declared themselves, each on a connection of its own. */
  function JoinedAll(fleet: seq<BrokerTopology>): BrokerTables {
    if fleet == [] then NO_TABLES else Joined(JoinedAll(fleet[..|fleet| - 1]), fleet[|fleet| - 1])
  }

  /** Each of them succeeded in its turn. */
  ghost predicate AllFit(fleet: seq<BrokerTopology>) {
    fleet == [] || (AllFit(fleet[..|fleet| - 1]) && Fits(JoinedAll(fleet[..|fleet| - 1]), fleet[|fleet| - 1]))
  }

  /** Some worker asks for that exchange with that type. */
  ghost predicate AsksFor(t: BrokerTopology, name: string, kind: ExchangeKind) {
    exists i: nat :: FirstAsk(Asked(t), i) && Asked(t)[i] == Ask(name, kind)
  }

  ghost predicate ToldBySome(fleet: seq<BrokerTopology>, name: string, kind: ExchangeKind) {
    exists i :: 0 <= i < |fleet| && AsksFor(fleet[i], name, kind)
  }

  ghost predicate NamedBySome(fleet: seq<BrokerTopology>, queue: string) {
    exists i :: 0 <= i < |fleet| && queue in {fleet[i].primaryQueue, fleet[i].retryQueue, fleet[i].errorQueue}
  }

  ghost predicate RetriesOfSome(fleet: seq<BrokerTopology>, queue: string) {
    exists i :: 0 <= i < |fleet| && fleet[i].retryQueue == queue
  }

  /** What a worker told the broker is what the broker has. */
  ghost predicate Kept(b: BrokerTables, t: BrokerTopology) {
    (forall name, kind :: AsksFor(t, name, kind) ==> name in b.wiring.kinds && b.wiring.kinds[name] == kind) &&
    {t.primaryQueue, t.retryQueue, t.errorQueue} <= b.names &&
    t.primaryQueue !in b.wiring.deadLetters && t.errorQueue !in b.wiring.deadLetters &&
    t.retryQueue in b.wiring.deadLetters && b.wiring.deadLetters[t.retryQueue] == t.ReturnTarget() &&
    t.retryQueue in b.ttls && b.ttls[t.retryQueue] == t.retryMessageTtlMs
  }

  /** The broker has what the fleet told it, and nothing else. */
  ghost predicate Told(fleet: seq<BrokerTopology>, b: BrokerTables) {
    Orderly(b) && (forall i :: 0 <= i < |fleet| ==> Kept(b, fleet[i])) && NothingElse(fleet, b)
  }

  ghost predicate NothingElse(fleet: seq<BrokerTopology>, b: BrokerTables) {
    (forall name :: name in b.wiring.kinds ==> ToldBySome(fleet, name, b.wiring.kinds[name])) &&
    (forall queue :: queue in b.names ==> NamedBySome(fleet, queue)) &&
    (forall queue :: queue in b.wiring.deadLetters ==> RetriesOfSome(fleet, queue))
  }

  lemma {:induction false} JoinedKeeps(b: BrokerTables, t: BrokerTopology, u: BrokerTopology)
    requires Orderly(b) && Fits(b, t) && (u == t || Kept(b, u))
    ensures Kept(Joined(b, t), u)
  {
    InOrderIff({}, b.wiring.kinds, Asked(t));
    InOrderIntroduces({}, b.wiring.kinds, Asked(t));
  }

  lemma {:induction false} OneMoreExchange(fleet: seq<BrokerTopology>, b: BrokerTables, t: BrokerTopology, name: string)
    requires Fits(b, t) && name in Joined(b, t).wiring.kinds
    requires name in b.wiring.kinds ==> ToldBySome(fleet, name, b.wiring.kinds[name])
    ensures ToldBySome(fleet + [t], name, Joined(b, t).wiring.kinds[name])
  {
    var all, later := fleet + [t], Joined(b, t);
    InOrderIff({}, b.wiring.kinds, Asked(t));
    InOrderIntroduces({}, b.wiring.kinds, Asked(t));
    if name in b.wiring.kinds {
      var i :| 0 <= i < |fleet| && AsksFor(fleet[i], name, b.wiring.kinds[name]);
      assert all[i] == fleet[i];
    } else {
      var k :| 0 <= k < |Asked(t)| && Asked(t)[k].name == name;
      var j := FirstOf(Asked(t), k);
      assert AsksFor(all[|fleet|], name, later.wiring.kinds[name]);
    }
  }

  lemma {:induction false} OneMoreQueue(fleet: seq<BrokerTopology>, t: BrokerTopology, queue: string)
    ensures NamedBySome(fleet, queue) || queue in {t.primaryQueue, t.retryQueue, t.errorQueue} ==>
              NamedBySome(fleet + [t], queue)
    ensures RetriesOfSome(fleet, queue) || queue == t.retryQueue ==> RetriesOfSome(fleet + [t], queue)
  {
    var all := fleet + [t];
    assert all[|fleet|] == t;
    if i :| 0 <= i < |fleet| && queue in {fleet[i].primaryQueue, fleet[i].retryQueue, fleet[i].errorQueue} {
      assert all[i] == fleet[i];
    }
    if i :| 0 <= i < |fleet| && fleet[i].retryQueue == queue {
      assert all[i] == fleet[i];
    }
  }

  lemma {:induction false} NothingElseComes(fleet: seq<BrokerTopology>, b: BrokerTables, t: BrokerTopology)
    requires NothingElse(fleet, b) && Fits(b, t)
    ensures NothingElse(fleet + [t], Joined(b, t))
  {
    var later := Joined(b, t);
    forall name | name in later.wiring.kinds
      ensures ToldBySome(fleet + [t], name, later.wiring.kinds[name])
    {
      OneMoreExchange(fleet, b, t, name);
    }
    forall queue | queue in later.names
      ensures NamedBySome(fleet + [t], queue)
    {
      OneMoreQueue(fleet, t, queue);
    }
    forall queue | queue in later.wiring.deadLetters
      ensures RetriesOfSome(fleet + [t], queue)
    {
      OneMoreQueue(fleet, t, queue);
    }
  }

  lemma {:induction false} TellsOneMore(fleet: seq<BrokerTopology>, b: BrokerTables, t: BrokerTopology)
    requires Told(fleet, b) && Fits(b, t)
    ensures Told(fleet + [t], Joined(b, t))
  {
    var all := fleet + [t];
    forall i | 0 <= i < |all|
      ensures Kept(Joined(b, t), all[i])
    {
      assert i < |fleet| ==> Kept(b, fleet[i]);
      JoinedKeeps(b, t, all[i]);
    }
    NothingElseComes(fleet, b, t);
  }

  lemma {:induction false} FleetIsTold(fleet: seq<BrokerTopology>)
    requires AllFit(fleet)
    ensures Told(fleet, JoinedAll(fleet))
  {
    if fleet != [] {
      var most, last := fleet[..|fleet| - 1], fleet[|fleet| - 1];
      assert fleet == most + [last];
      FleetIsTold(most);
      TellsOneMore(most, JoinedAll(most), last);
    }
  }

  /** A worker fits behind a fleet exactly when it gets on with itself and everybody. */
  lemma {:induction false} FitsBehindIff(fleet: seq<BrokerTopology>, b: BrokerTables, t: BrokerTopology)
    requires Told(fleet, b)
    ensures Fits(b, t) <==> GetOn(t, t) && forall i :: 0 <= i < |fleet| ==> GetOn(fleet[i], t)
  {
    if Fits(b, t) {
      forall i | 0 <= i < |fleet|
        ensures GetOn(fleet[i], t)
      {
        assert Kept(b, fleet[i]);
        FittingGetsOn(b, fleet[i], t);
      }
    }
    if GetOn(t, t) && forall i :: 0 <= i < |fleet| ==> GetOn(fleet[i], t) {
      GettingOnFits(fleet, b, t);
    }
  }

  lemma {:induction false} FittingGetsOn(b: BrokerTables, u: BrokerTopology, t: BrokerTopology)
    requires Orderly(b) && Kept(b, u) && Fits(b, t)
    ensures GetOn(u, t)
  {
    forall i: nat, j: nat | FirstAsk(Asked(u), i) && FirstAsk(Asked(t), j) && Asked(u)[i].name == Asked(t)[j].name
      ensures Asked(u)[i].kind == Asked(t)[j].kind
    {
      assert AsksFor(u, Asked(u)[i].name, Asked(u)[i].kind);
    }
  }

  lemma {:induction false} GettingOnFits(fleet: seq<BrokerTopology>, b: BrokerTables, t: BrokerTopology)
    requires Told(fleet, b) && GetOn(t, t) && forall i :: 0 <= i < |fleet| ==> GetOn(fleet[i], t)
    ensures Fits(b, t)
  {
    forall j: nat | FirstAsk(Asked(t), j) && Asked(t)[j].name in b.wiring.kinds
      ensures b.wiring.kinds[Asked(t)[j].name] == Asked(t)[j].kind
    {
      var name := Asked(t)[j].name;
      assert ToldBySome(fleet, name, b.wiring.kinds[name]);
      var i :| 0 <= i < |fleet| && AsksFor(fleet[i], name, b.wiring.kinds[name]);
      assert GetOn(fleet[i], t);
    }
    assert t.primaryQueue in b.wiring.deadLetters ==> RetriesOfSome(fleet, t.primaryQueue);
    assert t.errorQueue in b.wiring.deadLetters ==> RetriesOfSome(fleet, t.errorQueue);
    if t.retryQueue in b.names {
      assert NamedBySome(fleet, t.retryQueue);
      var i :| 0 <= i < |fleet| && t.retryQueue in {fleet[i].primaryQueue, fleet[i].retryQueue, fleet[i].errorQueue};
      assert GetOn(fleet[i], t) && Kept(b, fleet[i]);
    }
  }

  /** Exactly which fleets can be declared, one worker after another on an empty broker:
      those whose members get on with each other. So the order does not matter. */
  lemma {:induction false} FleetDeclaresIff(fleet: seq<BrokerTopology>)
    ensures AllFit(fleet) <==> Compatible(fleet)
  {
    if fleet != [] {
      var most, last := fleet[..|fleet| - 1], fleet[|fleet| - 1];
      FleetDeclaresIff(most);
      if AllFit(most) {
        FleetIsTold(most);
        FitsBehindIff(most, JoinedAll(most), last);
      }
      CompatibleWithLast(fleet);
    }
  }

  lemma {:induction false} CompatibleWithLast(fleet: seq<BrokerTopology>)
    requires fleet != []
    ensures var most, last := fleet[..|fleet| - 1], fleet[|fleet| - 1];
            Compatible(fleet) <==>
              Compatible(most) && GetOn(last, last) && forall i :: 0 <= i < |most| ==> GetOn(most[i], last)
  {
    var most, last := fleet[..|fleet| - 1], fleet[|fleet| - 1];
    if Compatible(fleet) {
      forall i | 0 <= i < |most|
        ensures GetOn(most[i], last)
      {
        assert GetOn(fleet[i], fleet[|fleet| - 1]);
      }
      forall i, j | 0 <= i < |most| && 0 <= j < |most|
        ensures GetOn(most[i], most[j])
      {
        assert GetOn(fleet[i], fleet[j]);
      }
    } else if Compatible(most) && GetOn(last, last) && forall i :: 0 <= i < |most| ==> GetOn(most[i], last) {
      forall i, j | 0 <= i < |fleet| && 0 <= j < |fleet|
        ensures GetOn(fleet[i], fleet[j])
      {
        EverybodyGetsOn(fleet, i, j);
      }
    }
  }

  lemma {:induction false} EverybodyGetsOn(fleet: seq<BrokerTopology>, i: nat, j: nat)
    requires i < |fleet| && j < |fleet|
    requires var most, last := fleet[..|fleet| - 1], fleet[|fleet| - 1];
             Compatible(most) && GetOn(last, last) && forall i :: 0 <= i < |most| ==> GetOn(most[i], last)
    ensures GetOn(fleet[i], fleet[j])
  {
    var most := fleet[..|fleet| - 1];
    if i < |most| && j < |most| {
      assert GetOn(most[i], most[j]);
    } else if i < |most| {
      assert GetOn(most[i], fleet[j]);
    } else if j < |most| {
      assert GetOn(most[j], fleet[i]);
    }
  }
}
