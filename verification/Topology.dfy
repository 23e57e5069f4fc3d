/** The exchanges, queues and bindings one worker declares, and where the broker
    routes what is published to them. */
module Topology {
  import opened Envelope
  import Text

  const RETRY_RETURN_SUFFIX := ".retry"

  datatype ExchangeKind = Direct | Topic | Fanout | HeaderMatch

  /** A configured exchange type: one of the four names, or anything else. */
  datatype ExchangeType = Named(kind: ExchangeKind) | Unrecognized(name: string)

  /** Unrecognized exchange types are declared as topic exchanges. */
  function KindOf(exchangeType: ExchangeType): ExchangeKind {
    match exchangeType
    case Named(kind) => kind
    case Unrecognized(_) => Topic
  }

  datatype Target = Target(exchange: string, key: string)

  datatype BrokerTopology = BrokerTopology(
    appName: string,
    primaryExchange: string, primaryExchangeType: ExchangeType,
    primaryQueue: string, primaryBindingKey: string,
    retryExchange: string, retryExchangeType: ExchangeType,
    retryQueue: string, retryBindingKey: string, retryMessageTtlMs: int,
    retryDeadLetterExchange: string, retryDeadLetterRoutingKey: string,
    primaryRetryBindingExchange: string, primaryRetryBindingKey: string,
    errorExchange: string, errorExchangeType: ExchangeType,
    errorQueue: string, errorRoutingKey: string,
    immediateRetries: int, delayedRetries: int)
  {
    function ResolvedRetryDeadLetterExchange(): string {
      if retryDeadLetterExchange != "" then retryDeadLetterExchange else retryExchange
    }

    function ResolvedRetryDeadLetterRoutingKey(): string {
      if retryDeadLetterRoutingKey != "" then retryDeadLetterRoutingKey
      else primaryQueue + RETRY_RETURN_SUFFIX
    }

    function ResolvedPrimaryRetryBindingExchange(): string {
      if primaryRetryBindingExchange != "" then primaryRetryBindingExchange
      else ResolvedRetryDeadLetterExchange()
    }

    function ResolvedPrimaryRetryBindingKey(): string {
      if primaryRetryBindingKey != "" then primaryRetryBindingKey
      else ResolvedRetryDeadLetterRoutingKey()
    }

    /** Where the retry queue sends what expires in it. */
    function ReturnTarget(): Target {
      Target(ResolvedRetryDeadLetterExchange(), ResolvedRetryDeadLetterRoutingKey())
    }

    function RetryTarget(): Target { Target(retryExchange, retryBindingKey) }

    function ErrorTarget(): Target { Target(errorExchange, errorRoutingKey) }

    /** The whole return path is left for the properties to derive. */
    predicate Derived() {
      retryDeadLetterExchange == "" && retryDeadLetterRoutingKey == "" &&
      primaryRetryBindingExchange == "" && primaryRetryBindingKey == ""
    }
  }

  datatype Binding = Binding(exchange: string, key: string, queue: string)

  function PrimaryBinding(t: BrokerTopology): Binding {
    Binding(t.primaryExchange, t.primaryBindingKey, t.primaryQueue)
  }

  function ReturnBinding(t: BrokerTopology): Binding {
    Binding(t.ResolvedPrimaryRetryBindingExchange(), t.ResolvedPrimaryRetryBindingKey(), t.primaryQueue)
  }

  function RetryBinding(t: BrokerTopology): Binding {
    Binding(t.retryExchange, t.retryBindingKey, t.retryQueue)
  }

  function ErrorBinding(t: BrokerTopology): Binding {
    Binding(t.errorExchange, t.errorRoutingKey, t.errorQueue)
  }

  function BindingsOf(t: BrokerTopology): set<Binding> {
    {PrimaryBinding(t), ReturnBinding(t), RetryBinding(t), ErrorBinding(t)}
  }

  /** What the broker knows: exchange kinds, bindings and queue arguments. */
  datatype Wiring = Wiring(
    kinds: map<string, ExchangeKind>,
    bindings: set<Binding>,
    deadLetters: map<string, Target>)

  predicate TopicMatches(pattern: seq<string>, words: seq<string>)
    decreases |pattern| + |words|
  {
    if pattern == [] then words == []
    else if pattern[0] == "#" then
      TopicMatches(pattern[1..], words) || (words != [] && TopicMatches(pattern, words[1..]))
    else
      words != [] && (pattern[0] == "*" || pattern[0] == words[0]) &&
      TopicMatches(pattern[1..], words[1..])
  }

  function Flat(shares: seq<seq<string>>): seq<string> {
    if shares == [] then [] else shares[0] + Flat(shares[1..])
  }

  /** What one element of a pattern takes: any words, one word, or that very word. */
  predicate TakesShare(element: string, share: seq<string>) {
    if element == "#" then true else if element == "*" then |share| == 1 else share == [element]
  }

  /** The key's words, shared out among the elements of the pattern in order. */
  predicate SharedOut(pattern: seq<string>, words: seq<string>, shares: seq<seq<string>>) {
    |shares| == |pattern| && Flat(shares) == words &&
    forall i :: 0 <= i < |pattern| ==> TakesShare(pattern[i], shares[i])
  }

  lemma {:induction false} SharesExist(pattern: seq<string>, words: seq<string>) returns (shares: seq<seq<string>>)
    requires TopicMatches(pattern, words)
    ensures SharedOut(pattern, words, shares)
    decreases |pattern| + |words|
  {
    if pattern == [] {
      shares := [];
    } else if pattern[0] == "#" && !TopicMatches(pattern[1..], words) {
      var rest := SharesExist(pattern, words[1..]);
      shares := [[words[0]] + rest[0]] + rest[1..];
      assert Flat(shares) == [words[0]] + rest[0] + Flat(rest[1..]) == [words[0]] + Flat(rest);
    } else {
      var share := if pattern[0] == "#" then [] else [words[0]];
      var rest := SharesExist(pattern[1..], words[|share|..]);
      shares := [share] + rest;
      assert words == share + words[|share|..];
    }
  }

  lemma {:induction false} SharesMatch(pattern: seq<string>, words: seq<string>, shares: seq<seq<string>>)
    requires SharedOut(pattern, words, shares)
    ensures TopicMatches(pattern, words)
    decreases |pattern| + |words|
  {
    if pattern != [] {
      assert TakesShare(pattern[0], shares[0]);
      if pattern[0] == "#" && shares[0] != [] {
        var fewer := [shares[0][1..]] + shares[1..];
        assert Flat(fewer) == shares[0][1..] + Flat(shares[1..]) == words[1..];
        SharesMatch(pattern, words[1..], fewer);
      } else {
        assert Flat(shares[1..]) == words[|shares[0]|..];
        SharesMatch(pattern[1..], words[|shares[0]|..], shares[1..]);
      }
    }
  }

  /** Topic matching, both ways: a pattern takes a key exactly when the key's words can be
      shared out among its elements. */
  lemma {:induction false} TopicMatchesIff(pattern: seq<string>, words: seq<string>)
    ensures TopicMatches(pattern, words) <==> exists shares :: SharedOut(pattern, words, shares)
  {
    if TopicMatches(pattern, words) {
      var shares := SharesExist(pattern, words);
    }
    if shares :| SharedOut(pattern, words, shares) {
      SharesMatch(pattern, words, shares);
    }
  }

  /** Bindings carry no header arguments, so a headers exchange matches anything. */
  predicate Matches(kind: ExchangeKind, pattern: string, key: string) {
    match kind
    case Direct => pattern == key
    case Topic => TopicMatches(Text.Split(pattern, '.'), Text.Split(key, '.'))
    case Fanout => true
    case HeaderMatch => true
  }

  predicate Takes(w: Wiring, b: Binding, target: Target) {
    b.exchange == target.exchange && target.exchange in w.kinds &&
    Matches(w.kinds[target.exchange], b.key, target.key)
  }

  /** The queues a publication to that exchange and key lands in. */
  function Route(w: Wiring, target: Target): set<string> {
    set b | b in w.bindings && Takes(w, b, target) :: b.queue
  }

  /** The binding takes the message, by the exchange's type: its key is the routing key,
      its words can be shared out among the pattern, or nothing is asked. */
  ghost predicate Meant(kind: ExchangeKind, pattern: string, key: string) {
    match kind
    case Direct => pattern == key
    case Topic => exists shares :: SharedOut(Text.Split(pattern, '.'), Text.Split(key, '.'), shares)
    case Fanout => true
    case HeaderMatch => true
  }

  /** Which queues a message reaches. An exchange nobody declared leads nowhere, and a type
      nobody knows is a topic exchange. */
  lemma {:induction false} RoutesExactly(w: Wiring, target: Target, queue: string)
    ensures queue in Route(w, target) <==>
              target.exchange in w.kinds &&
              exists key :: Binding(target.exchange, key, queue) in w.bindings &&
                            Meant(w.kinds[target.exchange], key, target.key)
    ensures forall name :: KindOf(Unrecognized(name)) == Topic
    ensures forall kind :: KindOf(Named(kind)) == kind
  {
    if queue in Route(w, target) {
      var b :| b in w.bindings && Takes(w, b, target) && b.queue == queue;
      TopicMatchesIff(Text.Split(b.key, '.'), Text.Split(target.key, '.'));
      assert Binding(target.exchange, b.key, queue) in w.bindings;
    }
    if target.exchange in w.kinds {
      if key :| Binding(target.exchange, key, queue) in w.bindings &&
                Meant(w.kinds[target.exchange], key, target.key) {
        TopicMatchesIff(Text.Split(key, '.'), Text.Split(target.key, '.'));
        assert Takes(w, Binding(target.exchange, key, queue), target);
      }
    }
  }

  /** A broker's routing, as the function it is. */
  type Routes = Target -> set<string>

  function RoutesOf(w: Wiring): Routes {
    target => Route(w, target)
  }

  type Queues = map<string, multiset<Copy>>

  function Ready(queues: Queues, queue: string): multiset<Copy> {
    if queue in queues then queues[queue] else multiset{}
  }

  /** One copy in each of the target queues; every other queue as it was. */
  function Enqueue(queues: Queues, targets: set<string>, c: Copy): (r: Queues)
    ensures forall q :: Ready(r, q) == Ready(queues, q) + if q in targets then multiset{c} else multiset{}
  {
    map q | q in queues.Keys + targets :: Ready(queues, q) + if q in targets then multiset{c} else multiset{}
  }

  function Remove(queues: Queues, queue: string, c: Copy): (r: Queues)
    ensures forall q :: Ready(r, q) == Ready(queues, q) - if q == queue then multiset{c} else multiset{}
  {
    if queue in queues then queues[queue := queues[queue] - multiset{c}] else queues
  }

  function DescriptorOf(t: BrokerTopology, mtype: MessageType): Descriptor {
    Descriptor(t.appName, mtype,
               t.ResolvedRetryDeadLetterExchange(), t.ResolvedRetryDeadLetterRoutingKey())
  }

  ghost predicate Keeps<T>(before: map<string, T>, after: map<string, T>) {
    forall x :: x in before ==> x in after && after[x] == before[x]
  }

  /** Bindings hang off declared exchanges. */
  ghost predicate Anchored(w: Wiring) {
    forall b :: b in w.bindings ==> b.exchange in w.kinds
  }

  /** Declaring further exchanges moves no route. */
  lemma {:induction false} RouteStable(w: Wiring, v: Wiring, target: Target)
    requires Anchored(w) && v.bindings == w.bindings && Keeps(w.kinds, v.kinds)
    ensures Route(v, target) == Route(w, target)
  {
    forall b | b in w.bindings
      ensures Takes(v, b, target) <==> Takes(w, b, target)
    {
    }
  }

  // ----- a fleet of workers ------------------------------------------------

  /** What a fleet of workers binds between them, one declaration after another. */
  function FleetBindings(fleet: seq<BrokerTopology>): set<Binding> {
    if fleet == [] then {}
    else FleetBindings(fleet[..|fleet| - 1]) + BindingsOf(fleet[|fleet| - 1])
  }

  lemma {:induction false} FleetDeclares(fleet: seq<BrokerTopology>, i: nat)
    requires i < |fleet|
    ensures BindingsOf(fleet[i]) <= FleetBindings(fleet)
  {
    if i < |fleet| - 1 {
      FleetDeclares(fleet[..|fleet| - 1], i);
    }
  }

  lemma {:induction false} DeclaredBySome(fleet: seq<BrokerTopology>, b: Binding) returns (i: nat)
    requires b in FleetBindings(fleet)
    ensures i < |fleet| && b in BindingsOf(fleet[i])
  {
    if b in BindingsOf(fleet[|fleet| - 1]) {
      i := |fleet| - 1;
    } else {
      i := DeclaredBySome(fleet[..|fleet| - 1], b);
    }
  }

  predicate HasKind(w: Wiring, exchange: string, kind: ExchangeKind) {
    exchange in w.kinds && w.kinds[exchange] == kind
  }

  /** Each exchange exists with the type this worker asked for. */
  predicate KindsAgree(w: Wiring, t: BrokerTopology) {
    HasKind(w, t.primaryExchange, KindOf(t.primaryExchangeType)) &&
    HasKind(w, t.retryExchange, KindOf(t.retryExchangeType)) &&
    HasKind(w, t.errorExchange, KindOf(t.errorExchangeType)) &&
    HasKind(w, t.ResolvedRetryDeadLetterExchange(), KindOf(t.retryExchangeType)) &&
    HasKind(w, t.ResolvedPrimaryRetryBindingExchange(), KindOf(t.retryExchangeType))
  }

  predicate ReturnsExpired(w: Wiring, t: BrokerTopology) {
    t.retryQueue in w.deadLetters && w.deadLetters[t.retryQueue] == t.ReturnTarget()
  }

  /** The wiring after every worker of the fleet declared its topology. */
  ghost predicate WiredFor(w: Wiring, fleet: seq<BrokerTopology>) {
    w.bindings == FleetBindings(fleet) &&
    (forall i :: 0 <= i < |fleet| ==> KindsAgree(w, fleet[i]) && ReturnsExpired(w, fleet[i])) &&
    (forall q :: q in w.deadLetters ==> IsRetryQueue(fleet, q))
  }

  ghost predicate IsRetryQueue(fleet: seq<BrokerTopology>, q: string) {
    exists i :: 0 <= i < |fleet| && fleet[i].retryQueue == q
  }

  ghost predicate DistinctQueues(fleet: seq<BrokerTopology>) {
    forall i, j :: 0 <= i < j < |fleet| ==> fleet[i].primaryQueue != fleet[j].primaryQueue
  }

  predicate SitsOn(b: Binding, target: Target) {
    Target(b.exchange, b.key) == target
  }

  /** Some binding of this worker's declaration takes the target to that queue. */
  predicate Serves(t: BrokerTopology, target: Target, home: string) {
    (SitsOn(PrimaryBinding(t), target) && t.primaryQueue == home) ||
    (SitsOn(ReturnBinding(t), target) && t.primaryQueue == home) ||
    (SitsOn(RetryBinding(t), target) && t.retryQueue == home) ||
    (SitsOn(ErrorBinding(t), target) && t.errorQueue == home)
  }

  /** Some binding of this worker's declaration takes the target to another queue. */
  predicate Intrudes(t: BrokerTopology, target: Target, home: string) {
    (SitsOn(PrimaryBinding(t), target) && t.primaryQueue != home) ||
    (SitsOn(ReturnBinding(t), target) && t.primaryQueue != home) ||
    (SitsOn(RetryBinding(t), target) && t.retryQueue != home) ||
    (SitsOn(ErrorBinding(t), target) && t.errorQueue != home)
  }

  lemma {:induction false} BoundTo(w: Wiring, fleet: seq<BrokerTopology>, i: nat, b: Binding, target: Target)
    requires WiredFor(w, fleet) && i < |fleet| && b in BindingsOf(fleet[i])
    requires Takes(w, b, target)
    ensures b.queue in Route(w, target)
  {
    FleetDeclares(fleet, i);
  }

  /** Some worker of the fleet binds that queue to the target. */
  ghost predicate Bound(fleet: seq<BrokerTopology>, target: Target, queue: string) {
    exists j :: 0 <= j < |fleet| && Serves(fleet[j], target, queue)
  }

  /** On a direct exchange, a queue receives exactly what some worker binds it to. */
  lemma {:induction false} ServedIffRouted(w: Wiring, fleet: seq<BrokerTopology>, target: Target, queue: string)
    requires WiredFor(w, fleet) && HasKind(w, target.exchange, Direct)
    ensures queue in Route(w, target) <==> Bound(fleet, target, queue)
  {
    if queue in Route(w, target) {
      var b :| b in w.bindings && Takes(w, b, target) && b.queue == queue;
      var j := DeclaredBySome(fleet, b);
      assert Serves(fleet[j], target, queue);
    }
    if j :| 0 <= j < |fleet| && Serves(fleet[j], target, queue) {
      var b := ServingBinding(fleet[j], target, queue);
      BoundTo(w, fleet, j, b, target);
    }
  }

  lemma {:induction false} ServingBinding(t: BrokerTopology, target: Target, queue: string) returns (b: Binding)
    requires Serves(t, target, queue)
    ensures b in BindingsOf(t) && SitsOn(b, target) && b.queue == queue
  {
    b := if SitsOn(PrimaryBinding(t), target) && t.primaryQueue == queue then PrimaryBinding(t)
         else if SitsOn(ReturnBinding(t), target) && t.primaryQueue == queue then ReturnBinding(t)
         else if SitsOn(RetryBinding(t), target) && t.retryQueue == queue then RetryBinding(t) else ErrorBinding(t);
  }

  ghost predicate NobodyIntrudes(fleet: seq<BrokerTopology>, target: Target, home: string) {
    forall j :: 0 <= j < |fleet| ==> !Intrudes(fleet[j], target, home)
  }

  lemma {:induction false} IntruderServesAnother(t: BrokerTopology, target: Target, home: string)
    returns (other: string)
    requires Intrudes(t, target, home)
    ensures other != home && Serves(t, target, other)
  {
    other := if SitsOn(PrimaryBinding(t), target) && t.primaryQueue != home then t.primaryQueue
             else if SitsOn(ReturnBinding(t), target) && t.primaryQueue != home then t.primaryQueue
             else if SitsOn(RetryBinding(t), target) && t.retryQueue != home then t.retryQueue else t.errorQueue;
  }

  lemma {:induction false} HomeAloneHasNoIntruder(w: Wiring, fleet: seq<BrokerTopology>, target: Target, home: string,
                                                  j: nat)
    requires WiredFor(w, fleet) && HasKind(w, target.exchange, Direct) && j < |fleet| && Route(w, target) == {home}
    ensures !Intrudes(fleet[j], target, home)
  {
    if Intrudes(fleet[j], target, home) {
      var other := IntruderServesAnother(fleet[j], target, home);
      ServedIffRouted(w, fleet, target, other);
    }
  }

  lemma {:induction false} NoIntruderLeavesHomeAlone(w: Wiring, fleet: seq<BrokerTopology>, target: Target,
                                                     home: string, queue: string)
    requires WiredFor(w, fleet) && HasKind(w, target.exchange, Direct) && NobodyIntrudes(fleet, target, home)
    requires queue in Route(w, target)
    ensures queue == home
  {
    ServedIffRouted(w, fleet, target, queue);
    var j :| 0 <= j < |fleet| && Serves(fleet[j], target, queue);
    assert !Intrudes(fleet[j], target, home);
  }

  /** However the return paths are configured: on a direct return exchange, an expired
      retry reaches exactly the queue that failed it if and only if some worker binds
      that queue to the return pair, and no binding of the fleet - primary, return,
      retry or error - takes the pair to another queue. */
  lemma {:induction false} RetryComesHomeIff(w: Wiring, fleet: seq<BrokerTopology>, i: nat)
    requires WiredFor(w, fleet) && i < |fleet| && KindOf(fleet[i].retryExchangeType) == Direct
    ensures var target, home := fleet[i].ReturnTarget(), fleet[i].primaryQueue;
            Route(w, target) == {home} <==> (Bound(fleet, target, home) && NobodyIntrudes(fleet, target, home))
  {
    var target, home := fleet[i].ReturnTarget(), fleet[i].primaryQueue;
    assert KindsAgree(w, fleet[i]);
    ServedIffRouted(w, fleet, target, home);
    if Route(w, target) == {home} {
      forall j | 0 <= j < |fleet|
        ensures !Intrudes(fleet[j], target, home)
      {
        HomeAloneHasNoIntruder(w, fleet, target, home, j);
      }
    }
    if NobodyIntrudes(fleet, target, home) {
      forall queue | queue in Route(w, target)
        ensures queue == home
      {
        NoIntruderLeavesHomeAlone(w, fleet, target, home, queue);
      }
    }
  }

  /** The return pair, derived or spelled out, names the worker's own queue on the
      return exchange, and the queue is bound to that very pair. */
  predicate ReturnsUnderItsOwnName(t: BrokerTopology) {
    t.ReturnTarget() == Target(t.retryExchange, t.primaryQueue + RETRY_RETURN_SUFFIX) &&
    SitsOn(ReturnBinding(t), t.ReturnTarget())
  }

  /** Left to the properties, or written out to the same values: it makes no difference. */
  lemma {:induction false} DerivedOrSpelledOut(t: BrokerTopology)
    ensures t.Derived() ==> ReturnsUnderItsOwnName(t)
    ensures t.retryDeadLetterExchange == t.primaryRetryBindingExchange == t.retryExchange &&
            t.retryDeadLetterRoutingKey == t.primaryRetryBindingKey == t.primaryQueue + ".retry" ==>
              ReturnsUnderItsOwnName(t)
    ensures ReturnsUnderItsOwnName(t) ==> t.ReturnTarget() == Target(t.retryExchange, t.primaryQueue + ".retry")
  {
  }

  /** The naming convention the documentation asks for: a retry key that ends in
      `.delayed-retry`, an error key that does not end in `.retry`, and neither does the
      key of a primary queue that hangs off a direct exchange. */
  predicate NamedByConvention(t: BrokerTopology) {
    ReturnsUnderItsOwnName(t) &&
    KindOf(t.retryExchangeType) == Direct &&
    (KindOf(t.primaryExchangeType) == Direct ==> !Text.EndsWith(t.primaryBindingKey, RETRY_RETURN_SUFFIX)) &&
    Text.EndsWith(t.retryBindingKey, ".delayed-retry") &&
    !Text.EndsWith(t.errorRoutingKey, RETRY_RETURN_SUFFIX)
  }

  /** A key cannot end both ways. */
  lemma {:induction false} SuffixesDiffer(key: string)
    requires Text.EndsWith(key, ".delayed-retry")
    ensures !Text.EndsWith(key, RETRY_RETURN_SUFFIX)
  {
    var longer := ".delayed-retry";
    assert key[|key| - 6..][0] == key[|key| - 14..][8] == longer[8];
  }

  lemma {:induction false} ConventionNeverIntrudes(w: Wiring, t: BrokerTopology, u: BrokerTopology)
    requires KindsAgree(w, t) && KindsAgree(w, u)
    requires NamedByConvention(t) && NamedByConvention(u) && (u.primaryQueue == t.primaryQueue ==> u == t)
    ensures !Intrudes(u, t.ReturnTarget(), t.primaryQueue)
  {
    Text.AppendedSuffix(t.primaryQueue, RETRY_RETURN_SUFFIX);
    SuffixesDiffer(u.retryBindingKey);
    if SitsOn(ReturnBinding(u), t.ReturnTarget()) {
      Text.SuffixCancels(u.primaryQueue, t.primaryQueue, RETRY_RETURN_SUFFIX);
    }
  }

  /** Every fleet named by the convention gets each expired retry, and each replay
      sent to the endpoint descriptor, back in exactly the queue that failed it. */
  lemma {:induction false} RetryComesHome(w: Wiring, fleet: seq<BrokerTopology>, i: nat, mtype: MessageType)
    requires WiredFor(w, fleet) && DistinctQueues(fleet) && i < |fleet|
    requires forall j :: 0 <= j < |fleet| ==> NamedByConvention(fleet[j])
    ensures Route(w, fleet[i].ReturnTarget()) == {fleet[i].primaryQueue}
    ensures var d := DescriptorOf(fleet[i], mtype);
            d.app == fleet[i].appName && Route(w, Target(d.exchange, d.routingKey)) == {fleet[i].primaryQueue}
  {
    forall j | 0 <= j < |fleet|
      ensures !Intrudes(fleet[j], fleet[i].ReturnTarget(), fleet[i].primaryQueue)
    {
      ConventionNeverIntrudes(w, fleet[i], fleet[j]);
    }
    assert Serves(fleet[i], fleet[i].ReturnTarget(), fleet[i].primaryQueue);
    RetryComesHomeIff(w, fleet, i);
  }

  /** Naming a retry key `<queue>.retry` is what goes wrong without the convention:
      the neighbour's expired retries are then routed into this retry queue too. */
  lemma {:induction false} RetryKeyClashMisroutes(w: Wiring, fleet: seq<BrokerTopology>, i: nat, j: nat)
    requires WiredFor(w, fleet) && i < |fleet| && j < |fleet| && KindOf(fleet[i].retryExchangeType) == Direct
    requires SitsOn(RetryBinding(fleet[j]), fleet[i].ReturnTarget())
    ensures fleet[j].retryQueue in Route(w, fleet[i].ReturnTarget())
  {
    assert KindsAgree(w, fleet[i]);
    assert Serves(fleet[j], fleet[i].ReturnTarget(), fleet[j].retryQueue);
    ServedIffRouted(w, fleet, fleet[i].ReturnTarget(), fleet[j].retryQueue);
  }

  /** Two workers pointed at one return key get each other's retries as well: then only
      the retry-endpoint header tells them apart. */
  lemma {:induction false} SharedReturnKeyReachesBoth(w: Wiring, fleet: seq<BrokerTopology>, i: nat, j: nat)
    requires WiredFor(w, fleet) && i < |fleet| && j < |fleet| && KindOf(fleet[i].retryExchangeType) == Direct
    requires SitsOn(ReturnBinding(fleet[i]), fleet[i].ReturnTarget()) &&
             SitsOn(ReturnBinding(fleet[j]), fleet[i].ReturnTarget())
    ensures {fleet[i].primaryQueue, fleet[j].primaryQueue} <= Route(w, fleet[i].ReturnTarget())
  {
    assert KindsAgree(w, fleet[i]);
    assert Serves(fleet[i], fleet[i].ReturnTarget(), fleet[i].primaryQueue);
    assert Serves(fleet[j], fleet[i].ReturnTarget(), fleet[j].primaryQueue);
    ServedIffRouted(w, fleet, fleet[i].ReturnTarget(), fleet[i].primaryQueue);
    ServedIffRouted(w, fleet, fleet[i].ReturnTarget(), fleet[j].primaryQueue);
  }
}
