/** One worker's connection to the broker: declaring the topology, publishing,
    rescheduling a failed message and parking it in the error queue. */
module Connection {
  import opened Common
  import opened Envelope
  import opened Topology
  import opened Declarations

  /** What a publication can do: be accepted, be refused, or be accepted while the
      confirmation is lost. */
  datatype PublishOutcome = Accepted | AcceptedButRaised | Raised

  predicate Arrives(outcome: PublishOutcome) { outcome != Raised }

  /** The copy a delayed retry puts back: one redelivery further along. */
  function RetryCopy(t: BrokerTopology, c: Copy): Copy {
    c.(headers := WithRetry(c.headers, t.appName))
  }

  /** The copy parked in the error queue, with the way back attached. */
  function DeadCopy(t: BrokerTopology, c: Copy, failures: seq<Failure>): Copy {
    c.(headers := WithFailure(c.headers, failures, DescriptorOf(t, c.content.mtype)))
  }

  /** What a publication comes to: it raises before the broker sees it, or the broker does
      with it what it does. */
  function Answer(cached: set<string>, kinds: map<string, ExchangeKind>, target: Target, outcome: PublishOutcome)
    : PublishOutcome {
    if Refuses(cached, kinds, target.exchange, Topic) then Raised else outcome
  }

  class Broker {
    var wiring: Wiring
    var ttls: map<string, int>  // per retry queue: its `x-message-ttl`
    var queues: Queues

    constructor ()
      ensures wiring == Wiring(map[], {}, map[]) && ttls == map[] && queues == map[]
    {
      wiring := Wiring(map[], {}, map[]);
      ttls := map[];
      queues := map[];
    }

    function Tables(): BrokerTables
      reads this
    {
      BrokerTables(wiring, ttls, queues.Keys)
    }

    /** Bindings hang off declared exchanges, dead-letter arguments off declared queues. */
    ghost predicate Valid()
      reads this
    {
      Orderly(Tables()) && Anchored(wiring)
    }

    /** Declaring an exchange again is refused when the type differs. */
    method DeclareExchange(name: string, kind: ExchangeKind) returns (ok: bool)
      modifies this`wiring
      ensures ok <==> (name !in old(wiring.kinds) || old(wiring.kinds)[name] == kind)
      ensures wiring == if ok then old(wiring).(kinds := Introduced(old(wiring.kinds), name, kind)) else old(wiring)
    {
      ok := name !in wiring.kinds || wiring.kinds[name] == kind;
      if ok {
        wiring := wiring.(kinds := Introduced(wiring.kinds, name, kind));
      }
    }

    /** A queue without arguments; refused when it exists with some. */
    method DeclareQueue(name: string) returns (ok: bool)
      requires Valid()
      modifies this`queues
      ensures Valid()
      ensures ok <==> name !in wiring.deadLetters
      ensures queues.Keys == old(queues.Keys) + if ok then {name} else {}
      ensures forall q :: Ready(queues, q) == Ready(old(queues), q)
    {
      ok := name !in wiring.deadLetters;
      if ok && name !in queues {
        queues := queues[name := multiset{}];
      }
    }

    /** A queue with a time to live and dead-letter arguments; refused when it exists
        with others. */
    method DeclareRetryQueue(name: string, target: Target, ttl: int) returns (ok: bool)
      requires Valid()
      modifies this
      ensures Valid()
      ensures ok <==> (name !in old(queues) ||
                       (name in old(wiring.deadLetters) && old(wiring.deadLetters)[name] == target &&
                        old(ttls)[name] == ttl))
      ensures wiring == if ok then old(wiring).(deadLetters := old(wiring.deadLetters)[name := target])
                        else old(wiring)
      ensures ttls == if ok then old(ttls)[name := ttl] else old(ttls)
      ensures queues.Keys == old(queues.Keys) + if ok then {name} else {}
      ensures forall q :: Ready(queues, q) == Ready(old(queues), q)
    {
      ok := name !in queues || (name in wiring.deadLetters && wiring.deadLetters[name] == target && ttls[name] == ttl);
      if ok {
        if name !in queues {
          queues := queues[name := multiset{}];
        }
        wiring := wiring.(deadLetters := wiring.deadLetters[name := target]);
        ttls := ttls[name := ttl];
      }
    }

    method Bind(b: Binding)
      requires Valid() && b.exchange in wiring.kinds
      modifies this`wiring
      ensures Valid()
      ensures wiring == old(wiring).(bindings := old(wiring.bindings) + {b})
    {
      wiring := wiring.(bindings := wiring.bindings + {b});
    }

    method Publish(target: Target, c: Copy, outcome: PublishOutcome) returns (confirmed: bool)
      modifies this`queues
      ensures confirmed <==> outcome == Accepted
      ensures old(queues.Keys) <= queues.Keys
      ensures queues == if Arrives(outcome) then Enqueue(old(queues), Route(wiring, target), c) else old(queues)
    {
      if Arrives(outcome) {
        queues := Enqueue(queues, Route(wiring, target), c);
      }
      confirmed := outcome == Accepted;
    }
  }

  class BrokerConnection {
    const topology: BrokerTopology
    const broker: Broker
    var exchanges: set<string>

    constructor (topology: BrokerTopology, broker: Broker)
      ensures this.topology == topology && this.broker == broker && exchanges == {}
    {
      this.topology := topology;
      this.broker := broker;
      exchanges := {};
    }

    /** Every cached exchange exists on the broker. */
    ghost predicate Valid()
      reads this, broker
    {
      exchanges <= broker.wiring.kinds.Keys && broker.Valid()
    }

    /** Declares once per connection; a cached name ignores the type argument. */
    method DeclareExchange(name: string, exchangeType: ExchangeType) returns (ok: bool)
      requires Valid()
      modifies this`exchanges, broker`wiring
      ensures Valid()
      ensures ok <==> !Refuses(old(exchanges), old(broker.wiring.kinds), name, KindOf(exchangeType))
      ensures exchanges == old(exchanges) + if ok then {name} else {}
      ensures broker.wiring == old(broker.wiring).(kinds :=
                if ok then Introduced(old(broker.wiring.kinds), name, KindOf(exchangeType))
                else old(broker.wiring.kinds))
    {
      if name in exchanges {
        return true;
      }
      ok := broker.DeclareExchange(name, KindOf(exchangeType));
      if ok {
        exchanges := exchanges + {name};
      }
    }

    method DeclarePublisherTopology() returns (ok: bool)
      requires Valid()
      modifies this`exchanges, broker`wiring
      ensures Valid()
      ensures ok <==> !Refuses(old(exchanges), old(broker.wiring.kinds), topology.primaryExchange,
                               KindOf(topology.primaryExchangeType))
      ensures exchanges == old(exchanges) + if ok then {topology.primaryExchange} else {}
      ensures broker.wiring == old(broker.wiring).(kinds :=
                if ok then Introduced(old(broker.wiring.kinds), topology.primaryExchange,
                                      KindOf(topology.primaryExchangeType))
                else old(broker.wiring.kinds))
    {
      ok := DeclareExchange(topology.primaryExchange, topology.primaryExchangeType);
    }

    /** The five exchanges; the first declaration of a name decides. It succeeds if and
        only if none of them is refused. */
    method DeclareExchanges() returns (ok: bool)
      requires Valid()
      modifies this`exchanges, broker`wiring
      ensures Valid()
      ensures ok <==> NoneRefused(old(exchanges), old(broker.wiring.kinds), Asked(topology))
      ensures Exchanges(exchanges, broker.wiring.kinds, ok)
           == InOrder(old(exchanges), old(broker.wiring.kinds), Asked(topology))
      ensures broker.wiring == old(broker.wiring).(kinds := broker.wiring.kinds)
    {
      InOrderIff(exchanges, broker.wiring.kinds, Asked(topology));
      InOrderAppend(exchanges, broker.wiring.kinds, AskedToWork(topology), AskedToReturn(topology));
      ok := DeclareWorkingExchanges();
      if ok {
        ok := DeclareReturnExchanges();
      }
    }

    method DeclareWorkingExchanges() returns (ok: bool)
      requires Valid()
      modifies this`exchanges, broker`wiring
      ensures Valid()
      ensures Exchanges(exchanges, broker.wiring.kinds, ok)
           == InOrder(old(exchanges), old(broker.wiring.kinds), AskedToWork(topology))
      ensures broker.wiring == old(broker.wiring).(kinds := broker.wiring.kinds)
    {
      ghost var all := InOrder(exchanges, broker.wiring.kinds, AskedToWork(topology));
      ghost var second := AskedToWork(topology)[1..];
      ghost var third := second[1..];
      ok := DeclareExchange(topology.primaryExchange, topology.primaryExchangeType);
      if !ok { return; }
      assert all == InOrder(exchanges, broker.wiring.kinds, second);
      ok := DeclareExchange(topology.retryExchange, topology.retryExchangeType);
      if !ok { return; }
      assert all == InOrder(exchanges, broker.wiring.kinds, third);
      ok := DeclareExchange(topology.errorExchange, topology.errorExchangeType);
      assert ok ==> all == InOrder(exchanges, broker.wiring.kinds, third[1..]) && third[1..] == [];
    }

    method DeclareReturnExchanges() returns (ok: bool)
      requires Valid()
      modifies this`exchanges, broker`wiring
      ensures Valid()
      ensures Exchanges(exchanges, broker.wiring.kinds, ok)
           == InOrder(old(exchanges), old(broker.wiring.kinds), AskedToReturn(topology))
      ensures broker.wiring == old(broker.wiring).(kinds := broker.wiring.kinds)
    {
      ghost var all := InOrder(exchanges, broker.wiring.kinds, AskedToReturn(topology));
      ghost var second := AskedToReturn(topology)[1..];
      ok := DeclareExchange(topology.ResolvedPrimaryRetryBindingExchange(), topology.retryExchangeType);
      if !ok { return; }
      assert all == InOrder(exchanges, broker.wiring.kinds, second);
      ok := DeclareExchange(topology.ResolvedRetryDeadLetterExchange(), topology.retryExchangeType);
      assert ok ==> all == InOrder(exchanges, broker.wiring.kinds, second[1..]) && second[1..] == [];
    }

    /** Declares the primary, retry and error topology: on a fresh connection exactly when
        this worker fits on the broker, which then has gained exactly what it declares.
        Every queue still holds what it held. */
    method DeclareConsumerTopology() returns (ok: bool)
      requires Valid()
      modifies this`exchanges, broker
      ensures Valid()
      ensures ok <==> NoneRefused(old(exchanges), old(broker.wiring.kinds), Asked(topology)) &&
                      QueuesFit(old(broker.Tables()), topology)
      ensures old(exchanges) == {} ==>
                (ok <==> Fits(old(broker.Tables()), topology)) &&
                (ok ==> broker.Tables() == Joined(old(broker.Tables()), topology))
      ensures ok ==> Adds(old(broker.wiring), broker.wiring, topology)
      ensures ok && old(exchanges) == {} && ConsistentTypes(topology) ==> KindsAgree(broker.wiring, topology)
      ensures ok ==> {topology.primaryExchange, topology.retryExchange, topology.errorExchange} <= exchanges
      ensures forall q :: Ready(broker.queues, q) == Ready(old(broker.queues), q)
    {
      ghost var before := broker.Tables();
      InOrderIff(exchanges, before.wiring.kinds, Asked(topology));
      ok := DeclareExchanges();
      if ok {
        InOrderIntroduces(old(exchanges), before.wiring.kinds, Asked(topology));
        AskedNames(topology);
        ghost var b := broker.Tables();
        ok := DeclareQueues();
        if ok {
          QueuesAdd(b, before.wiring, topology);
          if old(exchanges) == {} && ConsistentTypes(topology) {
            ExchangesAgree(before.wiring, topology);
          }
        }
      }
    }

    /** Succeeds exactly when the queues fit, and then all of them are declared and bound;
        a refusal leaves what was declared before it. */
    method DeclareQueues() returns (ok: bool)
      requires Valid()
      requires {topology.primaryExchange, topology.retryExchange, topology.errorExchange,
                topology.ResolvedPrimaryRetryBindingExchange()} <= exchanges
      modifies broker
      ensures Valid()
      ensures ok <==> QueuesFit(old(broker.Tables()), topology)
      ensures (broker.Tables(), ok) == QueuesDeclared(old(broker.Tables()), topology)
      ensures forall q :: Ready(broker.queues, q) == Ready(old(broker.queues), q)
    {
      ok := DeclarePrimaryQueue();
      if !ok { return; }
      ok := DeclareRetryQueue();
      if !ok { return; }
      ok := DeclareErrorQueue();
    }

    /** The second binding is the way back in for this queue's own expired retries. */
    method DeclarePrimaryQueue() returns (ok: bool)
      requires Valid() && {topology.primaryExchange, topology.ResolvedPrimaryRetryBindingExchange()} <= exchanges
      modifies broker
      ensures Valid()
      ensures ok <==> topology.primaryQueue !in old(broker.wiring.deadLetters)
      ensures broker.Tables() == if ok then WithPrimary(old(broker.Tables()), topology) else old(broker.Tables())
      ensures forall q :: Ready(broker.queues, q) == Ready(old(broker.queues), q)
    {
      ok := broker.DeclareQueue(topology.primaryQueue);
      if ok {
        broker.Bind(PrimaryBinding(topology));
        broker.Bind(ReturnBinding(topology));
      }
    }

    /** What expires in it goes back under the return pair. */
    method DeclareRetryQueue() returns (ok: bool)
      requires Valid() && topology.retryExchange in exchanges
      modifies broker
      ensures Valid()
      ensures ok <==> RetryQueueFits(old(broker.Tables()), topology)
      ensures broker.Tables() == if ok then WithRetryQueue(old(broker.Tables()), topology) else old(broker.Tables())
      ensures forall q :: Ready(broker.queues, q) == Ready(old(broker.queues), q)
    {
      ok := broker.DeclareRetryQueue(topology.retryQueue, topology.ReturnTarget(), topology.retryMessageTtlMs);
      if ok {
        broker.Bind(RetryBinding(topology));
      }
    }

    method DeclareErrorQueue() returns (ok: bool)
      requires Valid() && topology.errorExchange in exchanges
      modifies broker
      ensures Valid()
      ensures ok <==> topology.errorQueue !in old(broker.wiring.deadLetters)
      ensures broker.Tables() == if ok then WithErrorQueue(old(broker.Tables()), topology) else old(broker.Tables())
      ensures forall q :: Ready(broker.queues, q) == Ready(old(broker.queues), q)
    {
      ok := broker.DeclareQueue(topology.errorQueue);
      if ok {
        broker.Bind(ErrorBinding(topology));
      }
    }

    /** Publishes a fresh message. An exchange this connection has not declared is declared
        as topic first, which fails exactly when the broker has it with another type; else
        the broker does with the message what it does. The routes are those it had. */
    method Publish(target: Target, c: Copy, outcome: PublishOutcome) returns (result: PublishOutcome)
      requires Valid()
      modifies this`exchanges, broker
      ensures Valid()
      ensures result == Answer(old(exchanges), old(broker.wiring.kinds), target, outcome)
      ensures var refused := Refuses(old(exchanges), old(broker.wiring.kinds), target.exchange, Topic);
              exchanges == old(exchanges) + (if refused then {} else {target.exchange}) &&
              broker.wiring == old(broker.wiring).(kinds :=
                if refused then old(broker.wiring.kinds)
                else Introduced(old(broker.wiring.kinds), target.exchange, Topic))
      ensures broker.queues == if Arrives(result) then Enqueue(old(broker.queues), Route(old(broker.wiring), target), c)
                               else old(broker.queues)
    {
      if target.exchange !in exchanges {
        var declared := DeclareExchange(target.exchange, Named(Topic));
        if !declared { return Raised; }
      }
      RouteStable(old(broker.wiring), broker.wiring, target);
      var confirmed := broker.Publish(target, c, outcome);
      result := outcome;
    }

    /** Sends the message to the retry queue, one redelivery further along. */
    method ScheduleRetry(c: Copy, outcome: PublishOutcome) returns (confirmed: bool)
      requires Valid() && topology.retryExchange in exchanges
      modifies this`exchanges, broker
      ensures Valid() && exchanges == old(exchanges) && broker.wiring == old(broker.wiring)
      ensures confirmed <==> outcome == Accepted
      ensures broker.queues == if Arrives(outcome)
                               then Enqueue(old(broker.queues), Route(broker.wiring, topology.RetryTarget()),
                                            RetryCopy(topology, c))
                               else old(broker.queues)
    {
      var headers := c.headers;
      var redeliveryCount := ReadCount(headers) + 1;
      headers := headers[RedeliveryCount := Number(redeliveryCount)];
      headers := headers[RetryEndpoint := Words(topology.appName)];
      var declared := DeclareExchange(topology.retryExchange, topology.retryExchangeType);
      var retry := Copy(c.content, headers);
      assert retry == RetryCopy(topology, c);
      confirmed := broker.Publish(topology.RetryTarget(), retry, outcome);
    }

    /** Moves the message to the error queue with the failure attached. */
    method DeadLetter(c: Copy, failures: seq<Failure>, outcome: PublishOutcome) returns (confirmed: bool)
      requires Valid() && topology.errorExchange in exchanges
      modifies this`exchanges, broker
      ensures Valid() && exchanges == old(exchanges) && broker.wiring == old(broker.wiring)
      ensures confirmed <==> outcome == Accepted
      ensures broker.queues == if Arrives(outcome)
                               then Enqueue(old(broker.queues), Route(broker.wiring, topology.ErrorTarget()),
                                            DeadCopy(topology, c, failures))
                               else old(broker.queues)
    {
      var headers := c.headers;
      headers := headers[ExceptionDetails := Failures(failures)];
      headers := headers[EndpointDescriptor := Describes(DescriptorOf(topology, c.content.mtype))];
      var declared := DeclareExchange(topology.errorExchange, topology.errorExchangeType);
      var parked := Copy(c.content, headers);
      assert parked == DeadCopy(topology, c, failures);
      confirmed := broker.Publish(topology.ErrorTarget(), parked, outcome);
    }
  }
}
