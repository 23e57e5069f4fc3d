/** The consumer: filter a delivery, dispatch it, recover it when a handler failed,
    and acknowledge it. */
module Consumer {
  import opened Common
  import opened Envelope
  import opened Topology
  import opened Connection
  import opened Handlers
  import opened Store
  import opened Inbox
  import opened Dispatcher
  import opened Recovery

  /** The AMQP message-id property: absent, not a UUID, or a UUID. */
  datatype IdProperty = NoId | BadId | UuidOf(id: MessageId)

  class IncomingMessage {
    const messageId: IdProperty
    const mtype: Option<MessageType>
    const body: Body
    const headers: Headers
    var acked: bool

    constructor (messageId: IdProperty, mtype: Option<MessageType>, body: Body, headers: Headers)
      ensures this.messageId == messageId && this.mtype == mtype && this.body == body && this.headers == headers &&
              !acked
    {
      this.messageId, this.mtype, this.body, this.headers := messageId, mtype, body, headers;
      acked := false;
    }

    method Ack()
      modifies this
      ensures acked
    {
      acked := true;
    }
  }

  /** The delivered copy, when the message has the properties of one. */
  function CopyIn(messageId: IdProperty, mtype: Option<MessageType>, body: Body, headers: Headers): Option<Copy> {
    match (messageId, mtype)
    case (UuidOf(id), Some(t)) => Some(Copy(Content(id, t, body), headers))
    case (_, _) => None
  }

  /** How handling a delivery ended. `Escaped`: the recovery publication raised, the
      delivery was acknowledged all the same, and the error left the consumer.
      `Cancelled`: the dispatch was cancelled, and the delivery acknowledged all the
      same. `Unreadable`: the id is no UUID, so nothing was done or acknowledged. */
  datatype Fate = Ignored | Unreadable | Completed | Rescheduled | DeadLettered | Escaped | Cancelled

  class MessageConsumer {
    const connection: BrokerConnection
    const dispatcher: InboxMessageDispatcher

    constructor (connection: BrokerConnection, dispatcher: InboxMessageDispatcher)
      ensures this.connection == connection && this.dispatcher == dispatcher
    {
      this.connection, this.dispatcher := connection, dispatcher;
    }

    function TheEndpoint(): Endpoint
      reads dispatcher.handlers
    {
      Endpoint(connection.topology, dispatcher.schema, dispatcher.handlers.handlers)
    }

    /** The connection has declared its topology, and the dispatcher was built with
        the topology's immediate retries. */
    ghost predicate Ready()
      reads connection, connection.broker
    {
      connection.Valid() &&
      {connection.topology.retryExchange, connection.topology.errorExchange} <= connection.exchanges &&
      dispatcher.immediateRetries == (if connection.topology.immediateRetries > 0
                                      then connection.topology.immediateRetries else 0)
    }

    method ShouldProcess(message: IncomingMessage) returns (ours: bool)
      ensures ours <==> message.messageId != NoId && message.mtype.Some? &&
                        message.mtype.value in TheEndpoint().subs &&
                        BelongsTo(message.headers, connection.topology.appName)
    {
      if message.messageId == NoId {
        return false;
      }
      if message.mtype == None {
        return false;
      }
      var types := dispatcher.handlers.SubscribedTypes();
      if message.mtype.value !in types {
        return false;
      }
      var redeliveryCount := ReadCount(message.headers);
      if redeliveryCount > 0 && !(RetryEndpoint in message.headers &&
                                  message.headers[RetryEndpoint] == Words(connection.topology.appName)) {
        return false;
      }
      return true;
    }

    /** Sends a failed message to the retry queue, or to the error queue. */
    method Recover(c: Copy, failures: seq<Failure>, outcome: PublishOutcome) returns (confirmed: bool)
      requires Ready()
      modifies connection`exchanges, connection.broker
      ensures Ready() && connection.broker.wiring == old(connection.broker.wiring)
      ensures confirmed <==> outcome == Accepted
      ensures connection.broker.queues ==
                Republished(old(connection.broker.queues),
                            Route(connection.broker.wiring, RecoveryTarget(TheEndpoint(), c)),
                            RecoveryCopy(TheEndpoint(), c, failures), outcome)
    {
      if ReadCount(c.headers) >= connection.topology.delayedRetries {
        confirmed := connection.DeadLetter(c, failures, outcome);
      } else {
        confirmed := connection.ScheduleRetry(c, outcome);
      }
    }

    /** Dispatches an accepted message, and recovers it when a handler failed. `script`
        says which faults strike the dispatch, `cut` where it is cancelled, `causes` what
        each failing subscriber raised, `recovery` what the broker does with a
        republication. */
    method Process(c: Copy, script: Script, cut: Option<Cut>, causes: nat -> Failure, recovery: PublishOutcome)
      returns (fate: Fate)
      requires Ready()
      modifies dispatcher.db, connection`exchanges, connection.broker
      ensures Ready() && connection.broker.wiring == old(connection.broker.wiring)
      ensures var d := DispatchedUntil(TheEndpoint(), c.content, old(dispatcher.db.tables), script, cut);
              dispatcher.db.tables == d.tables && fate == FateOf(TheEndpoint(), c, d, recovery) &&
              connection.broker.queues ==
                QueuesLeft(old(connection.broker.queues),
                           Route(connection.broker.wiring, RecoveryTarget(TheEndpoint(), c)),
                           RecoveryCopy(TheEndpoint(), c, Causes(d.failures, causes)), recovery, fate)
    {
      ghost var e, before, wiring := TheEndpoint(), connection.broker.queues, connection.broker.wiring;
      var failures, bodies, cancelled := dispatcher.Dispatch(c.content, script, cut);
      if cancelled {
        return Cancelled;
      }
      if failures == [] {
        return Completed;
      }
      ghost var d := DispatchedUntil(e, c.content, old(dispatcher.db.tables), script, cut);
      assert d == CutDispatch(dispatcher.db.tables, failures, bodies, false);
      var confirmed := Recover(c, Causes(failures, causes), recovery);
      fate := if !confirmed then Escaped else if Exhausted(TheEndpoint(), c) then DeadLettered else Rescheduled;
      ghost var targets := Route(connection.broker.wiring, RecoveryTarget(TheEndpoint(), c));
      ghost var republished := RecoveryCopy(TheEndpoint(), c, Causes(failures, causes));
      assert connection.broker.queues == Republished(before, targets, republished, recovery);
      assert TheEndpoint() == e && connection.broker.wiring == wiring && fate == FateOf(e, c, d, recovery);
      assert fate != Completed && fate != Cancelled;
      QueuesLeftByRecovery(before, targets, republished, recovery, fate);
    }

    /** Applies the policy to one delivery: whatever becomes of an accepted message, it is
        acknowledged afterwards. */
    method HandleDelivery(message: IncomingMessage, script: Script, cut: Option<Cut>, causes: nat -> Failure,
                          recovery: PublishOutcome)
      returns (fate: Fate)
      requires Ready()
      modifies message, dispatcher.db, connection`exchanges, connection.broker
      ensures Ready() && connection.broker.wiring == old(connection.broker.wiring)
      ensures message.acked <==> old(message.acked) || fate != Unreadable
      ensures fate == Ignored <==>
                message.messageId == NoId || message.mtype.None? ||
                message.mtype.value !in TheEndpoint().subs || !BelongsTo(message.headers, connection.topology.appName)
      ensures fate == Unreadable ==> message.messageId == BadId
      ensures fate == Ignored || fate == Unreadable ==>
                dispatcher.db.tables == old(dispatcher.db.tables) &&
                connection.broker.queues == old(connection.broker.queues)
      ensures fate != Ignored && fate != Unreadable ==>
                var c := CopyIn(message.messageId, message.mtype, message.body, message.headers);
                c.Some? && Accepts(TheEndpoint(), c.value) &&
                var d := DispatchedUntil(TheEndpoint(), c.value.content, old(dispatcher.db.tables), script, cut);
                dispatcher.db.tables == d.tables && fate == FateOf(TheEndpoint(), c.value, d, recovery) &&
                connection.broker.queues ==
                  QueuesLeft(old(connection.broker.queues),
                             Route(connection.broker.wiring, RecoveryTarget(TheEndpoint(), c.value)),
                             RecoveryCopy(TheEndpoint(), c.value, Causes(d.failures, causes)), recovery, fate)
    {
      var ours := ShouldProcess(message);
      if !ours {
        message.Ack();
        return Ignored;
      }
      if message.messageId == BadId {
        return Unreadable;
      }
      var c := Copy(Content(message.messageId.id, message.mtype.value, message.body), message.headers);
      fate := Process(c, script, cut, causes, recovery);
      message.Ack();
    }
  }

  function Causes(failures: seq<nat>, causes: nat -> Failure): seq<Failure> {
    seq(|failures|, i requires 0 <= i < |failures| => causes(failures[i]))
  }

  function DispatchedUntil(e: Endpoint, content: Content, tb: Tables, script: Script, cut: Option<Cut>): CutDispatch {
    DispatchUntil(tb, e.schema, content, SubscribersOf(e.subs, content.mtype), script, 0, e.Last(), cut)
  }

  /** The fate a dispatch and its recovery call for. */
  function FateOf(e: Endpoint, c: Copy, d: CutDispatch, recovery: PublishOutcome): Fate {
    if d.cancelled then Cancelled
    else if d.failures == [] then Completed
    else if recovery != Accepted then Escaped
    else if Exhausted(e, c) then DeadLettered else Rescheduled
  }

  /** What becomes of an accepted delivery: completed when nobody failed; else parked once
      it was retried as often as configured and rescheduled before that, if the broker
      confirms it; else the failure escapes. A cancelled one is none of these. What goes
      with it is each failure of the dispatch, in order. */
  lemma {:induction false} FateExactly(e: Endpoint, c: Copy, d: CutDispatch, recovery: PublishOutcome,
                                       causes: nat -> Failure)
    ensures var fate, exhausted := FateOf(e, c, d, recovery), ReadCount(c.headers) >= e.topology.delayedRetries;
            (fate == Cancelled <==> d.cancelled) &&
            (fate == Completed <==> !d.cancelled && d.failures == []) &&
            (fate == Escaped <==> !d.cancelled && d.failures != [] && recovery != Accepted) &&
            (fate == DeadLettered <==> !d.cancelled && d.failures != [] && recovery == Accepted && exhausted) &&
            (fate == Rescheduled <==> !d.cancelled && d.failures != [] && recovery == Accepted && !exhausted)
    ensures RecoveryTarget(e, c) ==
              if ReadCount(c.headers) >= e.topology.delayedRetries
              then Target(e.topology.errorExchange, e.topology.errorRoutingKey)
              else Target(e.topology.retryExchange, e.topology.retryBindingKey)
    ensures |Causes(d.failures, causes)| == |d.failures| &&
            forall k :: 0 <= k < |d.failures| ==> Causes(d.failures, causes)[k] == causes(d.failures[k])
  {
  }

  function Republished(queues: Queues, targets: set<string>, c: Copy, outcome: PublishOutcome): Queues {
    if Arrives(outcome) then Enqueue(queues, targets, c) else queues
  }

  /** A recovery that arrives leaves its copy where the policy sends it; nothing else is
      published. */
  function QueuesLeft(queues: Queues, targets: set<string>, c: Copy, recovery: PublishOutcome, fate: Fate): Queues {
    if fate == Completed || fate == Cancelled then queues else Republished(queues, targets, c, recovery)
  }

  lemma {:induction false} QueuesLeftByRecovery(queues: Queues, targets: set<string>, c: Copy, recovery: PublishOutcome,
                                                fate: Fate)
    requires fate != Completed && fate != Cancelled
    ensures QueuesLeft(queues, targets, c, recovery, fate) == Republished(queues, targets, c, recovery)
  {
  }

  /** After an acknowledged delivery the message is gone although work is outstanding. */
  ghost predicate Lost(e: Endpoint, c: Copy, after: Tables, before: Queues, queues: Queues) {
    !AllRecorded(e, c.content, after.inbox) && queues == before
  }

  /** Some subscriber got nothing stored, then or before. */
  ghost predicate LeftOver(e: Endpoint, content: Content, before: Tables, script: Script, cut: Option<Cut>) {
    var subs := SubscribersOf(e.subs, content.mtype);
    exists j :: 0 <= j < |subs| && KeyFor(e.schema, content, subs[j]) !in before.inbox &&
                !StoresBeforeCut(content, subs, script, e.Last(), cut,
                                 DispatchedUntil(e, content, before, script, cut).cancelled, j)
  }

  lemma {:induction false} LeftOverIffUnrecorded(e: Endpoint, content: Content, before: Tables, script: Script,
                                                 cut: Option<Cut>)
    requires DistinctNames(SubscribersOf(e.subs, content.mtype))
    ensures LeftOver(e, content, before, script, cut) <==>
              !AllRecorded(e, content, DispatchedUntil(e, content, before, script, cut).tables.inbox)
  {
    var subs := SubscribersOf(e.subs, content.mtype);
    forall j | 0 <= j < |subs|
      ensures KeyFor(e.schema, content, subs[j]) in DispatchedUntil(e, content, before, script, cut).tables.inbox <==>
                KeyFor(e.schema, content, subs[j]) in before.inbox ||
                StoresBeforeCut(content, subs, script, e.Last(), cut,
                                DispatchedUntil(e, content, before, script, cut).cancelled, j)
    {
      InboxAfterCut(before, e.schema, content, subs, script, e.Last(), cut, j);
    }
  }

  /** Nothing failed and nothing was cancelled: then nobody is left over. */
  lemma {:induction false} CompletedLeavesNobody(e: Endpoint, content: Content, before: Tables, script: Script,
                                                 cut: Option<Cut>)
    requires DistinctNames(SubscribersOf(e.subs, content.mtype))
    requires !DispatchedUntil(e, content, before, script, cut).cancelled &&
             DispatchedUntil(e, content, before, script, cut).failures == []
    ensures AllRecorded(e, content, DispatchedUntil(e, content, before, script, cut).tables.inbox)
  {
    var subs := SubscribersOf(e.subs, content.mtype);
    DispatchAmountsTo(before, e.schema, content, subs, script, 0, e.Last(), cut);
    forall j | 0 <= j < |subs|
      ensures KeyFor(e.schema, content, subs[j]) in DispatchedUntil(e, content, before, script, cut).tables.inbox
    {
      CleanDispatchRecordsAll(before, e.schema, content, subs, script, e.Last(), j);
    }
  }

  /** A republication that arrives is seen in some queue. */
  lemma {:induction false} ArrivalShows(queues: Queues, targets: set<string>, c: Copy)
    requires targets != {}
    ensures Enqueue(queues, targets, c) != queues
  {
    var q :| q in targets;
    var after := Enqueue(queues, targets, c);
    assert Ready(after, q) == Ready(queues, q) + multiset{c};
    assert Ready(after, q)[c] != Ready(queues, q)[c];
  }

  /** Because the acknowledgement is unconditional, a message is lost exactly when a
      subscriber is left over - none of its attempts stored its work and the inbox did
      not hold it already - and either the dispatch was cancelled or the recovery
      publication never arrived. */
  lemma {:induction false} LostExactlyWhenRecoveryFails(e: Endpoint, c: Copy, before: Tables, queues: Queues,
                                                        targets: set<string>,
                                                        script: Script, cut: Option<Cut>, republished: Copy,
                                                        recovery: PublishOutcome)
    requires DistinctNames(SubscribersOf(e.subs, c.content.mtype)) && targets != {}
    ensures var d := DispatchedUntil(e, c.content, before, script, cut);
            Lost(e, c, d.tables, queues, QueuesLeft(queues, targets, republished, recovery,
                                                    FateOf(e, c, d, recovery))) <==>
              (d.cancelled || recovery == Raised) && LeftOver(e, c.content, before, script, cut)
  {
    LeftOverIffUnrecorded(e, c.content, before, script, cut);
    var d := DispatchedUntil(e, c.content, before, script, cut);
    if FateOf(e, c, d, recovery) == Completed {
      CompletedLeavesNobody(e, c.content, before, script, cut);
    } else if !d.cancelled && Arrives(recovery) {
      ArrivalShows(queues, targets, republished);
    }
  }
}
