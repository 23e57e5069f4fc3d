/** What becomes of one delivery, and of one copy through all its deliveries. */
module Recovery {
  import opened Envelope
  import opened Topology
  import opened Connection
  import opened Handlers
  import opened Store
  import opened Inbox

  /** One consuming worker: its topology, whose inbox it writes, its subscribers. */
  datatype Endpoint = Endpoint(topology: BrokerTopology, schema: Schema, subs: Subscriptions)
  {
    /** Immediate retries; a negative setting means none. */
    function Last(): nat {
      if topology.immediateRetries > 0 then topology.immediateRetries else 0
    }

    /** Delayed retries a fresh copy gets; a negative setting means none. */
    function MostRetries(): nat {
      if topology.delayedRetries > 0 then topology.delayedRetries else 0
    }

    /** Delayed retries left to a copy that carries this count. */
    function Left(count: int): nat {
      if topology.delayedRetries > count then topology.delayedRetries - count else 0
    }
  }

  /** A subscribed type, and not somebody else's retry. */
  predicate Accepts(e: Endpoint, c: Copy) {
    c.content.mtype in e.subs && BelongsTo(c.headers, e.topology.appName)
  }

  predicate Exhausted(e: Endpoint, c: Copy) {
    ReadCount(c.headers) >= e.topology.delayedRetries
  }

  /** Where a failed message goes, and as what. */
  function RecoveryTarget(e: Endpoint, c: Copy): Target {
    if Exhausted(e, c) then e.topology.ErrorTarget() else e.topology.RetryTarget()
  }

  function RecoveryCopy(e: Endpoint, c: Copy, failures: seq<Failure>): Copy {
    if Exhausted(e, c) then DeadCopy(e.topology, c, failures) else RetryCopy(e.topology, c)
  }

  ghost predicate AllRecorded(e: Endpoint, content: Content, inbox: seq<Key>) {
    forall h :: h in SubscribersOf(e.subs, content.mtype) ==> KeyFor(e.schema, content, h) in inbox
  }

  function Dispatched(e: Endpoint, content: Content, tb: Tables, script: Script): DispatchResult {
    DispatchFrom(tb, e.schema, content, SubscribersOf(e.subs, content.mtype), script, 0, e.Last())
  }

  /** Every attempt before this one raises, and this one does not. */
  predicate SucceedsAt(script: Script, j: nat, k: nat) {
    script(j, k) == NoFault && forall a :: 0 <= a < k ==> script(j, a) == HandlerFails
  }

  /** A subscriber gets exactly as many immediate retries as configured: one whose first
      success would be attempt `k` is recorded, and not reported, if and only if `k` is at
      most that many. */
  lemma {:induction false} RetriedAsConfigured(e: Endpoint, content: Content, tb: Tables, script: Script, j: nat,
                                               k: nat)
    requires var subs := SubscribersOf(e.subs, content.mtype);
             DistinctNames(subs) && j < |subs| && HandlerWrite(subs[j].name, content.body).Some? &&
             KeyFor(e.schema, content, subs[j]) !in tb.inbox
    requires SucceedsAt(script, j, k)
    ensures var d := Dispatched(e, content, tb, script);
            var key := KeyFor(e.schema, content, SubscribersOf(e.subs, content.mtype)[j]);
            var retries := if e.topology.immediateRetries > 0 then e.topology.immediateRetries else 0;
            (key in d.tables.inbox <==> k <= retries) && (j in d.failures <==> k > retries)
  {
    var subs := SubscribersOf(e.subs, content.mtype);
    var key := KeyFor(e.schema, content, subs[j]);
    InboxAfterDispatch(tb, e.schema, content, subs, script, 0, e.Last(), key);
    FailuresAfterDispatch(tb, e.schema, content, subs, script, 0, e.Last(), j);
    if i :| 0 <= i < |subs| && KeyFor(e.schema, content, subs[i]) == key &&
            HandlerStores(content, subs, script, i, e.Last()) {
      assert i == j;
    }
    if k <= e.Last() {
      assert HandlerStores(content, subs, script, j, e.Last());
      assert HandlerReturns(tb, e.schema, content, subs, script, j, e.Last());
    }
  }

  // ----- the life of one copy ----------------------------------------------

  /** One delivery as the worker meets it: the tables as other workers left them,
      and the faults that strike. */
  datatype Meeting = Meeting(tables: Tables, script: Script)

  datatype Ending = StillTravelling | Finished | InErrorQueue

  /** How a copy ended, after how many failed deliveries, as what copy, and how often
      each subscriber's handler body ran for it. */
  datatype Life = Life(ending: Ending, failed: nat, copy: Copy, bodies: nat -> nat)

  function Live(e: Endpoint, c: Copy, meetings: seq<Meeting>, causes: seq<Failure>): Life
    decreases meetings
  {
    if meetings == [] then Life(StillTravelling, 0, c, _ => 0)
    else if !Accepts(e, c) then Life(Finished, 0, c, _ => 0)
    else
      var d := Dispatched(e, c.content, meetings[0].tables, meetings[0].script);
      var ran := (i: nat) => if i < |d.bodies| then d.bodies[i] else 0;
      if d.failures == [] then Life(Finished, 0, c, ran)
      else if Exhausted(e, c) then Life(InErrorQueue, 1, RecoveryCopy(e, c, causes), ran)
      else
        var rest := Live(e, RecoveryCopy(e, c, causes), meetings[1..], causes);
        Life(rest.ending, 1 + rest.failed, rest.copy, i => ran(i) + rest.bodies(i))
  }

  /** A copy reaches the error queue only after exactly one failed delivery more than
      it had delayed retries left, and it cannot travel longer than that. The tables
      may change arbitrarily between deliveries. */
  lemma {:induction false} BoundedRecovery(e: Endpoint, c: Copy, meetings: seq<Meeting>, causes: seq<Failure>)
    ensures var life := Live(e, c, meetings, causes);
            var left := e.Left(ReadCount(c.headers));
            life.copy.content == c.content &&
            life.failed <= left + 1 &&
            (life.ending == InErrorQueue ==> life.failed == left + 1 &&
                                             ReadCount(life.copy.headers) == ReadCount(c.headers) + left) &&
            (|meetings| > left ==> life.ending != StillTravelling)
    decreases meetings
  {
    if meetings != [] && Accepts(e, c) && !Exhausted(e, c) {
      BoundedRecovery(e, RecoveryCopy(e, c, causes), meetings[1..], causes);
    }
  }

  lemma {:induction false} OneRoundMore(perRound: nat, rounds: nat)
    ensures perRound * (rounds + 1) == perRound * rounds + perRound
  {
  }

  /** No handler body runs more than `immediate + 1` times per delivery. */
  lemma {:induction false} BoundedBodies(e: Endpoint, c: Copy, meetings: seq<Meeting>, causes: seq<Failure>, i: nat)
    ensures Live(e, c, meetings, causes).bodies(i) <= (e.Last() + 1) * (e.Left(ReadCount(c.headers)) + 1)
    decreases meetings
  {
    var left := e.Left(ReadCount(c.headers));
    OneRoundMore(e.Last() + 1, left);
    if meetings != [] && Accepts(e, c) {
      FailuresInOrder(meetings[0].tables, e.schema, c.content, SubscribersOf(e.subs, c.content.mtype),
                      meetings[0].script, 0, e.Last());
      if !Exhausted(e, c) {
        BoundedBodies(e, RecoveryCopy(e, c, causes), meetings[1..], causes, i);
        assert e.Left(ReadCount(RecoveryCopy(e, c, causes).headers)) == left - 1;
      }
    }
  }

  /** For a freshly published copy: at most `(max(immediate,0)+1) * (max(delayed,0)+1)`
      runs of any handler body, and `max(delayed,0)+1` failures before the error queue. */
  lemma {:induction false} FreshCopyIsBounded(e: Endpoint, c: Copy, meetings: seq<Meeting>, causes: seq<Failure>,
                                              i: nat)
    requires ReadCount(c.headers) == 0
    ensures var life := Live(e, c, meetings, causes);
            var delayed := if e.topology.delayedRetries > 0 then e.topology.delayedRetries else 0;
            var immediate := if e.topology.immediateRetries > 0 then e.topology.immediateRetries else 0;
            life.bodies(i) <= (immediate + 1) * (delayed + 1) &&
            (life.ending == InErrorQueue ==> life.failed == delayed + 1)
  {
    BoundedRecovery(e, c, meetings, causes);
    BoundedBodies(e, c, meetings, causes, i);
  }

  /** Every retry uses up one of the delayed retries left. */
  lemma {:induction false} RetryUsesOneUp(e: Endpoint, c: Copy, causes: seq<Failure>)
    requires !Exhausted(e, c)
    ensures e.Left(ReadCount(RecoveryCopy(e, c, causes).headers)) < e.Left(ReadCount(c.headers))
    ensures Accepts(e, c) ==> Accepts(e, RecoveryCopy(e, c, causes))
  {
  }
}
