/** The loss is real: from an empty system, in any deployment, a finalized manifest can
    be published, delivered and acknowledged, and nothing of it is left. */
module Losses {
  import opened Common
  import opened Envelope
  import opened Topology
  import opened Connection
  import opened Handlers
  import opened Store
  import opened Inbox
  import opened Outbox
  import opened Recovery
  import opened Consumer
  import opened ShipmentRules
  import opened Bus
  import opened BusNoLoss
  import opened Runs
  import Refinement

  ghost function Step(cfg: Config): (State, Action) -> Option<State> {
    (s: State, a: Action) => if Enabled(cfg, s, a) then Some(Apply(cfg, s, a)) else None
  }

  lemma {:induction false} AsRun(cfg: Config, s: State, actions: seq<Action>)
    requires Possible(cfg, s, actions)
    ensures RunsTo(Step(cfg), s, actions, Exec(cfg, s, actions))
    decreases actions
  {
    if actions != [] {
      AsRun(cfg, Apply(cfg, s, actions[0]), actions[1..]);
    }
  }

  lemma {:induction false} FromRun(cfg: Config, s: State, actions: seq<Action>, after: State)
    requires RunsTo(Step(cfg), s, actions, after)
    ensures Possible(cfg, s, actions) && Exec(cfg, s, actions) == after
    decreases actions
  {
    if actions != [] {
      FromRun(cfg, Apply(cfg, s, actions[0]), actions[1..], after);
    }
  }

  lemma {:induction false} OneAction(cfg: Config, s: State, a: Action)
    requires Enabled(cfg, s, a)
    ensures RunsTo(Step(cfg), s, [a], Apply(cfg, s, a))
  {
    assert [a][1..] == [];
  }

  /** The manifests of a deployment have one destination, where somebody listens. */
  ghost predicate OneDestination(cfg: Config, q: string) {
    cfg.routes(cfg.manifestTarget) == {q} && q in cfg.endpoints &&
    SubscribersOf(cfg.endpoints[q].subs, ShipmentManifestFinalized) != []
  }

  predicate Shippable(draft: ShipmentValue, m: Manifest) {
    CanonicalId(draft.id) && draft.status == Draft && draft.manifest == None && WellMade(m) && m.weightKg > 0.0
  }

  function FirstRow(cfg: Config, draft: ShipmentValue, m: Manifest): Row {
    ManifestRow(cfg, 0, ManifestBody(draft, m))
  }

  /** The books after the manifest was finalized. */
  ghost predicate Announced(cfg: Config, s: State, draft: ShipmentValue, m: Manifest) {
    s.books.outbox == [FirstRow(cfg, draft, m)] && s.books.passes == map[] && s.work == INITIAL.work
  }

  lemma {:induction false} FinalizingRuns(cfg: Config, draft: ShipmentValue, m: Manifest)
    returns (s: State, actions: seq<Action>)
    requires Shippable(draft, m)
    ensures RunsTo(Step(cfg), INITIAL, actions, s) && Announced(cfg, s, draft, m)
  {
    var create, finalize := InBooks(CreateDraft(draft)), InBooks(FinalizeManifest(draft.id, m, 0));
    var created := Apply(cfg, INITIAL, create);
    s := Apply(cfg, created, finalize);
    OneAction(cfg, INITIAL, create);
    OneAction(cfg, created, finalize);
    RunOn(Step(cfg), INITIAL, [create], created, [finalize], s);
    actions := [create] + [finalize];
  }

  /** The queues hold one copy, of the row just published and marked sent. */
  ghost predicate PublishedOnce(cfg: Config, s: State, q: string, row: Row) {
    s.books.outbox == [row.(sent := true)] && s.work == INITIAL.work.(queues := Enqueue(map[], {q}, CopyOf(row)))
  }

  lemma {:induction false} PublishingRuns(cfg: Config, s: State, q: string, draft: ShipmentValue, m: Manifest)
    returns (after: State, actions: seq<Action>)
    requires OneDestination(cfg, q) && Announced(cfg, s, draft, m)
    ensures RunsTo(Step(cfg), s, actions, after) && PublishedOnce(cfg, after, q, FirstRow(cfg, draft, m))
  {
    var row := FirstRow(cfg, draft, m);
    OnePendingRow(s.books, row);
    actions := Refinement.PassRuns(cfg, s, 0, 1, {}, [Accepted], CommitOutcome.Stored);
    after := Exec(cfg, s, actions);
    AsRun(cfg, s, actions);
    OneResult(map[], cfg.routes, [row]);
    assert after.books.outbox == [row.(sent := true)];
  }

  lemma {:induction false} OnePendingRow(b: Books, row: Row)
    requires b.outbox == [row] && !row.sent && b.passes == map[]
    ensures Batch(b, 1, {}) == [0]
  {
    assert Locked(b.passes) + {} == {};
    assert FindPending(b.outbox, {}, 0, 1) == [];
  }

  lemma {:induction false} OneResult(queues: Queues, routes: Routes, rows: seq<Row>)
    requires |rows| == 1
    ensures Published(queues, routes, rows, [0], [Accepted]) == Enqueue(queues, routes(rows[0].target), CopyOf(rows[0]))
    ensures Confirmed([0], [Accepted]) == [0]
  {
    assert [Accepted][..0] == [];
    OneMorePublished(queues, routes, rows, [0], [], Accepted);
    OneMoreConfirmed([0], [], Accepted);
    assert [] + [Accepted] == [Accepted];
  }

  /** Nothing of the message is anywhere: no copy, no delivery, no inbox row. */
  ghost predicate Gone(cfg: Config, w: Work) {
    w.tasks == map[] && w.inbox == [] && forall q :: Ready(w.queues, q) == multiset{}
  }

  lemma {:induction false} GoneIsLost(cfg: Config, w: Work, q: string, content: Content)
    requires Gone(cfg, w) && q in cfg.endpoints && SubscribersOf(cfg.endpoints[q].subs, content.mtype) != []
    ensures !Survives(cfg, w, q, content)
  {
    var h := SubscribersOf(cfg.endpoints[q].subs, content.mtype)[0];
    assert h in SubscribersOf(cfg.endpoints[q].subs, content.mtype);
  }

  /** Each attempt fails to open its session, or the dispatch is cancelled at once. */
  function NoLookup(): Script {
    (i: nat, a: nat) => LookupFails
  }

  function AtOnce(cancelled: bool): Option<Cut> {
    if cancelled then Some(Cut(0, 0, false)) else None
  }

  /** Either way nobody is recorded, and the message is not recovered. */
  lemma {:induction false} NothingDone(e: Endpoint, content: Content, tb: Tables, cancelled: bool)
    requires SubscribersOf(e.subs, content.mtype) != []
    ensures var d := DispatchedUntil(e, content, tb, NoLookup(), AtOnce(cancelled));
            d.tables == tb && (if cancelled then d.cancelled else !d.cancelled && d.failures != [])
  {
    var subs := SubscribersOf(e.subs, content.mtype);
    if !cancelled {
      AllFail(tb, e.schema, content, subs, 0, e.Last());
    } else {
      assert Attempted(tb, KeyFor(e.schema, content, subs[0]), HandlerWrite(subs[0].name, content.body),
                       HandlerFails).0 == tb;
    }
  }

  lemma {:induction false} RunFails(tb: Tables, key: Key, write: Option<Write>, i: nat, a: nat, last: nat)
    ensures var r := RunUntil(tb, key, write, NoLookup(), i, a, last, None); r.tables == tb && r.end == GaveUp
    decreases last + 1 - a
  {
    if a <= last {
      RunFails(tb, key, write, i, a + 1, last);
    }
  }

  lemma {:induction false} AllFail(tb: Tables, schema: Schema, content: Content, subs: seq<Handler>, i: nat, last: nat)
    requires i <= |subs|
    ensures var d := DispatchUntil(tb, schema, content, subs, NoLookup(), i, last, None);
            d.tables == tb && !d.cancelled && (i < |subs| ==> d.failures != [])
    decreases |subs| - i
  {
    if i < |subs| {
      RunFails(tb, KeyFor(schema, content, subs[i]), HandlerWrite(subs[i].name, content.body), i, 0, last);
      AllFail(tb, schema, content, subs, i + 1, last);
    }
  }

  /** The bus with the copy in one worker's hands, and nothing else anywhere. */
  ghost predicate JustDelivered(cfg: Config, w: Work, q: string, c: Copy) {
    w.tasks == map[0 := Task(q, c, true, Received)] && w.inbox == [] && w.effects == [] &&
    forall p :: Ready(w.queues, p) == multiset{}
  }

  lemma {:induction false} EnqueuedAlone(q: string, c: Copy)
    ensures Ready(Enqueue(map[], {q}, c), q) == multiset{c}
    ensures forall p :: Ready(Remove(Enqueue(map[], {q}, c), q, c), p) == multiset{}
  {
    forall p
      ensures Ready(Remove(Enqueue(map[], {q}, c), q, c), p) == multiset{}
    {
      assert Ready(Enqueue(map[], {q}, c), p) == if p == q then multiset{c} else multiset{};
    }
  }

  lemma {:induction false} DeliveringRuns(cfg: Config, s: State, q: string, row: Row) returns (after: State, a: Action)
    requires q in cfg.endpoints && PublishedOnce(cfg, s, q, row)
    ensures RunsTo(Step(cfg), s, [a], after) && after.books == s.books && JustDelivered(cfg, after.work, q, CopyOf(row))
  {
    var c := CopyOf(row);
    a := AtWork(Deliver(0, q, c));
    EnqueuedAlone(q, c);
    after := Apply(cfg, s, a);
    OneAction(cfg, s, a);
  }

  lemma {:induction false} HandlingRuns(cfg: Config, s: State, q: string, c: Copy, cancelled: bool)
    returns (after: State, actions: seq<Action>)
    requires q in cfg.endpoints && JustDelivered(cfg, s.work, q, c) && c.headers == map[]
    requires SubscribersOf(cfg.endpoints[q].subs, c.content.mtype) != []
    ensures RunsTo(Step(cfg), s, actions, after) && after.books == s.books && Gone(cfg, after.work)
  {
    var w, e, tb := s.work, cfg.endpoints[q], Tables([], [], []);
    var d := DispatchedUntil(e, c.content, tb, NoLookup(), AtOnce(cancelled));
    NothingDone(e, c.content, tb, cancelled);
    assert Accepts(e, c);
    var moves := Refinement.DeliveryRuns(cfg, w, 0, tb, NoLookup(), AtOnce(cancelled), [], Raised);
    var done := Refinement.HandledWork(cfg, w, 0, d, [], Raised);
    assert Without(w.tasks, 0) == map[];
    Refinement.RunsOnTheBus(cfg, s, 0, moves, done);
    actions := Refinement.AsActions(0, moves);
    after := s.(work := done);
    AsRun(cfg, s, actions);
  }

  /** In every deployment whose manifests have one destination with a subscriber there,
      some run loses a finalized shipment's announcement: its row is committed, sent and
      due there, and does not survive. One such run raises from the recovery
      publication, another cancels the dispatch. */
  lemma {:induction false} LossIsReachable(cfg: Config, q: string, draft: ShipmentValue, m: Manifest, cancelled: bool)
    returns (actions: seq<Action>)
    requires OneDestination(cfg, q) && Shippable(draft, m)
    ensures Possible(cfg, INITIAL, actions)
    ensures var s := Exec(cfg, INITIAL, actions);
            s.books.outbox == [FirstRow(cfg, draft, m).(sent := true)] &&
            Due(cfg, s.books.outbox[0], q) && !Survives(cfg, s.work, q, s.books.outbox[0].content)
  {
    var row := FirstRow(cfg, draft, m);
    var announced, first := FinalizingRuns(cfg, draft, m);
    var published, second := PublishingRuns(cfg, announced, q, draft, m);
    var delivered, third := DeliveringRuns(cfg, published, q, row);
    var after, fourth := HandlingRuns(cfg, delivered, q, CopyOf(row), cancelled);
    RunOn(Step(cfg), INITIAL, first, announced, second, published);
    RunOn(Step(cfg), INITIAL, first + second, published, [third], delivered);
    RunOn(Step(cfg), INITIAL, first + second + [third], delivered, fourth, after);
    actions := first + second + [third] + fourth;
    FromRun(cfg, INITIAL, actions, after);
    GoneIsLost(cfg, after.work, q, row.content);
  }
}
