/** The outbox dispatcher: take a batch, publish it row by row, mark what the broker
    accepted, commit once. */
module Relay {
  import opened Common
  import opened Envelope
  import opened Topology
  import opened Declarations
  import opened Connection
  import opened Store
  import opened Outbox

  /** A row as the session loaded it. */
  class OutboxMessage {
    const index: nat
    const row: Row
    var isSent: bool

    constructor (index: nat, row: Row)
      ensures this.index == index && this.row == row && isSent == row.sent
    {
      this.index, this.row := index, row;
      isSent := row.sent;
    }

    method MarkAsSent()
      modifies this
      ensures isSent
    {
      isSent := true;
    }
  }

  class OutboxMessageRepository {
    const session: Session<Tables>

    constructor (session: Session<Tables>)
      ensures this.session == session
    {
      this.session := session;
    }

    /** Stores a message for later dispatch; a message id may appear only once. */
    method Schedule(content: Content, target: Target, headers: Headers) returns (ok: bool)
      modifies session`working
      ensures ok <==> !MessageIdTaken(old(session.working.outbox), content.id)
      ensures session.working == if ok
              then old(session.working).(outbox := old(session.working.outbox) + [Row(content, target, headers, false)])
                                 else old(session.working)
    {
      ok := !MessageIdTaken(session.working.outbox, content.id);
      if ok {
        session.working := session.working.(outbox := session.working.outbox + [Row(content, target, headers, false)]);
      }
    }

    method FindPending(locked: set<nat>, limit: nat) returns (rows: seq<OutboxMessage>)
      ensures fresh(rows)
      ensures var batch := Outbox.FindPending(session.working.outbox, locked, limit, 0);
              |rows| == |batch| && forall k :: 0 <= k < |rows| ==> Loaded(rows[k], session.working.outbox, batch[k])
      ensures forall k :: 0 <= k < |rows| ==> !rows[k].isSent
      ensures forall k, l :: 0 <= k < l < |rows| ==> rows[k] != rows[l]
    {
      var batch := Outbox.FindPending(session.working.outbox, locked, limit, 0);
      FindsOldestBatch(session.working.outbox, locked, limit, 0);
      rows := [];
      for k := 0 to |batch|
        invariant |rows| == k && fresh(rows)
        invariant forall j :: 0 <= j < k ==> Loaded(rows[j], session.working.outbox, batch[j]) && !rows[j].isSent
        invariant forall i, j :: 0 <= i < j < k ==> rows[i] != rows[j]
      {
        var row := new OutboxMessage(batch[k], session.working.outbox[batch[k]]);
        rows := rows + [row];
      }
    }

    /** Writes the loaded rows' status back, as a commit does before it commits. */
    method Flush(rows: seq<OutboxMessage>)
      requires forall k :: 0 <= k < |rows| ==> rows[k].index < |session.working.outbox|
      modifies session`working
      ensures session.working == old(session.working).(outbox := MarkSent(old(session.working.outbox),
                                                                          SentIndices(rows)))
    {
      ghost var before := session.working.outbox;
      for k := 0 to |rows|
        invariant session.working == old(session.working).(outbox := MarkSent(before, SentIndices(rows[..k])))
      {
        assert rows[..k + 1][..k] == rows[..k];
        if rows[k].isSent {
          session.working := session.working.(outbox :=
            session.working.outbox[rows[k].index := session.working.outbox[rows[k].index].(sent := true)]);
        }
        assert session.working.outbox == MarkSent(before, SentIndices(rows[..k + 1]));
      }
      assert rows[..|rows|] == rows;
      assert session.working.outbox == MarkSent(before, SentIndices(rows));
    }
  }

  /** What each offer comes to, given what the connection had declared and which exchanges
      the broker had when the loop began: it raises exactly when its exchange must still be
      declared and the broker has it with another type than topic. */
  ghost predicate Answered(results: seq<PublishOutcome>, outcomes: nat -> PublishOutcome, cached: set<string>,
                           kinds: map<string, ExchangeKind>, rows: seq<Row>, batch: seq<nat>) {
    |results| <= |batch| &&
    forall k :: 0 <= k < |results| ==>
      batch[k] < |rows| && results[k] == Answer(cached, kinds, rows[batch[k]].target, outcomes(k))
  }

  /** Declaring exchanges on the way changes no later answer. */
  ghost predicate AnswersAlike(cached: set<string>, kinds: map<string, ExchangeKind>, later: set<string>,
                               laterKinds: map<string, ExchangeKind>) {
    forall name :: Refuses(later, laterKinds, name, Topic) <==> Refuses(cached, kinds, name, Topic)
  }

  lemma {:induction false} OneMoreAnswer(results: seq<PublishOutcome>, result: PublishOutcome,
                                         outcomes: nat -> PublishOutcome, cached: set<string>,
                                         kinds: map<string, ExchangeKind>, now: set<string>,
                                         nowKinds: map<string, ExchangeKind>, rows: seq<Row>, batch: seq<nat>)
    requires Answered(results, outcomes, cached, kinds, rows, batch) && AnswersAlike(cached, kinds, now, nowKinds)
    requires |results| < |batch| && batch[|results|] < |rows|
    requires result == Answer(now, nowKinds, rows[batch[|results|]].target, outcomes(|results|))
    ensures Answered(results + [result], outcomes, cached, kinds, rows, batch)
  {
  }

  predicate Loaded(message: OutboxMessage, rows: seq<Row>, index: nat) {
    index < |rows| && message.index == index && message.row == rows[index]
  }

  function SentIndices(rows: seq<OutboxMessage>): (sent: seq<nat>)
    reads rows
    ensures forall i :: i in sent <==> exists k :: 0 <= k < |rows| && rows[k].isSent && rows[k].index == i
  {
    if rows == [] then []
    else
      var last := |rows| - 1;
      SentIndices(rows[..last]) + if rows[last].isSent then [rows[last].index] else []
  }

  /** Marked exactly where confirmed: the marked indices are the confirmed ones. */
  lemma {:induction false} MarkedAreConfirmed(pending: seq<OutboxMessage>, batch: seq<nat>,
                                              results: seq<PublishOutcome>)
    requires |pending| == |batch| && |results| <= |batch|
    requires forall k :: 0 <= k < |results| ==>
                           pending[k].index == batch[k] && pending[k].isSent == (results[k] == Accepted)
    ensures SentIndices(pending[..|results|]) == Confirmed(batch, results)
  {
    if results != [] {
      var last := |results| - 1;
      MarkedAreConfirmed(pending, batch, results[..last]);
      assert pending[..|results|][..last] == pending[..last];
    }
  }

  /** At the end of the loop. */
  lemma {:induction false} AllMarked(pending: seq<OutboxMessage>, rows: seq<Row>, batch: seq<nat>,
                                     results: seq<PublishOutcome>)
    requires |pending| == |batch| == |results|
    requires forall k :: 0 <= k < |batch| ==> Loaded(pending[k], rows, batch[k])
    requires forall j :: 0 <= j < |pending| ==> pending[j].isSent == (results[j] == Accepted)
    ensures SentIndices(pending) == Confirmed(batch, results)
  {
    MarkedAreConfirmed(pending, batch, results);
    assert pending[..|results|] == pending;
  }

  /** Exchanges declared meanwhile move no route. */
  ghost predicate SameRoutes(w: Wiring, v: Wiring) {
    v.bindings == w.bindings && Keeps(w.kinds, v.kinds)
  }

  /** What a pass leaves in the tables and answers: every confirmed row is marked if the
      commit stored anything, and their number is returned if it said so. */
  ghost predicate PassLeaves(before: Tables, after: Tables, batch: seq<nat>, results: seq<PublishOutcome>,
                             commit: CommitOutcome, r: Option<nat>) {
    |results| == |batch| && (forall k :: 0 <= k < |batch| ==> batch[k] < |before.outbox|) &&
    (batch == [] ==> r == Some(0) && after == before) &&
    (batch != [] ==>
       r == (if commit == Stored then Some(|Confirmed(batch, results)|) else None) &&
       after == (if commit == Refused then before
                 else before.(outbox := MarkSent(before.outbox, Confirmed(batch, results)))))
  }

  predicate PrimaryRefused(cached: set<string>, kinds: map<string, ExchangeKind>, t: BrokerTopology) {
    Refuses(cached, kinds, t.primaryExchange, KindOf(t.primaryExchangeType))
  }

  /** The exchange of this row needs no declaration that the broker would refuse. */
  predicate Publishable(cached: set<string>, kinds: map<string, ExchangeKind>, row: Row) {
    row.target.exchange in cached || row.target.exchange !in kinds || kinds[row.target.exchange] == Topic
  }

  /** What the relay is for: in a pass over publishable rows that the broker all accepts
      and whose commit stores, every row taken is marked sent, their number is returned,
      each queue gains one copy per row routed to it, and nothing else changes. */
  lemma {:induction false} GoodPassSendsAll(before: Tables, after: Tables, batch: seq<nat>,
                                            results: seq<PublishOutcome>, outcomes: nat -> PublishOutcome,
                                            cached: set<string>, kinds: map<string, ExchangeKind>, r: Option<nat>,
                                            routes: Routes, queues: Queues, q: string, c: Copy)
    requires PassLeaves(before, after, batch, results, Stored, r)
    requires Answered(results, outcomes, cached, kinds, before.outbox, batch)
    requires forall k :: 0 <= k < |batch| ==> outcomes(k) == Accepted
    requires forall k :: 0 <= k < |batch| ==> Publishable(cached, kinds, before.outbox[batch[k]])
    ensures r == Some(|batch|) && |after.outbox| == |before.outbox|
    ensures forall i :: 0 <= i < |before.outbox| ==>
              after.outbox[i] == if i in batch then before.outbox[i].(sent := true) else before.outbox[i]
    ensures after.inbox == before.inbox && after.effects == before.effects
    ensures Ready(Published(queues, routes, before.outbox, batch, results), q)[c]
         == Ready(queues, q)[c] + |OffersOf(routes, before.outbox, batch, results, q, c)|
    ensures OffersOf(routes, before.outbox, batch, results, q, c)
         == set k | 0 <= k < |batch| && q in routes(before.outbox[batch[k]].target) &&
                    Copy(before.outbox[batch[k]].content, before.outbox[batch[k]].headers) == c
  {
    assert forall k :: 0 <= k < |results| ==> results[k] == Accepted;
    AllConfirmed(batch, results);
    PublishedExactly(queues, routes, before.outbox, batch, results, q, c);
  }

  class OutboxMessageRelay {
    const db: Database<Tables>
    const connection: BrokerConnection

    constructor (db: Database<Tables>, connection: BrokerConnection)
      ensures this.db == db && this.connection == connection
    {
      this.db, this.connection := db, connection;
    }

    /** Offers one row to the broker, and marks it when the broker confirms it. */
    method PublishRow(message: OutboxMessage, outcome: PublishOutcome, ghost wiring: Wiring)
      returns (result: PublishOutcome)
      requires connection.Valid() && Anchored(wiring)
      requires SameRoutes(wiring, connection.broker.wiring)
      modifies message, connection`exchanges, connection.broker
      ensures connection.Valid() && SameRoutes(wiring, connection.broker.wiring)
      ensures result == Answer(old(connection.exchanges), old(connection.broker.wiring.kinds), message.row.target,
                               outcome)
      ensures AnswersAlike(old(connection.exchanges), old(connection.broker.wiring.kinds), connection.exchanges,
                           connection.broker.wiring.kinds)
      ensures message.isSent == (old(message.isSent) || result == Accepted)
      ensures connection.broker.queues == if Arrives(result)
                then Enqueue(old(connection.broker.queues), RoutesOf(wiring)(message.row.target), CopyOf(message.row))
                else old(connection.broker.queues)
    {
      RouteStable(wiring, connection.broker.wiring, message.row.target);
      result := connection.Publish(message.row.target, CopyOf(message.row), outcome);
      if result == Accepted {
        message.MarkAsSent();
      }
    }

    /** Where the publishing loop stands: the rows answered so far, what that left in the
        queues, and exactly those confirmed marked. */
    ghost predicate Offered(pending: seq<OutboxMessage>, outcomes: nat -> PublishOutcome, wiring: Wiring,
                            rows: seq<Row>, batch: seq<nat>, queues: Queues, cached: set<string>,
                            kinds: map<string, ExchangeKind>, results: seq<PublishOutcome>)
      reads pending, connection, connection.broker
    {
      connection.Valid() && SameRoutes(wiring, connection.broker.wiring) &&
      Answered(results, outcomes, cached, kinds, rows, batch) &&
      AnswersAlike(cached, kinds, connection.exchanges, connection.broker.wiring.kinds) &&
      (forall k :: 0 <= k < |batch| ==> batch[k] < |rows|) &&
      connection.broker.queues == Published(queues, RoutesOf(wiring), rows, batch, results) &&
      forall j :: 0 <= j < |pending| ==> pending[j].isSent == (j < |results| && results[j] == Accepted)
    }

    /** One more row is offered. */
    method OfferNext(pending: seq<OutboxMessage>, k: nat, outcomes: nat -> PublishOutcome, ghost wiring: Wiring,
                     ghost rows: seq<Row>, ghost batch: seq<nat>, ghost queues: Queues, ghost cached: set<string>,
                     ghost kinds: map<string, ExchangeKind>, ghost results: seq<PublishOutcome>)
      returns (result: PublishOutcome)
      requires k < |pending| == |batch| && |results| == k && Anchored(wiring) && Loaded(pending[k], rows, batch[k])
      requires forall i, j :: 0 <= i < j < |pending| ==> pending[i] != pending[j]
      requires Offered(pending, outcomes, wiring, rows, batch, queues, cached, kinds, results)
      modifies pending[k], connection`exchanges, connection.broker
      ensures Offered(pending, outcomes, wiring, rows, batch, queues, cached, kinds, results + [result])
    {
      ghost var now, nowKinds := connection.exchanges, connection.broker.wiring.kinds;
      assert forall j :: 0 <= j < |pending| && j != k ==> pending[j] != pending[k];
      result := PublishRow(pending[k], outcomes(k), wiring);
      OneMoreAnswer(results, result, outcomes, cached, kinds, now, nowKinds, rows, batch);
      OneMorePublished(queues, RoutesOf(wiring), rows, batch, results, result);
    }

    /** The publishing loop: each row is offered to the broker once, in batch order;
        only what the broker confirmed is marked, whatever happened to the others. */
    method PublishBatch(pending: seq<OutboxMessage>, outcomes: nat -> PublishOutcome,
                        ghost wiring: Wiring, ghost rows: seq<Row>, ghost batch: seq<nat>)
      returns (dispatched: nat, ghost results: seq<PublishOutcome>)
      requires connection.Valid() && Anchored(wiring) && SameRoutes(wiring, connection.broker.wiring)
      requires |pending| == |batch| && forall k :: 0 <= k < |batch| ==> Loaded(pending[k], rows, batch[k])
      requires forall k :: 0 <= k < |batch| ==> !pending[k].isSent
      requires forall k, l :: 0 <= k < l < |pending| ==> pending[k] != pending[l]
      modifies pending, connection`exchanges, connection.broker
      ensures connection.Valid()
      ensures |results| == |batch| && forall k :: 0 <= k < |batch| ==> batch[k] < |rows|
      ensures Answered(results, outcomes, old(connection.exchanges), old(connection.broker.wiring.kinds), rows, batch)
      ensures connection.broker.queues == Published(old(connection.broker.queues), RoutesOf(wiring), rows, batch,
                                                    results)
      ensures SentIndices(pending) == Confirmed(batch, results) && dispatched == |Confirmed(batch, results)|
    {
      ghost var queues, cached, kinds := connection.broker.queues, connection.exchanges, connection.broker.wiring.kinds;
      assert forall k :: 0 <= k < |batch| ==> Loaded(pending[k], rows, batch[k]);
      results := [];
      dispatched := 0;
      for k := 0 to |pending|
        invariant |results| == k && dispatched == |Confirmed(batch, results)|
        invariant Offered(pending, outcomes, wiring, rows, batch, queues, cached, kinds, results)
      {
        var result := OfferNext(pending, k, outcomes, wiring, rows, batch, queues, cached, kinds, results);
        OneMoreConfirmed(batch, results, result);
        results := results + [result];
        if result == Accepted {
          dispatched := dispatched + 1;
        }
      }
      AllMarked(pending, rows, batch, results);
    }

    /** One transaction: take the oldest free rows, publish them, mark what the broker
        confirmed, commit once. */
    method DispatchBatch(locked: set<nat>, limit: nat, outcomes: nat -> PublishOutcome, commit: CommitOutcome,
                         ghost wiring: Wiring)
      returns (r: Option<nat>, ghost batch: seq<nat>, ghost results: seq<PublishOutcome>)
      requires connection.Valid() && Anchored(wiring) && SameRoutes(wiring, connection.broker.wiring)
      modifies db, connection`exchanges, connection.broker
      ensures connection.Valid()
      ensures batch == FindPending(old(db.tables.outbox), locked, limit, 0)
      ensures PassLeaves(old(db.tables), db.tables, batch, results, commit, r)
      ensures Answered(results, outcomes, old(connection.exchanges), old(connection.broker.wiring.kinds),
                       old(db.tables.outbox), batch)
      ensures connection.broker.queues
           == Published(old(connection.broker.queues), RoutesOf(wiring), old(db.tables.outbox), batch, results)
    {
      FindsOldestBatch(db.tables.outbox, locked, limit, 0);
      var session := new Session(db);
      var repository := new OutboxMessageRepository(session);
      var pending := repository.FindPending(locked, limit);
      batch, results := FindPending(db.tables.outbox, locked, limit, 0), [];
      if pending == [] {
        return Some(0), batch, [];
      }
      r, results := PublishAndCommit(repository, pending, outcomes, commit, wiring, batch);
    }

    /** The rest of the transaction, once there is something to publish. */
    method PublishAndCommit(repository: OutboxMessageRepository, pending: seq<OutboxMessage>,
                            outcomes: nat -> PublishOutcome, commit: CommitOutcome, ghost wiring: Wiring,
                            ghost batch: seq<nat>)
      returns (r: Option<nat>, ghost results: seq<PublishOutcome>)
      requires connection.Valid() && Anchored(wiring) && SameRoutes(wiring, connection.broker.wiring)
      requires repository.session.db == db && repository.session.working == db.tables && batch != []
      requires |pending| == |batch|
      requires forall k :: 0 <= k < |batch| ==> Loaded(pending[k], db.tables.outbox, batch[k]) && !pending[k].isSent
      requires forall k, l :: 0 <= k < l < |pending| ==> pending[k] != pending[l]
      modifies db, repository.session`working, pending, connection`exchanges, connection.broker
      ensures connection.Valid()
      ensures PassLeaves(old(db.tables), db.tables, batch, results, commit, r)
      ensures Answered(results, outcomes, old(connection.exchanges), old(connection.broker.wiring.kinds),
                       old(db.tables.outbox), batch)
      ensures connection.broker.queues
           == Published(old(connection.broker.queues), RoutesOf(wiring), old(db.tables.outbox), batch, results)
    {
      var dispatched;
      dispatched, results := PublishBatch(pending, outcomes, wiring, db.tables.outbox, batch);
      repository.Flush(pending);
      var ok := repository.session.Commit(commit);
      r := if ok then Some(dispatched) else None;
    }

    /** One pass over the outbox. `locked` is what other dispatchers hold, `outcomes`
        what the broker does with each publication, `commit` what the commit does.
        Returns the number dispatched, or none when the pass raised. */
    method Dispatch(locked: set<nat>, limit: nat, outcomes: nat -> PublishOutcome, commit: CommitOutcome)
      returns (r: Option<nat>, ghost batch: seq<nat>, ghost results: seq<PublishOutcome>)
      requires connection.Valid()
      modifies db, connection`exchanges, connection.broker
      ensures connection.Valid()
      // the primary exchange is refused, and nothing happens: the broker has it with another type
      ensures PrimaryRefused(old(connection.exchanges), old(connection.broker.wiring.kinds), connection.topology) ==>
                r == None && batch == [] && results == [] && db.tables == old(db.tables)
      // or the oldest free rows are taken, offered one by one, marked and committed
      ensures !PrimaryRefused(old(connection.exchanges), old(connection.broker.wiring.kinds), connection.topology) ==>
                batch == FindPending(old(db.tables.outbox), locked, limit, 0) &&
                PassLeaves(old(db.tables), db.tables, batch, results, commit, r)
      ensures Answered(results, outcomes, old(connection.exchanges) + {connection.topology.primaryExchange},
                       old(connection.broker.wiring.kinds), old(db.tables.outbox), batch)
      ensures |results| == |batch| && forall k :: 0 <= k < |batch| ==> batch[k] < |old(db.tables.outbox)|
      ensures connection.broker.queues
           == Published(old(connection.broker.queues), RoutesOf(old(connection.broker.wiring)), old(db.tables.outbox),
                        batch, results)
    {
      ghost var wiring := connection.broker.wiring;
      var declared := connection.DeclarePublisherTopology();
      if !declared {
        return None, [], [];
      }
      r, batch, results := DispatchBatch(locked, limit, outcomes, commit, wiring);
    }
  }
}
