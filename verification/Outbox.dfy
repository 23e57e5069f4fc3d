/** Which rows a dispatcher takes, what publishing them leaves on the broker, and
    which rows its commit marks sent. */
module Outbox {
  import opened Envelope
  import opened Topology
  import opened Connection
  import opened Store

  predicate Eligible(rows: seq<Row>, locked: set<nat>, i: nat) {
    i < |rows| && !rows[i].sent && i !in locked
  }

  /** The oldest pending rows no other dispatcher holds, at most `limit` of them. */
  function FindPending(rows: seq<Row>, locked: set<nat>, limit: nat, from: nat): seq<nat>
    requires from <= |rows|
    decreases |rows| - from
  {
    if limit == 0 || from == |rows| then []
    else if Eligible(rows, locked, from) then [from] + FindPending(rows, locked, limit - 1, from + 1)
    else FindPending(rows, locked, limit, from + 1)
  }

  /** A batch is eligible rows in age order, as many as the limit allows, and a row
      left behind is younger than every row taken. */
  ghost predicate OldestBatch(rows: seq<Row>, locked: set<nat>, limit: nat, from: nat, batch: seq<nat>) {
    |batch| <= limit &&
    (forall k :: 0 <= k < |batch| ==> from <= batch[k] && Eligible(rows, locked, batch[k])) &&
    (forall k, l :: 0 <= k < l < |batch| ==> batch[k] < batch[l]) &&
    (forall i: nat :: from <= i && Eligible(rows, locked, i) && i !in batch ==>
       |batch| == limit && forall k :: 0 <= k < |batch| ==> batch[k] < i)
  }

  lemma {:induction false} FindsOldestBatch(rows: seq<Row>, locked: set<nat>, limit: nat, from: nat)
    requires from <= |rows|
    ensures OldestBatch(rows, locked, limit, from, FindPending(rows, locked, limit, from))
    decreases |rows| - from
  {
    if limit > 0 && from < |rows| {
      if Eligible(rows, locked, from) {
        FindsOldestBatch(rows, locked, limit - 1, from + 1);
        OldestFirst(rows, locked, limit, from, FindPending(rows, locked, limit - 1, from + 1));
      } else {
        FindsOldestBatch(rows, locked, limit, from + 1);
      }
    }
  }

  lemma {:induction false} OldestFirst(rows: seq<Row>, locked: set<nat>, limit: nat, from: nat, rest: seq<nat>)
    requires limit > 0 && Eligible(rows, locked, from) && OldestBatch(rows, locked, limit - 1, from + 1, rest)
    ensures OldestBatch(rows, locked, limit, from, [from] + rest)
  {
    var batch := [from] + rest;
    assert forall i :: i in batch <==> i == from || i in rest;
    forall k | 0 < k < |batch|
      ensures batch[k] == rest[k - 1]
    {
    }
  }

  function MarkSent(rows: seq<Row>, sent: seq<nat>): (r: seq<Row>)
    ensures |r| == |rows|
    ensures forall i :: 0 <= i < |rows| ==> r[i] == if i in sent then rows[i].(sent := true) else rows[i]
  {
    seq(|rows|, i requires 0 <= i < |rows| => if i in sent then rows[i].(sent := true) else rows[i])
  }

  function CopyOf(row: Row): Copy {
    Copy(row.content, row.headers)
  }

  /** The rows of the batch whose publication was confirmed. */
  function Confirmed(batch: seq<nat>, results: seq<PublishOutcome>): (r: seq<nat>)
    requires |results| <= |batch|
    ensures forall i :: i in r ==> i in batch
  {
    if results == [] then []
    else
      var last := |results| - 1;
      Confirmed(batch, results[..last]) + if results[last] == Accepted then [batch[last]] else []
  }

  /** What the broker's queues hold once the batch was published with these results. */
  function Published(queues: Queues, routes: Routes, rows: seq<Row>, batch: seq<nat>, results: seq<PublishOutcome>)
    : Queues
    requires |results| <= |batch| && forall k :: 0 <= k < |batch| ==> batch[k] < |rows|
  {
    if results == [] then queues
    else
      var last := |results| - 1;
      var before := Published(queues, routes, rows, batch, results[..last]);
      var row := rows[batch[last]];
      if Arrives(results[last]) then Enqueue(before, routes(row.target), CopyOf(row)) else before
  }

  lemma {:induction false} OneMorePublished(queues: Queues, routes: Routes, rows: seq<Row>, batch: seq<nat>,
                                            results: seq<PublishOutcome>, result: PublishOutcome)
    requires |results| < |batch| && forall k :: 0 <= k < |batch| ==> batch[k] < |rows|
    ensures var row, before := rows[batch[|results|]], Published(queues, routes, rows, batch, results);
            Published(queues, routes, rows, batch, results + [result]) ==
            if Arrives(result) then Enqueue(before, routes(row.target), CopyOf(row)) else before
  {
    assert (results + [result])[..|results|] == results;
  }

  lemma {:induction false} OneMoreConfirmed(batch: seq<nat>, results: seq<PublishOutcome>, result: PublishOutcome)
    requires |results| < |batch|
    ensures Confirmed(batch, results + [result])
             == Confirmed(batch, results) + if result == Accepted then [batch[|results|]] else []
  {
    assert (results + [result])[..|results|] == results;
  }

  /** The offers that put this copy into this queue. */
  function OffersOf(routes: Routes, rows: seq<Row>, batch: seq<nat>, results: seq<PublishOutcome>, q: string, c: Copy)
    : set<nat>
    requires |results| <= |batch| && forall k :: 0 <= k < |batch| ==> batch[k] < |rows|
  {
    set k: nat | k < |results| && results[k] != Raised && q in routes(rows[batch[k]].target) &&
                 Copy(rows[batch[k]].content, rows[batch[k]].headers) == c
  }

  /** What publishing a batch leaves in a queue, counted: what it held, and one copy for
      each offer that arrived there. */
  lemma {:induction false} PublishedExactly(queues: Queues, routes: Routes, rows: seq<Row>, batch: seq<nat>,
                                            results: seq<PublishOutcome>, q: string, c: Copy)
    requires |results| <= |batch| && forall k :: 0 <= k < |batch| ==> batch[k] < |rows|
    ensures Ready(Published(queues, routes, rows, batch, results), q)[c]
         == Ready(queues, q)[c] + |OffersOf(routes, rows, batch, results, q, c)|
  {
    if results == [] {
      assert OffersOf(routes, rows, batch, results, q, c) == {};
    } else {
      var last := |results| - 1;
      PublishedExactly(queues, routes, rows, batch, results[..last], q, c);
      var before, after := OffersOf(routes, rows, batch, results[..last], q, c),
                           OffersOf(routes, rows, batch, results, q, c);
      var arrives := results[last] != Raised && q in routes(rows[batch[last]].target) && CopyOf(rows[batch[last]]) == c;
      assert after == before + if arrives then {last} else {};
    }
  }

  /** Which rows count as confirmed: exactly those whose publication was. */
  lemma {:induction false} ConfirmedExactly(batch: seq<nat>, results: seq<PublishOutcome>, i: nat)
    requires |results| <= |batch|
    ensures i in Confirmed(batch, results) <==>
              exists k :: 0 <= k < |results| && results[k] == Accepted && batch[k] == i
  {
    if results != [] {
      var last := |results| - 1;
      ConfirmedExactly(batch, results[..last], i);
      if k :| 0 <= k < |results| && results[k] == Accepted && batch[k] == i {
        assert k < last ==> results[..last][k] == Accepted;
      }
    }
  }

  lemma {:induction false} AllConfirmed(batch: seq<nat>, results: seq<PublishOutcome>)
    requires |results| <= |batch| && forall k :: 0 <= k < |results| ==> results[k] == Accepted
    ensures Confirmed(batch, results) == batch[..|results|]
  {
    if results != [] {
      var last := |results| - 1;
      AllConfirmed(batch, results[..last]);
    }
  }
}
