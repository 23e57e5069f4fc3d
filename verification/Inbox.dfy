/** What one attempt, one handler's immediate retries and a whole dispatch leave in
    the inbox, for every pattern of failures. */
module Inbox {
  import opened Common
  import opened Envelope
  import opened Handlers
  import opened Store

  /** Where an attempt breaks: opening or querying the session, in the handler, on
      the inbox insert, on a commit that stores nothing, or on a commit that stores
      and then reports a failure. */
  datatype Fault = NoFault | LookupFails | HandlerFails | RecordFails | CommitFails | CommitLost

  datatype AttemptResult = Handled | AlreadyHandled | AttemptRaised

  /** Which fault strikes attempt `a` of subscriber `i`. */
  type Script = (nat, nat) -> Fault

  function KeyFor(schema: Schema, content: Content, h: Handler): Key {
    Key(schema, content.id, h.name)
  }

  function Stores(tb: Tables, key: Key, write: Write): Tables {
    tb.(inbox := tb.inbox + [key], effects := tb.effects + [Effect(key, write)])
  }

  /** One attempt in its own transaction: the write and its inbox row, or neither. */
  function Attempted(tb: Tables, key: Key, write: Option<Write>, fault: Fault): (Tables, AttemptResult) {
    if fault == LookupFails then (tb, AttemptRaised)
    else if key in tb.inbox then (tb, AlreadyHandled)
    else if write.None? || fault in {HandlerFails, RecordFails, CommitFails} then (tb, AttemptRaised)
    else (Stores(tb, key, write.value), if fault == CommitLost then AttemptRaised else Handled)
  }

  /** The handler body runs only past the inbox lookup. */
  predicate BodyRuns(tb: Tables, key: Key, fault: Fault) {
    fault != LookupFails && key !in tb.inbox
  }

  datatype RunResult = RunResult(tables: Tables, ok: bool, bodies: nat)

  /** Attempts `a..last` of subscriber `i`, stopping at the first that returns. */
  function RunFrom(tb: Tables, key: Key, write: Option<Write>, script: Script, i: nat, a: nat, last: nat): RunResult
    decreases last + 1 - a
  {
    if a > last then RunResult(tb, false, 0)
    else
      var (after, result) := Attempted(tb, key, write, script(i, a));
      var ran := if BodyRuns(tb, key, script(i, a)) then 1 else 0;
      if result != AttemptRaised then RunResult(after, true, ran)
      else
        var rest := RunFrom(after, key, write, script, i, a + 1, last);
        rest.(bodies := ran + rest.bodies)
  }

  /** Some attempt gets as far as storing its transaction. */
  ghost predicate Stored(write: Option<Write>, script: Script, i: nat, a: nat, last: nat) {
    write.Some? && exists k :: a <= k <= last && script(i, k) in {NoFault, CommitLost}
  }

  /** Some attempt returns: it does the work and commits, or its lookup finds the
      work done - before the run, or by an attempt whose commit was lost on the way. */
  ghost predicate Returns(done: bool, write: Option<Write>, script: Script, i: nat, a: nat, last: nat) {
    exists k :: a <= k <= last && (
      (write.Some? && script(i, k) == NoFault) ||
      (script(i, k) != LookupFails &&
       (done || (write.Some? && exists b :: a <= b < k && script(i, b) == CommitLost))))
  }

  lemma {:induction false} RunExactly(tb: Tables, key: Key, write: Option<Write>, script: Script, i: nat, a: nat,
                                      last: nat)
    requires a <= last + 1
    ensures var r := RunFrom(tb, key, write, script, i, a, last);
            (r.ok <==> Returns(key in tb.inbox, write, script, i, a, last)) &&
            r.tables == (if key !in tb.inbox && Stored(write, script, i, a, last) then Stores(tb, key, write.value)
                         else tb) &&
            r.bodies <= last + 1 - a && (key in tb.inbox ==> r.bodies == 0)
    decreases last + 1 - a
  {
    if a <= last {
      var (after, result) := Attempted(tb, key, write, script(i, a));
      if result == AttemptRaised {
        RunExactly(after, key, write, script, i, a + 1, last);
        ReturnsFromNext(key in tb.inbox, write, script, i, a, last);
      } else {
        assert Returns(key in tb.inbox, write, script, i, a, last);
      }
    }
  }

  /** Peeling one raising attempt off `Returns`. */
  lemma {:induction false} ReturnsFromNext(done: bool, write: Option<Write>, script: Script, i: nat, a: nat, last: nat)
    requires a <= last
    requires done ==> script(i, a) == LookupFails
    requires write.Some? ==> script(i, a) != NoFault
    ensures Returns(done, write, script, i, a, last)
       <==> Returns(done || (write.Some? && script(i, a) == CommitLost), write, script, i, a + 1, last)
  {
    var later := done || (write.Some? && script(i, a) == CommitLost);
    if Returns(done, write, script, i, a, last) {
      var k :| a <= k <= last && (
        (write.Some? && script(i, k) == NoFault) ||
        (script(i, k) != LookupFails &&
         (done || (write.Some? && exists b :: a <= b < k && script(i, b) == CommitLost))));
      assert a < k;
    }
    if Returns(later, write, script, i, a + 1, last) {
      var k :| a + 1 <= k <= last && (
        (write.Some? && script(i, k) == NoFault) ||
        (script(i, k) != LookupFails &&
         (later || (write.Some? && exists b :: a + 1 <= b < k && script(i, b) == CommitLost))));
      assert a <= k <= last;
    }
  }

  datatype DispatchResult = DispatchResult(tables: Tables, failures: seq<nat>, bodies: seq<nat>)

  /** Subscribers `i..` in turn; the indices of those that failed are collected. */
  function DispatchFrom(tb: Tables, schema: Schema, content: Content, subs: seq<Handler>,
                        script: Script, i: nat, last: nat): DispatchResult
    requires i <= |subs|
    decreases |subs| - i
  {
    if i == |subs| then DispatchResult(tb, [], [])
    else
      var r := RunFrom(tb, KeyFor(schema, content, subs[i]), HandlerWrite(subs[i].name, content.body), script, i, 0,
                       last);
      var rest := DispatchFrom(r.tables, schema, content, subs, script, i + 1, last);
      DispatchResult(rest.tables, (if r.ok then [] else [i]) + rest.failures, [r.bodies] + rest.bodies)
  }

  ghost predicate DistinctNames(subs: seq<Handler>) {
    forall i, j :: 0 <= i < j < |subs| ==> subs[i].name != subs[j].name
  }

  ghost predicate HandlerStores(content: Content, subs: seq<Handler>, script: Script, i: nat, last: nat)
    requires i < |subs|
  {
    Stored(HandlerWrite(subs[i].name, content.body), script, i, 0, last)
  }

  ghost predicate HandlerReturns(tb: Tables, schema: Schema, content: Content, subs: seq<Handler>,
                                 script: Script, i: nat, last: nat)
    requires i < |subs|
  {
    Returns(KeyFor(schema, content, subs[i]) in tb.inbox, HandlerWrite(subs[i].name, content.body), script, i, 0, last)
  }

  /** A key is in the inbox after the dispatch exactly when it was there before, or
      names a subscriber one of whose attempts stored its transaction. */
  lemma {:induction false} InboxAfterDispatch(tb: Tables, schema: Schema, content: Content, subs: seq<Handler>,
                                              script: Script, i: nat, last: nat, key: Key)
    requires i <= |subs|
    ensures key in DispatchFrom(tb, schema, content, subs, script, i, last).tables.inbox
       <==> key in tb.inbox ||
            exists j :: i <= j < |subs| && KeyFor(schema, content, subs[j]) == key &&
                        HandlerStores(content, subs, script, j, last)
    decreases |subs| - i
  {
    if i < |subs| {
      var own, write := KeyFor(schema, content, subs[i]), HandlerWrite(subs[i].name, content.body);
      RunExactly(tb, own, write, script, i, 0, last);
      var r := RunFrom(tb, own, write, script, i, 0, last);
      InboxAfterDispatch(r.tables, schema, content, subs, script, i + 1, last, key);
      assert HandlerStores(content, subs, script, i, last) <==> Stored(write, script, i, 0, last);
    }
  }

  /** A subscriber is reported as failed exactly when none of its attempts returns,
      and the report lists each failed subscriber once, in subscription order. */
  lemma {:induction false} FailuresAfterDispatch(tb: Tables, schema: Schema, content: Content, subs: seq<Handler>,
                                                 script: Script, i: nat, last: nat, j: nat)
    requires i <= j < |subs| && DistinctNames(subs)
    ensures j in DispatchFrom(tb, schema, content, subs, script, i, last).failures
       <==> !HandlerReturns(tb, schema, content, subs, script, j, last)
    decreases |subs| - i
  {
    var own, write := KeyFor(schema, content, subs[i]), HandlerWrite(subs[i].name, content.body);
    RunExactly(tb, own, write, script, i, 0, last);
    var r := RunFrom(tb, own, write, script, i, 0, last);
    FailuresInOrder(r.tables, schema, content, subs, script, i + 1, last);
    if i < j {
      FailuresAfterDispatch(r.tables, schema, content, subs, script, i + 1, last, j);
      assert KeyFor(schema, content, subs[j]) != own;
    }
  }

  lemma {:induction false} SmallestFirst(i: nat, rest: seq<nat>)
    requires forall x :: x in rest ==> i < x
    requires forall x, y :: 0 <= x < y < |rest| ==> rest[x] < rest[y]
    ensures forall x, y :: 0 <= x < y < |[i] + rest| ==> ([i] + rest)[x] < ([i] + rest)[y]
  {
    var all := [i] + rest;
    forall x, y | 0 <= x < y < |all|
      ensures all[x] < all[y]
    {
      assert all[y] == rest[y - 1] && rest[y - 1] in rest;
    }
  }

  lemma {:induction false} FailuresInOrder(tb: Tables, schema: Schema, content: Content, subs: seq<Handler>,
                                           script: Script, i: nat, last: nat)
    requires i <= |subs|
    ensures var d := DispatchFrom(tb, schema, content, subs, script, i, last);
            (forall x :: x in d.failures ==> i <= x < |subs|) &&
            (forall x, y :: 0 <= x < y < |d.failures| ==> d.failures[x] < d.failures[y]) &&
            |d.bodies| == |subs| - i && forall x :: 0 <= x < |d.bodies| ==> d.bodies[x] <= last + 1
    decreases |subs| - i
  {
    if i < |subs| {
      var own, write := KeyFor(schema, content, subs[i]), HandlerWrite(subs[i].name, content.body);
      RunExactly(tb, own, write, script, i, 0, last);
      var r := RunFrom(tb, own, write, script, i, 0, last);
      FailuresInOrder(r.tables, schema, content, subs, script, i + 1, last);
      var rest := DispatchFrom(r.tables, schema, content, subs, script, i + 1, last).failures;
      SmallestFirst(i, rest);
      assert [] + rest == rest;
    }
  }

  /** One handler's failures never change another's outcome: whatever happens to the
      siblings, a subscriber fails or succeeds, and is recorded or not, alike. */
  lemma {:induction false} SiblingsAreIndependent(tb: Tables, schema: Schema, content: Content, subs: seq<Handler>,
                               script: Script, other: Script, last: nat, j: nat)
    requires j < |subs| && DistinctNames(subs)
    requires forall a :: script(j, a) == other(j, a)
    ensures var d, e := DispatchFrom(tb, schema, content, subs, script, 0, last),
                        DispatchFrom(tb, schema, content, subs, other, 0, last);
            (j in d.failures <==> j in e.failures) &&
            (KeyFor(schema, content, subs[j]) in d.tables.inbox <==> KeyFor(schema, content, subs[j]) in e.tables.inbox)
  {
    var key := KeyFor(schema, content, subs[j]);
    FailuresAfterDispatch(tb, schema, content, subs, script, 0, last, j);
    FailuresAfterDispatch(tb, schema, content, subs, other, 0, last, j);
    InboxAfterDispatch(tb, schema, content, subs, script, 0, last, key);
    InboxAfterDispatch(tb, schema, content, subs, other, 0, last, key);
    assert HandlerStores(content, subs, script, j, last) <==> HandlerStores(content, subs, other, j, last);
    assert HandlerReturns(tb, schema, content, subs, script, j, last) <==>
           HandlerReturns(tb, schema, content, subs, other, j, last);
    if key in DispatchFrom(tb, schema, content, subs, script, 0, last).tables.inbox && key !in tb.inbox {
      var i :| 0 <= i < |subs| && KeyFor(schema, content, subs[i]) == key &&
               HandlerStores(content, subs, script, i, last);
      assert i == j;
    }
    if key in DispatchFrom(tb, schema, content, subs, other, 0, last).tables.inbox && key !in tb.inbox {
      var i :| 0 <= i < |subs| && KeyFor(schema, content, subs[i]) == key &&
               HandlerStores(content, subs, other, i, last);
      assert i == j;
    }
  }

  /** A dispatch only adds: the old rows stay in front, each new inbox row comes with
      its write, and no key is ever stored twice - nor is the outbox touched. */
  lemma {:induction false} DispatchKeepsCoupling(tb: Tables, schema: Schema, content: Content, subs: seq<Handler>,
                                                 script: Script, i: nat, last: nat)
    requires i <= |subs| && Coupled(tb.inbox, tb.effects)
    ensures var d := DispatchFrom(tb, schema, content, subs, script, i, last).tables;
            Coupled(d.inbox, d.effects) && tb.inbox <= d.inbox && tb.effects <= d.effects && d.outbox == tb.outbox
    decreases |subs| - i
  {
    if i < |subs| {
      var own, write := KeyFor(schema, content, subs[i]), HandlerWrite(subs[i].name, content.body);
      RunExactly(tb, own, write, script, i, 0, last);
      DispatchKeepsCoupling(RunFrom(tb, own, write, script, i, 0, last).tables, schema, content, subs, script, i + 1,
                            last);
    }
  }

  /** Nothing failed: then every subscriber is in the inbox. */
  lemma {:induction false} CleanDispatchRecordsAll(tb: Tables, schema: Schema, content: Content, subs: seq<Handler>,
                                                   script: Script, last: nat, j: nat)
    requires j < |subs| && DistinctNames(subs)
    requires DispatchFrom(tb, schema, content, subs, script, 0, last).failures == []
    ensures KeyFor(schema, content, subs[j]) in DispatchFrom(tb, schema, content, subs, script, 0, last).tables.inbox
  {
    var key := KeyFor(schema, content, subs[j]);
    FailuresAfterDispatch(tb, schema, content, subs, script, 0, last, j);
    InboxAfterDispatch(tb, schema, content, subs, script, 0, last, key);
    assert HandlerReturns(tb, schema, content, subs, script, j, last);
    if key !in tb.inbox {
      assert HandlerStores(content, subs, script, j, last);
    }
  }

  /** Why handler names must differ within a type: once one class is in the inbox -
      before the dispatch, or by an attempt of its own - a later class of that name
      never runs, and is not even reported unless all its look-ups fail. */
  lemma {:induction false} SharedNameSilences(tb: Tables, schema: Schema, content: Content, subs: seq<Handler>,
                                              script: Script, start: nat, last: nat, i: nat, j: nat)
    requires start <= i < j < |subs| && subs[i].name == subs[j].name
    requires KeyFor(schema, content, subs[i]) in tb.inbox || HandlerStores(content, subs, script, i, last)
    ensures var d := DispatchFrom(tb, schema, content, subs, script, start, last);
            |d.bodies| == |subs| - start && d.bodies[j - start] == 0 &&
            (j in d.failures <==> forall a :: 0 <= a <= last ==> script(j, a) == LookupFails)
    decreases |subs| - start
  {
    var own, write := KeyFor(schema, content, subs[start]), HandlerWrite(subs[start].name, content.body);
    var r := RunFrom(tb, own, write, script, start, 0, last);
    RunExactly(tb, own, write, script, start, 0, last);
    FailuresInOrder(r.tables, schema, content, subs, script, start + 1, last);
    var rest := DispatchFrom(r.tables, schema, content, subs, script, start + 1, last);
    assert DispatchFrom(tb, schema, content, subs, script, start, last)
        == DispatchResult(rest.tables, (if r.ok then [] else [start]) + rest.failures, [r.bodies] + rest.bodies);
    if start < i {
      SharedNameSilences(r.tables, schema, content, subs, script, start + 1, last, i, j);
    } else {
      assert HandlerStores(content, subs, script, i, last) ==> Stored(write, script, i, 0, last);
      assert own in r.tables.inbox && KeyFor(schema, content, subs[j]) == own;
      RecordedStaysSilent(r.tables, schema, content, subs, script, start + 1, last, j);
    }
  }

  /** A subscriber whose key is in the inbox already. */
  lemma {:induction false} RecordedStaysSilent(tb: Tables, schema: Schema, content: Content, subs: seq<Handler>,
                                               script: Script, start: nat, last: nat, j: nat)
    requires start <= j < |subs| && KeyFor(schema, content, subs[j]) in tb.inbox
    ensures var d := DispatchFrom(tb, schema, content, subs, script, start, last);
            |d.bodies| == |subs| - start && d.bodies[j - start] == 0 &&
            (j in d.failures <==> forall a :: 0 <= a <= last ==> script(j, a) == LookupFails)
    decreases |subs| - start
  {
    var own, write := KeyFor(schema, content, subs[start]), HandlerWrite(subs[start].name, content.body);
    var r := RunFrom(tb, own, write, script, start, 0, last);
    RunExactly(tb, own, write, script, start, 0, last);
    FailuresInOrder(r.tables, schema, content, subs, script, start + 1, last);
    var rest := DispatchFrom(r.tables, schema, content, subs, script, start + 1, last);
    assert DispatchFrom(tb, schema, content, subs, script, start, last)
        == DispatchResult(rest.tables, (if r.ok then [] else [start]) + rest.failures, [r.bodies] + rest.bodies);
    if start < j {
      RecordedStaysSilent(r.tables, schema, content, subs, script, start + 1, last, j);
    }
  }

  // ----- cancellation ------------------------------------------------------

  /** Where a cancelled worker's dispatch breaks off: in that attempt of that
      subscriber, whose transaction may have been stored by then. */
  datatype Cut = Cut(subscriber: nat, attempt: nat, stored: bool)

  predicate Strikes(cut: Option<Cut>, i: nat, a: nat) {
    cut.Some? && cut.value.subscriber == i && cut.value.attempt == a
  }

  /** What the cancelled attempt leaves: its whole transaction, or nothing of it. */
  function CutFault(cut: Cut): Fault {
    if cut.stored then NoFault else HandlerFails
  }

  datatype RunEnd = Returned | GaveUp | CancelledRun

  datatype CutRun = CutRun(tables: Tables, end: RunEnd, bodies: nat)

  /** A handler's run, cut short where the cancellation strikes. */
  function RunUntil(tb: Tables, key: Key, write: Option<Write>, script: Script, i: nat, a: nat, last: nat,
                    cut: Option<Cut>): CutRun
    decreases last + 1 - a
  {
    if a > last then CutRun(tb, GaveUp, 0)
    else
      var fault := if Strikes(cut, i, a) then CutFault(cut.value) else script(i, a);
      var (after, result) := Attempted(tb, key, write, fault);
      var ran := if BodyRuns(tb, key, fault) then 1 else 0;
      if Strikes(cut, i, a) then CutRun(after, CancelledRun, ran)
      else if result != AttemptRaised then CutRun(after, Returned, ran)
      else
        var rest := RunUntil(after, key, write, script, i, a + 1, last, cut);
        rest.(bodies := ran + rest.bodies)
  }

  datatype CutDispatch = CutDispatch(tables: Tables, failures: seq<nat>, bodies: seq<nat>, cancelled: bool)

  /** A whole dispatch, cut short where the cancellation strikes. */
  function DispatchUntil(tb: Tables, schema: Schema, content: Content, subs: seq<Handler>,
                         script: Script, i: nat, last: nat, cut: Option<Cut>): CutDispatch
    requires i <= |subs|
    decreases |subs| - i
  {
    if i == |subs| then CutDispatch(tb, [], [], false)
    else
      var r := RunUntil(tb, KeyFor(schema, content, subs[i]), HandlerWrite(subs[i].name, content.body), script, i, 0,
                        last, cut);
      if r.end == CancelledRun then CutDispatch(r.tables, [], [r.bodies], true)
      else
        var rest := DispatchUntil(r.tables, schema, content, subs, script, i + 1, last, cut);
        rest.(failures := (if r.end == Returned then [] else [i]) + rest.failures, bodies := [r.bodies] + rest.bodies)
  }

  /** The same result behind what earlier subscribers already reported. */
  function AfterEarlier(failures: seq<nat>, bodies: seq<nat>, d: CutDispatch): CutDispatch {
    d.(failures := failures + d.failures, bodies := bodies + d.bodies)
  }

  lemma {:induction false} NextUntil(tb: Tables, schema: Schema, content: Content, subs: seq<Handler>, script: Script,
                                     i: nat, last: nat, cut: Option<Cut>, failures: seq<nat>, bodies: seq<nat>)
    requires i < |subs|
    ensures var r := RunUntil(tb, KeyFor(schema, content, subs[i]), HandlerWrite(subs[i].name, content.body), script, i,
                              0, last, cut);
            AfterEarlier(failures, bodies, DispatchUntil(tb, schema, content, subs, script, i, last, cut)) ==
            if r.end == CancelledRun then CutDispatch(r.tables, failures, bodies + [r.bodies], true)
            else AfterEarlier(if r.end == Returned then failures else failures + [i], bodies + [r.bodies],
                              DispatchUntil(r.tables, schema, content, subs, script, i + 1, last, cut))
  {
    var r := RunUntil(tb, KeyFor(schema, content, subs[i]), HandlerWrite(subs[i].name, content.body), script, i, 0,
                      last, cut);
    if r.end == CancelledRun {
      assert failures + [] == failures;
    } else {
      var rest := DispatchUntil(r.tables, schema, content, subs, script, i + 1, last, cut);
      assert bodies + ([r.bodies] + rest.bodies) == bodies + [r.bodies] + rest.bodies;
      assert failures + ((if r.end == Returned then [] else [i]) + rest.failures)
          == (if r.end == Returned then failures else failures + [i]) + rest.failures;
    }
  }

  /** The script a cancelled dispatch amounts to: nothing after the cut gets anywhere. */
  function Cutting(script: Script, cut: Cut): Script {
    (i: nat, a: nat) =>
      if i != cut.subscriber || a < cut.attempt then script(i, a)
      else if a == cut.attempt then CutFault(cut) else LookupFails
  }

  /** Without an inbox look-up there is nothing to an attempt. */
  lemma {:induction false} FailedLookupsDoNothing(tb: Tables, key: Key, write: Option<Write>, script: Script, i: nat,
                                                  a: nat, last: nat)
    requires forall b :: a <= b <= last ==> script(i, b) == LookupFails
    ensures RunFrom(tb, key, write, script, i, a, last).tables == tb
    decreases last + 1 - a
  {
    if a <= last {
      FailedLookupsDoNothing(tb, key, write, script, i, a + 1, last);
    }
  }

  lemma {:induction false} RunAmountsTo(tb: Tables, key: Key, write: Option<Write>, script: Script, i: nat, a: nat,
                                        last: nat, cut: Option<Cut>)
    ensures var r := RunUntil(tb, key, write, script, i, a, last, cut);
            if r.end == CancelledRun
            then cut.Some? && cut.value.subscriber == i && a <= cut.value.attempt &&
                 r.tables == RunFrom(tb, key, write, Cutting(script, cut.value), i, a, last).tables
            else var whole := RunFrom(tb, key, write, script, i, a, last);
                 r.tables == whole.tables && (r.end == Returned <==> whole.ok) && r.bodies == whole.bodies
    decreases last + 1 - a
  {
    if a <= last {
      var fault := if Strikes(cut, i, a) then CutFault(cut.value) else script(i, a);
      var (after, result) := Attempted(tb, key, write, fault);
      if Strikes(cut, i, a) {
        FailedLookupsDoNothing(after, key, write, Cutting(script, cut.value), i, a + 1, last);
      } else if result == AttemptRaised {
        RunAmountsTo(after, key, write, script, i, a + 1, last, cut);
      }
    }
  }

  /** A dispatch that is not cancelled is the whole dispatch. One that is amounts to a
      dispatch of the subscribers up to the cut, under the script cut there. */
  lemma {:induction false} DispatchAmountsTo(tb: Tables, schema: Schema, content: Content, subs: seq<Handler>,
                                             script: Script, i: nat, last: nat, cut: Option<Cut>)
    requires i <= |subs|
    ensures var d := DispatchUntil(tb, schema, content, subs, script, i, last, cut);
            if d.cancelled
            then cut.Some? && i <= cut.value.subscriber < |subs| &&
                 d.tables == DispatchFrom(tb, schema, content, subs[..cut.value.subscriber + 1],
                                          Cutting(script, cut.value), i, last).tables
            else DispatchResult(d.tables, d.failures, d.bodies)
                  == DispatchFrom(tb, schema, content, subs, script, i, last)
    decreases |subs| - i
  {
    if i < |subs| {
      var key, write := KeyFor(schema, content, subs[i]), HandlerWrite(subs[i].name, content.body);
      RunAmountsTo(tb, key, write, script, i, 0, last, cut);
      var r := RunUntil(tb, key, write, script, i, 0, last, cut);
      if r.end != CancelledRun {
        DispatchAmountsTo(r.tables, schema, content, subs, script, i + 1, last, cut);
        if cut.Some? && i < cut.value.subscriber {
          SameScriptSameRun(tb, key, write, script, Cutting(script, cut.value), i, 0, last);
        }
      }
    }
  }

  lemma {:induction false} SameScriptSameRun(tb: Tables, key: Key, write: Option<Write>, script: Script, other: Script,
                                             i: nat, a: nat, last: nat)
    requires forall b :: a <= b <= last ==> script(i, b) == other(i, b)
    ensures RunFrom(tb, key, write, script, i, a, last) == RunFrom(tb, key, write, other, i, a, last)
    decreases last + 1 - a
  {
    if a <= last {
      var (after, result) := Attempted(tb, key, write, script(i, a));
      SameScriptSameRun(after, key, write, script, other, i, a + 1, last);
    }
  }

  /** What a subscriber gets stored in a dispatch that may be cancelled. */
  ghost predicate StoresBeforeCut(content: Content, subs: seq<Handler>, script: Script, last: nat, cut: Option<Cut>,
                                  cancelled: bool, j: nat)
    requires j < |subs|
  {
    if cancelled
    then cut.Some? && j <= cut.value.subscriber && HandlerStores(content, subs, Cutting(script, cut.value), j, last)
    else HandlerStores(content, subs, script, j, last)
  }

  /** With or without a cancellation: a subscriber is in the inbox exactly when it was
      before, or one of its attempts got to store its transaction. */
  lemma {:induction false} InboxAfterCut(tb: Tables, schema: Schema, content: Content, subs: seq<Handler>,
                                         script: Script, last: nat, cut: Option<Cut>, j: nat)
    requires DistinctNames(subs) && j < |subs|
    ensures var d := DispatchUntil(tb, schema, content, subs, script, 0, last, cut);
            KeyFor(schema, content, subs[j]) in d.tables.inbox <==>
              KeyFor(schema, content, subs[j]) in tb.inbox ||
              StoresBeforeCut(content, subs, script, last, cut, d.cancelled, j)
  {
    var key := KeyFor(schema, content, subs[j]);
    DispatchAmountsTo(tb, schema, content, subs, script, 0, last, cut);
    if DispatchUntil(tb, schema, content, subs, script, 0, last, cut).cancelled {
      var some, cutting := subs[..cut.value.subscriber + 1], Cutting(script, cut.value);
      InboxAfterDispatch(tb, schema, content, some, cutting, 0, last, key);
      if j < |some| {
        assert some[j] == subs[j];
        assert HandlerStores(content, some, cutting, j, last) <==> HandlerStores(content, subs, cutting, j, last);
      }
    } else {
      InboxAfterDispatch(tb, schema, content, subs, script, 0, last, key);
    }
  }
}
