/** The imperative loops are runs of the machine: an inbox dispatch, a whole delivery
    and an outbox pass, under any faults, are each a possible run of bus actions that
    ends in the state their specifications name. */
module Refinement {
  import opened Common
  import opened Envelope
  import opened Topology
  import opened Connection
  import opened Handlers
  import opened Store
  import opened Inbox
  import opened Outbox
  import opened Recovery
  import opened Consumer
  import Ledgers
  import ShipmentRules
  import opened Bus

  // ----- runs of one delivery ----------------------------------------------

  ghost predicate CanMoveAll(cfg: Config, w: Work, t: nat, moves: seq<Move>)
    decreases moves
  {
    moves == [] || (CanMove(cfg, w, t, moves[0]) && CanMoveAll(cfg, Moved(cfg, w, t, moves[0]), t, moves[1..]))
  }

  ghost function MovedAll(cfg: Config, w: Work, t: nat, moves: seq<Move>): Work
    requires CanMoveAll(cfg, w, t, moves)
    decreases moves
  {
    if moves == [] then w else MovedAll(cfg, Moved(cfg, w, t, moves[0]), t, moves[1..])
  }

  /** One run leads from `w` to `after`. */
  ghost predicate Leads(cfg: Config, w: Work, t: nat, moves: seq<Move>, after: Work) {
    CanMoveAll(cfg, w, t, moves) && MovedAll(cfg, w, t, moves) == after
  }

  lemma {:induction false} MoveFirst(cfg: Config, w: Work, t: nat, move: Move, moves: seq<Move>, after: Work)
    requires CanMove(cfg, w, t, move) && Leads(cfg, Moved(cfg, w, t, move), t, moves, after)
    ensures Leads(cfg, w, t, [move] + moves, after)
  {
    assert ([move] + moves)[1..] == moves;
  }

  lemma {:induction false} MoveOn(cfg: Config, w: Work, t: nat, first: seq<Move>, mid: Work, second: seq<Move>,
                                  after: Work)
    requires Leads(cfg, w, t, first, mid) && Leads(cfg, mid, t, second, after)
    ensures Leads(cfg, w, t, first + second, after)
    decreases first
  {
    if first == [] {
      assert first + second == second;
    } else {
      MoveOn(cfg, Moved(cfg, w, t, first[0]), t, first[1..], mid, second, after);
      MoveFirst(cfg, w, t, first[0], first[1..] + second, after);
      assert first + second == [first[0]] + (first[1..] + second);
    }
  }

  /** How often one subscriber's handler body runs in the course of these moves. */
  ghost function BodiesIn(cfg: Config, w: Work, t: nat, moves: seq<Move>, subscriber: nat): nat
    decreases moves
  {
    if moves == [] || !CanMove(cfg, w, t, moves[0]) then 0
    else (if RunsBody(w.tasks[t].stage, moves[0], subscriber) then 1 else 0) +
         BodiesIn(cfg, Moved(cfg, w, t, moves[0]), t, moves[1..], subscriber)
  }

  lemma {:induction false} BodiesFirst(cfg: Config, w: Work, t: nat, move: Move, moves: seq<Move>, j: nat)
    requires CanMove(cfg, w, t, move)
    ensures BodiesIn(cfg, w, t, [move] + moves, j)
         == (if RunsBody(w.tasks[t].stage, move, j) then 1 else 0) +
            BodiesIn(cfg, Moved(cfg, w, t, move), t, moves, j)
  {
    assert ([move] + moves)[1..] == moves;
  }

  lemma {:induction false} BodiesOn(cfg: Config, w: Work, t: nat, first: seq<Move>, mid: Work, second: seq<Move>,
                                    j: nat)
    requires Leads(cfg, w, t, first, mid)
    ensures BodiesIn(cfg, w, t, first + second, j) == BodiesIn(cfg, w, t, first, j) + BodiesIn(cfg, mid, t, second, j)
    decreases first
  {
    if first == [] {
      assert first + second == second;
    } else {
      var head, rest := first[0], first[1..];
      BodiesOn(cfg, Moved(cfg, w, t, head), t, rest, mid, second, j);
      BodiesFirst(cfg, w, t, head, rest + second, j);
      assert first + second == [head] + (rest + second);
    }
  }

  /** The run leads there, and runs the bodies of the subscribers from `i` on as often as
      listed, and no other. */
  ghost predicate Works(cfg: Config, w: Work, t: nat, moves: seq<Move>, after: Work, i: nat, bodies: seq<nat>) {
    Leads(cfg, w, t, moves, after) &&
    forall j: nat :: BodiesIn(cfg, w, t, moves, j) == Entry(bodies, i, j)
  }

  /** The entry of subscriber `j` in a list that starts at subscriber `i`. */
  function Entry(bodies: seq<nat>, i: nat, j: nat): nat {
    if i <= j < i + |bodies| then bodies[j - i] else 0
  }

  lemma {:induction false} OneMoreEntry(i: nat, n: nat, bodies: seq<nat>)
    ensures forall j: nat :: Entry([n] + bodies, i, j) == Entry([n], i, j) + Entry(bodies, i + 1, j)
  {
  }

  lemma {:induction false} WorkOn(cfg: Config, w: Work, t: nat, first: seq<Move>, mid: Work, second: seq<Move>,
                                  after: Work, i: nat, some: seq<nat>, k: nat, more: seq<nat>, all: seq<nat>)
    requires Works(cfg, w, t, first, mid, i, some) && Works(cfg, mid, t, second, after, k, more)
    requires forall j: nat :: Entry(all, i, j) == Entry(some, i, j) + Entry(more, k, j)
    ensures Works(cfg, w, t, first + second, after, i, all)
  {
    MoveOn(cfg, w, t, first, mid, second, after);
    forall j: nat
      ensures BodiesIn(cfg, w, t, first + second, j) == Entry(all, i, j)
    {
      BodiesOn(cfg, w, t, first, mid, second, j);
    }
  }

  /** One move as a run. */
  lemma {:induction false} OneWorks(cfg: Config, w: Work, t: nat, move: Move, after: Work, i: nat, bodies: seq<nat>)
    requires CanMove(cfg, w, t, move) && Moved(cfg, w, t, move) == after
    requires forall j: nat :: Entry(bodies, i, j) == if RunsBody(w.tasks[t].stage, move, j) then 1 else 0
    ensures Works(cfg, w, t, [move], after, i, bodies)
  {
    MoveFirst(cfg, w, t, move, [], after);
    assert [move] + [] == [move];
    forall j: nat
      ensures BodiesIn(cfg, w, t, [move], j) == Entry(bodies, i, j)
    {
      BodiesFirst(cfg, w, t, move, [], j);
    }
  }

  /** The same bus with this delivery at another stage, over other tables. */
  function At(w: Work, t: nat, stage: Stage, tb: Tables): Work
    requires t in w.tasks
  {
    w.(tasks := w.tasks[t := w.tasks[t].(stage := stage)], inbox := tb.inbox, effects := tb.effects)
  }

  lemma {:induction false} OthersBlockAlike(cfg: Config, w: Work, t: nat, stage: Stage, tb: Tables, key: Key)
    requires t in w.tasks && !Blocked(cfg, w, t, key)
    ensures !Blocked(cfg, At(w, t, stage, tb), t, key)
  {
    var v := At(w, t, stage, tb);
    forall u | u in v.tasks && u != t
      ensures !(HoldsRow(cfg, v.tasks[u]) && TaskKey(cfg, v.tasks[u]) == key)
    {
      assert v.tasks[u] == w.tasks[u];
    }
  }

  /** Moves that stay within the worker: no queue, no other delivery is touched. */
  predicate Inner(move: Move) {
    move.Filter? || move.Lookup? || move.RunHandler? || move.Record? || move.Commit? || move.Fail? || move.Finish?
  }

  lemma {:induction false} InnerStep(cfg: Config, w: Work, t: nat, stage: Stage, tb: Tables, move: Move)
    requires t in w.tasks && Inner(move) && CanMove(cfg, At(w, t, stage, tb), t, move)
    ensures var v := At(w, t, stage, tb);
            Moved(cfg, v, t, move) ==
            At(w, t, StageAfter(cfg, v, t, move),
               if move.Commit? then tb.(inbox := tb.inbox + [TaskKey(cfg, v.tasks[t])],
                                        effects := tb.effects + [Effect(TaskKey(cfg, v.tasks[t]),
                                                                        stage.tx.recordedWrite)]) else tb)
  {
    var v := At(w, t, stage, tb);
    var after := StageAfter(cfg, v, t, move);
    assert v.tasks[t := v.tasks[t].(stage := after)] == w.tasks[t := w.tasks[t].(stage := after)];
  }

  // ----- one attempt -------------------------------------------------------

  /** The subscriber a delivery is at, as the dispatcher sees it. */
  ghost predicate Attempting(cfg: Config, w: Work, t: nat, stage: Stage) {
    t in w.tasks && InDispatch(cfg, w.tasks[t].(stage := stage))
  }

  /** An insert waits for any other transaction holding the same key, and is refused
      when that one commits: while it is open, this attempt cannot get to commit. */
  predicate Commits(fault: Fault) {
    fault == NoFault || fault == CommitLost
  }

  ghost predicate MayHappen(cfg: Config, w: Work, t: nat, key: Key, fault: Fault) {
    Blocked(cfg, w, t, key) ==> !Commits(fault)
  }

  function OwnKey(cfg: Config, w: Work, t: nat, stage: Stage): Key
    requires t in w.tasks && InDispatch(cfg, w.tasks[t].(stage := stage))
  {
    TaskKey(cfg, w.tasks[t].(stage := stage))
  }

  function OwnWrite(cfg: Config, w: Work, t: nat, stage: Stage): Option<Write>
    requires t in w.tasks && InDispatch(cfg, w.tasks[t].(stage := stage))
  {
    TaskWrite(cfg, w.tasks[t].(stage := stage))
  }

  ghost function Raising(cfg: Config, w: Work, t: nat, stage: Stage): Stage
    requires t in w.tasks && InDispatch(cfg, w.tasks[t].(stage := stage))
  {
    AfterRaise(cfg.endpoints[w.tasks[t].endpoint], stage)
  }

  /** What a move of an attempt adds to the count of its subscriber. */
  function Count(stage: Stage, move: Move): nat
    requires stage.Dispatching?
  {
    if RunsBody(stage, move, stage.i) then 1 else 0
  }

  lemma {:induction false} OneMove(cfg: Config, w: Work, t: nat, stage: Stage, tb: Tables, move: Move, next: Stage,
                                   after: Tables)
    requires t in w.tasks && Inner(move) && CanMove(cfg, At(w, t, stage, tb), t, move) && stage.Dispatching?
    requires Moved(cfg, At(w, t, stage, tb), t, move) == At(w, t, next, after)
    ensures Works(cfg, At(w, t, stage, tb), t, [move], At(w, t, next, after), stage.i, [Count(stage, move)])
  {
    OneWorks(cfg, At(w, t, stage, tb), t, move, At(w, t, next, after), stage.i, [Count(stage, move)]);
  }

  lemma {:induction false} FailRuns(cfg: Config, w: Work, t: nat, stage: Stage, tb: Tables)
    requires Attempting(cfg, w, t, stage)
    ensures Works(cfg, At(w, t, stage, tb), t, [Fail], At(w, t, Raising(cfg, w, t, stage), tb), stage.i,
                  [Count(stage, Fail)])
  {
    InnerStep(cfg, w, t, stage, tb, Fail);
    OneMove(cfg, w, t, stage, tb, Fail, Raising(cfg, w, t, stage), tb);
  }

  /** Where an attempt's outcome leaves the delivery. */
  ghost function Concluded(cfg: Config, w: Work, t: nat, stage: Stage, result: AttemptResult): Stage
    requires t in w.tasks && InDispatch(cfg, w.tasks[t].(stage := stage))
  {
    if result == AttemptRaised then Raising(cfg, w, t, stage) else AfterReturn(stage)
  }

  lemma {:induction false} FromRecorded(cfg: Config, w: Work, t: nat, stage: Stage, tb: Tables, fault: Fault)
    returns (moves: seq<Move>)
    requires Attempting(cfg, w, t, stage) && stage.tx.Recorded? &&
             OwnWrite(cfg, w, t, stage) == Some(stage.tx.recordedWrite)
    requires OwnKey(cfg, w, t, stage) !in tb.inbox && Commits(fault)
    ensures var (after, result) := Attempted(tb, OwnKey(cfg, w, t, stage), OwnWrite(cfg, w, t, stage), fault);
            Works(cfg, At(w, t, stage, tb), t, moves, At(w, t, Concluded(cfg, w, t, stage, result), after), stage.i,
                  [0])
  {
    var move := Commit(fault == NoFault);
    moves := [move];
    InnerStep(cfg, w, t, stage, tb, move);
    var after := Stores(tb, OwnKey(cfg, w, t, stage), stage.tx.recordedWrite);
    OneMove(cfg, w, t, stage, tb, move, Concluded(cfg, w, t, stage,
                                                  if fault == NoFault then Handled else AttemptRaised), after);
  }

  lemma {:induction false} FromWrote(cfg: Config, w: Work, t: nat, stage: Stage, tb: Tables, fault: Fault)
    returns (moves: seq<Move>)
    requires Attempting(cfg, w, t, stage) && stage.tx.Wrote? && OwnWrite(cfg, w, t, stage) == Some(stage.tx.write)
    requires OwnKey(cfg, w, t, stage) !in tb.inbox && MayHappen(cfg, w, t, OwnKey(cfg, w, t, stage), fault)
    requires fault != LookupFails && fault != HandlerFails
    ensures var (after, result) := Attempted(tb, OwnKey(cfg, w, t, stage), OwnWrite(cfg, w, t, stage), fault);
            Works(cfg, At(w, t, stage, tb), t, moves, At(w, t, Concluded(cfg, w, t, stage, result), after), stage.i,
                  [0])
  {
    if !Commits(fault) {
      moves := [Fail];
      FailRuns(cfg, w, t, stage, tb);
    } else {
      var next := stage.(tx := Recorded(stage.tx.write));
      OthersBlockAlike(cfg, w, t, stage, tb, OwnKey(cfg, w, t, stage));
      InnerStep(cfg, w, t, stage, tb, Record);
      var rest := FromRecorded(cfg, w, t, next, tb, fault);
      moves := [Record] + rest;
      OneMove(cfg, w, t, stage, tb, Record, next, tb);
      WorkOn(cfg, At(w, t, stage, tb), t, [Record], At(w, t, next, tb), rest,
             MovedAll(cfg, At(w, t, next, tb), t, rest), stage.i, [0], stage.i, [0], [0]);
    }
  }

  lemma {:induction false} FromChecked(cfg: Config, w: Work, t: nat, stage: Stage, tb: Tables, fault: Fault)
    returns (moves: seq<Move>)
    requires Attempting(cfg, w, t, stage) && stage.tx == Checked
    requires OwnKey(cfg, w, t, stage) !in tb.inbox && fault != LookupFails &&
             MayHappen(cfg, w, t, OwnKey(cfg, w, t, stage), fault)
    ensures var (after, result) := Attempted(tb, OwnKey(cfg, w, t, stage), OwnWrite(cfg, w, t, stage), fault);
            Works(cfg, At(w, t, stage, tb), t, moves, At(w, t, Concluded(cfg, w, t, stage, result), after), stage.i,
                  [1])
  {
    if OwnWrite(cfg, w, t, stage).None? || fault == HandlerFails {
      moves := [Fail];
      FailRuns(cfg, w, t, stage, tb);
    } else {
      var next := stage.(tx := Wrote(OwnWrite(cfg, w, t, stage).value));
      InnerStep(cfg, w, t, stage, tb, RunHandler);
      var rest := FromWrote(cfg, w, t, next, tb, fault);
      moves := [RunHandler] + rest;
      OneMove(cfg, w, t, stage, tb, RunHandler, next, tb);
      WorkOn(cfg, At(w, t, stage, tb), t, [RunHandler], At(w, t, next, tb), rest,
             MovedAll(cfg, At(w, t, next, tb), t, rest), stage.i, [1], stage.i, [0], [1]);
    }
  }

  /** One attempt of the dispatcher, whatever strikes it, is a run of the machine. */
  lemma {:induction false} AttemptRuns(cfg: Config, w: Work, t: nat, stage: Stage, tb: Tables, fault: Fault)
    returns (moves: seq<Move>)
    requires Attempting(cfg, w, t, stage) && stage.tx == NoTx && MayHappen(cfg, w, t, OwnKey(cfg, w, t, stage), fault)
    ensures var (after, result) := Attempted(tb, OwnKey(cfg, w, t, stage), OwnWrite(cfg, w, t, stage), fault);
            Works(cfg, At(w, t, stage, tb), t, moves, At(w, t, Concluded(cfg, w, t, stage, result), after), stage.i,
                  [if BodyRuns(tb, OwnKey(cfg, w, t, stage), fault) then 1 else 0])
  {
    if fault == LookupFails {
      moves := [Fail];
      FailRuns(cfg, w, t, stage, tb);
    } else {
      InnerStep(cfg, w, t, stage, tb, Lookup);
      if OwnKey(cfg, w, t, stage) in tb.inbox {
        moves := [Lookup];
        OneMove(cfg, w, t, stage, tb, Lookup, AfterReturn(stage), tb);
      } else {
        var next := stage.(tx := Checked);
        var rest := FromChecked(cfg, w, t, next, tb, fault);
        moves := [Lookup] + rest;
        OneMove(cfg, w, t, stage, tb, Lookup, next, tb);
        WorkOn(cfg, At(w, t, stage, tb), t, [Lookup], At(w, t, next, tb), rest,
               MovedAll(cfg, At(w, t, next, tb), t, rest), stage.i, [0], stage.i, [1], [1]);
      }
    }
  }

  // ----- one handler's attempts, and all handlers --------------------------

  /** What strikes an attempt: the cancellation, or what the script says. */
  function Struck(script: Script, cut: Option<Cut>, i: nat, a: nat): Fault {
    if Strikes(cut, i, a) then CutFault(cut.value) else script(i, a)
  }

  /** One attempt further into a handler's run. */
  lemma {:induction false} AttemptFirst(tb: Tables, key: Key, write: Option<Write>, script: Script, i: nat, a: nat,
                                        last: nat, cut: Option<Cut>)
    requires a <= last
    ensures var r := RunUntil(tb, key, write, script, i, a, last, cut);
            var (after, result) := Attempted(tb, key, write, Struck(script, cut, i, a));
            if Strikes(cut, i, a) then r.tables == after && r.end == CancelledRun
            else if result != AttemptRaised then r.tables == after && r.end == Returned
            else if a == last then r.tables == after && r.end == GaveUp
            else var rest := RunUntil(after, key, write, script, i, a + 1, last, cut);
                             r.tables == rest.tables && r.end == rest.end &&
                             r.bodies == (if BodyRuns(tb, key, script(i, a)) then 1 else 0) + rest.bodies
    ensures Strikes(cut, i, a) || Attempted(tb, key, write, script(i, a)).1 != AttemptRaised || a == last ==>
              RunUntil(tb, key, write, script, i, a, last, cut).bodies
                == if BodyRuns(tb, key, Struck(script, cut, i, a)) then 1 else 0
  {
  }

  /** Where a handler's run leaves the delivery; a cancelled one anywhere in dispatch. */
  predicate EndsAt(stage: Stage, end: RunEnd, at: Stage)
    requires stage.Dispatching?
  {
    if end == CancelledRun then at.Dispatching? && at.tx == NoTx
    else at == Dispatching(stage.i + 1, 0, if end == Returned then stage.failed else stage.failed + [stage.i], NoTx)
  }

  /** The moves take a handler's run from this attempt on to where it ends. */
  ghost predicate HandlerEnds(cfg: Config, w: Work, t: nat, stage: Stage, tb: Tables, script: Script, cut: Option<Cut>,
                              moves: seq<Move>, at: Stage)
    requires Attempting(cfg, w, t, stage) && stage.attempt <= cfg.endpoints[w.tasks[t].endpoint].Last()
  {
    var r := RunUntil(tb, OwnKey(cfg, w, t, stage), OwnWrite(cfg, w, t, stage), script, stage.i, stage.attempt,
                      cfg.endpoints[w.tasks[t].endpoint].Last(), cut);
    EndsAt(stage, r.end, at) &&
    Works(cfg, At(w, t, stage, tb), t, moves, At(w, t, at, r.tables), stage.i, [r.bodies])
  }

  /** An attempt that raised and was not the last one, and then the rest of the run. */
  lemma {:induction false} OneMoreAttempt(cfg: Config, w: Work, t: nat, stage: Stage, tb: Tables, script: Script,
                                          cut: Option<Cut>, moves: seq<Move>, rest: seq<Move>, at: Stage)
    requires Attempting(cfg, w, t, stage) && stage.attempt < cfg.endpoints[w.tasks[t].endpoint].Last()
    requires !Strikes(cut, stage.i, stage.attempt)
    requires var (after, result) := Attempted(tb, OwnKey(cfg, w, t, stage), OwnWrite(cfg, w, t, stage),
                                              script(stage.i, stage.attempt));
             var next := stage.(attempt := stage.attempt + 1);
             var ran := if BodyRuns(tb, OwnKey(cfg, w, t, stage), script(stage.i, stage.attempt)) then 1 else 0;
             result == AttemptRaised &&
             Works(cfg, At(w, t, stage, tb), t, moves, At(w, t, next, after), stage.i, [ran]) &&
             HandlerEnds(cfg, w, t, next, after, script, cut, rest, at)
    ensures HandlerEnds(cfg, w, t, stage, tb, script, cut, moves + rest, at)
  {
    var last := cfg.endpoints[w.tasks[t].endpoint].Last();
    var key, write := OwnKey(cfg, w, t, stage), OwnWrite(cfg, w, t, stage);
    var after := Attempted(tb, key, write, script(stage.i, stage.attempt)).0;
    AttemptFirst(tb, key, write, script, stage.i, stage.attempt, last, cut);
    var later := RunUntil(after, key, write, script, stage.i, stage.attempt + 1, last, cut);
    var ran := if BodyRuns(tb, key, script(stage.i, stage.attempt)) then 1 else 0;
    WorkOn(cfg, At(w, t, stage, tb), t, moves, At(w, t, stage.(attempt := stage.attempt + 1), after), rest,
           At(w, t, at, later.tables), stage.i, [ran], stage.i, [later.bodies], [ran + later.bodies]);
  }

  lemma {:induction false} HandlerRuns(cfg: Config, w: Work, t: nat, stage: Stage, tb: Tables, script: Script,
                                       cut: Option<Cut>)
    returns (moves: seq<Move>, at: Stage)
    requires Attempting(cfg, w, t, stage) && stage.tx == NoTx
    requires stage.attempt <= cfg.endpoints[w.tasks[t].endpoint].Last()
    requires forall a :: MayHappen(cfg, w, t, OwnKey(cfg, w, t, stage), Struck(script, cut, stage.i, a))
    ensures HandlerEnds(cfg, w, t, stage, tb, script, cut, moves, at)
    decreases cfg.endpoints[w.tasks[t].endpoint].Last() - stage.attempt
  {
    var last := cfg.endpoints[w.tasks[t].endpoint].Last();
    var key, write := OwnKey(cfg, w, t, stage), OwnWrite(cfg, w, t, stage);
    var fault := Struck(script, cut, stage.i, stage.attempt);
    var (after, result) := Attempted(tb, key, write, fault);
    moves := AttemptRuns(cfg, w, t, stage, tb, fault);
    at := Concluded(cfg, w, t, stage, result);
    if !Strikes(cut, stage.i, stage.attempt) && result == AttemptRaised && stage.attempt < last {
      var rest, end := HandlerRuns(cfg, w, t, stage.(attempt := stage.attempt + 1), after, script, cut);
      OneMoreAttempt(cfg, w, t, stage, tb, script, cut, moves, rest, end);
      moves, at := moves + rest, end;
    } else {
      AttemptFirst(tb, key, write, script, stage.i, stage.attempt, last, cut);
    }
  }

  /** Every attempt that the dispatch makes is one the other transactions allow. */
  ghost predicate ScriptMayHappen(cfg: Config, w: Work, t: nat, script: Script, cut: Option<Cut>) {
    t in w.tasks && w.tasks[t].endpoint in cfg.endpoints &&
    forall i, a :: 0 <= i < |SubsOf(cfg, w.tasks[t])| ==>
                     MayHappen(cfg, w, t, SubscriberKey(cfg, w, t, i), Struck(script, cut, i, a))
  }

  function SubscriberKey(cfg: Config, w: Work, t: nat, i: nat): Key
    requires t in w.tasks && w.tasks[t].endpoint in cfg.endpoints && i < |SubsOf(cfg, w.tasks[t])|
  {
    KeyFor(cfg.endpoints[w.tasks[t].endpoint].schema, w.tasks[t].copy.content, SubsOf(cfg, w.tasks[t])[i])
  }

  /** Where a dispatch leaves the delivery. */
  ghost predicate LeavesAt(cfg: Config, w: Work, t: nat, failed: seq<nat>, d: CutDispatch, at: Stage)
    requires t in w.tasks && w.tasks[t].endpoint in cfg.endpoints
  {
    if d.cancelled then at.Dispatching? && at.tx == NoTx
    else at == Dispatching(|SubsOf(cfg, w.tasks[t])|, 0, failed + d.failures, NoTx)
  }

  /** The moves take a dispatch from subscriber `i` on to where it ends. */
  ghost predicate SubscribersEnd(cfg: Config, w: Work, t: nat, i: nat, failed: seq<nat>, tb: Tables, script: Script,
                                 cut: Option<Cut>, moves: seq<Move>, at: Stage)
    requires t in w.tasks && w.tasks[t].endpoint in cfg.endpoints && i <= |SubsOf(cfg, w.tasks[t])|
  {
    var e := cfg.endpoints[w.tasks[t].endpoint];
    var d := DispatchUntil(tb, e.schema, w.tasks[t].copy.content, SubsOf(cfg, w.tasks[t]), script, i, e.Last(), cut);
    LeavesAt(cfg, w, t, failed, d, at) &&
    Works(cfg, At(w, t, Dispatching(i, 0, failed, NoTx), tb), t, moves, At(w, t, at, d.tables), i, d.bodies)
  }

  /** The result of a dispatch from subscriber `i`, as the one from `i + 1` leaves it. */
  lemma {:induction false} OneMoreResult(e: Endpoint, content: Content, i: nat, failed: seq<nat>, tb: Tables,
                                         script: Script, cut: Option<Cut>, r: CutRun, later: seq<nat>)
    requires i < |SubscribersOf(e.subs, content.mtype)|
    requires var h := SubscribersOf(e.subs, content.mtype)[i];
             r == RunUntil(tb, KeyFor(e.schema, content, h), HandlerWrite(h.name, content.body), script, i, 0, e.Last(),
                           cut)
    requires r.end != CancelledRun && later == if r.end == Returned then failed else failed + [i]
    ensures var subs := SubscribersOf(e.subs, content.mtype);
            var whole := DispatchUntil(tb, e.schema, content, subs, script, i, e.Last(), cut);
            var d := DispatchUntil(r.tables, e.schema, content, subs, script, i + 1, e.Last(), cut);
            whole.tables == d.tables && whole.cancelled == d.cancelled && whole.bodies == [r.bodies] + d.bodies &&
            failed + whole.failures == later + d.failures
  {
    NextUntil(tb, e.schema, content, SubscribersOf(e.subs, content.mtype), script, i, e.Last(), cut, failed, []);
  }

  /** A subscriber's run that was not cancelled, and then the rest of the dispatch. */
  lemma {:induction false} OneMoreSubscriber(cfg: Config, w: Work, t: nat, i: nat, failed: seq<nat>, tb: Tables,
                                             script: Script, cut: Option<Cut>, moves: seq<Move>, r: CutRun,
                                             later: seq<nat>, rest: seq<Move>, at: Stage)
    requires t in w.tasks && w.tasks[t].endpoint in cfg.endpoints && i < |SubsOf(cfg, w.tasks[t])|
    requires var content, h := w.tasks[t].copy.content, SubsOf(cfg, w.tasks[t])[i];
             r == RunUntil(tb, SubscriberKey(cfg, w, t, i), HandlerWrite(h.name, content.body), script, i, 0,
                           cfg.endpoints[w.tasks[t].endpoint].Last(), cut)
    requires r.end != CancelledRun && later == if r.end == Returned then failed else failed + [i]
    requires Works(cfg, At(w, t, Dispatching(i, 0, failed, NoTx), tb), t, moves,
                   At(w, t, Dispatching(i + 1, 0, later, NoTx), r.tables), i, [r.bodies])
    requires SubscribersEnd(cfg, w, t, i + 1, later, r.tables, script, cut, rest, at)
    ensures SubscribersEnd(cfg, w, t, i, failed, tb, script, cut, moves + rest, at)
  {
    var e, content := cfg.endpoints[w.tasks[t].endpoint], w.tasks[t].copy.content;
    var d := DispatchUntil(r.tables, e.schema, content, SubsOf(cfg, w.tasks[t]), script, i + 1, e.Last(), cut);
    OneMoreResult(e, content, i, failed, tb, script, cut, r, later);
    OneMoreEntry(i, r.bodies, d.bodies);
    WorkOn(cfg, At(w, t, Dispatching(i, 0, failed, NoTx), tb), t, moves,
           At(w, t, Dispatching(i + 1, 0, later, NoTx), r.tables), rest, At(w, t, at, d.tables), i, [r.bodies], i + 1,
           d.bodies, [r.bodies] + d.bodies);
  }

  lemma {:induction false} SubscribersRun(cfg: Config, w: Work, t: nat, i: nat, failed: seq<nat>, tb: Tables,
                                          script: Script, cut: Option<Cut>)
    returns (moves: seq<Move>, at: Stage)
    requires ScriptMayHappen(cfg, w, t, script, cut) && i <= |SubsOf(cfg, w.tasks[t])|
    ensures SubscribersEnd(cfg, w, t, i, failed, tb, script, cut, moves, at)
    decreases |SubsOf(cfg, w.tasks[t])| - i
  {
    var e, stage := cfg.endpoints[w.tasks[t].endpoint], Dispatching(i, 0, failed, NoTx);
    if i == |SubsOf(cfg, w.tasks[t])| {
      moves, at := [], stage;
      assert failed + [] == failed;
    } else {
      assert OwnKey(cfg, w, t, stage) == SubscriberKey(cfg, w, t, i);
      var r := RunUntil(tb, OwnKey(cfg, w, t, stage), OwnWrite(cfg, w, t, stage), script, i, 0, e.Last(), cut);
      moves, at := HandlerRuns(cfg, w, t, stage, tb, script, cut);
      if r.end != CancelledRun {
        var rest, end := SubscribersRun(cfg, w, t, i + 1, at.failed, r.tables, script, cut);
        OneMoreSubscriber(cfg, w, t, i, failed, tb, script, cut, moves, r, at.failed, rest, end);
        moves, at := moves + rest, end;
      }
    }
  }

  /** Where a whole dispatch leaves the delivery: settled, owing a recovery for exactly
      the subscribers reported - or, cancelled, settled as well. */
  function DispatchEnd(d: CutDispatch): Stage {
    if d.cancelled || d.failures == [] then Settled else Recovering(d.failures)
  }

  /** The bus after a dispatch that began there; a cancelled delivery is given up. */
  ghost function DispatchedWork(cfg: Config, w: Work, t: nat, d: CutDispatch): Work
    requires t in w.tasks
  {
    var after := At(w, t, DispatchEnd(d), d.tables);
    if d.cancelled && w.tasks[t].attached
    then after.(dropped := w.dropped + {(w.tasks[t].endpoint, w.tasks[t].copy.content)}) else after
  }

  /** A whole dispatch, cancelled or not, is a run of the machine. */
  lemma {:induction false} DispatchRuns(cfg: Config, w: Work, t: nat, tb: Tables, script: Script, cut: Option<Cut>)
    returns (moves: seq<Move>)
    requires ScriptMayHappen(cfg, w, t, script, cut)
    ensures var d := DispatchedUntil(cfg.endpoints[w.tasks[t].endpoint], w.tasks[t].copy.content, tb, script, cut);
            Works(cfg, At(w, t, Dispatching(0, 0, [], NoTx), tb), t, moves, DispatchedWork(cfg, w, t, d), 0, d.bodies)
  {
    var e, content := cfg.endpoints[w.tasks[t].endpoint], w.tasks[t].copy.content;
    var d := DispatchedUntil(e, content, tb, script, cut);
    var first, at := SubscribersRun(cfg, w, t, 0, [], tb, script, cut);
    assert [] + d.failures == d.failures;
    var start, mid, end := At(w, t, Dispatching(0, 0, [], NoTx), tb), At(w, t, at, d.tables),
                           DispatchedWork(cfg, w, t, d);
    var move := if d.cancelled then Cancel else Finish;
    if d.cancelled {
      CancelRuns(cfg, w, t, at, d.tables);
    } else {
      InnerStep(cfg, w, t, at, d.tables, Finish);
      OneWorks(cfg, mid, t, Finish, end, 0, []);
    }
    WorkOn(cfg, start, t, first, mid, [move], end, 0, d.bodies, 0, [], d.bodies);
    moves := first + [move];
  }

  lemma {:induction false} CancelRuns(cfg: Config, w: Work, t: nat, at: Stage, tb: Tables)
    requires t in w.tasks && w.tasks[t].endpoint in cfg.endpoints && at.Dispatching? && at.tx == NoTx
    ensures var dropped := if w.tasks[t].attached then w.dropped + {(w.tasks[t].endpoint, w.tasks[t].copy.content)}
                           else w.dropped;
            Works(cfg, At(w, t, at, tb), t, [Cancel], At(w, t, Settled, tb).(dropped := dropped), 0, [])
  {
    var v := At(w, t, at, tb);
    var after := Moved(cfg, v, t, Cancel);
    assert after.tasks == At(w, t, Settled, tb).tasks;
    OneWorks(cfg, v, t, Cancel, after, 0, []);
  }

  // ----- one delivery, from receipt to acknowledgement ---------------------

  /** The bus after the consumer handled this delivery, as its contract states it. */
  ghost function HandledWork(cfg: Config, w: Work, t: nat, d: CutDispatch, raised: seq<Failure>,
                             recovery: PublishOutcome): Work
    requires t in w.tasks && w.tasks[t].endpoint in cfg.endpoints
  {
    var e, c := cfg.endpoints[w.tasks[t].endpoint], w.tasks[t].copy;
    var fate := FateOf(e, c, d, recovery);
    Work(QueuesLeft(w.queues, cfg.routes(RecoveryTarget(e, c)), RecoveryCopy(e, c, raised), recovery, fate),
         Without(w.tasks, t), d.tables.inbox, d.tables.effects,
         if fate == Cancelled || (fate == Escaped && recovery == Raised)
         then w.dropped + {(w.tasks[t].endpoint, c.content)} else w.dropped)
  }

  lemma {:induction false} AckEnds(cfg: Config, w: Work, v: Work, t: nat)
    requires t in w.tasks && t in v.tasks && v.tasks == w.tasks[t := v.tasks[t]]
    requires v.tasks[t].stage == Settled && v.tasks[t].endpoint in cfg.endpoints
    ensures Works(cfg, v, t, [Ack], v.(tasks := Without(w.tasks, t)), 0, [])
  {
    assert Without(v.tasks, t) == Without(w.tasks, t);
    var after := v.(tasks := Without(w.tasks, t));
    assert Moved(cfg, v, t, Ack) == after;
    OneWorks(cfg, v, t, Ack, after, 0, []);
  }

  /** The recovery step of a delivery that still holds its channel, then the ack. */
  lemma {:induction false} RecoveryRuns(cfg: Config, w: Work, t: nat, failed: seq<nat>, tb: Tables,
                                        causes: seq<Failure>, recovery: PublishOutcome)
    requires t in w.tasks && w.tasks[t].endpoint in cfg.endpoints && w.tasks[t].attached
    ensures var e, c := cfg.endpoints[w.tasks[t].endpoint], w.tasks[t].copy;
            var queues := if Arrives(recovery)
                          then Enqueue(w.queues, cfg.routes(RecoveryTarget(e, c)), RecoveryCopy(e, c, causes))
                          else w.queues;
            var dropped := if recovery == Raised then w.dropped + {(w.tasks[t].endpoint, c.content)} else w.dropped;
            Works(cfg, At(w, t, Recovering(failed), tb), t, [Recover(recovery, causes), Ack],
                  Work(queues, Without(w.tasks, t), tb.inbox, tb.effects, dropped), 0, [])
  {
    var v := At(w, t, Recovering(failed), tb);
    var recovered := Moved(cfg, v, t, Recover(recovery, causes));
    AckEnds(cfg, w, recovered, t);
    OneWorks(cfg, v, t, Recover(recovery, causes), recovered, 0, []);
    WorkOn(cfg, v, t, [Recover(recovery, causes)], recovered, [Ack], recovered.(tasks := Without(w.tasks, t)), 0, [],
           0, [], []);
    assert [Recover(recovery, causes)] + [Ack] == [Recover(recovery, causes), Ack];
  }

  /** Handling one delivery - filter, dispatch, recover, acknowledge - is a run of the
      machine that ends where the consumer's contract says. */
  lemma {:induction false} DeliveryRuns(cfg: Config, w: Work, t: nat, tb: Tables, script: Script, cut: Option<Cut>,
                                        raised: seq<Failure>, recovery: PublishOutcome)
    returns (moves: seq<Move>)
    requires ScriptMayHappen(cfg, w, t, script, cut) && w.tasks[t].stage == Received && w.tasks[t].attached
    requires tb.inbox == w.inbox && tb.effects == w.effects
    ensures var e, c := cfg.endpoints[w.tasks[t].endpoint], w.tasks[t].copy;
            if !Accepts(e, c) then Works(cfg, w, t, moves, w.(tasks := Without(w.tasks, t)), 0, [])
            else var d := DispatchedUntil(e, c.content, tb, script, cut);
                 Works(cfg, w, t, moves, HandledWork(cfg, w, t, d, raised, recovery), 0, d.bodies)
  {
    var e, c := cfg.endpoints[w.tasks[t].endpoint], w.tasks[t].copy;
    assert w.tasks[t := w.tasks[t].(stage := Received)] == w.tasks;
    assert At(w, t, Received, tb) == w;
    InnerStep(cfg, w, t, Received, tb, Filter);
    var filtered := At(w, t, if Accepts(e, c) then Dispatching(0, 0, [], NoTx) else Settled, tb);
    OneWorks(cfg, w, t, Filter, filtered, 0, []);
    if !Accepts(e, c) {
      AckEnds(cfg, w, filtered, t);
      WorkOn(cfg, w, t, [Filter], filtered, [Ack], w.(tasks := Without(w.tasks, t)), 0, [], 0, [], []);
      moves := [Filter] + [Ack];
    } else {
      var d := DispatchedUntil(e, c.content, tb, script, cut);
      var first := DispatchRuns(cfg, w, t, tb, script, cut);
      var last := SettlingRuns(cfg, w, t, d, raised, recovery);
      var done := HandledWork(cfg, w, t, d, raised, recovery);
      WorkOn(cfg, filtered, t, first, DispatchedWork(cfg, w, t, d), last, done, 0, d.bodies, 0, [], d.bodies);
      WorkOn(cfg, w, t, [Filter], filtered, first + last, done, 0, [], 0, d.bodies, d.bodies);
      moves := [Filter] + (first + last);
    }
  }

  /** What is left to do after the dispatch: acknowledge, after a recovery if one is due. */
  lemma {:induction false} SettlingRuns(cfg: Config, w: Work, t: nat, d: CutDispatch, raised: seq<Failure>,
                                        recovery: PublishOutcome)
    returns (moves: seq<Move>)
    requires t in w.tasks && w.tasks[t].endpoint in cfg.endpoints && w.tasks[t].attached
    ensures Works(cfg, DispatchedWork(cfg, w, t, d), t, moves, HandledWork(cfg, w, t, d, raised, recovery), 0, [])
  {
    if DispatchEnd(d) == Settled {
      AckEnds(cfg, w, DispatchedWork(cfg, w, t, d), t);
      moves := [Ack];
    } else {
      RecoveryRuns(cfg, w, t, d.failures, d.tables, raised, recovery);
      moves := [Recover(recovery, raised), Ack];
    }
  }

  function AsActions(t: nat, moves: seq<Move>): (actions: seq<Action>)
    ensures |actions| == |moves|
  {
    seq(|moves|, i requires 0 <= i < |moves| => AtWork(TaskMoves(t, moves[i])))
  }

  /** A delivery's run is a run of the whole bus. */
  lemma {:induction false} RunsOnTheBus(cfg: Config, s: State, t: nat, moves: seq<Move>, after: Work)
    requires Leads(cfg, s.work, t, moves, after)
    ensures Possible(cfg, s, AsActions(t, moves)) && Exec(cfg, s, AsActions(t, moves)) == s.(work := after)
    decreases moves
  {
    if moves != [] {
      RunsOnTheBus(cfg, s.(work := Moved(cfg, s.work, t, moves[0])), t, moves[1..], after);
      assert AsActions(t, moves)[1..] == AsActions(t, moves[1..]);
    }
  }

  // ----- one outbox pass ---------------------------------------------------

  function Offers(p: nat, results: seq<PublishOutcome>): (actions: seq<Action>)
    ensures |actions| == |results|
  {
    seq(|results|, i requires 0 <= i < |results| => PublishNext(p, results[i]))
  }

  /** Midway through a pass: the rows in `done` were offered, with these results. */
  ghost predicate Midway(cfg: Config, start: State, s: State, p: nat, batch: seq<nat>, done: seq<PublishOutcome>) {
    |done| <= |batch| && (forall k :: 0 <= k < |batch| ==> batch[k] < |start.books.outbox|) &&
    s.books.outbox == start.books.outbox && s.books.shipments == start.books.shipments &&
    s.books.passes == start.books.passes[p := Pass(batch, |done|, Confirmed(batch, done), true)] &&
    s.work == start.work.(queues := Published(start.work.queues, cfg.routes, start.books.outbox, batch, done))
  }

  lemma {:induction false} OfferOne(cfg: Config, start: State, s: State, p: nat, batch: seq<nat>,
                                    done: seq<PublishOutcome>, result: PublishOutcome)
    requires Midway(cfg, start, s, p, batch, done) && |done| < |batch|
    ensures Enabled(cfg, s, PublishNext(p, result))
    ensures Midway(cfg, start, Apply(cfg, s, PublishNext(p, result)), p, batch, done + [result])
  {
    OneMorePublished(start.work.queues, cfg.routes, start.books.outbox, batch, done, result);
    OneMoreConfirmed(batch, done, result);
    var now, next := Pass(batch, |done|, Confirmed(batch, done), true),
                     Pass(batch, |done| + 1, Confirmed(batch, done + [result]), true);
    assert s.books.passes[p] == now && NextRow(s.books, p) == batch[|done|];
    assert Confirmed(batch, done) + [] == Confirmed(batch, done);
    LastWriteWins(start.books.passes, p, now, next);
    var after := Apply(cfg, s, PublishNext(p, result));
    assert after.books.passes == s.books.passes[p := next];
  }

  /** How the pass closes. */
  function Closing(p: nat, commit: CommitOutcome): Action {
    InBooks(if commit == Refused then AbortPass(p) else CommitPass(p))
  }

  /** The state the dispatcher's contract describes. */
  ghost predicate PassEnds(cfg: Config, start: State, batch: seq<nat>, results: seq<PublishOutcome>,
                           commit: CommitOutcome, after: State) {
    |results| == |batch| && (forall k :: 0 <= k < |batch| ==> batch[k] < |start.books.outbox|) &&
    after.books.outbox == (if commit == Refused then start.books.outbox
                           else MarkSent(start.books.outbox, Confirmed(batch, results))) &&
    after.books.passes == start.books.passes && after.books.shipments == start.books.shipments &&
    after.work == start.work.(queues := Published(start.work.queues, cfg.routes, start.books.outbox, batch, results))
  }

  lemma {:induction false} CloseRuns(cfg: Config, start: State, v: State, p: nat, batch: seq<nat>,
                                     results: seq<PublishOutcome>, commit: CommitOutcome)
    requires Midway(cfg, start, v, p, batch, results) && |results| == |batch| && p !in start.books.passes
    ensures Possible(cfg, v, [Closing(p, commit)])
    ensures PassEnds(cfg, start, batch, results, commit, Exec(cfg, v, [Closing(p, commit)]))
  {
    assert [Closing(p, commit)][1..] == [];
    assert Closed(v.books.passes, p) == start.books.passes;
  }

  lemma {:induction false} OffersRun(cfg: Config, start: State, s: State, p: nat, batch: seq<nat>,
                                     done: seq<PublishOutcome>, rest: seq<PublishOutcome>, commit: CommitOutcome)
    requires Midway(cfg, start, s, p, batch, done) && |done| + |rest| == |batch| && p !in start.books.passes
    ensures Possible(cfg, s, Offers(p, rest) + [Closing(p, commit)])
    ensures PassEnds(cfg, start, batch, done + rest, commit, Exec(cfg, s, Offers(p, rest) + [Closing(p, commit)]))
    decreases rest
  {
    var actions := Offers(p, rest) + [Closing(p, commit)];
    if rest == [] {
      assert done + rest == done && actions == [Closing(p, commit)];
      CloseRuns(cfg, start, s, p, batch, done, commit);
    } else {
      OfferOne(cfg, start, s, p, batch, done, rest[0]);
      assert done + rest == (done + [rest[0]]) + rest[1..];
      assert actions[0] == PublishNext(p, rest[0]) && actions[1..] == Offers(p, rest[1..]) + [Closing(p, commit)];
      OffersRun(cfg, start, Apply(cfg, s, PublishNext(p, rest[0])), p, batch, done + [rest[0]], rest[1..], commit);
    }
  }

  /** One pass of the outbox dispatcher - take a batch, offer every row, commit once -
      is a run of the machine that ends where the dispatcher's contract says. */
  lemma {:induction false} PassRuns(cfg: Config, s: State, p: nat, limit: nat, hidden: set<nat>,
                                    results: seq<PublishOutcome>, commit: CommitOutcome)
    returns (actions: seq<Action>)
    requires p !in s.books.passes && Batch(s.books, limit, hidden) != [] && |results| == |Batch(s.books, limit, hidden)|
    ensures Possible(cfg, s, actions)
    ensures PassEnds(cfg, s, Batch(s.books, limit, hidden), results, commit, Exec(cfg, s, actions))
  {
    var batch := Batch(s.books, limit, hidden);
    FindsOldestBatch(s.books.outbox, Locked(s.books.passes) + hidden, limit, 0);
    var begin := InBooks(BeginPass(p, limit, hidden));
    OffersRun(cfg, s, Apply(cfg, s, begin), p, batch, [], results, commit);
    assert [] + results == results;
    actions := [begin] + (Offers(p, results) + [Closing(p, commit)]);
    assert actions[1..] == Offers(p, results) + [Closing(p, commit)];
  }

  // ----- one request -------------------------------------------------------

  /** A finalizing request that commits is the machine's booking step: the same
      shipment, the same outbox row. One that does not commit books nothing. */
  lemma {:induction false} RequestIsBooked(cfg: Config, b: Books, l: Ledgers.Ledger, c: Ledgers.Command,
                                           at: Ledgers.Addressing, f: Ledgers.Faults)
    requires l.shipments == b.shipments && l.outbox == b.outbox && at.manifests == cfg.manifestTarget
    requires c.FinalizeManifest?
    ensures var after := Ledgers.Served(l, c, at, f);
            if Ledgers.HandledOn(l, c, at, f).Err? || f.commit == CommitOutcome.Refused then after == l
            else var made := ShipmentRules.MakeManifest(c.weightKg, c.volumeCbm, c.commodityCode);
                 made.Ok? &&
                 var booking := FinalizeManifest(c.finalizedId, made.value, at.nextId);
                 CanBook(cfg, b, booking) &&
                 Booked(cfg, b, booking).shipments == after.shipments && Booked(cfg, b, booking).outbox == after.outbox
  {
    if ShipmentRules.MakeManifest(c.weightKg, c.volumeCbm, c.commodityCode).Ok? {
      ShipmentRules.MadeIsWellMade(c.weightKg, c.volumeCbm, c.commodityCode);
    }
  }
}
