/** Effects happen at most once: over every run, the committed handler writes stand
    one to one with the inbox rows, and no key ever has two. */
module BusOnce {
  import opened Store
  import opened Bus

  /** Committed rows are unique and coupled to their writes; an open transaction
      holding an inbox row is the only one, and nobody committed that key before. */
  ghost predicate Once(cfg: Config, w: Work) {
    Coupled(w.inbox, w.effects) &&
    (forall t :: t in w.tasks && HoldsRow(cfg, w.tasks[t]) ==> TaskKey(cfg, w.tasks[t]) !in w.inbox) &&
    (forall t, u :: t in w.tasks && u in w.tasks && t != u && HoldsRow(cfg, w.tasks[t]) && HoldsRow(cfg, w.tasks[u]) ==>
       TaskKey(cfg, w.tasks[t]) != TaskKey(cfg, w.tasks[u]))
  }

  lemma {:induction false} CommitKeepsOnce(cfg: Config, w: Work, t: nat, reported: bool)
    requires Once(cfg, w) && CanMove(cfg, w, t, Commit(reported))
    ensures Once(cfg, Moved(cfg, w, t, Commit(reported)))
  {
    var after := Moved(cfg, w, t, Commit(reported));
    assert HoldsRow(cfg, w.tasks[t]);
    assert !HoldsRow(cfg, after.tasks[t]);
    forall u | u in after.tasks && HoldsRow(cfg, after.tasks[u])
      ensures u != t && u in w.tasks && HoldsRow(cfg, w.tasks[u]) && TaskKey(cfg, after.tasks[u]) !in after.inbox
    {
    }
  }

  lemma {:induction false} RecordKeepsOnce(cfg: Config, w: Work, t: nat)
    requires Once(cfg, w) && CanMove(cfg, w, t, Record)
    ensures Once(cfg, Moved(cfg, w, t, Record))
  {
    var after := Moved(cfg, w, t, Record);
    assert TaskKey(cfg, after.tasks[t]) == TaskKey(cfg, w.tasks[t]);
    forall u | u in w.tasks && u != t && HoldsRow(cfg, w.tasks[u])
      ensures TaskKey(cfg, w.tasks[u]) != TaskKey(cfg, w.tasks[t])
    {
      assert !Blocked(cfg, w, t, TaskKey(cfg, w.tasks[t]));
    }
  }

  /** Any other step opens no transaction with a row in it. */
  lemma {:induction false} QuietKeepsOnce(cfg: Config, w: Work, after: Work)
    requires Once(cfg, w) && after.inbox == w.inbox && after.effects == w.effects
    requires forall t :: t in after.tasks && HoldsRow(cfg, after.tasks[t]) ==>
               t in w.tasks && HoldsRow(cfg, w.tasks[t]) && TaskKey(cfg, after.tasks[t]) == TaskKey(cfg, w.tasks[t])
    ensures Once(cfg, after)
  {
  }

  lemma {:induction false} OtherMoveKeepsOnce(cfg: Config, w: Work, t: nat, move: Move)
    requires Once(cfg, w) && CanMove(cfg, w, t, move) && !move.Commit? && !move.Record?
    ensures Once(cfg, Moved(cfg, w, t, move))
  {
    var after := Moved(cfg, w, t, move);
    assert t in after.tasks ==> !HoldsRow(cfg, after.tasks[t]) || after.tasks[t].stage == w.tasks[t].stage;
    QuietKeepsOnce(cfg, w, after);
  }

  lemma {:induction false} WorkKeepsOnce(cfg: Config, w: Work, a: WorkAction)
    requires Once(cfg, w) && CanWork(cfg, w, a)
    ensures Once(cfg, Worked(cfg, w, a))
  {
    if a.TaskMoves? {
      match a.move {
        case Commit(reported) => CommitKeepsOnce(cfg, w, a.task, reported);
        case Record => RecordKeepsOnce(cfg, w, a.task);
        case _ => OtherMoveKeepsOnce(cfg, w, a.task, a.move);
      }
    } else {
      QuietKeepsOnce(cfg, w, Worked(cfg, w, a));
    }
  }

  lemma {:induction false} RunKeepsOnce(cfg: Config, s: State, actions: seq<Action>)
    requires Once(cfg, s.work) && Possible(cfg, s, actions)
    ensures Once(cfg, Exec(cfg, s, actions).work)
    decreases actions
  {
    if actions != [] {
      if actions[0].AtWork? {
        WorkKeepsOnce(cfg, s.work, actions[0].work);
      } else {
        QuietKeepsOnce(cfg, s.work, Apply(cfg, s, actions[0]).work);
      }
      RunKeepsOnce(cfg, Apply(cfg, s, actions[0]), actions[1..]);
    }
  }

  /** How often a key's write was committed. */
  function Committed(effects: seq<Effect>, key: Key): nat {
    if effects == [] then 0
    else Committed(effects[..|effects| - 1], key) + if effects[|effects| - 1].key == key then 1 else 0
  }

  lemma {:induction false} CommittedOnce(inbox: seq<Key>, effects: seq<Effect>, key: Key)
    requires Coupled(inbox, effects)
    ensures Committed(effects, key) == if key in inbox then 1 else 0
  {
    if effects != [] {
      var last := |effects| - 1;
      CommittedOnce(inbox[..last], effects[..last], key);
      assert inbox == inbox[..last] + [inbox[last]];
    }
  }

  /** Over every run, with any interleaving, crash, duplicate delivery and lost commit
      report: a key has as many committed effects as inbox rows, and that is 0 or 1. */
  lemma {:induction false} EffectsAtMostOnce(cfg: Config, actions: seq<Action>, key: Key)
    requires Possible(cfg, INITIAL, actions)
    ensures var s := Exec(cfg, INITIAL, actions).work;
            Coupled(s.inbox, s.effects) &&
            Committed(s.effects, key) == (if key in s.inbox then 1 else 0)
  {
    RunKeepsOnce(cfg, INITIAL, actions);
    var s := Exec(cfg, INITIAL, actions).work;
    CommittedOnce(s.inbox, s.effects, key);
  }

  /** The race the unique constraint settles: two workers both looked the key up and
      found nothing, and at most one of them can commit. */
  lemma {:induction false} RaceHasOneWinner(cfg: Config, w: Work, t: nat, u: nat)
    requires Once(cfg, w) && t != u
    requires CanMove(cfg, w, t, Commit(true)) && u in w.tasks && InDispatch(cfg, w.tasks[u])
    requires TaskKey(cfg, w.tasks[t]) == TaskKey(cfg, w.tasks[u])
    ensures !CanMove(cfg, w, u, Commit(true)) && !CanMove(cfg, w, u, Record)
    ensures !CanMove(cfg, Moved(cfg, w, t, Commit(true)), u, Record)
  {
    assert HoldsRow(cfg, w.tasks[t]);
    assert Blocked(cfg, w, u, TaskKey(cfg, w.tasks[u]));
    assert Moved(cfg, w, t, Commit(true)).tasks[u] == w.tasks[u];
  }
}
