/** Runs of any stepped system, and how they join. */
module Runs {
  import opened Common

  /** The steps are possible one after another, and end there. */
  ghost predicate RunsTo<S(!new), A(!new)>(step: (S, A) -> Option<S>, s: S, actions: seq<A>, after: S)
    decreases actions
  {
    if actions == [] then s == after
    else step(s, actions[0]).Some? && RunsTo(step, step(s, actions[0]).value, actions[1..], after)
  }

  lemma {:induction false} RunOn<S(!new), A(!new)>(step: (S, A) -> Option<S>, s: S, first: seq<A>, mid: S,
                                                  second: seq<A>, after: S)
    requires RunsTo(step, s, first, mid) && RunsTo(step, mid, second, after)
    ensures RunsTo(step, s, first + second, after)
    decreases first
  {
    if first == [] {
      assert first + second == second;
    } else {
      RunOn(step, step(s, first[0]).value, first[1..], mid, second, after);
      assert (first + second)[1..] == first[1..] + second;
    }
  }
}
