/** Runs of a state machine given by a partial step function. */
module Runs {
  import opened Wrappers

  type Machine<!S, !E> = (S, E) -> Option<S>

  /** Where a sequence of events leads, if every one of them is enabled. */
  function RunOf<S, E>(next: Machine<S, E>, s: S, events: seq<E>): Option<S>
    decreases |events|
  {
    if events == [] then Some(s)
    else
      match next(s, events[0])
      case None => None
      case Some(s') => RunOf(next, s', events[1..])
  }

  lemma {:induction false} RunExtends<S, E>(next: Machine<S, E>, s: S, events: seq<E>, e: E)
    requires RunOf(next, s, events).Some?
    ensures RunOf(next, s, events + [e]) == next(RunOf(next, s, events).value, e)
    decreases |events|
  {
    if events == [] {
      assert (events + [e])[1..] == [];
    } else {
      assert (events + [e])[1..] == events[1..] + [e];
      RunExtends(next, next(s, events[0]).value, events[1..], e);
    }
  }

  /** The states a run passes through. */
  lemma {:induction false} StatesOf<S, E>(next: Machine<S, E>, s: S, events: seq<E>) returns (states: seq<S>)
    requires RunOf(next, s, events).Some?
    ensures |states| == |events| + 1 && states[0] == s && states[|events|] == RunOf(next, s, events).value
    ensures forall i {:trigger events[i]} | 0 <= i < |events| :: next(states[i], events[i]) == Some(states[i + 1])
    decreases |events|
  {
    if events == [] {
      states := [s];
    } else {
      var rest := StatesOf(next, next(s, events[0]).value, events[1..]);
      states := [s] + rest;
      forall i {:trigger events[i]} | 0 <= i < |events| ensures next(states[i], events[i]) == Some(states[i + 1]) {
        if i > 0 {
          assert events[1..][i - 1] == events[i];
        }
      }
    }
  }
}
