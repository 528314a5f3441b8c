/** Where a fact about a state of a run comes from. */
module Traces {

  /** A fact that does not hold at first and holds later was brought about by one of
      the steps that can do so. */
  lemma {:induction false} Origin<S(!new), A(!new)>(states: seq<S>, acts: seq<A>, n: nat,
      holds: S -> bool, cause: (S, A) -> bool) returns (m: nat)
    requires |states| == |acts| + 1 && n < |states| && !holds(states[0]) && holds(states[n])
    requires forall k | 0 <= k < |acts| :: holds(states[k + 1]) ==> holds(states[k]) || cause(states[k], acts[k])
    ensures m < n && cause(states[m], acts[m])
  {
    assert holds(states[n - 1 + 1]);
    if holds(states[n - 1]) {
      m := Origin(states, acts, n - 1, holds, cause);
    } else {
      m := n - 1;
    }
  }
}
