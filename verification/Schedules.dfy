/** What a task and everybody else have done, turn by turn. The handle objects log
    their turns, so that their contracts can say which of the chances in a schedule
    the others have been given. */
module Schedules {

  /** The task takes a step, or yields to the others, who try the steps of `env`. */
  datatype Turn<O, A> = Acts(a: A) | Yields(o: O, env: seq<A>)

  /** Where the turns so far have led, and the chances the others have had. */
  datatype Mark<S, A> = Mark(st: S, chances: seq<seq<A>>)

  function ChancesAfter<O, A>(chances: seq<seq<A>>, turn: Turn<O, A>): seq<seq<A>> {
    match turn
    case Acts(_) => chances
    case Yields(_, env) => chances + [env]
  }

  /** Using the first chance of a schedule loses none. */
  lemma FirstIsUsed<A>(chances: seq<seq<A>>, sched: seq<seq<A>>)
    requires sched != []
    ensures (chances + [sched[0]]) + sched[1..] == chances + sched
  {
  }
}
