/** The accept loops and the open futures of src/connection.rs, running against a
    world in which everybody else takes any steps they like in between. */
module StreamsObjects {
  import opened Types
  import opened Schedules
  import opened Sync
  import opened StreamIds
  import opened Streams
  import opened StreamsProof
  import opened StreamsTheorems

  type Schedule = seq<seq<Action>>

  datatype Owner = OwnCaller(i: Task) | OwnOpener(k: nat)

  predicate Mine(o: Owner, a: Action) {
    match o
    case OwnCaller(i) => (a.StepAccept? || a.DropAccept?) && a.i == i
    case OwnOpener(k) => (a.PollOpen? || a.DropOpen?) && a.k == k
  }

  ghost predicate SameCaller(i: Task, s: State, t: State) {
    i < |s.callers| ==>
      && i < |t.callers| && t.callers[i] == s.callers[i]
      && (s.closed.value.Some? ==> t.closed == s.closed)
  }

  ghost predicate SameOpener(k: nat, s: State, t: State) {
    k < |s.openers| ==>
      && k < |t.openers| && t.openers[k].dir == s.openers[k].dir
      && (|| t.openers[k].pc == s.openers[k].pc
          || (s.openers[k].pc.Sent? && t.openers[k].pc.Replied?)
          || (s.openers[k].pc.Abandoned? && t.openers[k].pc.Abandoned?))
  }

  ghost predicate SameTask(o: Owner, s: State, t: State) {
    match o
    case OwnCaller(i) => SameCaller(i, s, t)
    case OwnOpener(k) => SameOpener(k, s, t)
  }

  lemma OthersLeave(o: Owner, s: State, a: Action)
    requires Enabled(s, a) && !Mine(o, a)
    ensures SameTask(o, s, Next(s, a))
  {
    match a
    case StepAccept(i, preferStream) =>
      StepMovesOne(s, i, preferStream);
      StepLeavesTheRest(s, i, preferStream);
    case _ =>
  }

  lemma RunGrows(states: seq<State>, acts: seq<Action>, a: Action)
    requires Run(states, acts) && Enabled(states[|acts|], a)
    ensures Run(states + [Next(states[|acts|], a)], acts + [a])
  {
    var states', acts' := states + [Next(states[|acts|], a)], acts + [a];
    forall i | 0 <= i < |acts'| ensures Enabled(states'[i], acts'[i]) && states'[i + 1] == Next(states'[i], acts'[i]) {
      if i < |acts| {
        assert states'[i] == states[i] && states'[i + 1] == states[i + 1] && acts'[i] == acts[i];
      }
    }
  }

  /** Somebody other than the owner tries a step. */
  function Tried(o: Owner, s: State, a: Action): State {
    if Enabled(s, a) && !Mine(o, a) then Next(s, a) else s
  }

  /** The state after the others have tried the steps of `env` in turn. */
  function Ran(o: Owner, s: State, env: seq<Action>): State {
    if env == [] then s else Tried(o, Ran(o, s, env[..|env| - 1]), env[|env| - 1])
  }

  lemma TriedLeaves(o: Owner, s: State, a: Action)
    ensures SameTask(o, s, Tried(o, s, a))
  {
    if Enabled(s, a) && !Mine(o, a) {
      OthersLeave(o, s, a);
    }
  }

  lemma LeavingAdds(o: Owner, s: State, t: State, u: State)
    requires SameTask(o, s, t) && SameTask(o, t, u)
    ensures SameTask(o, s, u)
  {
  }

  lemma {:induction false} RanLeaves(o: Owner, s: State, env: seq<Action>)
    ensures SameTask(o, s, Ran(o, s, env))
  {
    if env != [] {
      var n := |env| - 1;
      RanLeaves(o, s, env[..n]);
      TriedLeaves(o, Ran(o, s, env[..n]), env[n]);
      LeavingAdds(o, s, Ran(o, s, env[..n]), Ran(o, s, env));
    }
  }

  function TurnNext(s: State, turn: Turn<Owner, Action>): State {
    match turn
    case Acts(a) => if Enabled(s, a) then Next(s, a) else s
    case Yields(o, env) => Ran(o, s, env)
  }

  /** The marks are what the turns lead to, one after the other. */
  ghost predicate Played(marks: seq<Mark<State, Action>>, log: seq<Turn<Owner, Action>>) {
    && |marks| == |log| + 1
    && forall k | 0 <= k < |log| ::
         marks[k + 1] == Mark(TurnNext(marks[k].st, log[k]), ChancesAfter(marks[k].chances, log[k]))
  }

  lemma PlayedGrows(marks: seq<Mark<State, Action>>, log: seq<Turn<Owner, Action>>, turn: Turn<Owner, Action>)
    requires Played(marks, log)
    ensures var m := marks[|log|];
            Played(marks + [Mark(TurnNext(m.st, turn), ChancesAfter(m.chances, turn))], log + [turn])
  {
  }

  /** The bridge, the engine and all other tasks. */
  class World {
    var st: State
    ghost var states: seq<State>
    ghost var acts: seq<Action>
    ghost var chances: Schedule
    ghost var marks: seq<Mark<State, Action>>
    ghost var log: seq<Turn<Owner, Action>>

    /** The history is a run of the step system that ends in the current state. */
    ghost predicate History()
      reads this
    {
      Run(states, acts) && st == states[|acts|]
    }

    /** And the logged turns lead there, with `chances` what the others have had. */
    ghost predicate Valid()
      reads this
    {
      History() && Played(marks, log) && marks[0] == Mark(states[0], []) && marks[|log|] == Mark(st, chances)
    }

    constructor (s: State)
      requires Init(s)
      ensures Valid() && st == s && chances == []
    {
      st, states, acts := s, [s], [];
      chances, marks, log := [], [Mark(s, [])], [];
    }

    method Move(a: Action)
      requires History() && Enabled(st, a)
      modifies this`st, this`states, this`acts
      ensures History() && st == Next(old(st), a) && states[0] == old(states[0])
    {
      RunGrows(states, acts, a);
      st := Next(st, a);
      states := states + [st];
      acts := acts + [a];
    }

    /** One atomic step of the owner. */
    method Step(a: Action)
      requires Valid() && Enabled(st, a)
      modifies this
      ensures Valid() && st == Next(old(st), a) && chances == old(chances)
    {
      PlayedGrows(marks, log, Acts(a));
      Move(a);
      marks := marks + [Mark(st, chances)];
      log := log + [Acts(a)];
    }

    /** Everyone else tries the steps of `env`. */
    method Others(o: Owner, env: seq<Action>)
      requires History()
      modifies this`st, this`states, this`acts
      ensures History() && SameTask(o, old(st), st) && states[0] == old(states[0])
      ensures st == Ran(o, old(st), env)
    {
      for n := 0 to |env|
        invariant History() && st == Ran(o, old(st), env[..n]) && states[0] == old(states[0])
      {
        assert env[..n + 1][..n] == env[..n];
        if Enabled(st, env[n]) && !Mine(o, env[n]) {
          Move(env[n]);
        }
      }
      assert env[..|env|] == env;
      RanLeaves(o, old(st), env);
    }

    /** The owner yields: the others get the first chance of the schedule. */
    method Yield(o: Owner, sched: Schedule) returns (rest: Schedule)
      requires Valid() && sched != []
      modifies this
      ensures Valid() && SameTask(o, old(st), st)
      ensures rest == sched[1..] && chances + rest == old(chances) + sched
    {
      PlayedGrows(marks, log, Yields(o, sched[0]));
      FirstIsUsed(chances, sched);
      Others(o, sched[0]);
      chances := chances + [sched[0]];
      marks := marks + [Mark(st, chances)];
      log := log + [Yields(o, sched[0])];
      rest := sched[1..];
    }

    /** A point between two accesses of the owner where the others may run. */
    method Pause(o: Owner, sched: Schedule) returns (rest: Schedule)
      requires Valid()
      modifies this
      ensures Valid() && SameTask(o, old(st), st)
      ensures if sched == [] then rest == [] else rest == sched[1..]
      ensures chances + rest == old(chances) + sched
    {
      rest := sched;
      if sched != [] {
        rest := Yield(o, sched);
      }
    }
  }

  datatype Round = Again | Resolves(result: Result<StreamId, ConnectionError>)

  /** An accept_bi / accept_uni future. */
  class Accept {
    const world: World
    const i: Task

    constructor (w: World, i: Task)
      ensures world == w && this.i == i
    {
      world := w;
      this.i := i;
    }

    ghost predicate At(pc: AcceptPc)
      reads this, world
    {
      world.Valid() && i < |world.st.callers| && world.st.callers[i].pc == pc
    }

    /** Give the others their chances until this future can move. */
    method Park(ghost pc: AcceptPc, sched: Schedule) returns (ready: bool, rest: Schedule)
      requires At(pc)
      modifies world
      ensures At(pc) && |rest| <= |sched|
      ensures ready == AcceptEnabled(world.st, i) && (!ready ==> rest == [])
      ensures world.chances + rest == old(world.chances) + sched
    {
      rest := sched;
      while !AcceptEnabled(world.st, i) && rest != []
        invariant At(pc) && |rest| <= |sched|
        invariant world.chances + rest == old(world.chances) + sched
        decreases |rest|
      {
        rest := world.Yield(OwnCaller(i), rest);
      }
      ready := AcceptEnabled(world.st, i);
    }

    /** `lock().await` */
    method AwaitLock(sched: Schedule) returns (locked: bool, rest: Schedule)
      requires At(WantLock)
      modifies world
      ensures |rest| <= |sched|
      ensures if locked then At(Locked) else At(Queued) && !AcceptEnabled(world.st, i) && rest == []
      ensures world.chances + rest == old(world.chances) + sched
    {
      rest := world.Pause(OwnCaller(i), sched);
      world.Step(StepAccept(i, true));
      if world.st.callers[i].pc == Locked {
        return true, rest;
      }
      locked, rest := Park(Queued, rest);
      if locked {
        world.Step(StepAccept(i, true));
      }
    }

    /** Clone the close receiver and wait in select! for a stream or the close;
        `preferStream` decides when both are there. */
    method Select(preferStream: bool, sched: Schedule) returns (r: Poll<Option<StreamId>>, rest: Schedule)
      requires At(Locked)
      modifies world
      ensures |rest| <= |sched|
      ensures r.Done? ==> At(if r.value.Some? then Resolved(Ok(r.value.value)) else Changed)
      ensures r.Pending? ==> At(Selecting(UNSEEN)) && !AcceptEnabled(world.st, i) && rest == []
      ensures world.chances + rest == old(world.chances) + sched
    {
      rest := world.Pause(OwnCaller(i), sched);
      world.Step(StepAccept(i, preferStream));
      var ready;
      ready, rest := Park(Selecting(UNSEEN), rest);
      if !ready {
        return Pending, rest;
      }
      world.Step(StepAccept(i, preferStream));
      var pc := world.st.callers[i].pc;
      r := Done(if pc.Resolved? && pc.result.Ok? then Some(pc.result.value) else None);
    }

    /** A look at the close cell, at the top of the loop or after the close branch. */
    method LookClosed(sched: Schedule) returns (err: Option<ConnectionError>, rest: Schedule)
      requires At(Start) || At(Changed)
      modifies world
      ensures |rest| <= |sched| && (sched != [] ==> |rest| < |sched|)
      ensures err.Some? ==> At(Resolved(Err(err.value))) && world.st.closed.value == err
      ensures old(world.st.callers[i].pc) == Changed && sched == [] ==> err.Some?
      ensures err == None ==> if old(world.st.callers[i].pc) == Start then At(WantLock) else At(Start)
      ensures world.chances + rest == old(world.chances) + sched
    {
      rest := world.Pause(OwnCaller(i), sched);
      RunKeeps(world.states, world.acts, |world.acts|);
      err := world.st.closed.value;
      world.Step(StepAccept(i, true));
    }

    /** One round of the loop. */
    method OneRound(preferStream: bool, sched: Schedule) returns (r: Poll<Round>, rest: Schedule)
      requires At(Start)
      modifies world
      ensures world.Valid() && i < |world.st.callers| && |rest| <= |sched|
      ensures r == Done(Again) ==> At(Start) && |rest| < |sched|
      ensures r.Done? && r.value.Resolves? ==> At(Resolved(r.value.result))
      ensures r.Done? && r.value.Resolves? && r.value.result.Err? ==>
                world.st.closed.value == Some(r.value.result.error)
      ensures r.Pending? ==> Unresolved(world.st.callers[i]) && !AcceptEnabled(world.st, i) && rest == []
      ensures world.chances + rest == old(world.chances) + sched
    {
      var err, locked, found;
      err, rest := LookClosed(sched);
      if err.Some? {
        return Done(Resolves(Err(err.value))), rest;
      }
      locked, rest := AwaitLock(rest);
      if !locked {
        return Pending, rest;
      }
      found, rest := Select(preferStream, rest);
      if found.Pending? {
        return Pending, rest;
      } else if found.value.Some? {
        return Done(Resolves(Ok(found.value.value))), rest;
      }
      err, rest := LookClosed(rest);
      r := if err.Some? then Done(Resolves(Err(err.value))) else Done(Again);
    }

    /** The whole future resolves with an id that was queued for its direction and
        went to nobody else, or with the published close reason. `prefer`
        is the choice of select! in each round. Pending means that the future has
        used every chance it was given and cannot move. */
    method Run(prefer: nat -> bool, sched: Schedule)
      returns (r: Poll<Result<StreamId, ConnectionError>>, rest: Schedule)
      requires At(Start)
      modifies world
      ensures world.Valid() && i < |world.st.callers|
      ensures r.Done? ==> At(Resolved(r.value))
      ensures r.Done? && r.value.Err? ==> world.st.closed.value == Some(r.value.error)
      ensures r.Done? && r.value.Ok? ==>
                && r.value.value in Chan(world.st, world.st.callers[i].dir).delivered
                && (forall j | 0 <= j < |world.st.callers| && j != i :: !Won(world.st.callers[j], r.value.value))
      ensures r.Pending? ==> Unresolved(world.st.callers[i]) && !AcceptEnabled(world.st, i) && rest == []
      ensures world.chances + rest == old(world.chances) + sched
    {
      rest := sched;
      var rounds := 0;
      while true
        invariant At(Start)
        invariant world.chances + rest == old(world.chances) + sched
        decreases |rest|
      {
        var round;
        round, rest := OneRound(prefer(rounds), rest);
        rounds := rounds + 1;
        if round.Pending? {
          return Pending, rest;
        }
        match round.value
        case Again =>
        case Resolves(result) =>
          RunKeeps(world.states, world.acts, |world.acts|);
          assert result.Ok? ==> Won(world.st.callers[i], result.value);
          return Done(result), rest;
      }
    }
  }

  /** An open_bi / open_uni future. */
  class Open {
    const world: World
    const k: nat

    constructor (w: World, k: nat)
      ensures world == w && this.k == k
    {
      world := w;
      this.k := k;
    }

    ghost predicate Valid()
      reads this, world
    {
      world.Valid() && k < |world.st.openers|
    }

    ghost function Pc(): OpenPc
      requires Valid()
      reads this, world
    {
      world.st.openers[k].pc
    }

    lemma Sound()
      requires Valid() && Pc().Opened?
      ensures if Pc().fromCell then Pc().result.Err? && world.st.closed.value == Some(Pc().result.error)
              else Answered(world.acts, k, Pc().result)
    {
      OpenResultsAreTrue(world.states, world.acts, |world.acts|, k);
      assert world.acts[..|world.acts|] == world.acts;
    }

    /** Poll: the command is sent by the first poll and never again; the result is
        the close reason read before that, or the bridge's answer to that command;
        an id becomes handles exactly once. */
    method PollOnce(sched: Schedule) returns (r: Poll<Result<StreamId, ConnectionError>>)
      requires Valid() && (Pc().Unsent? || Pc().Sent? || Pc().Replied?)
      modifies world
      ensures Valid() && !Pc().Unsent?
      ensures r.Done? ==> Pc().Opened? && Pc().result == r.value
      ensures r.Done? && r.value.Ok? ==>
                r.value.value in world.st.sends && (world.st.openers[k].dir == Bi ==> r.value.value in world.st.recvs)
      ensures old(Pc()).Unsent? && old(world.st.closed.value).Some? ==>
                r == Done(Err(old(world.st.closed.value).value)) && world.st.sends == old(world.st.sends)
      ensures r.Done? ==> if Pc().fromCell then r.value.Err? && world.st.closed.value == Some(r.value.error)
                          else Answered(world.acts, k, r.value)
      ensures r.Pending? ==> Pc() == Sent
    {
      if world.st.openers[k].pc == Unsent {
        var closed := world.st.closed.value;
        world.Step(PollOpen(k));
        if closed.Some? {
          Sound();
          return Done(Err(closed.value));
        }
      }
      var rest := world.Pause(OwnOpener(k), sched);
      if world.st.openers[k].pc.Replied? {
        world.Step(PollOpen(k));
        r := Done(world.st.openers[k].pc.result);
        Sound();
      } else {
        r := Pending;
      }
    }
  }
}
