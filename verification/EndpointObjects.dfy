/** Connecting, Endpoint::wait_idle and Connection::closed as the loops they are,
    running against a world in which the bridge and all other tasks take any
    steps they like in between. */
module EndpointObjects {
  import opened Types
  import opened Schedules
  import opened Lifecycle
  import opened LifecycleProof
  import opened LifecycleTheorems

  type Schedule = seq<seq<Action>>

  datatype Owner = OwnFuture(f: nat) | OwnIdler(i: nat) | OwnWatcher(w: nat)

  predicate Mine(o: Owner, a: Action) {
    match o
    case OwnFuture(f) => a == Task(StartPoll(f)) || a == Task(StepFuture(f))
    case OwnIdler(i) => a == Task(StepIdle(i))
    case OwnWatcher(w) => a == Task(StepWatcher(w))
  }

  // What the others cannot change for the owner.

  ghost predicate SameFuture(f: nat, s: State, t: State) {
    f < |s.futures| ==>
      && f < |t.futures|
      && t.futures[f].pc == s.futures[f].pc && t.futures[f].polls == s.futures[f].polls
      && t.futures[f].target == s.futures[f].target
  }

  ghost predicate SameIdler(i: nat, s: State, t: State) {
    i < |s.idlers| ==>
      && i < |t.idlers|
      && t.idlers[i].pc == s.idlers[i].pc && (i in s.idle.woken ==> i in t.idle.woken)
  }

  ghost predicate SameWatcher(w: nat, s: State, t: State) {
    w < |s.watchers| ==> w < |t.watchers| && t.watchers[w] == s.watchers[w]
  }

  ghost predicate SameTask(o: Owner, s: State, t: State) {
    match o
    case OwnFuture(f) => SameFuture(f, s, t)
    case OwnIdler(i) => SameIdler(i, s, t)
    case OwnWatcher(w) => SameWatcher(w, s, t)
  }

  lemma AdvanceLeavesFutures(f: nat, s: State)
    ensures SameFuture(f, s, AdvanceBridge(s))
  {
    if !s.bridge.EstablishedStored? && !s.bridge.ClosePublished? {
      assert AdvanceBridge(s).futures == s.futures;
    }
  }

  lemma AdvanceLeavesIdlers(i: nat, s: State)
    ensures SameIdler(i, s, AdvanceBridge(s))
  {
    if !s.bridge.Inserted? && !s.bridge.MustNotify? {
      assert AdvanceBridge(s).idlers == s.idlers && AdvanceBridge(s).idle == s.idle;
    }
  }

  lemma BridgeLeaves(o: Owner, s: State, b: BridgeStep)
    requires BridgeEnabled(s, b)
    ensures SameTask(o, s, BridgeNext(s, b))
  {
    if b == Advance {
      match o
      case OwnFuture(f) => AdvanceLeavesFutures(f, s);
      case OwnIdler(i) => AdvanceLeavesIdlers(i, s);
      case OwnWatcher(w) => assert AdvanceBridge(s).watchers == s.watchers;
    }
  }

  lemma TaskLeaves(o: Owner, s: State, t: TaskStep)
    requires TaskEnabled(s, t) && !Mine(o, Task(t))
    ensures SameTask(o, s, TaskNext(s, t))
  {
  }

  lemma OthersLeave(o: Owner, s: State, a: Action)
    requires Enabled(s, a) && !Mine(o, a)
    ensures SameTask(o, s, Next(s, a))
  {
    match a
    case Bridge(b) => BridgeLeaves(o, s, b);
    case Task(t) => TaskLeaves(o, s, t);
  }

  /** Somebody other than the owner tries a step. */
  function Tried(o: Owner, s: State, a: Action): State {
    if Enabled(s, a) && !Mine(o, a) then Next(s, a) else s
  }

  /** The state after the others have tried the steps of `env` in turn. */
  function Ran(o: Owner, s: State, env: seq<Action>): State {
    if env == [] then s else Tried(o, Ran(o, s, env[..|env| - 1]), env[|env| - 1])
  }

  lemma TriedLeaves(o: Owner, s: State, a: Action)
    ensures SameTask(o, s, Tried(o, s, a))
  {
    if Enabled(s, a) && !Mine(o, a) {
      OthersLeave(o, s, a);
    }
  }

  lemma LeavingAdds(o: Owner, s: State, t: State, u: State)
    requires SameTask(o, s, t) && SameTask(o, t, u)
    ensures SameTask(o, s, u)
  {
  }

  lemma {:induction false} RanLeaves(o: Owner, s: State, env: seq<Action>)
    ensures SameTask(o, s, Ran(o, s, env))
  {
    if env != [] {
      var n := |env| - 1;
      RanLeaves(o, s, env[..n]);
      TriedLeaves(o, Ran(o, s, env[..n]), env[n]);
      LeavingAdds(o, s, Ran(o, s, env[..n]), Ran(o, s, env));
    }
  }

  function TurnNext(s: State, turn: Turn<Owner, Action>): State {
    match turn
    case Acts(a) => if Enabled(s, a) then Next(s, a) else s
    case Yields(o, env) => Ran(o, s, env)
  }

  /** The marks are what the turns lead to, one after the other. */
  ghost predicate Played(marks: seq<Mark<State, Action>>, log: seq<Turn<Owner, Action>>) {
    && |marks| == |log| + 1
    && forall k | 0 <= k < |log| ::
         marks[k + 1] == Mark(TurnNext(marks[k].st, log[k]), ChancesAfter(marks[k].chances, log[k]))
  }

  lemma PlayedGrows(marks: seq<Mark<State, Action>>, log: seq<Turn<Owner, Action>>, turn: Turn<Owner, Action>)
    requires Played(marks, log)
    ensures var m := marks[|log|];
            Played(marks + [Mark(TurnNext(m.st, turn), ChancesAfter(m.chances, turn))], log + [turn])
  {
  }

  /** The bridge, the engine and all other tasks. */
  class World {
    var st: State
    ghost var states: seq<State>
    ghost var acts: seq<Action>
    ghost var chances: Schedule
    ghost var marks: seq<Mark<State, Action>>
    ghost var log: seq<Turn<Owner, Action>>

    /** The history is a run of the step system that ends in the current state. */
    ghost predicate History()
      reads this
    {
      Run(states, acts) && st == states[|acts|]
    }

    /** And the logged turns lead there, with `chances` what the others have had. */
    ghost predicate Valid()
      reads this
    {
      History() && Played(marks, log) && marks[0] == Mark(states[0], []) && marks[|log|] == Mark(st, chances)
    }

    constructor (s: State)
      requires Init(s)
      ensures Valid() && st == s && chances == []
    {
      st, states, acts := s, [s], [];
      chances, marks, log := [], [Mark(s, [])], [];
    }

    method Move(a: Action)
      requires History() && Enabled(st, a)
      modifies this`st, this`states, this`acts
      ensures History() && st == Next(old(st), a) && states[0] == old(states[0])
    {
      Extended(states, acts, a, Next(st, a));
      st := Next(st, a);
      states := states + [st];
      acts := acts + [a];
    }

    /** One atomic step of the owner. */
    method Step(a: Action)
      requires Valid() && Enabled(st, a)
      modifies this
      ensures Valid() && st == Next(old(st), a) && chances == old(chances)
    {
      PlayedGrows(marks, log, Acts(a));
      Move(a);
      marks := marks + [Mark(st, chances)];
      log := log + [Acts(a)];
    }

    /** Everyone else tries the steps of `env`. */
    method Others(o: Owner, env: seq<Action>)
      requires History()
      modifies this`st, this`states, this`acts
      ensures History() && SameTask(o, old(st), st) && states[0] == old(states[0])
      ensures st == Ran(o, old(st), env)
    {
      for n := 0 to |env|
        invariant History() && st == Ran(o, old(st), env[..n]) && states[0] == old(states[0])
      {
        assert env[..n + 1][..n] == env[..n];
        if Enabled(st, env[n]) && !Mine(o, env[n]) {
          Move(env[n]);
        }
      }
      assert env[..|env|] == env;
      RanLeaves(o, old(st), env);
    }

    /** The owner yields: the others get the first chance of the schedule. */
    method Yield(o: Owner, sched: Schedule) returns (rest: Schedule)
      requires Valid() && sched != []
      modifies this
      ensures Valid() && SameTask(o, old(st), st)
      ensures rest == sched[1..] && chances + rest == old(chances) + sched
    {
      PlayedGrows(marks, log, Yields(o, sched[0]));
      FirstIsUsed(chances, sched);
      Others(o, sched[0]);
      chances := chances + [sched[0]];
      marks := marks + [Mark(st, chances)];
      log := log + [Yields(o, sched[0])];
      rest := sched[1..];
    }

    /** A point between two accesses of the owner where the others may run. */
    method Pause(o: Owner, sched: Schedule) returns (rest: Schedule)
      requires Valid()
      modifies this
      ensures Valid() && SameTask(o, old(st), st)
      ensures if sched == [] then rest == [] && st == old(st) else rest == sched[1..]
      ensures chances + rest == old(chances) + sched
    {
      rest := sched;
      if sched != [] {
        rest := Yield(o, sched);
      }
    }
  }

  /** src/endpoint.rs */
  class Endpoint {
    const world: World

    constructor (w: World)
      ensures world == w
    {
      world := w;
    }

    ghost predicate At(i: nat, pc: IdlePc)
      reads this, world
    {
      world.Valid() && i < |world.st.idlers| && world.st.idlers[i].pc == pc
    }

    /** `notified()`: from here on no notification can be missed. */
    method CreateNotified(i: nat, sched: Schedule) returns (rest: Schedule)
      requires At(i, Create)
      modifies world
      ensures At(i, PollIt) && i !in world.st.idle.woken && !world.st.idle.permit
      ensures if sched == [] then rest == [] else rest == sched[1..]
      ensures world.chances + rest == old(world.chances) + sched
    {
      rest := world.Pause(OwnIdler(i), sched);
      Sound(i);
      world.Step(Task(StepIdle(i)));
    }

    /** The first poll of the future. */
    method PollNotified(i: nat, sched: Schedule) returns (ready: bool, rest: Schedule)
      requires At(i, PollIt)
      modifies world
      ensures if ready then At(i, SecondLoad) else At(i, Asleep) && i !in world.st.idle.woken
      ensures if sched == [] then rest == [] else rest == sched[1..]
      ensures sched == [] && i !in old(world.st.idle.woken) && !old(world.st.idle.permit) ==> !ready
      ensures world.chances + rest == old(world.chances) + sched
    {
      rest := world.Pause(OwnIdler(i), sched);
      Sound(i);
      world.Step(Task(StepIdle(i)));
      ready := world.st.idlers[i].pc == SecondLoad;
    }

    /** Asleep until woken. */
    method Sleep(i: nat, sched: Schedule) returns (ready: bool, rest: Schedule)
      requires At(i, Asleep)
      modifies world
      ensures |rest| <= |sched|
      ensures ready ==> At(i, SecondLoad) && (i !in old(world.st.idle.woken) ==> |rest| < |sched|)
      ensures !ready ==> At(i, Asleep) && i !in world.st.idle.woken && rest == []
      ensures world.chances + rest == old(world.chances) + sched
    {
      rest := sched;
      while i !in world.st.idle.woken && rest != []
        invariant At(i, Asleep) && |rest| <= |sched|
        invariant i in world.st.idle.woken && i !in old(world.st.idle.woken) ==> |rest| < |sched|
        invariant world.chances + rest == old(world.chances) + sched
        decreases |rest|
      {
        rest := world.Yield(OwnIdler(i), rest);
      }
      ready := i in world.st.idle.woken;
      if ready {
        world.Step(Task(StepIdle(i)));
      }
    }

    /** `notified().await` */
    method AwaitNotified(i: nat, sched: Schedule) returns (ready: bool, rest: Schedule)
      requires At(i, Create)
      modifies world
      ensures |rest| <= |sched|
      ensures ready ==> At(i, SecondLoad) && |rest| < |sched|
      ensures !ready ==> At(i, Asleep) && i !in world.st.idle.woken && rest == []
      ensures world.chances + rest == old(world.chances) + sched
    {
      rest := CreateNotified(i, sched);
      ready, rest := PollNotified(i, rest);
      if !ready {
        ready, rest := Sleep(i, rest);
      }
    }

    /** One load of the counter. */
    method Load(i: nat, sched: Schedule) returns (zero: bool, rest: Schedule)
      requires At(i, FirstLoad) || At(i, SecondLoad)
      modifies world
      ensures |rest| <= |sched|
      ensures zero ==> At(i, Returned) && world.st.openConnections == 0
      ensures !zero ==> world.st.openConnections != 0
      ensures !zero && old(world.st.idlers[i].pc) == FirstLoad ==> At(i, Create)
      ensures !zero && old(world.st.idlers[i].pc) == SecondLoad ==> At(i, FirstLoad)
      ensures world.chances + rest == old(world.chances) + sched
    {
      rest := world.Pause(OwnIdler(i), sched);
      zero := world.st.openConnections == 0;
      world.Step(Task(StepIdle(i)));
    }

    /** wait_idle returns only on reading zero. If it is still pending, it sleeps
        unwoken, and it does so at zero, with no notification due, exactly if it
        missed the last one. */
    method WaitIdle(sched: Schedule) returns (r: Poll<()>, rest: Schedule, ghost i: nat)
      requires world.Valid()
      modifies world
      ensures world.Valid() && i < |world.st.idlers|
      ensures r.Done? ==> world.st.openConnections == 0 && At(i, Returned)
      ensures r.Pending? ==> At(i, Asleep) && i !in world.st.idle.woken && rest == []
      ensures r.Pending? ==>
                (world.st.openConnections == 0 && !NotifyPending(world.st.bridge) <==> world.st.idlers[i].missed)
      ensures world.chances + rest == old(world.chances) + sched
    {
      var me := |world.st.idlers|;
      i := me;
      world.Step(Task(CallIdle));
      rest := sched;
      while true
        invariant At(me, FirstLoad)
        invariant world.chances + rest == old(world.chances) + sched
        decreases |rest|
      {
        var zero, ready;
        zero, rest := Load(me, rest);
        if zero {
          return Done(()), rest, me;
        }
        ready, rest := AwaitNotified(me, rest);
        if !ready {
          Sound(me);
          return Pending, rest, me;
        }
        zero, rest := Load(me, rest);
        if zero {
          return Done(()), rest, me;
        }
      }
    }

    lemma Sound(i: nat)
      requires world.Valid() && i < |world.st.idlers|
      ensures IdlerOk(i, world.st.idlers[i], world.st.idle, world.st.openConnections, world.st.bridge)
      ensures !world.st.idle.permit
    {
      RunKeeps(world.states, world.acts, |world.acts|);
    }
  }

  /** src/connection.rs: a connection attempt in progress. */
  class Connecting {
    const world: World
    const f: nat

    constructor (w: World, f: nat)
      ensures world == w && this.f == f
    {
      world := w;
      this.f := f;
    }

    ghost predicate Valid()
      reads this, world
    {
      world.Valid() && f < |world.st.futures|
    }

    ghost function Pc(): FuturePc
      requires Valid()
      reads this, world
    {
      world.st.futures[f].pc
    }

    lemma Sound()
      requires Valid()
      ensures FutureOk(f, world.st.futures[f], world.st.conns, world.st.bridge)
    {
      RunKeeps(world.states, world.acts, |world.acts|);
    }

    /** The waker of the latest poll is in the slot, or has been taken and woken. */
    ghost predicate Registered()
      reads this, world
    {
      && Valid()
      && var x := world.st.futures[f];
         && x.target.Some? && x.target.value in world.st.conns
         && (x.woken || world.st.conns[x.target.value].waker == Some(Waker(f, x.polls)))
    }

    /** One load of the established flag. */
    method LookEstablished(sched: Schedule) returns (established: bool, rest: Schedule)
      requires Valid() && Pc() in {CheckEstablished, RecheckEstablished}
      modifies world
      ensures Valid() && world.st.futures[f].target.Some?
      ensures established ==> Pc() == Finished(Ok(world.st.futures[f].target.value), false)
      ensures !established ==> Pc() == if old(Pc()) == CheckEstablished then CheckClosed else RecheckClosed
      ensures world.chances + rest == old(world.chances) + sched
    {
      rest := world.Pause(OwnFuture(f), sched);
      Sound();
      established := world.st.conns[world.st.futures[f].target.value].established;
      world.Step(Task(StepFuture(f)));
    }

    /** One look at the close cell. */
    method LookClosed(sched: Schedule) returns (closed: Option<ConnectionError>, rest: Schedule)
      requires Valid() && Pc() in {CheckClosed, RecheckClosed}
      modifies world
      ensures Valid()
      ensures closed.Some? ==> Pc() == Finished(Err(closed.value), true)
      ensures closed == None ==> Pc() == if old(Pc()) == CheckClosed then Register else Waiting
      ensures world.chances + rest == old(world.chances) + sched
    {
      rest := world.Pause(OwnFuture(f), sched);
      Sound();
      closed := world.st.conns[world.st.futures[f].target.value].closed.value;
      world.Step(Task(StepFuture(f)));
    }

    /** The lookup of the connection, or the registration of the waker. */
    method Access(sched: Schedule) returns (rest: Schedule)
      requires Valid() && Pc() in {Lookup, Register}
      modifies world
      ensures Valid() && Pc() == if old(Pc()) == Lookup then CheckEstablished else RecheckEstablished
      ensures world.chances + rest == old(world.chances) + sched
    {
      rest := world.Pause(OwnFuture(f), sched);
      Sound();
      world.Step(Task(StepFuture(f)));
    }

    /** Phase 2: check, register, check again. Pending leaves the waker registered. */
    method AwaitHandshake(sched: Schedule) returns (r: Poll<Result<ConnId, ConnectionError>>)
      requires Valid() && Pc() == Lookup
      modifies world
      ensures Valid()
      ensures r.Done? ==> Pc().Finished? && Pc().result == r.value
      ensures r.Pending? ==> Pc() == Waiting && Registered()
    {
      var established, closed;
      var rest := Access(sched);
      established, rest := LookEstablished(rest);
      if established {
        return Done(Ok(world.st.futures[f].target.value));
      }
      closed, rest := LookClosed(rest);
      if closed.Some? {
        return Done(Err(closed.value));
      }
      rest := Access(rest);
      established, rest := LookEstablished(rest);
      if established {
        return Done(Ok(world.st.futures[f].target.value));
      }
      closed, rest := LookClosed(rest);
      if closed.Some? {
        return Done(Err(closed.value));
      }
      Sound();
      r := Pending;
    }

    /** Poll. Ok means the handshake has completed; Pending in phase 2 means that
        a completed or failed handshake has woken, or is just about to wake, the
        waker this poll registered. */
    method PollOnce(sched: Schedule) returns (r: Poll<Result<ConnId, ConnectionError>>)
      requires Valid() && Pc() in {Unpolled, AwaitId, Waiting}
      modifies world
      ensures Valid() && (r.Pending? ==> Pc() in {AwaitId, Waiting})
      ensures r.Done? <==> Pc().Finished?
      ensures r.Done? ==> Pc().result == r.value
      ensures r.Done? && r.value.Ok? ==> r.value.value in world.st.conns && world.st.conns[r.value.value].established
      ensures r.Done? && r.value.Err? ==> ErrorGiven(world.st.futures[f], r.value.error, world.st.conns)
      ensures r.Pending? && Pc() == Waiting ==> Registered()
      ensures r.Pending? && Pc() == AwaitId ==> world.st.futures[f].reply == None
    {
      world.Step(Task(StartPoll(f)));
      if world.st.futures[f].pc == Lookup {
        r := AwaitHandshake(sched);
      } else if world.st.futures[f].pc == AwaitId {
        r := Pending;
      } else {
        r := Done(world.st.futures[f].pc.result);
      }
      Sound();
    }
  }

  /** src/connection.rs: an established connection. */
  class Connection {
    const world: World
    const connId: ConnId

    constructor (w: World, c: ConnId)
      ensures world == w && connId == c
    {
      world := w;
      connId := c;
    }

    /** close_reason: the one reason ever published for this connection, if it has
        been by now. */
    method CloseReason() returns (r: Option<ConnectionError>)
      requires world.Valid()
      ensures r == CloseReasonOf(world.st, connId)
      ensures forall k, err | 0 <= k < |world.states| && ToldClosed(world.states[k], connId, err) :: r == Some(err)
    {
      r := None;
      if connId in world.st.conns {
        r := world.st.conns[connId].closed.value;
      }
      forall k, err | 0 <= k < |world.states| && ToldClosed(world.states[k], connId, err) ensures r == Some(err) {
        RunKeeps(world.states, world.acts, k);
        ToldIsPublished(world.states[k], connId, err);
        CloseReasonStays(world.states, world.acts, k, |world.acts|, connId);
      }
    }

    lemma Sound(w: nat)
      requires world.Valid() && w < |world.st.watchers|
      ensures WatcherOk(world.st.watchers[w], world.st.conns) && CellsOk(world.st.conns)
    {
      RunKeeps(world.states, world.acts, |world.acts|);
    }

    ghost predicate At(w: nat, pc: WatchPc)
      reads this, world
    {
      world.Valid() && w < |world.st.watchers| && world.st.watchers[w].c == connId && world.st.watchers[w].pc == pc
    }

    /** One look at the receiver's current value. */
    method Borrow(w: nat, sched: Schedule) returns (seen: Option<ConnectionError>, rest: Schedule)
      requires At(w, Look)
      modifies world
      ensures |rest| <= |sched|
      ensures if seen.Some? then At(w, Told(seen.value)) else At(w, AwaitChange)
      ensures connId in world.st.conns && seen == world.st.conns[connId].closed.value
      ensures world.chances + rest == old(world.chances) + sched
    {
      rest := world.Pause(OwnWatcher(w), sched);
      Sound(w);
      seen := world.st.conns[connId].closed.value;
      world.Step(Task(StepWatcher(w)));
    }

    /** `changed().await` */
    method AwaitChanged(w: nat, sched: Schedule) returns (ready: bool, rest: Schedule)
      requires At(w, AwaitChange)
      modifies world
      ensures |rest| <= |sched|
      ensures ready ==> At(w, Look)
      ensures ready && connId in old(world.st.conns) && old(world.st.conns[connId].closed.value) == None ==>
                |rest| < |sched|
      ensures !ready ==> At(w, AwaitChange) && CloseReasonIsEmpty() && rest == []
      ensures world.chances + rest == old(world.chances) + sched
    {
      rest := sched;
      Sound(w);
      while !world.st.conns[connId].closed.Changed(world.st.watchers[w].seen) && rest != []
        invariant At(w, AwaitChange) && connId in world.st.conns && |rest| <= |sched|
        invariant |rest| == |sched| ==> world.st == old(world.st)
        invariant world.chances + rest == old(world.chances) + sched
        decreases |rest|
      {
        rest := world.Yield(OwnWatcher(w), rest);
        Sound(w);
      }
      ready := world.st.conns[connId].closed.Changed(world.st.watchers[w].seen);
      Sound(w);
      if ready {
        world.Step(Task(StepWatcher(w)));
      }
    }

    ghost predicate CloseReasonIsEmpty()
      reads this, world
    {
      connId in world.st.conns && world.st.conns[connId].closed.value == None
    }

    /** closed: the answer is the published reason; pending means that none has been
        published, with the schedule used up. */
    method Closed(sched: Schedule) returns (r: Poll<ConnectionError>, rest: Schedule)
      requires world.Valid()
      modifies world
      ensures world.Valid()
      ensures r.Done? ==>
                if old(connId in world.st.conns) then CloseReasonOf(world.st, connId) == Some(r.value)
                else r.value == LocallyClosed
      ensures r.Pending? ==> CloseReasonIsEmpty() && rest == []
      ensures world.chances + rest == old(world.chances) + sched
    {
      rest := sched;
      if connId !in world.st.conns {
        return Done(LocallyClosed), rest;
      }
      var w := |world.st.watchers|;
      world.Step(Task(CallClosed(connId)));
      while true
        invariant At(w, Look) && |rest| <= |sched|
        invariant world.chances + rest == old(world.chances) + sched
        decreases |rest|
      {
        var seen, ready;
        seen, rest := Borrow(w, rest);
        if seen.Some? {
          return Done(seen.value), rest;
        }
        ready, rest := AwaitChanged(w, rest);
        if !ready {
          return Pending, rest;
        }
      }
    }
  }
}
