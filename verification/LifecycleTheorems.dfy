/** What holds along every run of an endpoint. */
module LifecycleTheorems {
  import opened Types
  import opened Sync
  import opened Lifecycle
  import opened LifecycleProof
  import opened Traces

  // ------------------------------------------------------------------ counting

  /** At callback boundaries the counter is the number of connections whose close
      reason has not been published; inside a callback it is off by exactly the
      access that is due; the decrement never wraps. */
  lemma CounterIsExact(states: seq<State>, acts: seq<Action>, n: nat)
    requires Run(states, acts) && n < |states|
    ensures states[n].openConnections == |OpenSet(states[n].conns)| + Lag(states[n].bridge)
    ensures states[n].bridge == Quiet ==> states[n].openConnections == |OpenSet(states[n].conns)|
    ensures states[n].bridge.CloseWoken? ==> AdvanceBridge(states[n]).openConnections == states[n].openConnections - 1
    ensures states[n].bridge.Inserted? ==> AdvanceBridge(states[n]).openConnections == states[n].openConnections + 1
  {
    RunKeeps(states, acts, n);
    if states[n].bridge.Inserted? {
      OpenCounted(states[n], states[n].bridge.c);
    }
  }

  // ----------------------------------------------------------------- handshake

  /** A Connecting future that has returned Pending although its connection is
      established or closed has had its latest waker woken, or the callback that
      made it so is about to take exactly that waker. */
  lemma NoLostHandshakeWakeup(states: seq<State>, acts: seq<Action>, n: nat, f: nat)
    requires Run(states, acts) && n < |states| && f < |states[n].futures|
    requires states[n].futures[f].pc == Waiting
    ensures var s, x := states[n], states[n].futures[f];
            && x.target.Some? && x.target.value in s.conns
            && var c := x.target.value;
               (s.conns[c].established || s.conns[c].closed.value.Some?) && !x.woken ==>
                 && s.bridge in {EstablishedStored(c), ClosePublished(c)}
                 && s.conns[c].waker == Some(Waker(f, x.polls))
                 && AdvanceBridge(s).futures[f].woken
  {
    RunKeeps(states, acts, n);
    assert FutureOk(f, states[n].futures[f], states[n].conns, states[n].bridge);
  }

  /** Ok means the handshake completed; an error read from the close cell is the
      published reason, and any other is the bridge's reply to the connect. */
  lemma HandshakeResultsAreTrue(states: seq<State>, acts: seq<Action>, n: nat, f: nat)
    requires Run(states, acts) && n < |states| && f < |states[n].futures| && states[n].futures[f].pc.Finished?
    ensures var s, x := states[n], states[n].futures[f];
            && (x.pc.result.Ok? ==> x.pc.result.value in s.conns && s.conns[x.pc.result.value].established)
            && (x.pc.fromCell ==>
                  && x.target.Some? && x.target.value in s.conns
                  && x.pc.result.Err? && s.conns[x.target.value].closed.value == Some(x.pc.result.error))
            && (x.pc.result.Err? ==> ErrorGiven(x, x.pc.result.error, s.conns))
  {
    RunKeeps(states, acts, n);
    assert FutureOk(f, states[n].futures[f], states[n].conns, states[n].bridge);
  }

  // ----------------------------------------------------------------- wait_idle

  lemma OthersLeaveTheIdler(s: State, a: Action, i: nat)
    requires Enabled(s, a) && i < |s.idlers|
    ensures i < |Next(s, a).idlers|
    ensures a != Task(StepIdle(i)) ==> Next(s, a).idlers[i].pc == s.idlers[i].pc
  {
    match a
    case Bridge(b) =>
      if b != Advance || !(s.bridge.CloseWoken? || s.bridge.MustNotify? || s.bridge.Inserted?) {
        OthersLeaveIdle(s, b);
      }
    case Task(t) => TasksMissNothing(s, t, i);
  }

  /** A new wait_idle starts with its first load. */
  lemma OnlyCallsAddIdlers(s: State, a: Action)
    requires Enabled(s, a)
    ensures |s.idlers| <= |Next(s, a).idlers|
    ensures forall i | |s.idlers| <= i < |Next(s, a).idlers| :: Next(s, a).idlers[i] == Idler(FirstLoad, false)
  {
    match a
    case Bridge(b) =>
      if b != Advance || !(s.bridge.CloseWoken? || s.bridge.MustNotify? || s.bridge.Inserted?) {
        OthersLeaveIdle(s, b);
      }
    case Task(t) =>
  }

  predicate HasReturned(s: State, i: nat) {
    i < |s.idlers| && s.idlers[i].pc == Returned
  }

  /** A step after which task i has returned. */
  ghost predicate ReturnsAtZero(s: State, a: Action, t: State, i: nat) {
    HasReturned(t, i) ==> HasReturned(s, i) || (a == Task(StepIdle(i)) && s.openConnections == 0)
  }

  lemma StepReturnsAtZero(s: State, a: Action, i: nat)
    requires Enabled(s, a)
    ensures ReturnsAtZero(s, a, Next(s, a), i)
  {
    OnlyCallsAddIdlers(s, a);
    if i < |s.idlers| {
      OthersLeaveTheIdler(s, a, i);
      if a == Task(StepIdle(i)) {
        assert Next(s, a) == StepIdleOf(s, i);
      }
    }
  }

  lemma {:induction false} ReturnedBefore(states: seq<State>, acts: seq<Action>, n: nat, i: nat) returns (k: nat)
    requires |states| == |acts| + 1 && n < |states| && HasReturned(states[n], i) && states[0].idlers == []
    requires forall k | 0 <= k < |acts| :: ReturnsAtZero(states[k], acts[k], states[k + 1], i)
    ensures k < n && acts[k] == Task(StepIdle(i)) && states[k].openConnections == 0
  {
    assert ReturnsAtZero(states[n - 1], acts[n - 1], states[n - 1 + 1], i);
    if HasReturned(states[n - 1], i) {
      k := ReturnedBefore(states, acts, n - 1, i);
    } else {
      k := n - 1;
    }
  }

  /** A wait_idle that has returned did so in a step of its own that read zero. */
  lemma IdleReturnsAtZero(states: seq<State>, acts: seq<Action>, n: nat, i: nat) returns (k: nat)
    requires Run(states, acts) && n < |states| && i < |states[n].idlers| && states[n].idlers[i].pc == Returned
    ensures k < n && acts[k] == Task(StepIdle(i)) && states[k].openConnections == 0
  {
    forall m | 0 <= m < |acts| ensures ReturnsAtZero(states[m], acts[m], states[m + 1], i) {
      StepReturnsAtZero(states[m], acts[m], i);
    }
    k := ReturnedBefore(states, acts, n, i);
  }

  /** The exact condition for being asleep at zero. Unless the bridge stands
      between its decrement and its notify, a task asleep while the counter is
      zero is one whose notification came in the window between its nonzero load
      and its notified() - and the other way round. */
  lemma AsleepAtZeroIffMissed(states: seq<State>, acts: seq<Action>, n: nat, i: nat)
    requires Run(states, acts) && n < |states| && i < |states[n].idlers|
    requires states[n].idlers[i].pc == Asleep && !TaskEnabled(states[n], StepIdle(i))
    ensures states[n].openConnections == 0 && !NotifyPending(states[n].bridge) <==> states[n].idlers[i].missed
  {
    RunKeeps(states, acts, n);
    assert IdlerOk(i, states[n].idlers[i], states[n].idle, states[n].openConnections, states[n].bridge);
  }

  /** `missed` means what it says: only the notification raises it, for a task
      between its load and its notified(); only the next connection or the task
      itself, having been woken, lowers it. */
  lemma MissedMeansInTheWindow(s: State, a: Action, i: nat)
    requires Inv(s) && Enabled(s, a) && i < |s.idlers|
    ensures i < |Next(s, a).idlers|
    ensures !s.idlers[i].missed && Next(s, a).idlers[i].missed ==>
              a == Bridge(Advance) && s.bridge.MustNotify? && s.idlers[i].pc == Create
    ensures s.idlers[i].missed && !Next(s, a).idlers[i].missed ==>
              (a == Bridge(Advance) && s.bridge.Inserted?) || a == Task(StepIdle(i))
  {
    match a
    case Bridge(b) =>
      if b != Advance || !(s.bridge.CloseWoken? || s.bridge.MustNotify? || s.bridge.Inserted?) {
        OthersLeaveIdle(s, b);
      }
    case Task(t) => TasksMissNothing(s, t, i);
  }

  lemma TasksMissNothing(s: State, t: TaskStep, i: nat)
    requires TaskEnabled(s, t) && i < |s.idlers|
    ensures i < |TaskNext(s, t).idlers|
    ensures TaskNext(s, t).idlers[i].missed ==> s.idlers[i].missed
    ensures t != StepIdle(i) ==> TaskNext(s, t).idlers[i] == s.idlers[i]
  {
    if t.StepIdle? {
      assert TaskNext(s, t) == StepIdleOf(s, t.i);
    }
  }

  /** The step that notifies, and the step that counts a new connection. */
  predicate Notifies(s: State, a: Action) {
    a == Bridge(Advance) && s.bridge.MustNotify?
  }

  predicate Counts(s: State, a: Action) {
    a == Bridge(Advance) && s.bridge.Inserted?
  }

  predicate BetweenLoads(s: State, i: nat) {
    i < |s.idlers| && s.idlers[i].pc in {Create, PollIt, Asleep}
  }

  /** Step j notified in the window of task i: after its nonzero load, before its
      notified(). Up to state n the task has not loaded again, and no connection
      has been counted since. */
  ghost predicate PassedBy(states: seq<State>, acts: seq<Action>, i: nat, j: nat, n: nat)
    requires |states| == |acts| + 1 && n < |states|
  {
    && j < n && Notifies(states[j], acts[j])
    && BetweenLoads(states[j], i) && states[j].idlers[i].pc == Create
    && (forall k | j < k < n :: !Counts(states[k], acts[k]))
    && (forall k | j < k <= n :: BetweenLoads(states[k], i))
  }

  predicate Misses(s: State, i: nat) {
    BetweenLoads(s, i) && s.idlers[i].missed
  }

  /** What one step does to `missed`. */
  ghost predicate MissedMoves(s: State, a: Action, t: State, i: nat) {
    && (Misses(t, i) ==>
          BetweenLoads(s, i) && ((Misses(s, i) && !Counts(s, a)) || (Notifies(s, a) && s.idlers[i].pc == Create)))
    && (BetweenLoads(s, i) && s.idlers[i].pc == Create && Notifies(s, a) ==> Misses(t, i))
    && (Misses(s, i) && BetweenLoads(t, i) && !Counts(s, a) ==> Misses(t, i))
  }

  lemma StepMovesMissed(s: State, a: Action, i: nat)
    requires Inv(s) && Enabled(s, a)
    ensures MissedMoves(s, a, Next(s, a), i)
  {
    OnlyCallsAddIdlers(s, a);
    if i < |s.idlers| {
      assert IdlerOk(i, s.idlers[i], s.idle, s.openConnections, s.bridge);
      OthersLeaveTheIdler(s, a, i);
      MissedMeansInTheWindow(s, a, i);
      NotifyingMisses(s, a, i);
      CountingForgets(s, a, i);
    }
  }

  lemma NotifyingMisses(s: State, a: Action, i: nat)
    requires Enabled(s, a) && i < |s.idlers|
    ensures Notifies(s, a) && s.idlers[i].pc == Create ==> Misses(Next(s, a), i)
  {
  }

  lemma CountingForgets(s: State, a: Action, i: nat)
    requires Enabled(s, a) && i < |s.idlers|
    ensures Counts(s, a) ==> !Misses(Next(s, a), i)
  {
  }

  ghost predicate MissedMovesAlong(states: seq<State>, acts: seq<Action>, i: nat) {
    |states| == |acts| + 1 && forall k | 0 <= k < |acts| :: MissedMoves(states[k], acts[k], states[k + 1], i)
  }

  lemma {:induction false} PassedByIsMissed(states: seq<State>, acts: seq<Action>, i: nat, j: nat, n: nat)
    requires MissedMovesAlong(states, acts, i) && n < |states| && PassedBy(states, acts, i, j, n)
    ensures Misses(states[n], i)
    decreases n
  {
    if j + 1 < n {
      PassedByIsMissed(states, acts, i, j, n - 1);
      assert MissedMoves(states[n - 1], acts[n - 1], states[n - 1 + 1], i);
    }
  }

  lemma {:induction false} MissedIsPassedBy(states: seq<State>, acts: seq<Action>, i: nat, n: nat) returns (j: nat)
    requires MissedMovesAlong(states, acts, i) && n < |states| && states[0].idlers == [] && Misses(states[n], i)
    ensures PassedBy(states, acts, i, j, n)
  {
    assert MissedMoves(states[n - 1], acts[n - 1], states[n - 1 + 1], i);
    if Misses(states[n - 1], i) && !Counts(states[n - 1], acts[n - 1]) {
      j := MissedIsPassedBy(states, acts, i, n - 1);
    } else {
      j := n - 1;
    }
  }

  /** The window, exactly and without bookkeeping: a task asleep and not woken, in
      any state of any run, is asleep at zero with no notification due if and only
      if the last notification passed it by between its nonzero load and its
      notified(). */
  lemma AsleepAtZeroIffPassedBy(states: seq<State>, acts: seq<Action>, n: nat, i: nat)
    requires Run(states, acts) && n < |states| && i < |states[n].idlers|
    requires states[n].idlers[i].pc == Asleep && !TaskEnabled(states[n], StepIdle(i))
    ensures states[n].openConnections == 0 && !NotifyPending(states[n].bridge) <==>
              exists j :: PassedBy(states, acts, i, j, n)
  {
    forall k | 0 <= k < |acts| ensures MissedMoves(states[k], acts[k], states[k + 1], i) {
      RunKeeps(states, acts, k);
      StepMovesMissed(states[k], acts[k], i);
    }
    AsleepAtZeroIffMissed(states, acts, n, i);
    if states[n].idlers[i].missed {
      var j := MissedIsPassedBy(states, acts, i, n);
    }
    if j :| PassedBy(states, acts, i, j, n) {
      PassedByIsMissed(states, acts, i, j, n);
    }
  }

  /** The zero notification wakes every task that is already asleep. */
  lemma NotifyWakesSleepers(s: State, i: nat)
    requires Inv(s) && s.bridge.MustNotify? && i < |s.idlers| && s.idlers[i].pc in {PollIt, Asleep}
    ensures i in AdvanceBridge(s).idle.woken
  {
    assert IdlerOk(i, s.idlers[i], s.idle, s.openConnections, s.bridge);
  }

  lemma {:induction false} Extended(states: seq<State>, acts: seq<Action>, a: Action, s: State)
    requires Run(states, acts) && Enabled(states[|acts|], a) && s == Next(states[|acts|], a)
    ensures Run(states + [s], acts + [a]) && (states + [s])[|acts| + 1] == s
  {
    var states', acts' := states + [s], acts + [a];
    forall i | 0 <= i < |acts'| ensures Enabled(states'[i], acts'[i]) && states'[i + 1] == Next(states'[i], acts'[i]) {
      if i < |acts| {
        assert states'[i] == states[i] && states'[i + 1] == states[i + 1] && acts'[i] == acts[i];
      }
    }
  }

  // A run that falls into the window, in three parts.

  const ONE: ConnId := 1
  const UP := Cell(false, false, None, FRESH_CLOSE)
  const DOWN := Cell(false, false, None, Watch(Some(TimedOut), 1))

  function Scene(cells: map<ConnId, Cell>, open: U64, idle: Notify, b: BridgePc, live: set<ConnId>,
      idlers: seq<Idler>): State {
    State(false, cells, open, false, idle, [], [], if ONE in cells then [ONE] else [], 0, b, live, {}, [], idlers, [])
  }

  const NOBODY := Notify(false, {}, [], {})

  ghost predicate Reachable(s: State) {
    exists states, acts :: Run(states, acts) && states[|acts|] == s
  }

  lemma Reach(s: State, a: Action, t: State)
    requires Reachable(s) && Enabled(s, a) && t == Next(s, a)
    ensures Reachable(t)
  {
    var states, acts :| Run(states, acts) && states[|acts|] == s;
    Extended(states, acts, a, t);
  }

  lemma Advances(s: State, t: State)
    requires Reachable(s) && s.bridge != Quiet && t == AdvanceBridge(s)
    ensures Reachable(t)
  {
    Reach(s, Bridge(Advance), t);
  }

  lemma CreationBegins()
    ensures Reachable(Scene(map[], 0, NOBODY, CreateDue(ONE), {ONE}, []))
  {
    var s0 := Scene(map[], 0, NOBODY, Quiet, {}, []);
    var none: seq<Action> := [];
    assert Run([s0], none) && [s0][|none|] == s0;
    assert OpenSet(s0.conns) == {};
    var s1 := Scene(map[], 0, NOBODY, CreateDue(ONE), {ONE}, []);
    Reach(s0, Bridge(EngineCreates(ONE)), s1);
  }

  /** One connection has been created. */
  lemma OneConnection()
    ensures Reachable(Scene(map[ONE := UP], 1, NOBODY, Quiet, {ONE}, []))
  {
    CreationBegins();
    var s1 := Scene(map[], 0, NOBODY, CreateDue(ONE), {ONE}, []);
    var s2 := Scene(map[ONE := UP], 0, NOBODY, Inserted(ONE), {ONE}, []);
    Advances(s1, s2);
    var s3 := Scene(map[ONE := UP], 1, NOBODY, Counted(ONE), {ONE}, []);
    Advances(s2, s3);
    Advances(s3, Scene(map[ONE := UP], 1, NOBODY, Quiet, {ONE}, []));
  }

  /** A waiter has read the counter. */
  lemma LoadReadsOne()
    ensures Reachable(Scene(map[ONE := UP], 1, NOBODY, Quiet, {ONE}, [Idler(Create, false)]))
  {
    OneConnection();
    var s4 := Scene(map[ONE := UP], 1, NOBODY, Quiet, {ONE}, []);
    var s5 := Scene(map[ONE := UP], 1, NOBODY, Quiet, {ONE}, [Idler(FirstLoad, false)]);
    Reach(s4, Task(CallIdle), s5);
    Reach(s5, Task(StepIdle(0)), Scene(map[ONE := UP], 1, NOBODY, Quiet, {ONE}, [Idler(Create, false)]));
  }

  /** The connection closes. */
  lemma ReasonIsPublished()
    ensures Reachable(Scene(map[ONE := DOWN], 1, NOBODY, CloseWoken(ONE), {}, [Idler(Create, false)]))
  {
    LoadReadsOne();
    var late := [Idler(Create, false)];
    var s0 := Scene(map[ONE := UP], 1, NOBODY, Quiet, {ONE}, late);
    var s1 := Scene(map[ONE := UP], 1, NOBODY, CloseDue(ONE, TimedOut), {}, late);
    Reach(s0, Bridge(EngineCloses(ONE, TimedOut)), s1);
    var s2 := Scene(map[ONE := DOWN], 1, NOBODY, ClosePublished(ONE), {}, late);
    Advances(s1, s2);
    var s3 := Scene(map[ONE := DOWN], 1, NOBODY, CloseWoken(ONE), {}, late);
    Advances(s2, s3);
  }

  /** The notification finds nobody. */
  lemma NotificationPassesBy()
    ensures Reachable(Scene(map[ONE := DOWN], 0, NOBODY, Quiet, {}, [Idler(Create, true)]))
  {
    ReasonIsPublished();
    var late := [Idler(Create, false)];
    var s3 := Scene(map[ONE := DOWN], 1, NOBODY, CloseWoken(ONE), {}, late);
    var s4 := Scene(map[ONE := DOWN], 0, NOBODY, Uncounted(ONE), {}, late);
    Advances(s3, s4);
    var s5 := Scene(map[ONE := DOWN], 0, NOBODY, MustNotify(ONE), {}, late);
    Advances(s4, s5);
    assert NOBODY.NotifyWaiters() == NOBODY;
    Advances(s5, Scene(map[ONE := DOWN], 0, NOBODY, Quiet, {}, [Idler(Create, true)]));
  }

  /** The window is real: a reachable state in which the endpoint is idle, nothing
      is pending, and the waiter sleeps. */
  lemma WaitIdleCanSleepForever()
    ensures exists s :: Reachable(s) && s.openConnections == 0 && s.bridge == Quiet
              && s.idlers == [Idler(Asleep, true)] && !TaskEnabled(s, StepIdle(0))
  {
    NotificationPassesBy();
    var s0 := Scene(map[ONE := DOWN], 0, NOBODY, Quiet, {}, [Idler(Create, true)]);
    var s1 := Scene(map[ONE := DOWN], 0, Notify(false, {0}, [], {}), Quiet, {}, [Idler(PollIt, true)]);
    Reach(s0, Task(StepIdle(0)), s1);
    var s2 := Scene(map[ONE := DOWN], 0, Notify(false, {}, [0], {}), Quiet, {}, [Idler(Asleep, true)]);
    assert {0} - {0} == {};
    Reach(s1, Task(StepIdle(0)), s2);
  }

  /** Asleep at zero with nothing pending. */
  ghost predicate Stuck(s: State, i: nat) {
    i < |s.idlers| && s.idlers[i] == Idler(Asleep, true) && i !in s.idle.woken && s.bridge == Quiet
  }

  predicate CreatesOne(a: Action) {
    a.Bridge? && a.b.EngineCreates?
  }

  /** And it stays that way for as long as no new connection is created. */
  lemma StuckUntilANewConnection(s: State, a: Action, i: nat)
    requires Inv(s) && Enabled(s, a) && Stuck(s, i)
    requires !CreatesOne(a)
    ensures Stuck(Next(s, a), i) && !TaskEnabled(s, StepIdle(i))
  {
    assert IdlerOk(i, s.idlers[i], s.idle, s.openConnections, s.bridge);
    assert OpenSet(s.conns) == {};
    assert forall c | c in s.live :: c in OpenSet(s.conns);
    match a
    case Bridge(b) => OthersLeaveIdle(s, b);
    case Task(t) =>
      TasksMissNothing(s, t, i);
      TasksTouchWakersOnly(s, t);
      if t.StepIdle? {
        StepMovesOneIdler(s, t.i);
      }
  }

  ghost predicate StaysStuck(s: State, a: Action, t: State, i: nat) {
    Stuck(s, i) && !CreatesOne(a) ==> Stuck(t, i)
  }

  lemma {:induction false} StuckAlong(states: seq<State>, acts: seq<Action>, m: nat, n: nat, i: nat)
    requires |states| == |acts| + 1 && m <= n < |states| && Stuck(states[m], i)
    requires forall k | 0 <= k < |acts| :: StaysStuck(states[k], acts[k], states[k + 1], i)
    requires forall k | m <= k < n :: !CreatesOne(acts[k])
    ensures Stuck(states[n], i)
    decreases n - m
  {
    if m < n {
      StuckAlong(states, acts, m, n - 1, i);
      assert StaysStuck(states[n - 1], acts[n - 1], states[n - 1 + 1], i);
    }
  }

  /** So along every stretch of a run without a new connection, however long. */
  lemma SleepsUntilANewConnection(states: seq<State>, acts: seq<Action>, m: nat, n: nat, i: nat)
    requires Run(states, acts) && m <= n < |states| && Stuck(states[m], i)
    requires forall k | m <= k < n :: !CreatesOne(acts[k])
    ensures Stuck(states[n], i) && !TaskEnabled(states[n], StepIdle(i))
  {
    forall k | 0 <= k < |acts| ensures StaysStuck(states[k], acts[k], states[k + 1], i) {
      if Stuck(states[k], i) && !CreatesOne(acts[k]) {
        RunKeeps(states, acts, k);
        StuckUntilANewConnection(states[k], acts[k], i);
      }
    }
    StuckAlong(states, acts, m, n, i);
  }

  // ---------------------------------------------------------------- close cell

  ghost predicate OnlyForward(s: State, t: State) {
    && CloseStays(s.conns, t.conns)
    && (s.endpointClosed ==> t.endpointClosed)
  }

  lemma StepGoesForward(s: State, a: Action)
    requires Inv(s) && Enabled(s, a)
    ensures OnlyForward(s, Next(s, a))
  {
    match a
    case Bridge(b) => BridgeKeepsCells(s, b);
    case Task(t) => TasksTouchWakersOnly(s, t);
  }

  lemma ForwardIsTransitive(s: State, t: State, u: State)
    requires OnlyForward(s, t) && OnlyForward(t, u)
    ensures OnlyForward(s, u)
  {
  }

  lemma {:induction false} ForwardAlong(states: seq<State>, i: nat, j: nat)
    requires forall k | 0 < k < |states| :: OnlyForward(states[k - 1], states[k])
    requires i <= j < |states|
    ensures OnlyForward(states[i], states[j])
    decreases j - i
  {
    if i < j {
      ForwardAlong(states, i, j - 1);
      ForwardIsTransitive(states[i], states[j - 1], states[j]);
    }
  }

  /** Entries of conn_states are never removed, a published close reason and an
      established flag never change, and a closed endpoint stays closed. */
  lemma PublishedStays(states: seq<State>, acts: seq<Action>, i: nat, j: nat)
    requires Run(states, acts) && i <= j < |states|
    ensures OnlyForward(states[i], states[j])
  {
    forall k | 0 < k < |states| ensures OnlyForward(states[k - 1], states[k]) {
      RunKeeps(states, acts, k - 1);
      StepGoesForward(states[k - 1], acts[k - 1]);
    }
    ForwardAlong(states, i, j);
  }

  /** What close_reason returns for connection c. */
  function CloseReasonOf(s: State, c: ConnId): Option<ConnectionError> {
    if c in s.conns then s.conns[c].closed.value else None
  }

  predicate FutureTold(x: Future, c: ConnId, err: ConnectionError) {
    x.target == Some(c) && x.pc == Finished(Err(err), true)
  }

  /** Somebody was given `err` as the content of c's close cell: a closed() caller, a
      Connecting future, or whoever calls close_reason now. */
  ghost predicate ToldClosed(s: State, c: ConnId, err: ConnectionError) {
    || (exists w :: 0 <= w < |s.watchers| && s.watchers[w].c == c && s.watchers[w].pc == Told(err))
    || (exists f :: 0 <= f < |s.futures| && FutureTold(s.futures[f], c, err))
    || CloseReasonOf(s, c) == Some(err)
  }

  lemma ToldIsPublished(s: State, c: ConnId, err: ConnectionError)
    requires Inv(s) && ToldClosed(s, c, err)
    ensures CloseReasonOf(s, c) == Some(err)
  {
    if w :| 0 <= w < |s.watchers| && s.watchers[w].c == c && s.watchers[w].pc == Told(err) {
      assert WatcherOk(s.watchers[w], s.conns);
    } else if f :| 0 <= f < |s.futures| && FutureTold(s.futures[f], c, err) {
      assert FutureOk(f, s.futures[f], s.conns, s.bridge);
    }
  }

  /** The answer of close_reason never changes once there is one. */
  lemma CloseReasonStays(states: seq<State>, acts: seq<Action>, i: nat, j: nat, c: ConnId)
    requires Run(states, acts) && i <= j < |states| && CloseReasonOf(states[i], c).Some?
    ensures CloseReasonOf(states[j], c) == CloseReasonOf(states[i], c)
  {
    PublishedStays(states, acts, i, j);
  }

  /** Every answer taken from a connection's close cell, at any two moments of a
      run, by closed(), by a Connecting future or by close_reason, is the same
      reason. */
  lemma CloseReasonsAgree(states: seq<State>, acts: seq<Action>, i: nat, j: nat, c: ConnId, e: ConnectionError,
      f: ConnectionError)
    requires Run(states, acts) && i <= j < |states|
    requires ToldClosed(states[i], c, e) && ToldClosed(states[j], c, f)
    ensures e == f && CloseReasonOf(states[i], c) == CloseReasonOf(states[j], c) == Some(e)
  {
    RunKeeps(states, acts, i);
    RunKeeps(states, acts, j);
    ToldIsPublished(states[i], c, e);
    ToldIsPublished(states[j], c, f);
    CloseReasonStays(states, acts, i, j, c);
  }

  /** No closed() caller is parked once the reason is published. */
  lemma ClosedNeverParks(states: seq<State>, acts: seq<Action>, n: nat, w: nat)
    requires Run(states, acts) && n < |states| && w < |states[n].watchers|
    requires !states[n].watchers[w].pc.Told?
    ensures states[n].watchers[w].c in states[n].conns
    ensures states[n].conns[states[n].watchers[w].c].closed.value.Some? ==> TaskEnabled(states[n], StepWatcher(w))
  {
    RunKeeps(states, acts, n);
    assert WatcherOk(states[n].watchers[w], states[n].conns);
  }

  // ------------------------------------------------------------ endpoint close

  /** Processing CloseEndpoint calls close, with the given code and reason, on
      every connection the engine has, and on nothing else. */
  lemma CloseEndpointCoversAll(states: seq<State>, acts: seq<Action>, n: nat, code: U64, reason: seq<Byte>)
    requires Run(states, acts) && n < |acts| && acts[n] == Bridge(CloseEndpoint(code, reason))
    ensures states[n + 1].endpointClosed
    ensures forall c | c in states[n].live :: CloseCall(c, code, reason) in states[n + 1].closing
    ensures forall call | call in states[n + 1].closing && call !in states[n].closing ::
              call.c in states[n].live && call == CloseCall(call.c, code, reason)
  {
    RunKeeps(states, acts, n);
    assert states[n + 1] == BridgeNext(states[n], CloseEndpoint(code, reason));
    forall c | c in states[n].live
      ensures CloseCall(c, code, reason) in states[n + 1].closing
    {
      assert c in states[n].conns;
    }
  }

  // ---------------------------------------------------------------- accept loop

  /** On a server, connections handed to accept callers, followed by those queued and
      the one a created callback is about to queue, are the connections created, in
      order, each once. */
  lemma IncomingConserved(states: seq<State>, acts: seq<Action>, n: nat)
    requires Run(states, acts) && n < |states|
    ensures Distinct(states[n].created)
    ensures states[n].isServer ==>
              states[n].accepted + states[n].incoming + Unannounced(states[n].bridge) == states[n].created
    ensures states[n].isServer && states[n].bridge == Quiet ==>
              states[n].accepted + states[n].incoming == states[n].created
    ensures !states[n].isServer ==> states[n].accepted == [] && states[n].incoming == []
  {
    RunKeeps(states, acts, n);
    assert states[n].accepted + states[n].incoming + [] == states[n].accepted + states[n].incoming;
  }

  // ------------------------------------------------------- where facts come from

  predicate IsEstablished(s: State, c: ConnId) {
    c in s.conns && s.conns[c].established
  }

  lemma StepEstablishes(s: State, a: Action, c: ConnId)
    requires Enabled(s, a) && IsEstablished(Next(s, a), c)
    ensures IsEstablished(s, c) || a == Bridge(EngineEstablishes(c))
  {
    match a
    case Bridge(b) =>
      if b == Advance {
        AdvanceEstablishesNothing(s, c);
      }
    case Task(t) => TasksTouchWakersOnly(s, t);
  }

  lemma AdvanceEstablishesNothing(s: State, c: ConnId)
    requires IsEstablished(AdvanceBridge(s), c)
    ensures IsEstablished(s, c)
  {
    match s.bridge
    case CreateDue(d) => assert AdvanceBridge(s).conns == s.conns[d := Cell(s.isServer, false, None, FRESH_CLOSE)];
    case EstablishedStored(d) =>
    case CloseDue(d, err) =>
    case ClosePublished(d) =>
    case _ => assert AdvanceBridge(s).conns == s.conns;
  }

  /** A connection counts as established only after the engine has said so: in
      particular no Connecting future succeeds before that. */
  lemma EstablishedHappened(states: seq<State>, acts: seq<Action>, n: nat, c: ConnId) returns (m: nat)
    requires Run(states, acts) && n < |states| && IsEstablished(states[n], c)
    ensures m < n && acts[m] == Bridge(EngineEstablishes(c))
  {
    forall k | 0 <= k < |acts| && IsEstablished(states[k + 1], c)
      ensures IsEstablished(states[k], c) || acts[k] == Bridge(EngineEstablishes(c))
    {
      StepEstablishes(states[k], acts[k], c);
    }
    m := Origin(states, acts, n, s => IsEstablished(s, c), (s, a) => a == Bridge(EngineEstablishes(c)));
  }

  /** The reason is in the cell, or the callback that carries it is about to put it
      there. */
  predicate Reported(s: State, c: ConnId, err: ConnectionError) {
    CloseReasonOf(s, c) == Some(err) || s.bridge == CloseDue(c, err)
  }

  lemma StepReports(s: State, a: Action, c: ConnId, err: ConnectionError)
    requires Enabled(s, a) && Reported(Next(s, a), c, err)
    ensures Reported(s, c, err) || a == Bridge(EngineCloses(c, err))
  {
    match a
    case Bridge(b) =>
      if b == Advance {
        AdvanceReportsNothing(s, c, err);
      }
    case Task(t) => TasksTouchWakersOnly(s, t);
  }

  lemma AdvanceReportsNothing(s: State, c: ConnId, err: ConnectionError)
    requires Reported(AdvanceBridge(s), c, err)
    ensures Reported(s, c, err)
  {
    match s.bridge
    case CreateDue(d) => assert AdvanceBridge(s).conns == s.conns[d := Cell(s.isServer, false, None, FRESH_CLOSE)];
    case EstablishedStored(d) =>
    case CloseDue(d, err') =>
    case ClosePublished(d) =>
    case _ => assert AdvanceBridge(s).conns == s.conns;
  }

  /** A published close reason is the one with which the engine closed that very
      connection. */
  lemma ReasonIsTheEngines(states: seq<State>, acts: seq<Action>, n: nat, c: ConnId, err: ConnectionError)
    returns (m: nat)
    requires Run(states, acts) && n < |states| && CloseReasonOf(states[n], c) == Some(err)
    ensures m < n && acts[m] == Bridge(EngineCloses(c, err))
  {
    forall k | 0 <= k < |acts| && Reported(states[k + 1], c, err)
      ensures Reported(states[k], c, err) || acts[k] == Bridge(EngineCloses(c, err))
    {
      StepReports(states[k], acts[k], c, err);
    }
    m := Origin(states, acts, n, s => Reported(s, c, err), (s, a) => a == Bridge(EngineCloses(c, err)));
  }

  /** And once the engine has closed a connection, the very next accesses of the
      bridge publish that reason. */
  lemma EngineCloseIsPublished(states: seq<State>, acts: seq<Action>, n: nat, c: ConnId, err: ConnectionError)
    requires Run(states, acts) && n < |acts| && acts[n] == Bridge(EngineCloses(c, err))
    ensures states[n + 1].bridge == CloseDue(c, err)
    ensures CloseReasonOf(AdvanceBridge(states[n + 1]), c) == Some(err)
  {
    RunKeeps(states, acts, n);
  }

  /** Likewise for the handshake: the flag is stored with the first access. */
  lemma EngineEstablishIsStored(states: seq<State>, acts: seq<Action>, n: nat, c: ConnId)
    requires Run(states, acts) && n < |acts| && acts[n] == Bridge(EngineEstablishes(c))
    ensures IsEstablished(states[n + 1], c)
  {
    RunKeeps(states, acts, n);
  }

  predicate HasReply(s: State, f: nat, reply: Option<Result<ConnId, ConnectError>>) {
    f < |s.futures| && s.futures[f].reply == Some(reply)
  }

  predicate Owns(s: State, f: nat, c: ConnId) {
    f < |s.futures| && Claim(s.futures[f]) == Some(c)
  }

  /** The step that gives connection c to future f: the bridge's reply to its connect,
      or the accept that creates it. */
  predicate Assigns(s: State, a: Action, f: nat, c: ConnId) {
    || a == Bridge(ReplyConnect(f, Some(Ok(c))))
    || (a == Task(AcceptIncoming) && f == |s.futures| && s.incoming != [] && s.incoming[0] == c)
  }

  /** What a step of a task may do to the replies and claims of the futures. */
  ghost predicate RepliesKept(s: State, t: TaskStep, s': State) {
    && |s.futures| <= |s'.futures| <= |s.futures| + 1
    && (forall f | 0 <= f < |s.futures| ::
          s'.futures[f].reply in {s.futures[f].reply, None} && Claim(s'.futures[f]) == Claim(s.futures[f]))
    && (|s'.futures| > |s.futures| ==>
          var x := s'.futures[|s.futures|];
          x.reply == None && (Claim(x).Some? ==>
            t == AcceptIncoming && s.incoming != [] && Claim(x) == Some(s.incoming[0])))
  }

  lemma TaskKeepsReplies(s: State, t: TaskStep)
    requires FuturesOk(s) && TaskEnabled(s, t)
    ensures RepliesKept(s, t, TaskNext(s, t))
  {
    match t
    case StartPoll(f) => PollKeepsFuture(f, s.futures[f], s.conns, s.bridge);
    case StepFuture(f) => assert TaskNext(s, t).futures == s.futures[f := PollPhase2(s.futures[f], s.conns)];
    case _ =>
  }

  lemma StepReplies(s: State, a: Action, f: nat, reply: Option<Result<ConnId, ConnectError>>)
    requires FuturesOk(s) && Enabled(s, a) && HasReply(Next(s, a), f, reply)
    ensures HasReply(s, f, reply) || a == Bridge(ReplyConnect(f, reply))
  {
    match a
    case Bridge(b) =>
      if b == Advance {
        AdvanceLeavesReplies(s);
      }
    case Task(t) => TaskKeepsReplies(s, t);
  }

  lemma AdvanceLeavesReplies(s: State)
    ensures |AdvanceBridge(s).futures| == |s.futures|
    ensures forall f | 0 <= f < |s.futures| ::
              AdvanceBridge(s).futures[f] == s.futures[f].(woken := AdvanceBridge(s).futures[f].woken)
  {
    if !s.bridge.EstablishedStored? && !s.bridge.ClosePublished? {
      assert AdvanceBridge(s).futures == s.futures;
    }
  }

  lemma StepAssigns(s: State, a: Action, f: nat, c: ConnId)
    requires FuturesOk(s) && Enabled(s, a) && Owns(Next(s, a), f, c)
    ensures Owns(s, f, c) || Assigns(s, a, f, c)
  {
    match a
    case Bridge(b) =>
      if b == Advance {
        AdvanceLeavesReplies(s);
      }
    case Task(t) => TaskKeepsReplies(s, t);
  }

  lemma ReplyWasGiven(states: seq<State>, acts: seq<Action>, n: nat, f: nat, reply: Option<Result<ConnId,
      ConnectError>>)
      returns (m: nat)
    requires Run(states, acts) && n < |states| && HasReply(states[n], f, reply)
    ensures m < n && acts[m] == Bridge(ReplyConnect(f, reply))
  {
    forall k | 0 <= k < |acts| && HasReply(states[k + 1], f, reply)
      ensures HasReply(states[k], f, reply) || acts[k] == Bridge(ReplyConnect(f, reply))
    {
      RunKeeps(states, acts, k);
      StepReplies(states[k], acts[k], f, reply);
    }
    m := Origin(states, acts, n, s => HasReply(s, f, reply), (s, a) => a == Bridge(ReplyConnect(f, reply)));
  }

  /** A Connecting future that succeeds yields the connection that the bridge gave to
      that very future, or that it was accepted for. */
  lemma ConnectionWasGiven(states: seq<State>, acts: seq<Action>, n: nat, f: nat) returns (m: nat)
    requires Run(states, acts) && n < |states| && f < |states[n].futures|
    requires states[n].futures[f].pc.Finished? && states[n].futures[f].pc.result.Ok?
    ensures m < n && Assigns(states[m], acts[m], f, states[n].futures[f].pc.result.value)
  {
    var c := states[n].futures[f].pc.result.value;
    RunKeeps(states, acts, n);
    assert FutureOk(f, states[n].futures[f], states[n].conns, states[n].bridge);
    forall k | 0 <= k < |acts| && Owns(states[k + 1], f, c)
      ensures Owns(states[k], f, c) || Assigns(states[k], acts[k], f, c)
    {
      RunKeeps(states, acts, k);
      StepAssigns(states[k], acts[k], f, c);
    }
    m := Origin(states, acts, n, s => Owns(s, f, c), (s, a) => Assigns(s, a, f, c));
  }

  /** One that fails without having read the close cell reports what the bridge
      replied to its own connect: the refusal, or that the reply was dropped. */
  lemma RefusalWasGiven(states: seq<State>, acts: seq<Action>, n: nat, f: nat)
      returns (m: nat, reply: Option<Result<ConnId, ConnectError>>)
    requires Run(states, acts) && n < |states| && f < |states[n].futures|
    requires var pc := states[n].futures[f].pc; pc.Finished? && pc.result.Err? && !pc.fromCell
    ensures m < n && acts[m] == Bridge(ReplyConnect(f, reply))
    ensures var err := states[n].futures[f].pc.result.error;
            match reply
            case None => err == LocallyClosed
            case Some(Ok(_)) => false
            case Some(Err(e)) => Refusal(e, err)
  {
    RunKeeps(states, acts, n);
    var x := states[n].futures[f];
    assert FutureOk(f, x, states[n].conns, states[n].bridge);
    reply := x.reply.value;
    m := ReplyWasGiven(states, acts, n, f, reply);
  }

  /** Every connection knows which side this endpoint is on. */
  lemma {:induction false} SidesAgree(states: seq<State>, acts: seq<Action>, n: nat, c: ConnId)
    requires Run(states, acts) && n < |states| && c in states[n].conns
    ensures states[n].conns[c].isServer == states[n].isServer == states[0].isServer
  {
    SidesAlong(states, acts, n);
  }

  ghost predicate OneSide(s: State, isServer: bool) {
    s.isServer == isServer && forall c | c in s.conns :: s.conns[c].isServer == isServer
  }

  lemma StepKeepsSide(s: State, a: Action, isServer: bool)
    requires Enabled(s, a) && OneSide(s, isServer)
    ensures OneSide(Next(s, a), isServer)
  {
    match a
    case Bridge(b) =>
      if b == Advance {
        AdvanceKeepsSide(s, isServer);
      }
    case Task(t) => TasksTouchWakersOnly(s, t);
  }

  lemma AdvanceKeepsSide(s: State, isServer: bool)
    requires OneSide(s, isServer)
    ensures OneSide(AdvanceBridge(s), isServer)
  {
    match s.bridge
    case CreateDue(c) => assert AdvanceBridge(s).conns == s.conns[c := Cell(s.isServer, false, None, FRESH_CLOSE)];
    case EstablishedStored(c) =>
    case CloseDue(c, err) =>
    case ClosePublished(c) =>
    case _ => assert AdvanceBridge(s).conns == s.conns;
  }

  lemma {:induction false} SidesAlong(states: seq<State>, acts: seq<Action>, n: nat)
    requires Run(states, acts) && n < |states|
    ensures OneSide(states[n], states[0].isServer)
  {
    if n > 0 {
      SidesAlong(states, acts, n - 1);
      StepKeepsSide(states[n - 1], acts[n - 1], states[0].isServer);
    }
  }

  // ------------------------------------------------------------------- admission

  /** Connection::close reaches that connection alone, with its code and reason, and
      only if the engine still has it. */
  lemma CloseReachesOne(states: seq<State>, acts: seq<Action>, n: nat, c: ConnId, code: U64, reason: seq<Byte>)
    requires Run(states, acts) && n < |acts| && acts[n] == Bridge(CloseConnection(c, code, reason))
    ensures states[n + 1].closing == states[n].closing
              + (if c in states[n].live then {CloseCall(c, code, reason)} else {})
    ensures states[n + 1] == states[n].(closing := states[n + 1].closing)
  {
    assert states[n + 1] == BridgeNext(states[n], CloseConnection(c, code, reason));
  }

  /** The calls that got past the look at `endpoint_closed`. */
  function Entered(acts: seq<Action>): nat {
    if acts == [] then 0
    else
      var n := |acts| - 1;
      Entered(acts[..n]) + (if acts[n] in {Task(CallConnect), Task(AcceptIncoming)} then 1 else 0)
  }

  /** Once the endpoint has closed, nobody is let in: further connects and accepts
      come only from calls that had looked before. */
  ghost predicate Shut(s: State, a: Action, t: State) {
    s.endpointClosed ==> t.endpointClosed && a != Task(LookOpen) && Entered([a]) + t.admitted <= s.admitted
  }

  lemma StepIsShut(s: State, a: Action)
    requires Inv(s) && Enabled(s, a)
    ensures Shut(s, a, Next(s, a))
  {
    StepGoesForward(s, a);
    assert [a][..0] == [];
    match a
    case Bridge(b) =>
      if b == Advance {
        assert AdvanceBridge(s).admitted == s.admitted;
      }
    case Task(t) =>
  }

  lemma {:induction false} ShutAlong(states: seq<State>, acts: seq<Action>, m: nat, n: nat)
    requires |states| == |acts| + 1 && m <= n < |states| && states[m].endpointClosed
    requires forall k | 0 <= k < |acts| :: Shut(states[k], acts[k], states[k + 1])
    ensures states[n].endpointClosed && Entered(acts[m..n]) + states[n].admitted <= states[m].admitted
    decreases n - m
  {
    if m < n {
      ShutAlong(states, acts, m, n - 1);
      assert Shut(states[n - 1], acts[n - 1], states[n - 1 + 1]);
      assert acts[m..n][..n - 1 - m] == acts[m..n - 1] && [acts[n - 1]][..0] == [];
    }
  }

  /** After the endpoint has closed, connect, connect_with and accept are refused to
      everybody who looks, and at most those who looked before still get through. */
  lemma NobodyEntersAfterClose(states: seq<State>, acts: seq<Action>, m: nat, n: nat)
    requires Run(states, acts) && m <= n < |states| && states[m].endpointClosed
    ensures n < |acts| ==> acts[n] != Task(LookOpen)
    ensures Entered(acts[m..n]) + states[n].admitted <= states[m].admitted
  {
    forall k | 0 <= k < |acts| ensures Shut(states[k], acts[k], states[k + 1]) {
      RunKeeps(states, acts, k);
      StepIsShut(states[k], acts[k]);
    }
    ShutAlong(states, acts, m, n);
    if n < |acts| {
      assert Shut(states[n], acts[n], states[n + 1]);
    }
  }

  // -------------------------------------------------------------------- wakeups

  /** The step takes and wakes the waker of poll p of future f. */
  predicate WakesPoll(s: State, a: Action, f: nat, p: nat) {
    && a == Bridge(Advance) && (s.bridge.EstablishedStored? || s.bridge.ClosePublished?)
    && s.bridge.c in s.conns && s.conns[s.bridge.c].waker == Some(Waker(f, p))
  }

  predicate IsWoken(s: State, f: nat, p: nat) {
    f < |s.futures| && s.futures[f].polls == p && s.futures[f].woken
  }

  lemma StepWakes(s: State, a: Action, f: nat, p: nat)
    requires Enabled(s, a) && IsWoken(Next(s, a), f, p)
    ensures IsWoken(s, f, p) || WakesPoll(s, a, f, p)
  {
    match a
    case Bridge(b) =>
      if b == Advance {
        AdvanceWakes(s, f, p);
      }
    case Task(t) => TaskWakesNobody(s, t, f, p);
  }

  lemma AdvanceWakes(s: State, f: nat, p: nat)
    requires s.bridge != Quiet && IsWoken(AdvanceBridge(s), f, p)
    ensures IsWoken(s, f, p) || WakesPoll(s, Bridge(Advance), f, p)
  {
    if !s.bridge.EstablishedStored? && !s.bridge.ClosePublished? {
      assert AdvanceBridge(s).futures == s.futures;
    }
  }

  lemma TaskWakesNobody(s: State, t: TaskStep, f: nat, p: nat)
    requires TaskEnabled(s, t) && IsWoken(TaskNext(s, t), f, p)
    ensures IsWoken(s, f, p)
  {
    match t
    case StepFuture(g) => assert TaskNext(s, t).futures == s.futures[g := PollPhase2(s.futures[g], s.conns)];
    case _ =>
  }

  /** A future counts as woken only if a callback took the waker of its latest poll. */
  lemma WokenWasWoken(states: seq<State>, acts: seq<Action>, n: nat, f: nat) returns (m: nat)
    requires Run(states, acts) && n < |states| && f < |states[n].futures| && states[n].futures[f].woken
    ensures m < n && WakesPoll(states[m], acts[m], f, states[n].futures[f].polls)
  {
    var p := states[n].futures[f].polls;
    forall k | 0 <= k < |acts| && IsWoken(states[k + 1], f, p)
      ensures IsWoken(states[k], f, p) || WakesPoll(states[k], acts[k], f, p)
    {
      StepWakes(states[k], acts[k], f, p);
    }
    m := Origin(states, acts, n, s => IsWoken(s, f, p), (s, a) => WakesPoll(s, a, f, p));
  }

  // ------------------------------------------------------------------ deliveries

  /** The reply to a connect reaches the future that sent it. */
  lemma ReplyIsStored(states: seq<State>, acts: seq<Action>, n: nat, f: nat, reply: Option<Result<ConnId,
      ConnectError>>)
    requires Run(states, acts) && n < |acts| && acts[n] == Bridge(ReplyConnect(f, reply))
    ensures HasReply(states[n + 1], f, reply)
  {
  }

  ghost predicate SomeoneOwns(futures: seq<Future>, c: ConnId) {
    exists f :: 0 <= f < |futures| && Claim(futures[f]) == Some(c)
  }

  ghost predicate AcceptedOwned(s: State) {
    forall c | c in s.accepted :: SomeoneOwns(s.futures, c)
  }

  lemma OwnersStay(s: State, s': State)
    requires AcceptedOwned(s) && |s.futures| <= |s'.futures|
    requires forall f | 0 <= f < |s.futures| && Claim(s.futures[f]).Some? :: Claim(s'.futures[f]) == Claim(s.futures[f])
    ensures forall c | c in s.accepted :: SomeoneOwns(s'.futures, c)
  {
    forall c | c in s.accepted ensures SomeoneOwns(s'.futures, c) {
      var f :| 0 <= f < |s.futures| && Claim(s.futures[f]) == Some(c);
      assert Claim(s'.futures[f]) == Some(c);
    }
  }

  lemma BridgeKeepsOwners(s: State, b: BridgeStep)
    requires FuturesOk(s) && BridgeEnabled(s, b)
    ensures var s' := BridgeNext(s, b);
            && s'.accepted == s.accepted && |s.futures| <= |s'.futures|
            && forall f | 0 <= f < |s.futures| && Claim(s.futures[f]).Some? ::
                Claim(s'.futures[f]) == Claim(s.futures[f])
  {
    if b == Advance {
      AdvanceLeavesReplies(s);
      AdvanceAcceptsNothing(s);
    }
  }

  lemma AdvanceAcceptsNothing(s: State)
    ensures AdvanceBridge(s).accepted == s.accepted
  {
  }

  lemma StepKeepsOwned(s: State, a: Action)
    requires Inv(s) && Enabled(s, a) && AcceptedOwned(s)
    ensures AcceptedOwned(Next(s, a))
  {
    match a
    case Bridge(b) => BridgeKeepsOwners(s, b);
    case Task(t) => TaskKeepsReplies(s, t);
    OwnersStay(s, Next(s, a));
    if a == Task(AcceptIncoming) {
      assert Claim(Next(s, a).futures[|s.futures|]) == Some(s.incoming[0]);
    }
  }

  lemma {:induction false} OwnedAlong(states: seq<State>, n: nat)
    requires n < |states| && AcceptedOwned(states[0])
    requires forall k | 0 < k < |states| :: AcceptedOwned(states[k - 1]) ==> AcceptedOwned(states[k])
    ensures AcceptedOwned(states[n])
  {
    if n > 0 {
      OwnedAlong(states, n - 1);
    }
  }

  /** Every connection taken from the accept queue has its Connecting future. */
  lemma AcceptedIsOwned(states: seq<State>, acts: seq<Action>, n: nat, c: ConnId)
    requires Run(states, acts) && n < |states| && c in states[n].accepted
    ensures SomeoneOwns(states[n].futures, c)
  {
    forall k | 0 < k < |states| && AcceptedOwned(states[k - 1]) ensures AcceptedOwned(states[k]) {
      RunKeeps(states, acts, k - 1);
      StepKeepsOwned(states[k - 1], acts[k - 1]);
    }
    OwnedAlong(states, n);
  }
}
