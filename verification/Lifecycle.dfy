/** The connections of one endpoint: the created, established and closed
    callbacks split at every point where another thread can look, the Connecting
    futures with their check / register / re-check handshake, `wait_idle`,
    `closed`, and the endpoint-wide close. */
module Lifecycle {
  import opened Types
  import opened Sync

  type ConnId = U64

  // ------------------------------------------------------------------ state

  /** The waker of one particular poll of one particular future. */
  datatype Waker = Waker(future: nat, poll: nat)

  /** ConnNotify, as far as the life of a connection goes. */
  datatype Cell = Cell(isServer: bool, established: bool, waker: Option<Waker>, closed: Watch<Option<ConnectionError>>)

  const FRESH_CLOSE: Watch<Option<ConnectionError>> := Watch(None, 0)

  /** Where the bridge thread stands inside a callback. */
  datatype BridgePc =
    | Quiet
    | CreateDue(c: ConnId)                            // the engine has the connection, nothing shared yet
    | Inserted(c: ConnId)                             // in conn_states, not yet counted
    | Counted(c: ConnId)                              // counted, not yet announced
    | EstablishedStored(c: ConnId)                    // flag stored, waker not yet taken
    | CloseDue(c: ConnId, err: ConnectionError)       // reason computed, not yet published
    | ClosePublished(c: ConnId)                       // published, waker not yet taken
    | CloseWoken(c: ConnId)                           // waker taken, not yet uncounted
    | Uncounted(c: ConnId)                            // fetch_sub done, zero test pending
    | MustNotify(c: ConnId)                           // the test read zero, notify pending

  /** Connecting::poll, one access at a time. */
  datatype FuturePc =
    | Unpolled
    | AwaitId               // phase 1 returned Pending
    | Lookup
    | CheckEstablished
    | CheckClosed
    | Register
    | RecheckEstablished
    | RecheckClosed
    | Waiting               // phase 2 returned Pending
    | Finished(result: Result<ConnId, ConnectionError>, fromCell: bool)

  /** `polls`: how often it has been polled; `woken`: the waker of the latest
      poll has been woken. */
  datatype Future = Future(target: Option<ConnId>, reply: Option<Option<Result<ConnId, ConnectError>>>,
                           pc: FuturePc, polls: nat, woken: bool)

  /** wait_idle, one access at a time. */
  datatype IdlePc =
    | FirstLoad
    | Create      // the load read nonzero, notified() not yet created
    | PollIt      // created, not yet polled
    | Asleep      // polled, queued in the Notify
    | SecondLoad
    | Returned

  /** `missed`: the notification for the current zero came while this task stood
      between its nonzero load and the creation of its notified() future. */
  datatype Idler = Idler(pc: IdlePc, missed: bool)

  /** closed(): the cloned receiver's seen version. */
  datatype WatchPc = Look | AwaitChange | Told(err: ConnectionError)
  datatype Watcher = Watcher(c: ConnId, seen: nat, pc: WatchPc)

  datatype CloseCall = CloseCall(c: ConnId, code: U64, reason: seq<Byte>)

  /** `live`: the engine's connections. `closing`: the close calls made on them.
      `created`: every connection ever created; `accepted`: those handed to
      Accept::poll callers. `admitted`: how many connect and accept calls have read
      `endpoint_closed` as false and not acted on it yet. */
  datatype State = State(
    isServer: bool,
    conns: map<ConnId, Cell>, openConnections: U64, endpointClosed: bool, idle: Notify,
    incoming: seq<ConnId>, accepted: seq<ConnId>, created: seq<ConnId>, admitted: nat,
    bridge: BridgePc, live: set<ConnId>, closing: set<CloseCall>,
    futures: seq<Future>, idlers: seq<Idler>, watchers: seq<Watcher>)

  ghost predicate Init(s: State) {
    && s.conns == map[] && s.openConnections == 0 && !s.endpointClosed
    && s.idle == Notify(false, {}, [], {})
    && s.incoming == [] && s.accepted == [] && s.created == [] && s.admitted == 0
    && s.bridge == Quiet && s.live == {} && s.closing == {}
    && s.futures == [] && s.idlers == [] && s.watchers == []
  }

  // -------------------------------------------------------------- the bridge

  datatype BridgeStep =
    | EngineCreates(c: ConnId)
    | EngineEstablishes(c: ConnId)
    | EngineCloses(c: ConnId, err: ConnectionError)
    | Advance
    | CloseEndpoint(code: U64, reason: seq<Byte>)
    | CloseConnection(c: ConnId, code: U64, reason: seq<Byte>)
    | ReplyConnect(f: nat, reply: Option<Result<ConnId, ConnectError>>)

  function OpenSet(conns: map<ConnId, Cell>): set<ConnId> {
    set c | c in conns && conns[c].closed.value == None
  }

  /** The connection a future has been given, in its reply or already taken. */
  function Claim(f: Future): Option<ConnId> {
    match f.reply
    case Some(Some(Ok(c))) => Some(c)
    case _ => f.target
  }

  /** The engine's obligations: indices are fresh and fewer than 2^64 connections
      are open at once; created precedes everything else and closed comes at most
      once; a successful connect returns a connection created for it. */
  predicate BridgeEnabled(s: State, a: BridgeStep) {
    match a
    case EngineCreates(c) => s.bridge == Quiet && c !in s.conns && c !in s.live && |OpenSet(s.conns)| + 1 < TWO_64
    case EngineEstablishes(c) => s.bridge == Quiet && c in s.live
    case EngineCloses(c, _) => s.bridge == Quiet && c in s.live
    case Advance => s.bridge != Quiet
    case CloseEndpoint(_, _) => s.bridge == Quiet
    case CloseConnection(_, _, _) => s.bridge == Quiet
    case ReplyConnect(f, reply) =>
      && s.bridge == Quiet && f < |s.futures| && s.futures[f].reply == None && s.futures[f].target == None
      && (reply.Some? && reply.value.Ok? ==>
            && !s.isServer && reply.value.value in s.conns
            && forall g | 0 <= g < |s.futures| :: Claim(s.futures[g]) != Some(reply.value.value))
  }

  /** `establish_waker.lock().take()` and waking what it held. */
  function TakeWaker(s: State, c: ConnId): (s': State)
    requires c in s.conns
    ensures s' == s.(conns := s'.conns, futures := s'.futures)
    ensures |s'.futures| == |s.futures|
    ensures forall f | 0 <= f < |s.futures| :: s'.futures[f] == s.futures[f].(woken := s'.futures[f].woken)
    ensures s'.conns.Keys == s.conns.Keys
    ensures forall d | d in s.conns :: s'.conns[d] == s.conns[d].(waker := if d == c then None else s.conns[d].waker)
  {
    var w := s.conns[c].waker;
    var s' := s.(conns := s.conns[c := s.conns[c].(waker := None)]);
    if w.Some? && w.value.future < |s.futures| && s.futures[w.value.future].polls == w.value.poll then
      s'.(futures := s.futures[w.value.future := s.futures[w.value.future].(woken := true)])
    else
      s'
  }

  function WrapSub(n: U64): U64 {
    if n == 0 then TWO_64 - 1 else n - 1
  }

  function WrapAdd(n: U64): U64 {
    (n + 1) % TWO_64
  }

  function Forget(idlers: seq<Idler>): (r: seq<Idler>)
    ensures |r| == |idlers| && forall i | 0 <= i < |r| :: r[i] == idlers[i].(missed := false)
  {
    seq(|idlers|, i requires 0 <= i < |idlers| => idlers[i].(missed := false))
  }

  /** Bookkeeping of `notify_waiters` for the tasks it comes too early for. */
  function Miss(idlers: seq<Idler>): (r: seq<Idler>)
    ensures |r| == |idlers|
    ensures forall i | 0 <= i < |r| :: r[i] == if idlers[i].pc == Create then idlers[i].(missed := true) else idlers[i]
  {
    seq(|idlers|, i requires 0 <= i < |idlers| =>
        if idlers[i].pc == Create then idlers[i].(missed := true) else idlers[i])
  }

  /** The next access of the callback in progress. */
  function AdvanceBridge(s: State): State {
    match s.bridge
    case Quiet => s
    case CreateDue(c) =>
      s.(conns := s.conns[c := Cell(s.isServer, false, None, FRESH_CLOSE)],
         created := s.created + [c], bridge := Inserted(c))
    case Inserted(c) =>
      s.(openConnections := WrapAdd(s.openConnections), idlers := Forget(s.idlers), bridge := Counted(c))
    case Counted(c) =>
      s.(incoming := if s.isServer then s.incoming + [c] else s.incoming, bridge := Quiet)
    case EstablishedStored(c) => (if c in s.conns then TakeWaker(s, c) else s).(bridge := Quiet)
    case CloseDue(c, err) =>
      if c in s.conns then
        s.(conns := s.conns[c := s.conns[c].(closed := s.conns[c].closed.Send(Some(err)))], bridge := ClosePublished(c))
      else
        s.(bridge := CloseWoken(c))
    case ClosePublished(c) => (if c in s.conns then TakeWaker(s, c) else s).(bridge := CloseWoken(c))
    case CloseWoken(c) => s.(openConnections := WrapSub(s.openConnections), bridge := Uncounted(c))
    case Uncounted(c) => s.(bridge := if s.openConnections == 0 then MustNotify(c) else Quiet)
    case MustNotify(c) => s.(idle := s.idle.NotifyWaiters(), idlers := Miss(s.idlers), bridge := Quiet)
  }

  function BridgeNext(s: State, a: BridgeStep): State {
    match a
    case EngineCreates(c) => s.(live := s.live + {c}, bridge := CreateDue(c))
    case EngineEstablishes(c) =>
      if c in s.conns then
        s.(conns := s.conns[c := s.conns[c].(established := true)], bridge := EstablishedStored(c))
      else
        s
    case EngineCloses(c, err) => s.(live := s.live - {c}, bridge := CloseDue(c, err))
    case Advance => AdvanceBridge(s)
    case CloseEndpoint(code, reason) =>
      s.(endpointClosed := true,
         closing := s.closing + set c | c in s.conns && c in s.live :: CloseCall(c, code, reason))
    case CloseConnection(c, code, reason) =>
      if c in s.live then s.(closing := s.closing + {CloseCall(c, code, reason)}) else s
    case ReplyConnect(f, reply) =>
      if f < |s.futures| then s.(futures := s.futures[f := s.futures[f].(reply := Some(reply))]) else s
  }

  // --------------------------------------------------------------- the tasks

  datatype TaskStep =
    | LookOpen                     // connect, connect_with, Accept::poll: endpoint_closed is false
    | CallConnect                  // the rest of connect / connect_with
    | AcceptIncoming               // the rest of Accept::poll, then Incoming::accept
    | LookAway                     // Accept::poll finds the queue locked or empty
    | StartPoll(f: nat)            // Connecting::poll begins
    | StepFuture(f: nat)
    | CallIdle
    | StepIdle(i: nat)
    | CallClosed(c: ConnId)
    | StepWatcher(i: nat)

  predicate TaskEnabled(s: State, a: TaskStep) {
    match a
    case LookOpen => !s.endpointClosed
    case CallConnect => s.admitted > 0
    case AcceptIncoming => s.admitted > 0 && s.incoming != []
    case LookAway => s.admitted > 0
    case StartPoll(f) => f < |s.futures| && s.futures[f].pc in {Unpolled, AwaitId, Waiting}
    case StepFuture(f) =>
      f < |s.futures| && s.futures[f].pc !in {Unpolled, AwaitId, Waiting} && !s.futures[f].pc.Finished?
    case CallIdle => true
    case StepIdle(i) =>
      && i < |s.idlers| && s.idlers[i].pc != Returned
      && (s.idlers[i].pc == Asleep ==> i in s.idle.woken)
    case CallClosed(c) => c in s.conns
    case StepWatcher(i) =>
      && i < |s.watchers| && s.watchers[i].c in s.conns && !s.watchers[i].pc.Told?
      && (s.watchers[i].pc == AwaitChange ==> s.conns[s.watchers[i].c].closed.Changed(s.watchers[i].seen))
  }

  /** Phase 1 of the poll. */
  function PollPhase1(f: Future): Future {
    var g := f.(polls := f.polls + 1, woken := false);
    if f.target.Some? then
      g.(pc := Lookup)
    else
      match f.reply
      case None => g.(pc := AwaitId)
      case Some(Some(Ok(id))) => g.(target := Some(id), reply := None, pc := Lookup)
      case Some(Some(Err(e))) => g.(pc := Finished(Err(FromConnectError(e)), false))
      case Some(None) => g.(pc := Finished(Err(LocallyClosed), false))
  }

  /** One access of phase 2. */
  function PollPhase2(f: Future, conns: map<ConnId, Cell>): Future {
    if f.target == None || f.target.value !in conns then
      f.(pc := Finished(Err(LocallyClosed), false))
    else
      var cell := conns[f.target.value];
      match f.pc
      case Lookup => f.(pc := CheckEstablished)
      case CheckEstablished => f.(pc := if cell.established then Finished(Ok(f.target.value), false) else CheckClosed)
      case CheckClosed =>
        f.(pc := if cell.closed.value.Some? then Finished(Err(cell.closed.value.value), true) else Register)
      case Register => f.(pc := RecheckEstablished)
      case RecheckEstablished =>
        f.(pc := if cell.established then Finished(Ok(f.target.value), false) else RecheckClosed)
      case RecheckClosed =>
        f.(pc := if cell.closed.value.Some? then Finished(Err(cell.closed.value.value), true) else Waiting)
      case _ => f
  }

  function StepFutureOf(s: State, f: nat): (s': State)
    requires f < |s.futures|
    ensures s' == s.(conns := s'.conns, futures := s'.futures)
  {
    var x := s.futures[f];
    var s' := s.(futures := s.futures[f := PollPhase2(x, s.conns)]);
    if x.pc == Register && x.target.Some? && x.target.value in s.conns then
      s'.(conns := s.conns[x.target.value := s.conns[x.target.value].(waker := Some(Waker(f, x.polls)))])
    else
      s'
  }

  function StepIdleOf(s: State, i: nat): (s': State)
    requires i < |s.idlers|
    ensures s' == s.(idle := s'.idle, idlers := s'.idlers)
    ensures |s'.idlers| == |s.idlers| && forall j | 0 <= j < |s.idlers| && j != i :: s'.idlers[j] == s.idlers[j]
  {
    match s.idlers[i].pc
    case FirstLoad =>
      s.(idlers := s.idlers[i := Idler(if s.openConnections == 0 then Returned else Create, false)])
    case Create => s.(idle := s.idle.Arm(i), idlers := s.idlers[i := s.idlers[i].(pc := PollIt)])
    case PollIt =>
      var n := s.idle.PollFirst(i);
      if i in n.woken then
        s.(idle := n.Observe(i), idlers := s.idlers[i := Idler(SecondLoad, false)])
      else
        s.(idle := n, idlers := s.idlers[i := s.idlers[i].(pc := Asleep)])
    case Asleep => s.(idle := s.idle.Observe(i), idlers := s.idlers[i := Idler(SecondLoad, false)])
    case SecondLoad =>
      s.(idlers := s.idlers[i := Idler(if s.openConnections == 0 then Returned else FirstLoad, false)])
    case Returned => s
  }

  function StepWatcherOf(s: State, i: nat): (s': State)
    requires i < |s.watchers| && s.watchers[i].c in s.conns
    ensures s' == s.(watchers := s'.watchers)
  {
    var w := s.watchers[i];
    var cell := s.conns[w.c].closed;
    match w.pc
    case Look =>
      s.(watchers := s.watchers[i := w.(pc := if cell.value.Some? then Told(cell.value.value) else AwaitChange)])
    case AwaitChange => s.(watchers := s.watchers[i := w.(pc := Look, seen := cell.version)])
    case Told(_) => s
  }

  function TaskNext(s: State, a: TaskStep): (s': State)
    requires TaskEnabled(s, a)
    ensures s' == s.(conns := s'.conns, incoming := s'.incoming, accepted := s'.accepted, admitted := s'.admitted,
                     futures := s'.futures, idle := s'.idle, idlers := s'.idlers, watchers := s'.watchers)
    ensures !a.StepFuture? ==> s'.conns == s.conns
    ensures !a.StartPoll? && !a.StepFuture? && !a.CallConnect? && !a.AcceptIncoming? ==> s'.futures == s.futures
    ensures !a.AcceptIncoming? ==> s'.incoming == s.incoming && s'.accepted == s.accepted
    ensures !a.StepIdle? && !a.CallIdle? ==> s'.idle == s.idle && s'.idlers == s.idlers
    ensures !a.StepWatcher? && !a.CallClosed? ==> s'.watchers == s.watchers
  {
    match a
    case LookOpen => s.(admitted := s.admitted + 1)
    case CallConnect =>
      s.(admitted := s.admitted - 1, futures := s.futures + [Future(None, None, Unpolled, 0, false)])
    case AcceptIncoming =>
      var c := s.incoming[0];
      s.(admitted := s.admitted - 1, incoming := s.incoming[1..], accepted := s.accepted + [c],
         futures := s.futures + [Future(Some(c), None, Unpolled, 0, false)])
    case LookAway => s.(admitted := s.admitted - 1)
    case StartPoll(f) => s.(futures := s.futures[f := PollPhase1(s.futures[f])])
    case StepFuture(f) => StepFutureOf(s, f)
    case CallIdle => s.(idlers := s.idlers + [Idler(FirstLoad, false)])
    case StepIdle(i) => StepIdleOf(s, i)
    case CallClosed(c) => s.(watchers := s.watchers + [Watcher(c, 0, Look)])
    case StepWatcher(i) => StepWatcherOf(s, i)
  }

  // ------------------------------------------------------------------- runs

  datatype Action = Bridge(b: BridgeStep) | Task(t: TaskStep)

  predicate Enabled(s: State, a: Action) {
    match a
    case Bridge(b) => BridgeEnabled(s, b)
    case Task(t) => TaskEnabled(s, t)
  }

  function Next(s: State, a: Action): State
    requires Enabled(s, a)
  {
    match a
    case Bridge(b) => BridgeNext(s, b)
    case Task(t) => TaskNext(s, t)
  }

  ghost predicate Run(states: seq<State>, acts: seq<Action>) {
    && |states| == |acts| + 1
    && Init(states[0])
    && forall i | 0 <= i < |acts| :: Enabled(states[i], acts[i]) && states[i + 1] == Next(states[i], acts[i])
  }
}
