/** The invariant of an endpoint's connections, step by step. */
module LifecycleProof {
  import opened Types
  import opened Sync
  import opened Lifecycle

  // -------------------------------------------------------------- connections

  ghost predicate Open(conns: map<ConnId, Cell>, c: ConnId) {
    c in conns && conns[c].closed.value == None
  }

  /** What the callback in progress has and has not done yet. */
  ghost predicate BridgeOk(s: State) {
    match s.bridge
    case Quiet => true
    case CreateDue(c) => c in s.live && c !in s.conns && |OpenSet(s.conns)| + 1 < TWO_64
    case Inserted(c) => Open(s.conns, c)
    case Counted(c) => Open(s.conns, c)
    case EstablishedStored(c) => Open(s.conns, c)
    case CloseDue(c, _) => Open(s.conns, c) && c !in s.live
    case ClosePublished(c) => c in s.conns && !Open(s.conns, c)
    case CloseWoken(c) => c in s.conns && !Open(s.conns, c)
    case Uncounted(c) => c in s.conns && !Open(s.conns, c)
    case MustNotify(c) => c in s.conns && !Open(s.conns, c) && s.openConnections == 0
  }

  /** Every connection of the engine is in conn_states, with its cell empty,
      except the one whose created callback has just begun. */
  ghost predicate LiveOk(s: State) {
    forall c | c in s.live :: Open(s.conns, c) || s.bridge == CreateDue(c)
  }

  ghost predicate CellsOk(conns: map<ConnId, Cell>) {
    forall c | c in conns :: conns[c].closed.value == None <==> conns[c].closed.version == 0
  }

  /** By how much the counter is off inside a callback. */
  function Lag(b: BridgePc): int {
    match b
    case Inserted(_) => -1
    case ClosePublished(_) => 1
    case CloseWoken(_) => 1
    case _ => 0
  }

  ghost predicate CountOk(s: State) {
    && |OpenSet(s.conns)| < TWO_64
    && s.openConnections == |OpenSet(s.conns)| + Lag(s.bridge)
  }

  ghost predicate ConnsOk(s: State) {
    BridgeOk(s) && LiveOk(s) && CellsOk(s.conns) && CountOk(s)
  }

  /** A step that leaves the close cells alone leaves the open set alone. */
  lemma SameOpenSet(a: map<ConnId, Cell>, b: map<ConnId, Cell>)
    requires a.Keys == b.Keys && forall c | c in a :: b[c].closed == a[c].closed
    ensures OpenSet(a) == OpenSet(b)
  {
  }

  lemma InsertCounts(s: State, c: ConnId)
    requires ConnsOk(s) && s.bridge == CreateDue(c)
    ensures ConnsOk(AdvanceBridge(s))
  {
    var s' := AdvanceBridge(s);
    assert OpenSet(s'.conns) == OpenSet(s.conns) + {c};
  }

  lemma PublishCounts(s: State, c: ConnId, err: ConnectionError)
    requires ConnsOk(s) && s.bridge == CloseDue(c, err)
    ensures ConnsOk(AdvanceBridge(s))
  {
    var s' := AdvanceBridge(s);
    assert OpenSet(s'.conns) == OpenSet(s.conns) - {c};
  }

  lemma WakeCounts(s: State, c: ConnId)
    requires ConnsOk(s) && s.bridge in {EstablishedStored(c), ClosePublished(c)}
    ensures ConnsOk(AdvanceBridge(s))
  {
    SameOpenSet(s.conns, AdvanceBridge(s).conns);
  }

  lemma OpenCounted(s: State, c: ConnId)
    requires ConnsOk(s) && Open(s.conns, c)
    ensures |OpenSet(s.conns)| >= 1
  {
    assert c in OpenSet(s.conns);
    assert OpenSet(s.conns) != {};
  }

  lemma AdvanceKeepsConns(s: State)
    requires ConnsOk(s) && s.bridge != Quiet
    ensures ConnsOk(AdvanceBridge(s))
  {
    match s.bridge
    case CreateDue(c) => InsertCounts(s, c);
    case Inserted(c) => OpenCounted(s, c);
    case EstablishedStored(c) => WakeCounts(s, c);
    case CloseDue(c, err) => PublishCounts(s, c, err);
    case ClosePublished(c) => WakeCounts(s, c);
    case _ =>
  }

  lemma BridgeKeepsConns(s: State, a: BridgeStep)
    requires ConnsOk(s) && BridgeEnabled(s, a)
    ensures ConnsOk(BridgeNext(s, a))
  {
    match a
    case Advance => AdvanceKeepsConns(s);
    case EngineEstablishes(c) => SameOpenSet(s.conns, BridgeNext(s, a).conns);
    case _ =>
  }

  /** Same cells up to the waker slots. */
  ghost predicate SameCells(a: map<ConnId, Cell>, b: map<ConnId, Cell>) {
    && a.Keys == b.Keys
    && forall c | c in a :: b[c] == a[c].(waker := b[c].waker)
  }

  /** Tasks touch nothing of a connection but its waker slot. */
  lemma TasksTouchWakersOnly(s: State, a: TaskStep)
    requires TaskEnabled(s, a)
    ensures var s' := TaskNext(s, a);
            && SameCells(s.conns, s'.conns)
            && s'.bridge == s.bridge && s'.live == s.live && s'.openConnections == s.openConnections
            && s'.created == s.created && s'.isServer == s.isServer
            && s'.endpointClosed == s.endpointClosed && s'.closing == s.closing
  {
    if a.StepFuture? {
      StepFutureTouchesWakersOnly(s, a.f);
    } else {
      assert TaskNext(s, a).conns == s.conns;
    }
  }

  lemma StepFutureTouchesWakersOnly(s: State, f: nat)
    requires f < |s.futures|
    ensures var s' := StepFutureOf(s, f);
            && SameCells(s.conns, s'.conns)
            && s' == s.(conns := s'.conns, futures := s'.futures)
  {
  }

  lemma ConnsStable(s: State, s': State)
    requires ConnsOk(s) && SameCells(s.conns, s'.conns)
    requires s'.bridge == s.bridge && s'.live == s.live && s'.openConnections == s.openConnections
    ensures ConnsOk(s')
  {
    SameOpenSet(s.conns, s'.conns);
  }

  lemma TaskKeepsConns(s: State, a: TaskStep)
    requires ConnsOk(s) && TaskEnabled(s, a)
    ensures ConnsOk(TaskNext(s, a))
  {
    TasksTouchWakersOnly(s, a);
    ConnsStable(s, TaskNext(s, a));
  }

  // ------------------------------------------------------- incoming connections

  ghost predicate Distinct(s: seq<ConnId>) {
    forall i, j | 0 <= i < j < |s| :: s[i] != s[j]
  }

  /** The connection created but not yet announced. */
  function Unannounced(b: BridgePc): seq<ConnId> {
    match b
    case Inserted(c) => [c]
    case Counted(c) => [c]
    case _ => []
  }

  ghost predicate IncomingOk(s: State) {
    && Distinct(s.created)
    && (forall c :: c in s.created <==> c in s.conns)
    && (if s.isServer then s.accepted + s.incoming + Unannounced(s.bridge) == s.created
        else s.accepted == [] && s.incoming == [])
  }

  lemma BridgeKeepsIncoming(s: State, a: BridgeStep)
    requires ConnsOk(s) && IncomingOk(s) && BridgeEnabled(s, a)
    ensures IncomingOk(BridgeNext(s, a))
  {
    if a == Advance {
      AdvanceKeepsIncoming(s);
    } else {
      assert BridgeNext(s, a).conns.Keys == s.conns.Keys;
      IncomingStable(s, BridgeNext(s, a));
    }
  }

  lemma AdvanceKeepsIncoming(s: State)
    requires ConnsOk(s) && IncomingOk(s) && s.bridge != Quiet
    ensures IncomingOk(AdvanceBridge(s))
  {
    var s' := AdvanceBridge(s);
    match s.bridge
    case CreateDue(c) => InsertKeepsIncoming(s, c);
    case Counted(c) => assert s.isServer ==> s.accepted + s.incoming + [c] == s.accepted + (s.incoming + [c]) + [];
    case _ =>
      AdvanceAnnouncesNothing(s);
      IncomingStable(s, s');
  }

  lemma AdvanceAnnouncesNothing(s: State)
    requires !s.bridge.CreateDue? && !s.bridge.Counted?
    ensures var s' := AdvanceBridge(s);
            && s'.conns.Keys == s.conns.Keys && s'.isServer == s.isServer
            && s'.created == s.created && s'.accepted == s.accepted && s'.incoming == s.incoming
            && Unannounced(s'.bridge) == Unannounced(s.bridge)
  {
    if s.bridge.CloseDue? && s.bridge.c in s.conns {
      var c := s.bridge.c;
      assert s.conns[c := s.conns[c].(closed := s.conns[c].closed.Send(Some(s.bridge.err)))].Keys == s.conns.Keys;
    }
  }

  lemma IncomingStable(s: State, s': State)
    requires IncomingOk(s) && s'.conns.Keys == s.conns.Keys && s'.isServer == s.isServer
    requires s'.created == s.created && s'.accepted == s.accepted && s'.incoming == s.incoming
    requires Unannounced(s'.bridge) == Unannounced(s.bridge)
    ensures IncomingOk(s')
  {
    assert forall c :: c in s'.conns <==> c in s.conns.Keys;
  }

  lemma InsertKeepsIncoming(s: State, c: ConnId)
    requires ConnsOk(s) && IncomingOk(s) && s.bridge == CreateDue(c)
    ensures IncomingOk(AdvanceBridge(s))
  {
    assert s.isServer ==> s.accepted + s.incoming + [] == s.created;
  }

  lemma TaskKeepsIncoming(s: State, a: TaskStep)
    requires IncomingOk(s) && TaskEnabled(s, a)
    ensures IncomingOk(TaskNext(s, a))
  {
    TasksTouchWakersOnly(s, a);
    if a.AcceptIncoming? {
      AcceptKeepsIncoming(s);
    } else {
      IncomingStable(s, TaskNext(s, a));
    }
  }

  lemma AcceptKeepsIncoming(s: State)
    requires IncomingOk(s) && TaskEnabled(s, AcceptIncoming)
    ensures IncomingOk(TaskNext(s, AcceptIncoming))
  {
    assert s.accepted + s.incoming == (s.accepted + [s.incoming[0]]) + s.incoming[1..];
  }

  // --------------------------------------------------------- Connecting futures

  predicate Registered(pc: FuturePc) {
    pc in {RecheckEstablished, RecheckClosed, Waiting}
  }

  predicate InPhase2(pc: FuturePc) {
    Registered(pc) || pc in {Lookup, CheckEstablished, CheckClosed, Register}
  }

  /** How a refused connect is reported. */
  predicate Refusal(e: ConnectError, err: ConnectionError) {
    match err
    case LocallyClosed => e == EndpointStopping
    case CidsExhausted => e == ConnectCidsExhausted
    case TransportError(code, text) =>
      && code == 0
      && (|| e == InvalidDnsName(text)
          || (e.InvalidRemoteAddress? && text == "invalid remote address: " + e.address)
          || (e == NoDefaultClientConfig && text == "no default client config"))
    case _ => false
  }

  /** Where the error of a finished attempt comes from: the close cell, the bridge's
      refusal to connect, or a dropped reply. */
  predicate ErrorGiven(x: Future, err: ConnectionError, conns: map<ConnId, Cell>) {
    match x.reply
    case None => x.target.Some? && x.target.value in conns && conns[x.target.value].closed.value == Some(err)
    case Some(None) => err == LocallyClosed
    case Some(Some(Err(e))) => Refusal(e, err)
    case Some(Some(Ok(_))) => false
  }

  /** One Connecting future against the shared cell of its connection. */
  ghost predicate FutureOk(f: nat, x: Future, conns: map<ConnId, Cell>, bridge: BridgePc) {
    && (x.target.Some? ==> x.reply == None)
    && (Claim(x).Some? ==> Claim(x).value in conns)
    && (InPhase2(x.pc) ==> x.target.Some?)
    && (Registered(x.pc) ==>
          x.woken || conns[x.target.value].waker == Some(Waker(f, x.polls)))
    && (x.pc in {RecheckClosed, Waiting} && conns[x.target.value].established ==>
          x.woken || bridge == EstablishedStored(x.target.value))
    && (x.pc == Waiting && conns[x.target.value].closed.value.Some? ==>
          x.woken || bridge == ClosePublished(x.target.value))
    && (x.pc.Finished? && x.pc.result.Ok? ==>
          x.target == Some(x.pc.result.value) && conns[x.pc.result.value].established)
    && (x.pc.Finished? && x.pc.fromCell ==>
          x.target.Some? && x.pc.result.Err? && conns[x.target.value].closed.value == Some(x.pc.result.error))
    && (x.pc.Finished? && x.pc.result.Err? ==>
          ErrorGiven(x, x.pc.result.error, conns) && (!x.pc.fromCell ==> x.reply.Some?))
  }

  ghost predicate ClaimsOk(futures: seq<Future>) {
    forall f, g | 0 <= f < g < |futures| && Claim(futures[f]).Some? :: Claim(futures[f]) != Claim(futures[g])
  }

  ghost predicate FuturesOk(s: State) {
    && ClaimsOk(s.futures)
    && (forall f | 0 <= f < |s.futures| :: FutureOk(f, s.futures[f], s.conns, s.bridge))
    && (s.isServer ==> forall f | 0 <= f < |s.futures| && Claim(s.futures[f]).Some? ::
        Claim(s.futures[f]).value in s.accepted)
  }

  /** Nothing a future relies on changes for the worse. */
  ghost predicate CellsAdvance(a: map<ConnId, Cell>, b: map<ConnId, Cell>) {
    && a.Keys <= b.Keys
    && forall c | c in a ::
         && b[c].waker == a[c].waker && b[c].established == a[c].established
         && b[c].closed == a[c].closed
  }

  lemma FutureStable(f: nat, x: Future, a: map<ConnId, Cell>, b: map<ConnId, Cell>, p: BridgePc, q: BridgePc)
    requires FutureOk(f, x, a, p) && CellsAdvance(a, b)
    requires p == q || (!p.EstablishedStored? && !p.ClosePublished?)
    ensures FutureOk(f, x, b, q)
  {
  }

  /** The store of the flag: every waiting future has its waker in the slot. */
  lemma StoreKeepsFuture(f: nat, x: Future, conns: map<ConnId, Cell>, c: ConnId)
    requires FutureOk(f, x, conns, Quiet) && c in conns
    ensures FutureOk(f, x, conns[c := conns[c].(established := true)], EstablishedStored(c))
  {
  }

  lemma PublishKeepsFuture(f: nat, x: Future, conns: map<ConnId, Cell>, c: ConnId, err: ConnectionError)
    requires FutureOk(f, x, conns, CloseDue(c, err)) && Open(conns, c)
    ensures FutureOk(f, x, conns[c := conns[c].(closed := conns[c].closed.Send(Some(err)))], ClosePublished(c))
  {
  }

  /** Taking the waker wakes the future that the slot promised to wake. */
  lemma TakeKeepsFutures(s: State, c: ConnId, q: BridgePc)
    requires FuturesOk(s) && s.bridge in {EstablishedStored(c), ClosePublished(c)} && c in s.conns
    requires !q.EstablishedStored? && !q.ClosePublished?
    ensures FuturesOk(TakeWaker(s, c).(bridge := q))
  {
    var s' := TakeWaker(s, c);
    forall f | 0 <= f < |s.futures|
      ensures FutureOk(f, s'.futures[f], s'.conns, q) && Claim(s'.futures[f]) == Claim(s.futures[f])
    {
      var x := s.futures[f];
      assert FutureOk(f, x, s.conns, s.bridge);
      assert s'.futures[f] == x.(woken := s'.futures[f].woken) && (x.woken ==> s'.futures[f].woken);
    }
  }

  lemma AllStable(s: State, s': State)
    requires FuturesOk(s) && CellsAdvance(s.conns, s'.conns)
    requires s'.futures == s.futures && s'.isServer == s.isServer && s.accepted <= s'.accepted
    requires s.bridge == s'.bridge || (!s.bridge.EstablishedStored? && !s.bridge.ClosePublished?)
    ensures FuturesOk(s')
  {
    forall f | 0 <= f < |s.futures|
      ensures FutureOk(f, s.futures[f], s'.conns, s'.bridge)
    {
      FutureStable(f, s.futures[f], s.conns, s'.conns, s.bridge, s'.bridge);
    }
  }

  lemma AdvanceKeepsFutures(s: State)
    requires ConnsOk(s) && FuturesOk(s) && s.bridge != Quiet
    ensures FuturesOk(AdvanceBridge(s))
  {
    var s' := AdvanceBridge(s);
    match s.bridge
    case EstablishedStored(c) => TakeKeepsFutures(s, c, Quiet);
    case ClosePublished(c) => TakeKeepsFutures(s, c, CloseWoken(c));
    case CloseDue(c, err) =>
      forall f | 0 <= f < |s.futures|
        ensures FutureOk(f, s.futures[f], s'.conns, s'.bridge)
      {
        PublishKeepsFuture(f, s.futures[f], s.conns, c, err);
      }
    case _ => AllStable(s, s');
  }

  lemma EstablishKeepsFutures(s: State, c: ConnId)
    requires ConnsOk(s) && FuturesOk(s) && BridgeEnabled(s, EngineEstablishes(c))
    ensures FuturesOk(BridgeNext(s, EngineEstablishes(c)))
  {
    var s' := BridgeNext(s, EngineEstablishes(c));
    forall f | 0 <= f < |s.futures|
      ensures FutureOk(f, s.futures[f], s'.conns, s'.bridge)
    {
      StoreKeepsFuture(f, s.futures[f], s.conns, c);
    }
  }

  lemma ReplyKeepsFutures(s: State, f: nat, reply: Option<Result<ConnId, ConnectError>>)
    requires FuturesOk(s) && BridgeEnabled(s, ReplyConnect(f, reply))
    ensures FuturesOk(BridgeNext(s, ReplyConnect(f, reply)))
  {
    var s' := BridgeNext(s, ReplyConnect(f, reply));
    assert FutureOk(f, s.futures[f], s.conns, s.bridge);
    assert forall g | 0 <= g < |s.futures| && g != f :: s'.futures[g] == s.futures[g];
  }

  lemma BridgeKeepsFutures(s: State, a: BridgeStep)
    requires ConnsOk(s) && FuturesOk(s) && BridgeEnabled(s, a)
    ensures FuturesOk(BridgeNext(s, a))
  {
    match a
    case Advance => AdvanceKeepsFutures(s);
    case EngineEstablishes(c) => EstablishKeepsFutures(s, c);
    case ReplyConnect(f, reply) => ReplyKeepsFutures(s, f, reply);
    case _ => AllStable(s, BridgeNext(s, a));
  }

  // The tasks.

  /** One future moves, possibly writing its own waker slot. */
  lemma OneFutureMoves(s: State, f: nat, x': Future, conns': map<ConnId, Cell>)
    requires FuturesOk(s) && f < |s.futures| && SameCells(s.conns, conns')
    requires Claim(x') == Claim(s.futures[f])
    requires forall c | c in s.conns && Claim(s.futures[f]) != Some(c) :: conns'[c].waker == s.conns[c].waker
    requires FutureOk(f, x', conns', s.bridge)
    ensures FuturesOk(s.(futures := s.futures[f := x'], conns := conns'))
  {
    forall g | 0 <= g < |s.futures| && g != f
      ensures FutureOk(g, s.futures[g], conns', s.bridge)
    {
      var y := s.futures[g];
      assert FutureOk(g, y, s.conns, s.bridge);
      if y.target.Some? {
        assert Claim(y) == y.target && Claim(s.futures[f]) != y.target;
      }
    }
  }

  /** A look at the cell that takes the branch the cell shows. */
  lemma LookKeepsFuture(f: nat, x: Future, conns: map<ConnId, Cell>, bridge: BridgePc)
    requires FutureOk(f, x, conns, bridge) && InPhase2(x.pc) && x.pc != Waiting && x.pc != Register
    ensures FutureOk(f, PollPhase2(x, conns), conns, bridge) && Claim(PollPhase2(x, conns)) == Claim(x)
  {
  }

  lemma RegisterKeepsFuture(f: nat, x: Future, conns: map<ConnId, Cell>, bridge: BridgePc)
    requires FutureOk(f, x, conns, bridge) && x.pc == Register
    ensures x.target.Some? && x.target.value in conns
    ensures var c := x.target.value;
            FutureOk(f, x.(pc := RecheckEstablished), conns[c := conns[c].(waker := Some(Waker(f, x.polls)))], bridge)
  {
  }

  lemma StepKeepsFuture(s: State, f: nat)
    requires FuturesOk(s) && TaskEnabled(s, StepFuture(f))
    ensures var s' := StepFutureOf(s, f); FutureOk(f, s'.futures[f], s'.conns, s.bridge)
    ensures var s' := StepFutureOf(s, f); Claim(s'.futures[f]) == Claim(s.futures[f])
  {
    assert FutureOk(f, s.futures[f], s.conns, s.bridge);
    if s.futures[f].pc == Register {
      RegisterKeepsFuture(f, s.futures[f], s.conns, s.bridge);
    } else {
      LookKeepsFuture(f, s.futures[f], s.conns, s.bridge);
    }
  }

  lemma PollKeepsFuture(f: nat, x: Future, conns: map<ConnId, Cell>, bridge: BridgePc)
    requires FutureOk(f, x, conns, bridge)
    ensures FutureOk(f, PollPhase1(x), conns, bridge) && Claim(PollPhase1(x)) == Claim(x)
  {
  }

  lemma StartPollKeepsFutures(s: State, f: nat)
    requires FuturesOk(s) && f < |s.futures|
    ensures FuturesOk(s.(futures := s.futures[f := PollPhase1(s.futures[f])]))
  {
    PollKeepsFuture(f, s.futures[f], s.conns, s.bridge);
    OneFutureMoves(s, f, PollPhase1(s.futures[f]), s.conns);
    assert s.(futures := s.futures[f := PollPhase1(s.futures[f])], conns := s.conns)
        == s.(futures := s.futures[f := PollPhase1(s.futures[f])]);
  }

  lemma StepKeepsFutures(s: State, f: nat)
    requires FuturesOk(s) && TaskEnabled(s, StepFuture(f))
    ensures FuturesOk(StepFutureOf(s, f))
  {
    var s' := StepFutureOf(s, f);
    StepKeepsFuture(s, f);
    StepFutureTouchesWakersOnly(s, f);
    OneFutureMoves(s, f, s'.futures[f], s'.conns);
  }

  lemma TaskKeepsFutures(s: State, a: TaskStep)
    requires IncomingOk(s) && FuturesOk(s) && TaskEnabled(s, a)
    ensures FuturesOk(TaskNext(s, a))
  {
    match a
    case StartPoll(f) => StartPollKeepsFutures(s, f);
    case StepFuture(f) => StepKeepsFutures(s, f);
    case AcceptIncoming => AcceptKeepsFutures(s);
    case CallConnect =>
      AllStable(s, s.(admitted := s.admitted - 1));
      NewFuture(s.(admitted := s.admitted - 1), Future(None, None, Unpolled, 0, false));
    case _ =>
      assert TaskNext(s, a).futures == s.futures && TaskNext(s, a).conns == s.conns;
      AllStable(s, TaskNext(s, a));
  }

  lemma NewFuture(s: State, x: Future)
    requires FuturesOk(s) && FutureOk(|s.futures|, x, s.conns, s.bridge)
    requires Claim(x).Some? ==> forall f | 0 <= f < |s.futures| :: Claim(s.futures[f]) != Claim(x)
    requires Claim(x).Some? && s.isServer ==> Claim(x).value in s.accepted
    ensures FuturesOk(s.(futures := s.futures + [x]))
  {
  }

  lemma AcceptKeepsFutures(s: State)
    requires IncomingOk(s) && FuturesOk(s) && TaskEnabled(s, AcceptIncoming)
    ensures FuturesOk(TaskNext(s, AcceptIncoming))
  {
    var c := s.incoming[0];
    var t := s.(admitted := s.admitted - 1, incoming := s.incoming[1..], accepted := s.accepted + [c]);
    AllStable(s, t);
    var all := s.accepted + s.incoming + Unannounced(s.bridge);
    assert all[|s.accepted|] == c && forall k | 0 <= k < |s.accepted| :: all[k] == s.accepted[k];
    assert c !in s.accepted && c in s.created;
    NewFuture(t, Future(Some(c), None, Unpolled, 0, false));
  }

  // ------------------------------------------------------------------ wait_idle

  /** The bridge has brought the counter down and has not notified yet. */
  predicate NotifyPending(b: BridgePc) {
    b.Uncounted? || b.MustNotify?
  }

  /** Committed to sleeping until a notification arrives. */
  predicate Committed(i: nat, x: Idler, n: Notify) {
    x.pc == Create || ((x.pc == PollIt || x.pc == Asleep) && i !in n.woken)
  }

  ghost predicate IdlerOk(i: nat, x: Idler, n: Notify, open: U64, bridge: BridgePc) {
    && (x.pc == PollIt ==> i in n.armed || i in n.woken)
    && (x.pc == Asleep ==> i in n.waiters || i in n.woken)
    && (x.pc !in {PollIt, Asleep} ==> i !in n.woken)
    && (x.pc != PollIt ==> i !in n.armed)
    && (x.pc != Asleep ==> i !in n.waiters)
    && (Committed(i, x, n) && open == 0 ==> x.missed || NotifyPending(bridge))
    && (i in n.armed || i in n.waiters ==> i !in n.woken)
    && (x.missed ==> open == 0 && Committed(i, x, n) && !NotifyPending(bridge))
  }

  ghost predicate NotifyOk(n: Notify, size: nat) {
    && !n.permit
    && (forall t | t in n.armed || t in n.waiters || t in n.woken :: t < size)
  }

  ghost predicate IdleOk(s: State) {
    && NotifyOk(s.idle, |s.idlers|)
    && forall i | 0 <= i < |s.idlers| :: IdlerOk(i, s.idlers[i], s.idle, s.openConnections, s.bridge)
  }

  lemma UncountKeepsIdle(s: State)
    requires ConnsOk(s) && IdleOk(s) && s.bridge.CloseWoken?
    ensures IdleOk(AdvanceBridge(s))
  {
    assert s.openConnections >= 1;
  }

  lemma NotifyKeepsIdle(s: State)
    requires ConnsOk(s) && IdleOk(s) && s.bridge.MustNotify?
    ensures IdleOk(AdvanceBridge(s))
  {
    var s' := AdvanceBridge(s);
    forall i | 0 <= i < |s.idlers|
      ensures IdlerOk(i, s'.idlers[i], s'.idle, s'.openConnections, s'.bridge)
    {
      assert IdlerOk(i, s.idlers[i], s.idle, s.openConnections, s.bridge);
    }
  }

  lemma CountKeepsIdle(s: State)
    requires ConnsOk(s) && IdleOk(s) && s.bridge.Inserted?
    ensures IdleOk(AdvanceBridge(s))
  {
    OpenCounted(s, s.bridge.c);
    assert s.openConnections + 1 < TWO_64;
    assert WrapAdd(s.openConnections) != 0;
  }

  lemma BridgeKeepsIdle(s: State, a: BridgeStep)
    requires ConnsOk(s) && IdleOk(s) && BridgeEnabled(s, a)
    ensures IdleOk(BridgeNext(s, a))
  {
    if a == Advance && s.bridge.CloseWoken? {
      UncountKeepsIdle(s);
    } else if a == Advance && s.bridge.MustNotify? {
      NotifyKeepsIdle(s);
    } else if a == Advance && s.bridge.Inserted? {
      CountKeepsIdle(s);
    } else {
      OthersLeaveIdle(s, a);
      IdleStable(s, BridgeNext(s, a));
    }
  }

  lemma OthersLeaveIdle(s: State, a: BridgeStep)
    requires BridgeEnabled(s, a)
    requires a == Advance ==> !s.bridge.CloseWoken? && !s.bridge.MustNotify? && !s.bridge.Inserted?
    ensures var s' := BridgeNext(s, a);
            && s'.idle == s.idle && s'.idlers == s.idlers && s'.openConnections == s.openConnections
            && (s.openConnections == 0 ==> (NotifyPending(s.bridge) <==> NotifyPending(s'.bridge)))
  {
    if a == Advance {
      OtherAccessesLeaveIdle(s);
    }
  }

  lemma OtherAccessesLeaveIdle(s: State)
    requires !s.bridge.CloseWoken? && !s.bridge.MustNotify? && !s.bridge.Inserted?
    ensures var s' := AdvanceBridge(s);
            && s'.idle == s.idle && s'.idlers == s.idlers && s'.openConnections == s.openConnections
            && (s.openConnections == 0 ==> (NotifyPending(s.bridge) <==> NotifyPending(s'.bridge)))
  {
  }

  lemma IdleStable(s: State, s': State)
    requires IdleOk(s)
    requires s'.idle == s.idle && s'.idlers == s.idlers && s'.openConnections == s.openConnections
    requires s.openConnections == 0 ==> (NotifyPending(s.bridge) <==> NotifyPending(s'.bridge))
    ensures IdleOk(s')
  {
    forall i | 0 <= i < |s.idlers|
      ensures IdlerOk(i, s'.idlers[i], s'.idle, s'.openConnections, s'.bridge)
    {
      assert IdlerOk(i, s.idlers[i], s.idle, s.openConnections, s.bridge);
    }
  }

  /** One task moves; the Notify changes for that task only. */
  ghost predicate OnlyFor(i: nat, n: Notify, m: Notify) {
    && m.permit == n.permit
    && (forall t | t != i ::
        (t in m.armed <==> t in n.armed) && (t in m.waiters <==> t in n.waiters) && (t in m.woken <==> t in n.woken))
  }

  lemma OneIdlerMoves(s: State, i: nat, x: Idler, m: Notify)
    requires IdleOk(s) && i < |s.idlers| && OnlyFor(i, s.idle, m)
    requires IdlerOk(i, x, m, s.openConnections, s.bridge)
    ensures IdleOk(s.(idle := m, idlers := s.idlers[i := x]))
  {
    var s' := s.(idle := m, idlers := s.idlers[i := x]);
    forall j | 0 <= j < |s.idlers|
      ensures IdlerOk(j, s'.idlers[j], m, s.openConnections, s.bridge)
    {
      assert IdlerOk(j, s.idlers[j], s.idle, s.openConnections, s.bridge);
    }
  }

  lemma StepKeepsIdle(s: State, i: nat)
    requires IdleOk(s) && TaskEnabled(s, StepIdle(i))
    ensures IdleOk(StepIdleOf(s, i))
  {
    var s' := StepIdleOf(s, i);
    assert IdlerOk(i, s.idlers[i], s.idle, s.openConnections, s.bridge);
    assert s' == s.(idle := s'.idle, idlers := s.idlers[i := s'.idlers[i]]);
    StepMovesOneIdler(s, i);
    OneIdlerMoves(s, i, s'.idlers[i], s'.idle);
  }

  lemma StepMovesOneIdler(s: State, i: nat)
    requires IdleOk(s) && TaskEnabled(s, StepIdle(i))
    ensures OnlyFor(i, s.idle, StepIdleOf(s, i).idle)
    ensures IdlerOk(i, StepIdleOf(s, i).idlers[i], StepIdleOf(s, i).idle, s.openConnections, s.bridge)
  {
    assert IdlerOk(i, s.idlers[i], s.idle, s.openConnections, s.bridge);
  }

  lemma TaskKeepsIdle(s: State, a: TaskStep)
    requires IdleOk(s) && TaskEnabled(s, a)
    ensures IdleOk(TaskNext(s, a))
  {
    match a
    case StepIdle(i) => StepKeepsIdle(s, i);
    case CallIdle => CallKeepsIdle(s);
    case _ => IdleStable(s, TaskNext(s, a));
  }

  lemma CallKeepsIdle(s: State)
    requires IdleOk(s)
    ensures IdleOk(s.(idlers := s.idlers + [Idler(FirstLoad, false)]))
  {
    var s' := s.(idlers := s.idlers + [Idler(FirstLoad, false)]);
    forall j | 0 <= j < |s.idlers|
      ensures IdlerOk(j, s'.idlers[j], s.idle, s.openConnections, s.bridge)
    {
      assert IdlerOk(j, s.idlers[j], s.idle, s.openConnections, s.bridge);
    }
  }

  // -------------------------------------------------------------------- closed()

  ghost predicate WatcherOk(w: Watcher, conns: map<ConnId, Cell>) {
    && w.c in conns
    && (w.pc == AwaitChange ==> w.seen == 0)
    && (w.pc == Look && w.seen != 0 ==> conns[w.c].closed.value.Some?)
    && (w.pc.Told? ==> conns[w.c].closed.value == Some(w.pc.err))
  }

  ghost predicate WatchersOk(s: State) {
    forall i | 0 <= i < |s.watchers| :: WatcherOk(s.watchers[i], s.conns)
  }

  /** A published reason stays. */
  ghost predicate CloseStays(a: map<ConnId, Cell>, b: map<ConnId, Cell>) {
    && a.Keys <= b.Keys
    && forall c | c in a ::
         && (a[c].closed.value.Some? ==> b[c].closed == a[c].closed)
         && (a[c].established ==> b[c].established)
  }

  lemma BridgeKeepsCells(s: State, a: BridgeStep)
    requires ConnsOk(s) && BridgeEnabled(s, a)
    ensures CloseStays(s.conns, BridgeNext(s, a).conns)
    ensures BridgeNext(s, a).watchers == s.watchers
  {
    if a == Advance {
      AdvanceKeepsCells(s);
    }
  }

  lemma AdvanceKeepsCells(s: State)
    requires BridgeOk(s)
    ensures CloseStays(s.conns, AdvanceBridge(s).conns)
  {
    if !s.bridge.CreateDue? && !s.bridge.EstablishedStored? && !s.bridge.CloseDue? && !s.bridge.ClosePublished? {
      assert AdvanceBridge(s).conns == s.conns;
    }
  }

  lemma WatchersStable(s: State, s': State)
    requires WatchersOk(s) && CloseStays(s.conns, s'.conns) && s'.watchers == s.watchers
    ensures WatchersOk(s')
  {
  }

  lemma StepKeepsWatchers(s: State, i: nat)
    requires CellsOk(s.conns) && WatchersOk(s) && TaskEnabled(s, StepWatcher(i))
    ensures WatchersOk(StepWatcherOf(s, i))
  {
    assert WatcherOk(s.watchers[i], s.conns);
  }

  lemma TaskKeepsWatchers(s: State, a: TaskStep)
    requires CellsOk(s.conns) && WatchersOk(s) && TaskEnabled(s, a)
    ensures WatchersOk(TaskNext(s, a))
  {
    match a
    case StepWatcher(i) => StepKeepsWatchers(s, i);
    case CallClosed(c) =>
    case _ =>
      TasksTouchWakersOnly(s, a);
      WatchersStable(s, TaskNext(s, a));
  }

  // ------------------------------------------------------------------- the whole

  ghost predicate Inv(s: State) {
    ConnsOk(s) && IncomingOk(s) && FuturesOk(s) && IdleOk(s) && WatchersOk(s)
  }

  lemma StepKeeps(s: State, a: Action)
    requires Inv(s) && Enabled(s, a)
    ensures Inv(Next(s, a))
  {
    match a
    case Bridge(b) =>
      BridgeKeepsConns(s, b);
      BridgeKeepsIncoming(s, b);
      BridgeKeepsFutures(s, b);
      BridgeKeepsIdle(s, b);
      BridgeKeepsCells(s, b);
      WatchersStable(s, BridgeNext(s, b));
    case Task(t) =>
      TaskKeepsConns(s, t);
      TaskKeepsIncoming(s, t);
      TaskKeepsFutures(s, t);
      TaskKeepsIdle(s, t);
      TaskKeepsWatchers(s, t);
  }

  lemma {:induction false} RunKeeps(states: seq<State>, acts: seq<Action>, i: nat)
    requires Run(states, acts) && i < |states|
    ensures Inv(states[i])
  {
    if i == 0 {
      assert OpenSet(states[0].conns) == {};
    } else {
      RunKeeps(states, acts, i - 1);
      StepKeeps(states[i - 1], acts[i - 1]);
    }
  }
}
