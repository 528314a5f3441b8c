/** What holds along every run of one connection's streams. */
module StreamsTheorems {
  import opened Types
  import opened Sync
  import opened StreamIds
  import opened Streams
  import opened StreamsProof
  import opened Traces

  /** Nothing is lost, duplicated or reordered between the stream-created callback
      and the accept callers, whoever is cancelled and whichever branch of the
      select wins; two callers never get the same stream. */
  lemma AcceptConserves(states: seq<State>, acts: seq<Action>, n: nat, d: Dir)
    requires Run(states, acts) && n < |states|
    ensures var s := states[n];
            && Chan(s, d).delivered + Chan(s, d).queue == PeerStreams(s.isServer, d, s.created)
            && Distinct(Chan(s, d).delivered + Chan(s, d).queue)
            && (forall i, j, id | 0 <= i < j < |s.callers| && Won(s.callers[i], id) :: !Won(s.callers[j], id))
            && (forall i, id | 0 <= i < |s.callers| && s.callers[i].dir == d && Won(s.callers[i], id) ::
                id in Chan(s, d).delivered)
  {
    RunKeeps(states, acts, n);
    PeerStreamsAre(states[n].isServer, d, states[n].created);
  }

  /** At most one SendStream and one RecvStream is ever built per stream. */
  lemma OneHandlePerHalf(states: seq<State>, acts: seq<Action>, n: nat)
    requires Run(states, acts) && n < |states|
    ensures Distinct(states[n].sends) && Distinct(states[n].recvs)
  {
    RunKeeps(states, acts, n);
  }

  predicate Opens(o: Opener, id: StreamId) {
    o.pc.Opened? && o.pc.result == Ok(id)
  }

  predicate HandleOf(o: Opener, sends: seq<StreamId>, recvs: seq<StreamId>) {
    match o.pc
    case Opened(Ok(id), _) => id in sends && (o.dir == Bi ==> id in recvs)
    case _ => true
  }

  ghost predicate Served(s: State) {
    && (forall id | id in s.bi.delivered :: id in s.sends && id in s.recvs)
    && (forall id | id in s.uni.delivered :: id in s.recvs)
    && (forall k | 0 <= k < |s.openers| :: HandleOf(s.openers[k], s.sends, s.recvs))
  }

  lemma AcceptServes(s: State, i: Task, preferStream: bool)
    requires Served(s) && AcceptEnabled(s, i)
    ensures Served(StepOf(s, i, preferStream))
  {
    var s' := StepOf(s, i, preferStream);
    assert s'.openers == s.openers && s.sends <= s'.sends && s.recvs <= s'.recvs;
  }

  lemma PollServes(s: State, k: nat)
    requires Served(s) && Enabled(s, PollOpen(k))
    ensures Served(PollOf(s, k))
  {
    var s' := PollOf(s, k);
    assert s.sends <= s'.sends && s.recvs <= s'.recvs;
  }

  lemma StepServes(s: State, a: Action)
    requires Served(s) && Enabled(s, a)
    ensures Served(Next(s, a))
  {
    match a
    case StepAccept(i, preferStream) => AcceptServes(s, i, preferStream);
    case PollOpen(k) => PollServes(s, k);
    case _ =>
  }

  lemma {:induction false} RunServes(states: seq<State>, acts: seq<Action>, n: nat)
    requires Run(states, acts) && n < |states|
    ensures Served(states[n])
  {
    if n > 0 {
      RunServes(states, acts, n - 1);
      StepServes(states[n - 1], acts[n - 1]);
    }
  }

  /** A stream of the peer has its handles exactly if it has been delivered: both
      for a bidirectional one, only the receiving half for the other kind. A
      stream opened here has them once the open future has resolved with it. */
  lemma DeliveredMeansHandled(states: seq<State>, acts: seq<Action>, n: nat, id: StreamId)
    requires Run(states, acts) && n < |states|
    ensures PeerInitiated(states[n].isServer, id) ==>
              && (id in states[n].sends <==> id in states[n].bi.delivered)
              && (id in states[n].recvs <==> id in states[n].bi.delivered || id in states[n].uni.delivered)
    ensures forall k | 0 <= k < |states[n].openers| && Opens(states[n].openers[k], id) ::
              id in states[n].sends && (states[n].openers[k].dir == Bi ==> id in states[n].recvs)
  {
    RunKeeps(states, acts, n);
    RunServes(states, acts, n);
    forall k | 0 <= k < |states[n].openers| && Opens(states[n].openers[k], id)
      ensures id in states[n].sends && (states[n].openers[k].dir == Bi ==> id in states[n].recvs)
    {
      assert HandleOf(states[n].openers[k], states[n].sends, states[n].recvs);
    }
  }

  /** Handles exist only for directions this side may use, and only the peer's
      streams are ever queued for accepting, by the classification of section
      2.1 of RFC 9000. */
  lemma HandlesAreLegal(states: seq<State>, acts: seq<Action>, n: nat, id: StreamId)
    requires Run(states, acts) && n < |states|
    ensures id in states[n].sends ==> MaySend(SideOf(states[n].isServer), id)
    ensures id in states[n].recvs ==> MayReceive(SideOf(states[n].isServer), id)
    ensures id in states[n].bi.queue ==> TypeOf(id).initiator != SideOf(states[n].isServer) && TypeOf(id).dir == Bi
    ensures id in states[n].uni.queue ==> TypeOf(id).initiator != SideOf(states[n].isServer) && TypeOf(id).dir == Uni
  {
    RunKeeps(states, acts, n);
    var s := states[n];
    BitTestsAgree(s.isServer, id);
    QueuedMatches(s, Bi);
    QueuedMatches(s, Uni);
  }

  lemma QueuedMatches(s: State, d: Dir)
    requires Streamed(s)
    ensures forall id | id in Chan(s, d).queue || id in Chan(s, d).delivered :: Matches(s.isServer, d, id)
  {
    PeerStreamsAre(s.isServer, d, s.created);
    forall id | id in Chan(s, d).queue || id in Chan(s, d).delivered
      ensures Matches(s.isServer, d, id)
    {
      assert id in Chan(s, d).delivered + Chan(s, d).queue;
    }
  }

  // -------------------------------------------------------------- the close cell

  ghost predicate CloseKept(s: State, t: State) {
    s.closed.value.Some? ==> t.closed == s.closed
  }

  lemma StepKeepsClosed(s: State, a: Action)
    requires Enabled(s, a)
    ensures CloseKept(s, Next(s, a))
  {
    match a
    case StepAccept(i, preferStream) => StepLeavesTheRest(s, i, preferStream);
    case _ =>
  }

  lemma {:induction false} ClosedAlong(states: seq<State>, m: nat, n: nat)
    requires forall k | 0 < k < |states| :: CloseKept(states[k - 1], states[k])
    requires m <= n < |states|
    ensures CloseKept(states[m], states[n])
    decreases n - m
  {
    if m < n {
      ClosedAlong(states, m, n - 1);
      assert CloseKept(states[n - 1], states[n]);
    }
  }

  /** The close cell is written once. */
  lemma ClosedStays(states: seq<State>, acts: seq<Action>, m: nat, n: nat)
    requires Run(states, acts) && m <= n < |states|
    ensures CloseKept(states[m], states[n])
  {
    forall k | 0 < k < |states| ensures CloseKept(states[k - 1], states[k]) {
      StepKeepsClosed(states[k - 1], acts[k - 1]);
    }
    ClosedAlong(states, m, n);
  }

  /** Somebody was given `err` as the content of the close cell: an accept caller,
      or an open future that had not sent its command yet. */
  ghost predicate ToldClosed(s: State, err: ConnectionError) {
    || (exists i :: 0 <= i < |s.callers| && s.callers[i].pc == Resolved(Err(err)))
    || (exists k :: 0 <= k < |s.openers| && s.openers[k].pc == Opened(Err(err), true))
  }

  /** Whoever is told that the connection is closed, by whichever call and at
      whichever moments of a run, is told the same reason, the published one. */
  lemma CloseErrorsAgree(states: seq<State>, acts: seq<Action>, m: nat, n: nat, e: ConnectionError, f: ConnectionError)
    requires Run(states, acts) && m <= n < |states|
    requires ToldClosed(states[m], e) && ToldClosed(states[n], f)
    ensures e == f && states[m].closed.value == states[n].closed.value == Some(e)
  {
    RunKeeps(states, acts, m);
    RunKeeps(states, acts, n);
    ToldIsPublished(states[m], e);
    ToldIsPublished(states[n], f);
    ClosedStays(states, acts, m, n);
  }

  lemma ToldIsPublished(s: State, err: ConnectionError)
    requires CloseInv(s) && ToldClosed(s, err)
    ensures s.closed.value == Some(err)
  {
    if i :| 0 <= i < |s.callers| && s.callers[i].pc == Resolved(Err(err)) {
      assert CallerSees(s.callers[i].pc, s.closed);
    } else if k :| 0 <= k < |s.openers| && s.openers[k].pc == Opened(Err(err), true) {
      assert OpenerSees(s.openers[k].pc, s.closed);
    }
  }

  // ----------------------------------------------------- where open results are from

  /** What an open future makes of the reply; None is a dropped reply. */
  function Taken(answer: Option<Result<StreamId, ConnectionError>>): Result<StreamId, ConnectionError> {
    if answer.Some? then answer.value else Err(LocallyClosed)
  }

  /** The bridge has answered the command of future k with `result`. */
  ghost predicate Answered(past: seq<Action>, k: nat, result: Result<StreamId, ConnectionError>) {
    exists answer :: ProcessOpen(k, answer) in past && Taken(answer) == result
  }

  ghost predicate Traced(o: Opener, k: nat, past: seq<Action>) {
    match o.pc
    case Replied(answer) => ProcessOpen(k, answer) in past
    case Opened(result, fromCell) => fromCell || Answered(past, k, result)
    case _ => true
  }

  ghost predicate AllTraced(openers: seq<Opener>, past: seq<Action>) {
    forall k | 0 <= k < |openers| :: Traced(openers[k], k, past)
  }

  lemma TracedLater(o: Opener, k: nat, past: seq<Action>, a: Action)
    requires Traced(o, k, past)
    ensures Traced(o, k, past + [a])
  {
    if o.pc.Opened? && !o.pc.fromCell {
      var answer :| ProcessOpen(k, answer) in past && Taken(answer) == o.pc.result;
      assert ProcessOpen(k, answer) in past + [a];
    }
  }

  lemma OneOpenerMoves(openers: seq<Opener>, k: nat, pc: OpenPc, past: seq<Action>, a: Action)
    requires AllTraced(openers, past) && k < |openers|
    requires Traced(openers[k].(pc := pc), k, past + [a])
    ensures AllTraced(openers[k := openers[k].(pc := pc)], past + [a])
  {
    forall j | 0 <= j < |openers| && j != k ensures Traced(openers[j], j, past + [a]) {
      TracedLater(openers[j], j, past, a);
    }
  }

  lemma NoOpenerMoves(openers: seq<Opener>, past: seq<Action>, a: Action)
    requires AllTraced(openers, past)
    ensures AllTraced(openers, past + [a])
  {
    forall j | 0 <= j < |openers| ensures Traced(openers[j], j, past + [a]) {
      TracedLater(openers[j], j, past, a);
    }
  }

  lemma PollTraces(s: State, k: nat, past: seq<Action>)
    requires AllTraced(s.openers, past) && Enabled(s, PollOpen(k))
    ensures AllTraced(PollOf(s, k).openers, past + [PollOpen(k)])
  {
    var pc, pc' := s.openers[k].pc, PollOf(s, k).openers[k].pc;
    assert Traced(s.openers[k], k, past);
    if pc.Replied? {
      assert ProcessOpen(k, pc.reply) in past + [PollOpen(k)] && Taken(pc.reply) == pc'.result;
    }
    OneOpenerMoves(s.openers, k, pc', past, PollOpen(k));
  }

  lemma ProcessTraces(s: State, k: nat, answer: Option<Result<StreamId, ConnectionError>>, past: seq<Action>)
    requires AllTraced(s.openers, past) && Enabled(s, ProcessOpen(k, answer))
    ensures AllTraced(Next(s, ProcessOpen(k, answer)).openers, past + [ProcessOpen(k, answer)])
  {
    var a := ProcessOpen(k, answer);
    assert a in past + [a];
    OneOpenerMoves(s.openers, k, Next(s, a).openers[k].pc, past, a);
  }

  lemma StepTraces(s: State, a: Action, past: seq<Action>)
    requires AllTraced(s.openers, past) && Enabled(s, a)
    ensures AllTraced(Next(s, a).openers, past + [a])
  {
    NoOpenerMoves(s.openers, past, a);
    match a
    case PollOpen(k) => PollTraces(s, k, past);
    case ProcessOpen(k, answer) => ProcessTraces(s, k, answer, past);
    case DropOpen(k) => OneOpenerMoves(s.openers, k, Abandoned(s.openers[k].pc.Sent?), past, a);
    case StepAccept(i, preferStream) => StepLeavesTheRest(s, i, preferStream);
    case _ =>
  }

  lemma {:induction false} RunTraces(states: seq<State>, acts: seq<Action>, n: nat)
    requires Run(states, acts) && n < |states|
    ensures AllTraced(states[n].openers, acts[..n])
  {
    if n > 0 {
      RunTraces(states, acts, n - 1);
      StepTraces(states[n - 1], acts[n - 1], acts[..n - 1]);
      assert acts[..n] == acts[..n - 1] + [acts[n - 1]];
    }
  }

  /** An open future resolves with the published close reason, read before its
      command was sent, or with what the bridge answered to that very command. */
  lemma OpenResultsAreTrue(states: seq<State>, acts: seq<Action>, n: nat, k: nat)
    requires Run(states, acts) && n < |states| && k < |states[n].openers| && states[n].openers[k].pc.Opened?
    ensures var pc := states[n].openers[k].pc;
            if pc.fromCell then pc.result.Err? && states[n].closed.value == Some(pc.result.error)
            else Answered(acts[..n], k, pc.result)
  {
    RunKeeps(states, acts, n);
    RunTraces(states, acts, n);
    assert Traced(states[n].openers[k], k, acts[..n]);
  }

  /** How far an open future's command has come: not sent, waiting in the queue,
      processed. */
  function Progress(pc: OpenPc): nat {
    match pc
    case Unsent => 0
    case Sent => 1
    case Replied(_) => 2
    case Opened(_, _) => 2
    case Abandoned(inQueue) => if inQueue then 1 else 2
  }

  /** Step `a` sends the command of future k, or processes it. */
  predicate SendsOpen(s: State, a: Action, k: nat) {
    a == PollOpen(k) && k < |s.openers| && s.openers[k].pc == Unsent && s.closed.value == None
  }

  predicate ProcessesOpen(a: Action, k: nat) {
    a.ProcessOpen? && a.k == k
  }

  predicate OpenAt(s: State, k: nat, least: nat) {
    k < |s.openers| && Progress(s.openers[k].pc) >= least
  }

  /** What a step does to the progress of future k. */
  ghost predicate OpenMoves(s: State, a: Action, t: State, k: nat) {
    && (OpenAt(s, k, 0) ==> OpenAt(t, k, Progress(s.openers[k].pc)))
    && (SendsOpen(s, a, k) ==> OpenAt(t, k, 1))
    && (ProcessesOpen(a, k) ==> OpenAt(s, k, 1) && !OpenAt(s, k, 2) && OpenAt(t, k, 2))
  }

  lemma StepMovesOpen(s: State, a: Action, k: nat)
    requires Enabled(s, a)
    ensures OpenMoves(s, a, Next(s, a), k)
  {
    match a
    case StepAccept(i, preferStream) => StepLeavesTheRest(s, i, preferStream);
    case DropAccept(i) => assert DropOf(s, i).openers == s.openers;
    case PollOpen(m) => PollMovesOpen(s, m, k);
    case _ =>
  }

  lemma PollMovesOpen(s: State, m: nat, k: nat)
    requires Enabled(s, PollOpen(m))
    ensures OpenMoves(s, PollOpen(m), PollOf(s, m), k)
  {
    assert k < |s.openers| && k != m ==> PollOf(s, m).openers[k] == s.openers[k];
  }

  lemma {:induction false} OpenAlong(states: seq<State>, acts: seq<Action>, k: nat, m: nat, n: nat, least: nat)
    requires |states| == |acts| + 1 && m <= n < |states| && OpenAt(states[m], k, least)
    requires forall i | 0 <= i < |acts| :: OpenMoves(states[i], acts[i], states[i + 1], k)
    ensures OpenAt(states[n], k, least)
    decreases n - m
  {
    if m < n {
      OpenAlong(states, acts, k, m, n - 1, least);
      assert OpenMoves(states[n - 1], acts[n - 1], states[n - 1 + 1], k);
    }
  }

  /** Each open future sends its command at most once in a run, and the bridge
      processes it at most once. */
  lemma OpenIsAskedOnce(states: seq<State>, acts: seq<Action>, k: nat, m: nat, n: nat)
    requires Run(states, acts) && m < n < |acts|
    ensures !(SendsOpen(states[m], acts[m], k) && SendsOpen(states[n], acts[n], k))
    ensures !(ProcessesOpen(acts[m], k) && ProcessesOpen(acts[n], k))
  {
    forall i | 0 <= i < |acts| ensures OpenMoves(states[i], acts[i], states[i + 1], k) {
      StepMovesOpen(states[i], acts[i], k);
    }
    if SendsOpen(states[m], acts[m], k) {
      OpenAlong(states, acts, k, m + 1, n, 1);
    }
    if ProcessesOpen(acts[m], k) {
      OpenAlong(states, acts, k, m + 1, n, 2);
      assert OpenMoves(states[n], acts[n], states[n + 1], k);
    }
  }

  // ------------------------------------------- after close, everybody resolves

  /** How many steps an accept future may still need once the close is published. */
  function Distance(pc: AcceptPc): nat {
    match pc
    case Resolved(_) => 0
    case Dropped => 0
    case Start => 1
    case Changed => 1
    case Selecting(_) => 2
    case Locked => 3
    case Queued => 4
    case WantLock => 5
  }

  function Remaining(callers: seq<Caller>): nat {
    if callers == [] then 0
    else Remaining(callers[..|callers| - 1]) + Distance(callers[|callers| - 1].pc)
  }

  lemma {:induction false} RemainingMoves(callers: seq<Caller>, i: Task, pc: AcceptPc)
    requires i < |callers|
    ensures Remaining(Moved(callers, i, pc)) == Remaining(callers) - Distance(callers[i].pc) + Distance(pc)
  {
    var n := |callers| - 1;
    if i == n {
      assert Moved(callers, i, pc)[..n] == callers[..n];
    } else {
      assert Moved(callers, i, pc)[..n] == Moved(callers[..n], i, pc);
      RemainingMoves(callers[..n], i, pc);
    }
  }

  /** After the close, a lock holder can always move: its cloned receiver has not
      seen the version that the close published. */
  lemma HolderCanMove(s: State, d: Dir)
    requires Inv(s) && s.closed.value.Some? && Chan(s, d).holder.Some?
    ensures AcceptEnabled(s, Chan(s, d).holder.value)
  {
  }

  /** After the close, as long as someone is unresolved, someone can move. */
  lemma SomeoneCanMove(s: State, i: Task) returns (j: Task)
    requires Inv(s) && s.closed.value.Some?
    requires i < |s.callers| && Unresolved(s.callers[i])
    ensures AcceptEnabled(s, j)
  {
    if s.callers[i].pc.Queued? {
      var d := s.callers[i].dir;
      HolderCanMove(s, d);
      j := Chan(s, d).holder.value;
    } else {
      j := i;
    }
  }

  lemma StepIsNearer(s: State, i: Task, preferStream: bool)
    requires s.closed.value.Some? && AcceptEnabled(s, i)
    ensures var s' := StepOf(s, i, preferStream);
            i < |s'.callers| && Distance(s'.callers[i].pc) < Distance(s.callers[i].pc) && s'.closed == s.closed
  {
  }

  /** After the close, every step of an accept future brings the end nearer. */
  lemma StepsBringTheEndNearer(s: State, i: Task, preferStream: bool)
    requires s.closed.value.Some? && AcceptEnabled(s, i)
    ensures Remaining(StepOf(s, i, preferStream).callers) < Remaining(s.callers)
    ensures StepOf(s, i, preferStream).closed == s.closed
  {
    StepMovesOne(s, i, preferStream);
    StepIsNearer(s, i, preferStream);
    RemainingMoves(s.callers, i, StepOf(s, i, preferStream).callers[i].pc);
  }

  /** Cancelling a caller does not set the others back, not even when it holds the
      lock. */
  lemma DropBringsTheEndNearer(s: State, i: Task)
    requires i < |s.callers|
    ensures Remaining(DropOf(s, i).callers) <= Remaining(s.callers)
  {
    assert DropOf(s, i).callers == Moved(s.callers, i, Dropped);
    RemainingMoves(s.callers, i, Dropped);
  }

  lemma CallAddsOne(callers: seq<Caller>, d: Dir)
    ensures Remaining(callers + [Caller(d, Start)]) == Remaining(callers) + 1
  {
    assert (callers + [Caller(d, Start)])[..|callers|] == callers;
  }

  /** What one step of anybody does to the distance once the close is published:
      a step of an accept future pays for itself, a new caller adds one. */
  ghost predicate Approaches(s: State, a: Action, t: State) {
    s.closed.value.Some? ==>
      && t.closed == s.closed
      && AcceptSteps([a]) + Remaining(t.callers) <= Remaining(s.callers) + AcceptCalls([a])
  }

  function AcceptSteps(acts: seq<Action>): nat {
    if acts == [] then 0
    else AcceptSteps(acts[..|acts| - 1]) + (if acts[|acts| - 1].StepAccept? then 1 else 0)
  }

  function AcceptCalls(acts: seq<Action>): nat {
    if acts == [] then 0
    else AcceptCalls(acts[..|acts| - 1]) + (if acts[|acts| - 1].CallAccept? then 1 else 0)
  }

  lemma CountsAdd(acts: seq<Action>, a: Action)
    ensures AcceptSteps(acts + [a]) == AcceptSteps(acts) + AcceptSteps([a])
    ensures AcceptCalls(acts + [a]) == AcceptCalls(acts) + AcceptCalls([a])
  {
    assert (acts + [a])[..|acts|] == acts && [a][..0] == [];
  }

  lemma StepApproaches(s: State, a: Action)
    requires Enabled(s, a)
    ensures Approaches(s, a, Next(s, a))
  {
    StepKeepsClosed(s, a);
    assert [a][..0] == [];
    match a
    case StepAccept(i, preferStream) =>
      if s.closed.value.Some? {
        StepsBringTheEndNearer(s, i, preferStream);
      }
    case DropAccept(i) => DropBringsTheEndNearer(s, i);
    case CallAccept(d) => CallAddsOne(s.callers, d);
    case _ => OthersAwardNothing(s, a);
  }

  lemma {:induction false} ApproachesAlong(states: seq<State>, acts: seq<Action>, m: nat, n: nat)
    requires |states| == |acts| + 1 && m <= n < |states| && states[m].closed.value.Some?
    requires forall k | 0 <= k < |acts| :: Approaches(states[k], acts[k], states[k + 1])
    ensures states[n].closed == states[m].closed
    ensures AcceptSteps(acts[m..n]) + Remaining(states[n].callers)
              <= Remaining(states[m].callers) + AcceptCalls(acts[m..n])
    decreases n - m
  {
    if m < n {
      ApproachesAlong(states, acts, m, n - 1);
      assert Approaches(states[n - 1], acts[n - 1], states[n - 1 + 1]);
      CountsAdd(acts[m..n - 1], acts[n - 1]);
      assert acts[m..n] == acts[m..n - 1] + [acts[n - 1]];
    }
  }

  /** When no accept future can move, every one has resolved. */
  lemma NobodyIsLeft(s: State)
    requires Inv(s) && s.closed.value.Some? && forall j :: !AcceptEnabled(s, j)
    ensures forall i | 0 <= i < |s.callers| :: !Unresolved(s.callers[i])
  {
    forall i | 0 <= i < |s.callers| ensures !Unresolved(s.callers[i]) {
      if Unresolved(s.callers[i]) {
        var j := SomeoneCanMove(s, i);
        assert false;
      }
    }
  }

  /** Once the close reason is published, and whatever else happens between any two
      moments of a run - callers arriving or being cancelled, lock holders
      included, streams being created or opened - the accept futures together take
      no more steps than they had left, one more for each caller that arrived.
      When none of them can move any more, every caller has resolved or was
      dropped, and whoever got an error got the published reason. */
  lemma EveryAcceptResolves(states: seq<State>, acts: seq<Action>, m: nat, n: nat)
    requires Run(states, acts) && m <= n < |states| && states[m].closed.value.Some?
    ensures states[n].closed == states[m].closed
    ensures AcceptSteps(acts[m..n]) + Remaining(states[n].callers)
              <= Remaining(states[m].callers) + AcceptCalls(acts[m..n])
    ensures (forall j :: !AcceptEnabled(states[n], j)) ==>
              forall i | 0 <= i < |states[n].callers| && !states[n].callers[i].pc.Dropped? ::
                && states[n].callers[i].pc.Resolved?
                && (states[n].callers[i].pc.result.Err? ==>
                      states[m].closed.value == Some(states[n].callers[i].pc.result.error))
  {
    forall k | 0 <= k < |acts| ensures Approaches(states[k], acts[k], states[k + 1]) {
      StepApproaches(states[k], acts[k]);
    }
    ApproachesAlong(states, acts, m, n);
    RunKeeps(states, acts, n);
    if forall j :: !AcceptEnabled(states[n], j) {
      NobodyIsLeft(states[n]);
    }
  }

  /** The close reason is the one that was published. */
  lemma ReasonWasPublished(states: seq<State>, acts: seq<Action>, n: nat, err: ConnectionError) returns (m: nat)
    requires Run(states, acts) && n < |states| && states[n].closed.value == Some(err)
    ensures m < n && acts[m] == Publish(err)
  {
    forall k | 0 <= k < |acts| && states[k + 1].closed.value == Some(err)
      ensures states[k].closed.value == Some(err) || acts[k] == Publish(err)
    {
      StepPublishes(states[k], acts[k], err);
    }
    m := Origin(states, acts, n, (s: State) => s.closed.value == Some(err), (s: State, a: Action) => a == Publish(err));
  }

  lemma StepPublishes(s: State, a: Action, err: ConnectionError)
    requires Enabled(s, a) && Next(s, a).closed.value == Some(err)
    ensures s.closed.value == Some(err) || a == Publish(err)
  {
    match a
    case StepAccept(i, preferStream) => StepLeavesTheRest(s, i, preferStream);
    case _ =>
  }

  /** A queued stream strands nobody: as long as some caller of its direction is
      unresolved, one of them can move. */
  lemma NoStreamIsStranded(s: State, d: Dir, i: Task) returns (j: Task)
    requires Inv(s) && Chan(s, d).queue != []
    requires i < |s.callers| && s.callers[i].dir == d && Unresolved(s.callers[i])
    ensures AcceptEnabled(s, j) && s.callers[j].dir == d
  {
    if s.callers[i].pc.Queued? {
      assert LockInv(Chan(s, d), d, s.callers);
      j := Chan(s, d).holder.value;
    } else {
      j := i;
    }
  }

  /** A caller that selects while a stream is there gets the first of the queue,
      unless it sees the close first. */
  lemma SelectTakesTheFirst(s: State, i: Task, preferStream: bool)
    requires AcceptEnabled(s, i) && s.callers[i].pc.Selecting? && Chan(s, s.callers[i].dir).queue != []
    requires preferStream || s.closed.version == s.callers[i].pc.seen
    ensures StepOf(s, i, preferStream).callers[i].pc == Resolved(Ok(Chan(s, s.callers[i].dir).queue[0]))
  {
  }
}
