/** The streams of one connection: how peer-initiated streams travel from the
    stream-created callback through the accept queues to the accept callers, how
    local ones travel from the engine to the open futures, and what closing the
    connection does to everybody who waits. */
module Streams {
  import opened Types
  import opened Sync
  import opened StreamIds

  // ------------------------------------------------------------------ state

  /** Where an accept_bi / accept_uni future stands. */
  datatype AcceptPc =
    | Start                          // top of the loop, close cell not yet read
    | WantLock                       // about to lock the receiver
    | Queued                         // waiting for the lock
    | Locked                         // lock held, close receiver not yet cloned
    | Selecting(seen: nat)           // inside select!, with the clone's seen version
    | Changed                        // the close branch won
    | Resolved(result: Result<StreamId, ConnectionError>)
    | Dropped

  datatype Caller = Caller(dir: Dir, pc: AcceptPc)

  /** An accept queue and the fair async mutex around its receiver.
      `delivered` logs the ids handed to callers. */
  datatype Channel = Channel(queue: seq<StreamId>, delivered: seq<StreamId>, holder: Option<Task>, line: seq<Task>)

  /** An open_bi / open_uni future. */
  datatype OpenPc =
    | Unsent
    | Sent
    | Replied(reply: Option<Result<StreamId, ConnectionError>>)   // None: the reply was dropped
    | Opened(result: Result<StreamId, ConnectionError>, fromCell: bool)   // fromCell: read from the close cell
    | Abandoned(inQueue: bool)        // dropped, with its command processed or not

  datatype Opener = Opener(dir: Dir, pc: OpenPc)

  /** `created`: every stream for which the callback ran, in order.
      `localIds`: the ids the engine has given out for local streams.
      `sends`, `recvs`: one entry per SendStream / RecvStream ever built. */
  datatype State = State(
    isServer: bool,
    closed: Watch<Option<ConnectionError>>,
    bi: Channel, uni: Channel,
    callers: seq<Caller>, openers: seq<Opener>,
    created: seq<StreamId>, localIds: set<StreamId>,
    sends: seq<StreamId>, recvs: seq<StreamId>)

  /** The version marked by the receiver kept in ConnNotify: nobody ever calls
      anything but `borrow` and `clone` on it. */
  const UNSEEN: nat := 0

  const EMPTY := Channel([], [], None, [])

  ghost predicate Init(s: State) {
    && s.closed == Watch(None, UNSEEN) && s.bi == EMPTY && s.uni == EMPTY
    && s.callers == [] && s.openers == [] && s.created == [] && s.localIds == {}
    && s.sends == [] && s.recvs == []
  }

  function Chan(s: State, d: Dir): Channel {
    match d
    case Bi => s.bi
    case Uni => s.uni
  }

  function WithChan(s: State, d: Dir, c: Channel): State {
    match d
    case Bi => s.(bi := c)
    case Uni => s.(uni := c)
  }

  // ---------------------------------------------------------------- actions

  datatype Action =
    | StreamCreated(id: StreamId)
    | Publish(err: ConnectionError)
    | CallAccept(dir: Dir)
    | StepAccept(i: Task, preferStream: bool)
    | DropAccept(i: Task)
    | CallOpen(dir: Dir)
    | PollOpen(k: nat)
    | ProcessOpen(k: nat, answer: Option<Result<StreamId, ConnectionError>>)
    | DropOpen(k: nat)

  /** on_stream_created */
  function OnStreamCreated(s: State, id: StreamId): State {
    var s' := s.(created := s.created + [id]);
    if PeerInitiated(s.isServer, id) then
      if IsBidi(id) then s'.(bi := s.bi.(queue := s.bi.queue + [id]))
      else s'.(uni := s.uni.(queue := s.uni.queue + [id]))
    else
      s'
  }

  /** Dropping the guard hands the lock to the first in line. */
  function Release(c: Channel): Channel {
    if c.line == [] then c.(holder := None) else c.(holder := Some(c.line[0]), line := c.line[1..])
  }

  function SetPc(s: State, i: Task, pc: AcceptPc): State
    requires i < |s.callers|
  {
    s.(callers := s.callers[i := s.callers[i].(pc := pc)])
  }

  predicate AcceptEnabled(s: State, i: Task) {
    && i < |s.callers|
    && var c := s.callers[i];
       match c.pc
       case Start => true
       case WantLock => true
       case Queued => Chan(s, c.dir).holder == Some(i)
       case Locked => true
       case Selecting(seen) => Chan(s, c.dir).queue != [] || s.closed.Changed(seen)
       case Changed => true
       case Resolved(_) => false
       case Dropped => false
  }

  /** The stream branch of select!: the id leaves the queue and becomes handles. */
  function Deliver(s: State, i: Task): State
    requires i < |s.callers| && Chan(s, s.callers[i].dir).queue != []
  {
    var d := s.callers[i].dir;
    var ch := Chan(s, d);
    var id := ch.queue[0];
    var s' := WithChan(s, d, Release(ch.(queue := ch.queue[1..], delivered := ch.delivered + [id])));
    SetPc(s', i, Resolved(Ok(id))).(
      sends := if d == Bi then s.sends + [id] else s.sends,
      recvs := s.recvs + [id])
  }

  function StepOf(s: State, i: Task, preferStream: bool): State
    requires AcceptEnabled(s, i)
  {
    var c := s.callers[i];
    var ch := Chan(s, c.dir);
    match c.pc
    case Start =>
      SetPc(s, i, if s.closed.value.Some? then Resolved(Err(s.closed.value.value)) else WantLock)
    case WantLock =>
      if ch.holder == None then
        SetPc(WithChan(s, c.dir, ch.(holder := Some(i))), i, Locked)
      else
        SetPc(WithChan(s, c.dir, ch.(line := ch.line + [i])), i, Queued)
    case Queued => SetPc(s, i, Locked)
    case Locked => SetPc(s, i, Selecting(UNSEEN))
    case Selecting(seen) =>
      if ch.queue != [] && (preferStream || !s.closed.Changed(seen)) then Deliver(s, i) else SetPc(s, i, Changed)
    case Changed =>
      SetPc(WithChan(s, c.dir, Release(ch)), i,
            if s.closed.value.Some? then Resolved(Err(s.closed.value.value)) else Start)
  }

  /** Dropping an unresolved future: it leaves the line or gives up the lock. */
  function DropOf(s: State, i: Task): State
    requires i < |s.callers|
  {
    var c := s.callers[i];
    var ch := Chan(s, c.dir);
    var ch' := if ch.holder == Some(i) then Release(ch) else ch.(line := Without(ch.line, i));
    SetPc(WithChan(s, c.dir, ch'), i, Dropped)
  }

  function Without(line: seq<Task>, i: Task): seq<Task> {
    if line == [] then []
    else if line[0] == i then line[1..]
    else [line[0]] + Without(line[1..], i)
  }

  predicate Unresolved(c: Caller) {
    !c.pc.Resolved? && !c.pc.Dropped?
  }

  /** A locally opened id: fresh, ours, of the requested direction. */
  predicate FreshLocal(s: State, d: Dir, id: StreamId) {
    id !in s.localIds && !PeerInitiated(s.isServer, id) && (IsBidi(id) <==> d == Bi)
  }

  predicate Enabled(s: State, a: Action) {
    match a
    case StreamCreated(id) => id !in s.created && (PeerInitiated(s.isServer, id) || id in s.localIds)
    case Publish(_) => s.closed.value == None
    case CallAccept(_) => true
    case StepAccept(i, _) => AcceptEnabled(s, i)
    case DropAccept(i) => i < |s.callers| && Unresolved(s.callers[i])
    case CallOpen(_) => true
    case PollOpen(k) => k < |s.openers| && (s.openers[k].pc.Unsent? || s.openers[k].pc.Replied?)
    case ProcessOpen(k, answer) =>
      && k < |s.openers| && s.openers[k].pc in {Sent, Abandoned(true)}
      && (answer.Some? && answer.value.Ok? ==> FreshLocal(s, s.openers[k].dir, answer.value.value))
    case DropOpen(k) => k < |s.openers| && !s.openers[k].pc.Opened? && !s.openers[k].pc.Abandoned?
  }

  function SetOpen(s: State, k: nat, pc: OpenPc): State
    requires k < |s.openers|
  {
    s.(openers := s.openers[k := s.openers[k].(pc := pc)])
  }

  /** OpenBi::poll / OpenUni::poll on a future that can move. */
  function PollOf(s: State, k: nat): State
    requires Enabled(s, PollOpen(k))
  {
    match s.openers[k].pc
    case Unsent =>
      SetOpen(s, k, if s.closed.value.Some? then Opened(Err(s.closed.value.value), true) else Sent)
    case Replied(Some(Ok(id))) =>
      SetOpen(s, k, Opened(Ok(id), false)).(
        sends := s.sends + [id],
        recvs := if s.openers[k].dir == Bi then s.recvs + [id] else s.recvs)
    case Replied(Some(Err(e))) => SetOpen(s, k, Opened(Err(e), false))
    case Replied(None) => SetOpen(s, k, Opened(Err(LocallyClosed), false))
  }

  function Next(s: State, a: Action): State
    requires Enabled(s, a)
  {
    match a
    case StreamCreated(id) => OnStreamCreated(s, id)
    case Publish(err) => s.(closed := s.closed.Send(Some(err)))
    case CallAccept(d) => s.(callers := s.callers + [Caller(d, Start)])
    case StepAccept(i, preferStream) => StepOf(s, i, preferStream)
    case DropAccept(i) => DropOf(s, i)
    case CallOpen(d) => s.(openers := s.openers + [Opener(d, Unsent)])
    case PollOpen(k) => PollOf(s, k)
    case ProcessOpen(k, answer) =>
      var s' := if answer.Some? && answer.value.Ok? then s.(localIds := s.localIds + {answer.value.value}) else s;
      SetOpen(s', k, if s.openers[k].pc.Sent? then Replied(answer) else Abandoned(false))
    case DropOpen(k) => SetOpen(s, k, Abandoned(s.openers[k].pc.Sent?))
  }

  ghost predicate Run(states: seq<State>, acts: seq<Action>) {
    && |states| == |acts| + 1
    && Init(states[0])
    && forall i | 0 <= i < |acts| :: Enabled(states[i], acts[i]) && states[i + 1] == Next(states[i], acts[i])
  }

  // -------------------------------------------------------------- invariants

  predicate Matches(isServer: bool, d: Dir, id: StreamId) {
    PeerInitiated(isServer, id) && (IsBidi(id) <==> d == Bi)
  }

  /** The reference: the peer's streams of one direction, in creation order. */
  function PeerStreams(isServer: bool, d: Dir, created: seq<StreamId>): seq<StreamId> {
    if created == [] then
      []
    else
      var last := created[|created| - 1];
      PeerStreams(isServer, d, created[..|created| - 1]) + (if Matches(isServer, d, last) then [last] else [])
  }

  ghost predicate Distinct<T(!new)>(s: seq<T>) {
    forall i, j | 0 <= i < j < |s| :: s[i] != s[j]
  }

  ghost predicate Conserved(s: State, d: Dir) {
    Chan(s, d).delivered + Chan(s, d).queue == PeerStreams(s.isServer, d, s.created)
  }

  predicate HasLock(pc: AcceptPc) {
    pc.Locked? || pc.Selecting? || pc.Changed?
  }

  /** Who holds the lock, and who is in line for it. */
  ghost predicate LockInv(ch: Channel, d: Dir, callers: seq<Caller>) {
    && (forall i | 0 <= i < |callers| && callers[i].dir == d && HasLock(callers[i].pc) :: ch.holder == Some(i))
    && (ch.holder.Some? ==>
          && ch.holder.value < |callers| && callers[ch.holder.value].dir == d
          && (callers[ch.holder.value].pc.Queued? || HasLock(callers[ch.holder.value].pc)))
    && (forall i | 0 <= i < |callers| && callers[i].dir == d && callers[i].pc.Queued? ::
        ch.holder == Some(i) || i in ch.line)
    && (forall i | i in ch.line ::
        i < |callers| && callers[i].dir == d && callers[i].pc.Queued? && ch.holder != Some(i))
    && Distinct(ch.line)
    && (ch.holder == None ==> ch.line == [])
  }

  /** What a caller knows about the close cell. */
  ghost predicate CallerSees(pc: AcceptPc, closed: Watch<Option<ConnectionError>>) {
    match pc
    case Selecting(seen) => seen == UNSEEN
    case Changed => closed.value.Some?
    case Resolved(result) => result.Err? ==> closed.value == Some(result.error)
    case _ => true
  }

  ghost predicate OpenerSees(pc: OpenPc, closed: Watch<Option<ConnectionError>>) {
    pc.Opened? && pc.fromCell ==> pc.result.Err? && closed.value == Some(pc.result.error)
  }

  ghost predicate CloseInv(s: State) {
    && (s.closed.value == None <==> s.closed.version == UNSEEN)
    && (forall i | 0 <= i < |s.callers| :: CallerSees(s.callers[i].pc, s.closed))
    && (forall k | 0 <= k < |s.openers| :: OpenerSees(s.openers[k].pc, s.closed))
  }

  predicate Won(c: Caller, id: StreamId) {
    c.pc == Resolved(Ok(id))
  }

  /** Every caller that got an id got it from its channel, and nobody else did. */
  ghost predicate Awarded(callers: seq<Caller>, bi: seq<StreamId>, uni: seq<StreamId>) {
    && (forall i, id | 0 <= i < |callers| && Won(callers[i], id) :: id in (if callers[i].dir == Bi then bi else uni))
    && (forall i, j, id | 0 <= i < j < |callers| && Won(callers[i], id) :: !Won(callers[j], id))
  }

  /** The id waiting in an open future's reply. */
  function Carried(o: Opener): Option<StreamId> {
    match o.pc
    case Replied(Some(Ok(id))) => Some(id)
    case _ => None
  }

  /** Where handles come from: an accept that delivered the id, or an open whose
      reply carried it and has been taken. */
  ghost predicate HandlesFrom(isServer: bool, bi: seq<StreamId>, uni: seq<StreamId>, localIds: set<StreamId>,
                              sends: seq<StreamId>, recvs: seq<StreamId>) {
    && Distinct(sends) && Distinct(recvs)
    && (forall id | id in sends :: if PeerInitiated(isServer, id) then id in bi else id in localIds)
    && (forall id | id in recvs ::
          if PeerInitiated(isServer, id) then id in bi || id in uni else id in localIds && IsBidi(id))
  }

  ghost predicate Handles(s: State) {
    HandlesFrom(s.isServer, s.bi.delivered, s.uni.delivered, s.localIds, s.sends, s.recvs)
  }

  ghost predicate Untaken(isServer: bool, d: Dir, id: StreamId, localIds: set<StreamId>, sends: seq<StreamId>,
      recvs: seq<StreamId>) {
    && id in localIds && id !in sends && id !in recvs
    && !PeerInitiated(isServer, id) && (IsBidi(id) <==> d == Bi)
  }

  ghost predicate Replies(isServer: bool, openers: seq<Opener>, localIds: set<StreamId>, sends: seq<StreamId>,
      recvs: seq<StreamId>) {
    && (forall k | 0 <= k < |openers| && Carried(openers[k]).Some? ::
          Untaken(isServer, openers[k].dir, Carried(openers[k]).value, localIds, sends, recvs))
    && (forall k, m | 0 <= k < m < |openers| && Carried(openers[k]).Some? :: Carried(openers[k]) != Carried(openers[m]))
  }

  ghost predicate InReplies(s: State) {
    Replies(s.isServer, s.openers, s.localIds, s.sends, s.recvs)
  }

  ghost predicate Inv(s: State) {
    && Distinct(s.created)
    && Conserved(s, Bi) && Conserved(s, Uni)
    && LockInv(s.bi, Bi, s.callers) && LockInv(s.uni, Uni, s.callers)
    && CloseInv(s)
    && Awarded(s.callers, s.bi.delivered, s.uni.delivered)
    && Handles(s) && InReplies(s)
  }
}
