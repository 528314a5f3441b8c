/** One stream from a SendStream on one endpoint to a RecvStream on the other,
    as a step system: the two owning tasks, the two command queues, the two
    bridges, and the engines with the network between them. Every atomic access
    is a step, so every interleaving is a run.

    A queue is kept as the log of commands a handle has issued together with the
    number already processed; the commands of other streams that sit between
    them in the shared queue do not act on this stream. */
module StreamPath {
  import opened Types
  import opened Engine
  import Parking

  // ------------------------------------------------------------------ state

  datatype SendCmd =
    | Write(data: seq<Byte>, fin: bool, call: nat)
    | SetPriority(urgency: int)
    | ShutdownWrite(code: U64)

  datatype RecvCmd =
    | Read(maxLen: nat, call: nat)
    | ShutdownRead(code: U64)

  /** A one-shot reply: answered, or dropped with the command. */
  datatype Reply<+T> = Answer(value: T) | Gone

  /** The task and `write`: about to send a command or outside (`Ready`),
      awaiting the reply, or inside `wait_writable`. `rem` is what `write_all`
      still has to write. Leaving `wait_writable` leads to `Ready` both ways:
      to an error for the caller, or to the next round of the loop. */
  datatype SendPc =
    | SendReady(rem: seq<Byte>)
    | SendAwait(rem: seq<Byte>, call: nat)
    | SendWaiting(rem: seq<Byte>)

  datatype RecvPc =
    | RecvReady
    | RecvAwait(maxLen: nat, call: nat)
    | RecvWaiting(maxLen: nat)

  /** `acked`: bytes the replies have reported as written.
      `offered`: all buffers passed to write calls, in order.
      `clean`: every call before the latest wrote its whole buffer.
      `cancelled`: some write future was dropped before it completed.
      `failed`: the error that ended the latest write, if one did.
      `ended`: the number of the command whose reply was taken last. */
  datatype Sender = Sender(
    finished: bool, dropped: bool, cancelled: bool,
    issued: seq<SendCmd>, done: nat, calls: nat,
    pc: SendPc, slot: Option<Reply<WriteReply>>,
    wait: Parking.Wait, closed: Option<ConnectionError>,
    acked: seq<Byte>, offered: seq<Byte>, clean: bool, failed: Option<WriteError>, ended: nat)

  /** `got`: bytes copied into the caller's buffers.
      `finSeen`: a reply carried the fin flag.
      `failed`: the error that ended the latest read, if one did.
      `ended`: the number of the command whose reply was taken last. */
  datatype Receiver = Receiver(
    allDataRead: bool, dropped: bool, cancelled: bool,
    issued: seq<RecvCmd>, done: nat, calls: nat,
    pc: RecvPc, slot: Option<Reply<ReadReply>>,
    wait: Parking.Wait, closed: Option<ConnectionError>,
    got: seq<Byte>, finSeen: bool, failed: Option<ReadError>, ended: nat)

  /** The reliable ordered byte pipe of section 2.2 of RFC 9000: what the sending
      engine accepted, how much of it has reached the receiving engine, and how
      much that engine has handed out. */
  datatype Pipe = Pipe(
    accepted: seq<Byte>, fin: bool, capacity: nat,
    delivered: nat, finDelivered: bool,
    consumed: nat, finRead: bool)

  datatype State = State(w: Sender, p: Pipe, r: Receiver)

  ghost predicate Init(s: State) {
    && s.w.finished == false && s.w.dropped == false && s.w.cancelled == false
    && s.w.issued == [] && s.w.done == 0 && s.w.pc == SendReady([]) && s.w.slot == None
    && Parking.Fresh(s.w.wait) && s.w.acked == [] && s.w.offered == [] && s.w.clean && s.w.failed == None
    && s.r.allDataRead == false && s.r.dropped == false && s.r.cancelled == false
    && s.r.issued == [] && s.r.done == 0 && s.r.pc == RecvReady && s.r.slot == None
    && Parking.Fresh(s.r.wait) && s.r.got == [] && s.r.finSeen == false && s.r.failed == None
    && s.p.accepted == [] && !s.p.fin && s.p.delivered == 0 && !s.p.finDelivered
    && s.p.consumed == 0 && !s.p.finRead
  }

  // ---------------------------------------------------------------- actions

  /** The task that owns the SendStream. */
  datatype SendTaskStep =
    | Offer(buf: seq<Byte>)
    | SendWrite
    | TakeWriteReply
    | SendCheckClosed
    | SendPollNotified
    | SendWake
    | SendRecheck
    | Finish
    | ResetStream(code: U64)
    | Prioritize(priority: int)
    | DropSend
    | CancelWrite

  /** Its bridge and engine. */
  datatype SendSideStep =
    | ProcessSend(wa: Option<WriteAnswer>)
    | LoseSend
    | Grow(k: nat)
    | WritableCallback
    | CloseSendSide(err: ConnectionError)

  /** The task that owns the RecvStream. */
  datatype RecvTaskStep =
    | SendRead(maxLen: nat)
    | TakeReadReply
    | RecvCheckClosed
    | RecvPollNotified
    | RecvWake
    | RecvRecheck
    | StopStream(code: U64)
    | DropRecv
    | CancelRead

  /** Its bridge and engine, and the network. */
  datatype RecvSideStep =
    | ProcessRecv(ra: Option<ReadAnswer>)
    | LoseRecv
    | ReadableCallback
    | CloseRecvSide(err: ConnectionError)
    | Deliver(k: nat)
    | DeliverFin

  datatype Action =
    | SendTask(sendTask: SendTaskStep)
    | SendSide(sendSide: SendSideStep)
    | RecvTask(recvTask: RecvTaskStep)
    | RecvSide(recvSide: RecvSideStep)

  // -------------------------------------------------- the sending task's steps

  function Min(a: nat, b: nat): nat {
    if a < b then a else b
  }

  function Rem(pc: SendPc): seq<Byte> {
    pc.rem
  }

  /** `send_cmd` of a data write: the command joins the queue, the task awaits. */
  function IssueWrite(w: Sender): Sender {
    w.(issued := w.issued + [Write(Rem(w.pc), false, w.calls)],
       pc := SendAwait(Rem(w.pc), w.calls), calls := w.calls + 1, failed := None)
  }

  /** The body of `finish`. */
  function IssueFin(w: Sender): Sender {
    w.(finished := true, issued := w.issued + [Write([], true, w.calls)], calls := w.calls + 1)
  }

  /** The arms of the match on the reply in `write`. */
  function OnWriteReply(w: Sender): Sender
    requires w.slot.Some? && w.pc.SendAwait?
  {
    var rem, w' := Rem(w.pc), w.(slot := None, ended := w.pc.call);
    match w.slot.value
    case Answer(Ok(n)) =>
      if n == 0 then
        w'.(pc := SendWaiting(rem), wait := Parking.Block(w.wait))
      else
        var k := Min(n, |rem|);
        w'.(pc := SendReady(rem[k..]), acked := w.acked + rem[..k])
    case Answer(Err(e)) => w'.(pc := SendReady(rem), failed := Some(e))
    case Gone => w'.(pc := SendReady(rem), failed := Some(WriteConnectionLost(LocallyClosed)))
  }

  /** The error `wait_writable` makes of the close cell. */
  function LostIfClosed(w: Sender): Option<WriteError> {
    if w.closed.Some? then Some(WriteConnectionLost(w.closed.value)) else w.failed
  }

  predicate SendTaskEnabled(w: Sender, a: SendTaskStep) {
    match a
    case Offer(buf) => w.pc.SendReady? && !w.dropped
    case SendWrite => w.pc.SendReady? && !w.dropped && !w.finished && w.pc.rem != []
    case TakeWriteReply => w.pc.SendAwait? && w.slot.Some?
    case SendCheckClosed => w.pc.SendWaiting? && w.wait.pc == Parking.Blocked
    case SendPollNotified => w.pc.SendWaiting? && w.wait.pc == Parking.Armed
    case SendWake => w.pc.SendWaiting? && w.wait.pc == Parking.Parked && Parking.Notified(w.wait)
    case SendRecheck => w.pc.SendWaiting? && w.wait.pc == Parking.Woken
    case Finish => w.pc.SendReady? && !w.dropped && !w.finished
    case ResetStream(_) => w.pc.SendReady? && !w.dropped && !w.finished
    case Prioritize(_) => w.pc.SendReady? && !w.dropped && !w.finished
    case DropSend => w.pc.SendReady? && !w.dropped
    case CancelWrite => !w.pc.SendReady?
  }

  /** set_priority: `priority.clamp(0, 255)`. */
  function Clamp(priority: int): (u: int)
    ensures 0 <= u <= 255
    ensures 0 <= priority <= 255 ==> u == priority
    ensures priority < 0 ==> u == 0
    ensures priority > 255 ==> u == 255
  {
    if priority < 0 then 0 else if priority > 255 then 255 else priority
  }

  function SendTaskNext(w: Sender, a: SendTaskStep): (w': Sender)
    requires SendTaskEnabled(w, a)
    ensures w'.closed == w.closed && w'.done == w.done && w'.wait.want == w.wait.want
  {
    match a
    case Offer(buf) =>
      w.(pc := SendReady(buf), offered := w.offered + buf, clean := w.clean && Rem(w.pc) == [], failed := None)
    case SendWrite => IssueWrite(w)
    case TakeWriteReply => OnWriteReply(w)
    case SendCheckClosed =>
      w.(wait := Parking.CheckClosed(w.wait, w.closed.Some?),
         pc := if w.closed.Some? then SendReady(Rem(w.pc)) else w.pc, failed := LostIfClosed(w))
    case SendPollNotified => w.(wait := Parking.PollNotified(w.wait))
    case SendWake => w.(wait := Parking.Wake(w.wait))
    case SendRecheck => w.(wait := Parking.Leave(w.wait), pc := SendReady(Rem(w.pc)), failed := LostIfClosed(w))
    case Finish => IssueFin(w)
    case ResetStream(code) => w.(finished := true, issued := w.issued + [ShutdownWrite(code)])
    case Prioritize(priority) => w.(issued := w.issued + [SetPriority(Clamp(priority))])
    case DropSend => (if w.finished then w else IssueFin(w)).(dropped := true)
    case CancelWrite =>
      w.(cancelled := true, slot := None, pc := SendReady(Rem(w.pc)), wait := Parking.Cancel(w.wait))
  }

  // ---------------------------------------------- the sending bridge's steps

  /** What a step of the sending side may do to the pipe. */
  ghost predicate Extends(p: Pipe, p': Pipe) {
    && p.accepted <= p'.accepted
    && (p.fin ==> p'.fin && p'.accepted == p.accepted)
    && p'.delivered == p.delivered && p'.finDelivered == p.finDelivered
    && p'.consumed == p.consumed && p'.finRead == p.finRead
  }

  /** The engine's obligations towards a write: it accepts a prefix within the
      capacity, never after a fin, and nothing only when there is no capacity. */
  predicate MayAnswerWrite(c: SendCmd, p: Pipe, wa: Option<WriteAnswer>)
    requires c.Write?
  {
    match ReplyToWrite(wa)
    case Err(_) => true
    case Ok(n) =>
      && n <= |c.data| && n <= p.capacity && !p.fin
      && (n == 0 && c.data != [] ==> p.capacity == 0)
  }

  /** An owed callback runs before the next command is processed. */
  predicate SendSideEnabled(w: Sender, p: Pipe, a: SendSideStep) {
    match a
    case ProcessSend(wa) =>
      && w.done < |w.issued| && !w.wait.owed
      && (w.issued[w.done].Write? ==> MayAnswerWrite(w.issued[w.done], p, wa))
    case LoseSend => w.done < |w.issued|
    case Grow(k) => k > 0
    case WritableCallback => true
    case CloseSendSide(_) => w.closed.None?
  }

  /** The reply reaches the task only if it still awaits that very call; a
      one-shot channel takes one value. */
  function AnswerWrite(w: Sender, call: nat, reply: Reply<WriteReply>): (w': Sender)
    ensures w' == w.(slot := w'.slot)
    ensures w.slot.Some? ==> w' == w
  {
    if w.pc.SendAwait? && w.pc.call == call && w.slot.None? then w.(slot := Some(reply)) else w
  }

  function ProcessWrite(w: Sender, p: Pipe, wa: Option<WriteAnswer>): (n: (Sender, Pipe))
    requires SendSideEnabled(w, p, ProcessSend(wa)) && w.issued[w.done].Write?
    ensures n.0 == w.(done := w.done + 1, slot := n.0.slot, wait := n.0.wait)
    ensures n.0.wait in {w.wait, Parking.AnswerDone(w.wait)}
    ensures w.slot.Some? ==> n.0.slot == w.slot
    ensures Extends(p, n.1)
  {
    var c, reply := w.issued[w.done], ReplyToWrite(wa);
    var w' := AnswerWrite(w.(done := w.done + 1), c.call, Answer(reply));
    match reply
    case Err(_) => (w', p)
    case Ok(n) =>
      (if n == 0 && c.data != [] then w'.(wait := Parking.AnswerDone(w.wait)) else w',
       p.(accepted := p.accepted + c.data[..n], capacity := p.capacity - n,
          fin := c.fin && n == |c.data|))
  }

  function SendSideNext(w: Sender, p: Pipe, a: SendSideStep): (n: (Sender, Pipe))
    requires SendSideEnabled(w, p, a)
    ensures n.0 == w.(done := n.0.done, slot := n.0.slot, wait := n.0.wait, closed := n.0.closed)
    ensures w.slot.Some? ==> n.0.slot == w.slot
    ensures w.closed.Some? ==> n.0.closed == w.closed
    ensures n.0.wait.pc == w.wait.pc
    ensures Parking.Notified(w.wait) ==> Parking.Notified(n.0.wait)
    ensures Extends(p, n.1)
  {
    match a
    case ProcessSend(wa) =>
      if w.issued[w.done].Write? then ProcessWrite(w, p, wa) else (w.(done := w.done + 1), p)
    case LoseSend =>
      var c := w.issued[w.done];
      var w' := w.(done := w.done + 1);
      (if c.Write? then AnswerWrite(w', c.call, Gone) else w', p)
    case Grow(k) => (w.(wait := Parking.BecomeReady(w.wait)), p.(capacity := p.capacity + k))
    case WritableCallback => (w.(wait := Parking.Callback(w.wait)), p)
    case CloseSendSide(err) => (w.(closed := Some(err)), p)
  }

  // ------------------------------------------------ the receiving task's steps

  /** The engine has something to hand out: unread bytes, or an unread fin. */
  predicate Readable(p: Pipe) {
    p.delivered > p.consumed || (p.finDelivered && !p.finRead)
  }

  function IssueRead(r: Receiver, maxLen: nat): Receiver {
    r.(issued := r.issued + [Read(maxLen, r.calls)], pc := RecvAwait(maxLen, r.calls), calls := r.calls + 1,
       failed := None)
  }

  /** The body of `stop`. */
  function IssueStop(r: Receiver, code: U64): Receiver {
    r.(allDataRead := true, issued := r.issued + [ShutdownRead(code)])
  }

  /** The arms of the match on the reply in `read`. */
  function OnReadReply(r: Receiver): Receiver
    requires r.slot.Some? && r.pc.RecvAwait?
  {
    var r' := r.(slot := None, ended := r.pc.call);
    match r.slot.value
    case Answer(Ok((data, fin))) =>
      if data == [] && !fin then
        r'.(pc := RecvWaiting(r.pc.maxLen), wait := Parking.Block(r.wait))
      else
        r'.(pc := RecvReady, got := r.got + data,
            allDataRead := r.allDataRead || fin, finSeen := r.finSeen || fin)
    case Answer(Err(e)) => r'.(pc := RecvReady, failed := Some(e))
    case Gone => r'.(pc := RecvReady, failed := Some(ReadConnectionLost(LocallyClosed)))
  }

  /** The error `wait_readable` makes of the close cell. */
  function CutIfClosed(r: Receiver): Option<ReadError> {
    if r.closed.Some? then Some(ReadConnectionLost(r.closed.value)) else r.failed
  }

  predicate RecvTaskEnabled(r: Receiver, a: RecvTaskStep) {
    match a
    case SendRead(maxLen) => r.pc.RecvReady? && !r.dropped && !r.allDataRead && maxLen > 0
    case TakeReadReply => r.pc.RecvAwait? && r.slot.Some?
    case RecvCheckClosed => r.pc.RecvWaiting? && r.wait.pc == Parking.Blocked
    case RecvPollNotified => r.pc.RecvWaiting? && r.wait.pc == Parking.Armed
    case RecvWake => r.pc.RecvWaiting? && r.wait.pc == Parking.Parked && Parking.Notified(r.wait)
    case RecvRecheck => r.pc.RecvWaiting? && r.wait.pc == Parking.Woken
    case StopStream(_) => r.pc.RecvReady? && !r.dropped && !r.allDataRead
    case DropRecv => r.pc.RecvReady? && !r.dropped
    case CancelRead => !r.pc.RecvReady?
  }

  function RecvTaskNext(r: Receiver, a: RecvTaskStep): (r': Receiver)
    requires RecvTaskEnabled(r, a)
    ensures r'.closed == r.closed && r'.done == r.done && r'.wait.want == r.wait.want
  {
    match a
    case SendRead(maxLen) => IssueRead(r, maxLen)
    case TakeReadReply => OnReadReply(r)
    case RecvCheckClosed =>
      r.(wait := Parking.CheckClosed(r.wait, r.closed.Some?),
         pc := if r.closed.Some? then RecvReady else r.pc, failed := CutIfClosed(r))
    case RecvPollNotified => r.(wait := Parking.PollNotified(r.wait))
    case RecvWake => r.(wait := Parking.Wake(r.wait))
    case RecvRecheck => r.(wait := Parking.Leave(r.wait), pc := RecvReady, failed := CutIfClosed(r))
    case StopStream(code) => IssueStop(r, code)
    case DropRecv => (if r.allDataRead then r else IssueStop(r, 0)).(dropped := true)
    case CancelRead =>
      r.(cancelled := true, slot := None, pc := RecvReady, wait := Parking.Cancel(r.wait))
  }

  // -------------------------------------------- the receiving bridge's steps

  /** The engine's obligations towards a read: it hands out the next delivered
      bytes, at most maxLen of them, the fin only with the last byte, and nothing
      only when there is nothing. */
  predicate MayAnswerRead(c: RecvCmd, p: Pipe, ra: Option<ReadAnswer>)
    requires c.Read?
  {
    match ReplyToRead(ra)
    case Err(_) => true
    case Ok((data, fin)) =>
      && |data| <= c.maxLen
      && p.consumed + |data| <= p.delivered <= |p.accepted|
      && data == p.accepted[p.consumed .. p.consumed + |data|]
      && (fin ==> p.finDelivered && !p.finRead && p.consumed + |data| == |p.accepted|)
      && (data == [] && !fin ==> !Readable(p))
  }

  /** An owed callback runs before the next command is processed. */
  predicate RecvSideEnabled(r: Receiver, p: Pipe, a: RecvSideStep) {
    match a
    case ProcessRecv(ra) =>
      && r.done < |r.issued| && !r.wait.owed
      && (r.issued[r.done].Read? ==> MayAnswerRead(r.issued[r.done], p, ra))
    case LoseRecv => r.done < |r.issued|
    case ReadableCallback => true
    case CloseRecvSide(_) => r.closed.None?
    case Deliver(k) => k > 0 && p.delivered + k <= |p.accepted|
    case DeliverFin => p.fin && p.delivered == |p.accepted| && !p.finDelivered
  }

  function AnswerRead(r: Receiver, call: nat, reply: Reply<ReadReply>): (r': Receiver)
    ensures r' == r.(slot := r'.slot)
    ensures r.slot.Some? ==> r' == r
  {
    if r.pc.RecvAwait? && r.pc.call == call && r.slot.None? then r.(slot := Some(reply)) else r
  }

  function ProcessRead(r: Receiver, p: Pipe, ra: Option<ReadAnswer>): (n: (Receiver, Pipe))
    requires RecvSideEnabled(r, p, ProcessRecv(ra)) && r.issued[r.done].Read?
    ensures n.0 == r.(done := r.done + 1, slot := n.0.slot, wait := n.0.wait)
    ensures n.0.wait in {r.wait, Parking.AnswerDone(r.wait)}
    ensures r.slot.Some? ==> n.0.slot == r.slot
    ensures n.1 == p.(consumed := n.1.consumed, finRead := n.1.finRead)
  {
    var c, reply := r.issued[r.done], ReplyToRead(ra);
    var r' := AnswerRead(r.(done := r.done + 1), c.call, Answer(reply));
    match reply
    case Err(_) => (r', p)
    case Ok((data, fin)) =>
      (if data == [] && !fin then r'.(wait := Parking.AnswerDone(r.wait)) else r',
       p.(consumed := p.consumed + |data|, finRead := p.finRead || fin))
  }

  function RecvSideNext(r: Receiver, p: Pipe, a: RecvSideStep): (n: (Receiver, Pipe))
    requires RecvSideEnabled(r, p, a)
    ensures n.0 == r.(done := n.0.done, slot := n.0.slot, wait := n.0.wait, closed := n.0.closed)
    ensures r.slot.Some? ==> n.0.slot == r.slot
    ensures r.closed.Some? ==> n.0.closed == r.closed
    ensures n.0.wait.pc == r.wait.pc
    ensures Parking.Notified(r.wait) ==> Parking.Notified(n.0.wait)
    ensures n.1.accepted == p.accepted && n.1.fin == p.fin && n.1.capacity == p.capacity
  {
    match a
    case ProcessRecv(ra) =>
      if r.issued[r.done].Read? then ProcessRead(r, p, ra) else (r.(done := r.done + 1), p)
    case LoseRecv =>
      var c := r.issued[r.done];
      var r' := r.(done := r.done + 1);
      (if c.Read? then AnswerRead(r', c.call, Gone) else r', p)
    case ReadableCallback => (r.(wait := Parking.Callback(r.wait)), p)
    case CloseRecvSide(err) => (r.(closed := Some(err)), p)
    case Deliver(k) => (r.(wait := Parking.BecomeReady(r.wait)), p.(delivered := p.delivered + k))
    case DeliverFin => (r.(wait := Parking.BecomeReady(r.wait)), p.(finDelivered := true))
  }

  // ------------------------------------------------------------------- runs

  predicate Enabled(s: State, a: Action) {
    match a
    case SendTask(t) => SendTaskEnabled(s.w, t)
    case SendSide(t) => SendSideEnabled(s.w, s.p, t)
    case RecvTask(t) => RecvTaskEnabled(s.r, t)
    case RecvSide(t) => RecvSideEnabled(s.r, s.p, t)
  }

  function Next(s: State, a: Action): State
    requires Enabled(s, a)
  {
    match a
    case SendTask(t) => s.(w := SendTaskNext(s.w, t))
    case SendSide(t) => var (w, p) := SendSideNext(s.w, s.p, t); s.(w := w, p := p)
    case RecvTask(t) => s.(r := RecvTaskNext(s.r, t))
    case RecvSide(t) => var (r, p) := RecvSideNext(s.r, s.p, t); s.(r := r, p := p)
  }

  ghost predicate Run(states: seq<State>, acts: seq<Action>) {
    && |states| == |acts| + 1
    && Init(states[0])
    && forall i | 0 <= i < |acts| :: Enabled(states[i], acts[i]) && states[i + 1] == Next(states[i], acts[i])
  }

  // ------------------------------------------------------ the send half keeps

  predicate Terminal(c: SendCmd) {
    c.ShutdownWrite? || (c.Write? && c.fin)
  }

  predicate DataWrite(c: SendCmd) {
    c.Write? && !c.fin
  }

  /** (data writes and priority changes)*, then at most one terminal. */
  ghost predicate SendGrammar(issued: seq<SendCmd>, finished: bool) {
    && (forall i | 0 <= i < |issued| - 1 :: !Terminal(issued[i]))
    && (finished <==> issued != [] && Terminal(issued[|issued| - 1]))
  }

  ghost predicate NoDataWrites(issued: seq<SendCmd>, lo: nat, hi: int) {
    forall i | lo <= i < hi && i < |issued| :: !DataWrite(issued[i])
  }

  /** The log of issued commands: its grammar, and the shape of its writes. */
  ghost predicate SendLog(w: Sender) {
    && SendGrammar(w.issued, w.finished)
    && (forall i | 0 <= i < |w.issued| && w.issued[i].Write? ::
          w.issued[i].call < w.calls && (w.issued[i].fin <==> w.issued[i].data == []))
  }

  /** The awaited call carries the bytes the task still has to write, and its
      reply never reports more than that. */
  ghost predicate SendCalls(w: Sender) {
    && (w.pc.SendAwait? ==>
          forall i | 0 <= i < |w.issued| && w.issued[i].Write? && w.issued[i].call == w.pc.call ::
            w.issued[i].data == w.pc.rem)
    && (w.slot.Some? && w.slot.value.Answer? && w.slot.value.value.Ok? ==> w.slot.value.value.value <= |w.pc.rem|)
  }

  ghost predicate SendShape(w: Sender, p: Pipe) {
    && w.done <= |w.issued|
    && (w.dropped ==> w.finished)
    && (w.finished ==> w.pc.SendReady?)
    && (w.slot.Some? ==> w.pc.SendAwait?)
    && (w.pc.SendWaiting? <==> w.wait.pc != Parking.Away)
    && (w.pc.SendAwait? ==> w.pc.call < w.calls && w.pc.rem != [])
    && (w.pc.SendWaiting? ==> w.pc.rem != [])
    && (p.fin ==> w.finished && w.done == |w.issued|)
  }

  /** Bytes of the awaited write that the engine has already taken. */
  function InFlight(w: Sender): seq<Byte> {
    match (w.pc, w.slot)
    case (SendAwait(rem, _), Some(Answer(Ok(n)))) => rem[..Min(n, |rem|)]
    case _ => []
  }

  /** No byte is lost or duplicated between the caller's buffers and the engine. */
  ghost predicate SendBytes(w: Sender, p: Pipe) {
    && p.accepted == w.acked + InFlight(w)
    && (match (w.pc, w.slot)
        case (SendAwait(rem, call), None) =>
          && w.done < |w.issued|
          && w.issued[|w.issued| - 1] == Write(rem, false, call)
          && NoDataWrites(w.issued, w.done, |w.issued| - 1)
        case _ => NoDataWrites(w.issued, w.done, |w.issued|))
    && (w.clean ==> w.offered == w.acked + w.pc.rem)
  }

  predicate EmptyWriteReply(w: Sender) {
    w.slot == Some(Answer(Ok(0)))
  }

  ghost predicate SendInv(w: Sender, p: Pipe) {
    && SendLog(w)
    && SendCalls(w)
    && SendShape(w, p)
    && (!w.cancelled ==> SendBytes(w, p))
    && Parking.Inv(w.wait, p.capacity > 0, EmptyWriteReply(w))
  }

  // --------------------------------------------------- the receive half keeps

  ghost predicate RecvGrammar(issued: seq<RecvCmd>) {
    forall i | 0 <= i < |issued| - 1 :: issued[i].Read?
  }

  predicate StopIssued(issued: seq<RecvCmd>) {
    issued != [] && issued[|issued| - 1].ShutdownRead?
  }

  /** The awaited call asks for as much as the caller's buffer holds, and its
      reply never brings more than that. */
  ghost predicate RecvReplies(r: Receiver) {
    && (r.pc.RecvAwait? ==>
          forall i | 0 <= i < |r.issued| && r.issued[i].Read? && r.issued[i].call == r.pc.call ::
            r.issued[i].maxLen == r.pc.maxLen)
    && (r.slot.Some? && r.pc.RecvAwait? ==> |Arriving(r).0| <= r.pc.maxLen)
  }

  ghost predicate RecvShape(r: Receiver) {
    && RecvReplies(r)
    && r.done <= |r.issued|
    && RecvGrammar(r.issued)
    && (r.allDataRead <==> r.finSeen || StopIssued(r.issued))
    && !(r.finSeen && StopIssued(r.issued))
    && (r.dropped ==> r.allDataRead)
    && (r.allDataRead ==> r.pc.RecvReady?)
    && (r.slot.Some? ==> r.pc.RecvAwait?)
    && (r.pc.RecvWaiting? <==> r.wait.pc != Parking.Away)
    && (r.pc.RecvAwait? ==> r.pc.call < r.calls && r.pc.maxLen > 0)
    && (r.pc.RecvWaiting? ==> r.pc.maxLen > 0)
    && (forall i | 0 <= i < |r.issued| && r.issued[i].Read? :: r.issued[i].call < r.calls && r.issued[i].maxLen > 0)
  }

  function Arriving(r: Receiver): (seq<Byte>, bool) {
    match r.slot
    case Some(Answer(Ok((data, fin)))) => (data, fin)
    case _ => ([], false)
  }

  ghost predicate NoReads(issued: seq<RecvCmd>, lo: nat, hi: int) {
    forall i | lo <= i < hi && i < |issued| :: !issued[i].Read?
  }

  /** No byte is lost or duplicated between the engine and the caller's buffers. */
  ghost predicate RecvBytes(r: Receiver, p: Pipe)
    requires PipeInv(p)
  {
    && r.got + Arriving(r).0 == p.accepted[..p.consumed]
    && (p.finRead <==> r.finSeen || Arriving(r).1)
    && (match (r.pc, r.slot)
        case (RecvAwait(maxLen, call), None) =>
          && r.done < |r.issued|
          && r.issued[|r.issued| - 1] == Read(maxLen, call)
          && NoReads(r.issued, r.done, |r.issued| - 1)
        case _ => NoReads(r.issued, r.done, |r.issued|))
  }

  ghost predicate PipeInv(p: Pipe) {
    && p.consumed <= p.delivered <= |p.accepted|
    && (p.finDelivered ==> p.fin && p.delivered == |p.accepted|)
    && (p.finRead ==> p.finDelivered && p.consumed == |p.accepted|)
  }

  predicate EmptyReadReply(r: Receiver) {
    r.slot == Some(Answer(Ok(([], false))))
  }

  ghost predicate RecvInv(r: Receiver, p: Pipe)
    requires PipeInv(p)
  {
    && RecvShape(r)
    && (!r.cancelled ==> RecvBytes(r, p))
    && Parking.Inv(r.wait, Readable(p), EmptyReadReply(r))
  }

  ghost predicate Inv(s: State) {
    PipeInv(s.p) && SendInv(s.w, s.p) && RecvInv(s.r, s.p)
  }

  // ------------------------------------------------------------ preservation

  lemma IssueWriteKeeps(w: Sender, p: Pipe)
    requires SendInv(w, p) && w.pc.SendReady? && w.pc.rem != [] && !w.finished
    ensures SendInv(IssueWrite(w), p)
  {
  }

  lemma IssueTerminalKeeps(w: Sender, p: Pipe, code: U64)
    requires SendInv(w, p) && w.pc.SendReady? && !w.finished
    ensures SendInv(IssueFin(w), p)
    ensures SendInv(SendTaskNext(w, ResetStream(code)), p)
  {
  }

  lemma OfferKeeps(w: Sender, p: Pipe, buf: seq<Byte>)
    requires SendInv(w, p) && SendTaskEnabled(w, Offer(buf))
    ensures SendInv(SendTaskNext(w, Offer(buf)), p)
  {
  }

  lemma OnWriteReplyKeeps(w: Sender, p: Pipe)
    requires SendInv(w, p) && w.pc.SendAwait? && w.slot.Some?
    ensures SendInv(OnWriteReply(w), p)
  {
  }

  lemma ProcessWriteBytes(w: Sender, p: Pipe, wa: Option<WriteAnswer>)
    requires SendInv(w, p) && SendSideEnabled(w, p, ProcessSend(wa)) && w.issued[w.done].Write? && !w.cancelled
    ensures SendBytes(ProcessWrite(w, p, wa).0, ProcessWrite(w, p, wa).1)
  {
    var c := w.issued[w.done];
    if c.fin {
      assert w.done == |w.issued| - 1 && w.pc.SendReady?;
      assert NoDataWrites(w.issued, w.done + 1, |w.issued|);
    } else {
      assert DataWrite(w.issued[w.done]);
      assert w.pc.SendAwait? && w.slot == None && w.done == |w.issued| - 1;
      assert c == Write(w.pc.rem, false, w.pc.call);
    }
  }

  lemma ProcessWriteShape(w: Sender, p: Pipe, wa: Option<WriteAnswer>)
    requires SendInv(w, p) && SendSideEnabled(w, p, ProcessSend(wa)) && w.issued[w.done].Write?
    ensures SendLog(ProcessWrite(w, p, wa).0) && SendCalls(ProcessWrite(w, p, wa).0)
    ensures SendShape(ProcessWrite(w, p, wa).0, ProcessWrite(w, p, wa).1)
  {
    assert w.issued[w.done].fin ==> w.done == |w.issued| - 1;
  }

  lemma ProcessWriteWait(w: Sender, p: Pipe, wa: Option<WriteAnswer>)
    requires SendInv(w, p) && SendSideEnabled(w, p, ProcessSend(wa)) && w.issued[w.done].Write?
    ensures var (w', p') := ProcessWrite(w, p, wa);
            Parking.Inv(w'.wait, p'.capacity > 0, EmptyWriteReply(w'))
  {
    Parking.EngineKeeps(w.wait, p.capacity > 0, EmptyWriteReply(w));
  }

  lemma CancelWriteKeeps(w: Sender, p: Pipe)
    requires SendInv(w, p) && SendTaskEnabled(w, CancelWrite)
    ensures SendInv(SendTaskNext(w, CancelWrite), p)
  {
    Parking.CancelKeeps(w.wait, p.capacity > 0, EmptyWriteReply(w));
  }

  lemma SendWaitKeeps(w: Sender, p: Pipe, a: SendTaskStep)
    requires SendInv(w, p) && SendTaskEnabled(w, a)
    requires a.SendCheckClosed? || a.SendPollNotified? || a.SendWake? || a.SendRecheck?
    ensures SendInv(SendTaskNext(w, a), p)
  {
    Parking.TaskKeeps(w.wait, p.capacity > 0, w.closed.Some?);
  }

  lemma LoseSendKeeps(w: Sender, p: Pipe)
    requires SendInv(w, p) && SendSideEnabled(w, p, LoseSend)
    ensures SendInv(SendSideNext(w, p, LoseSend).0, p)
  {
    var c, w' := w.issued[w.done], SendSideNext(w, p, LoseSend).0;
    assert w'.wait == w.wait && (w'.slot == w.slot || w'.slot == Some(Gone));
    if !w.cancelled && DataWrite(c) {
      assert w.slot == None && w.done == |w.issued| - 1;
    }
  }

  lemma SendSignalKeeps(w: Sender, p: Pipe, wait: Parking.Wait, p': Pipe)
    requires SendInv(w, p)
    requires wait.pc == w.wait.pc && p' == p.(capacity := p'.capacity)
    requires Parking.Inv(wait, p'.capacity > 0, EmptyWriteReply(w))
    ensures SendInv(w.(wait := wait), p')
  {
  }

  lemma GrowKeeps(w: Sender, p: Pipe, k: nat)
    requires SendInv(w, p) && k > 0
    ensures SendInv(w.(wait := Parking.BecomeReady(w.wait)), p.(capacity := p.capacity + k))
  {
    Parking.EngineKeeps(w.wait, p.capacity > 0, EmptyWriteReply(w));
    SendSignalKeeps(w, p, Parking.BecomeReady(w.wait), p.(capacity := p.capacity + k));
  }

  lemma WritableKeeps(w: Sender, p: Pipe)
    requires SendInv(w, p)
    ensures SendInv(w.(wait := Parking.Callback(w.wait)), p)
  {
    Parking.EngineKeeps(w.wait, p.capacity > 0, EmptyWriteReply(w));
    SendSignalKeeps(w, p, Parking.Callback(w.wait), p);
  }

  lemma CloseSendKeeps(w: Sender, p: Pipe, err: ConnectionError)
    requires SendInv(w, p)
    ensures SendInv(w.(closed := Some(err)), p)
  {
  }

  lemma PrioritizeKeeps(w: Sender, p: Pipe, priority: int)
    requires SendInv(w, p) && SendTaskEnabled(w, Prioritize(priority))
    ensures SendInv(SendTaskNext(w, Prioritize(priority)), p)
  {
  }

  lemma DropSendKeeps(w: Sender, p: Pipe)
    requires SendInv(w, p) && SendTaskEnabled(w, DropSend)
    ensures SendInv(SendTaskNext(w, DropSend), p)
  {
    if !w.finished {
      IssueTerminalKeeps(w, p, 0);
    }
  }

  lemma SkipSendKeeps(w: Sender, p: Pipe)
    requires SendInv(w, p) && w.done < |w.issued| && !w.issued[w.done].Write?
    ensures SendInv(w.(done := w.done + 1), p)
  {
  }

  lemma ProcessSendKeeps(w: Sender, p: Pipe, wa: Option<WriteAnswer>)
    requires SendInv(w, p) && SendSideEnabled(w, p, ProcessSend(wa))
    ensures var (w', p') := SendSideNext(w, p, ProcessSend(wa)); SendInv(w', p')
  {
    if w.issued[w.done].Write? {
      ProcessWriteShape(w, p, wa);
      ProcessWriteWait(w, p, wa);
      if !w.cancelled {
        ProcessWriteBytes(w, p, wa);
      }
    } else {
      SkipSendKeeps(w, p);
    }
  }

  // The receive half, step by step.

  lemma IssueReadKeeps(r: Receiver, p: Pipe, maxLen: nat)
    requires PipeInv(p) && RecvInv(r, p) && r.pc.RecvReady? && !r.allDataRead && maxLen > 0
    ensures RecvInv(IssueRead(r, maxLen), p)
  {
  }

  lemma IssueStopKeeps(r: Receiver, p: Pipe, code: U64)
    requires PipeInv(p) && RecvInv(r, p) && r.pc.RecvReady? && !r.allDataRead
    ensures RecvInv(IssueStop(r, code), p)
  {
  }

  lemma OnReadReplyKeeps(r: Receiver, p: Pipe)
    requires PipeInv(p) && RecvInv(r, p) && r.pc.RecvAwait? && r.slot.Some?
    ensures RecvInv(OnReadReply(r), p)
  {
  }

  lemma RecvWaitKeeps(r: Receiver, p: Pipe, a: RecvTaskStep)
    requires PipeInv(p) && RecvInv(r, p) && RecvTaskEnabled(r, a)
    requires a.RecvCheckClosed? || a.RecvPollNotified? || a.RecvWake? || a.RecvRecheck?
    ensures RecvInv(RecvTaskNext(r, a), p)
  {
    Parking.TaskKeeps(r.wait, Readable(p), r.closed.Some?);
  }

  lemma CancelReadKeeps(r: Receiver, p: Pipe)
    requires PipeInv(p) && RecvInv(r, p) && RecvTaskEnabled(r, CancelRead)
    ensures RecvInv(RecvTaskNext(r, CancelRead), p)
  {
    Parking.CancelKeeps(r.wait, Readable(p), EmptyReadReply(r));
  }

  lemma DropRecvKeeps(r: Receiver, p: Pipe)
    requires PipeInv(p) && RecvInv(r, p) && RecvTaskEnabled(r, DropRecv)
    ensures RecvInv(RecvTaskNext(r, DropRecv), p)
  {
    if !r.allDataRead {
      IssueStopKeeps(r, p, 0);
    }
  }

  lemma ProcessReadBytes(r: Receiver, p: Pipe, ra: Option<ReadAnswer>)
    requires PipeInv(p) && RecvInv(r, p) && RecvSideEnabled(r, p, ProcessRecv(ra))
    requires r.issued[r.done].Read? && !r.cancelled
    ensures PipeInv(ProcessRead(r, p, ra).1)
    ensures RecvBytes(ProcessRead(r, p, ra).0, ProcessRead(r, p, ra).1)
  {
    var c := r.issued[r.done];
    var (r', p') := ProcessRead(r, p, ra);
    assert r.pc.RecvAwait? && r.slot == None && r.done == |r.issued| - 1;
    assert c == Read(r.pc.maxLen, r.pc.call);
    assert p'.accepted[..p'.consumed] == p.accepted[..p.consumed] + p.accepted[p.consumed .. p'.consumed];
  }

  lemma ProcessReadShape(r: Receiver, p: Pipe, ra: Option<ReadAnswer>)
    requires PipeInv(p) && RecvInv(r, p) && RecvSideEnabled(r, p, ProcessRecv(ra)) && r.issued[r.done].Read?
    ensures PipeInv(ProcessRead(r, p, ra).1)
    ensures RecvShape(ProcessRead(r, p, ra).0)
  {
  }

  lemma ProcessReadWait(r: Receiver, p: Pipe, ra: Option<ReadAnswer>)
    requires PipeInv(p) && RecvInv(r, p) && RecvSideEnabled(r, p, ProcessRecv(ra)) && r.issued[r.done].Read?
    ensures var (r', p') := ProcessRead(r, p, ra);
            Parking.Inv(r'.wait, Readable(p'), EmptyReadReply(r'))
  {
    Parking.EngineKeeps(r.wait, Readable(p), EmptyReadReply(r));
  }

  lemma ProcessRecvKeeps(r: Receiver, p: Pipe, ra: Option<ReadAnswer>)
    requires PipeInv(p) && RecvInv(r, p) && RecvSideEnabled(r, p, ProcessRecv(ra))
    ensures var (r', p') := RecvSideNext(r, p, ProcessRecv(ra)); PipeInv(p') && RecvInv(r', p')
  {
    if r.issued[r.done].Read? {
      ProcessReadShape(r, p, ra);
      ProcessReadWait(r, p, ra);
      if !r.cancelled {
        ProcessReadBytes(r, p, ra);
      }
    }
  }

  lemma LoseRecvKeeps(r: Receiver, p: Pipe)
    requires PipeInv(p) && RecvInv(r, p) && RecvSideEnabled(r, p, LoseRecv)
    ensures RecvInv(RecvSideNext(r, p, LoseRecv).0, p)
  {
    var c, r' := r.issued[r.done], RecvSideNext(r, p, LoseRecv).0;
    assert r'.wait == r.wait && (r'.slot == r.slot || r'.slot == Some(Gone));
    if !r.cancelled && c.Read? {
      assert r.slot == None && r.done == |r.issued| - 1;
    }
  }

  /** Data, a fin or a callback reaches the receiving side. */
  lemma RecvSignalKeeps(r: Receiver, p: Pipe, wait: Parking.Wait, p': Pipe)
    requires PipeInv(p) && RecvInv(r, p) && PipeInv(p')
    requires wait.pc == r.wait.pc
    requires p' == p.(delivered := p'.delivered, finDelivered := p'.finDelivered)
    requires Parking.Inv(wait, Readable(p'), EmptyReadReply(r))
    ensures RecvInv(r.(wait := wait), p')
  {
  }

  lemma DeliverKeeps(r: Receiver, p: Pipe, a: RecvSideStep)
    requires PipeInv(p) && RecvInv(r, p) && RecvSideEnabled(r, p, a)
    requires a.Deliver? || a.DeliverFin?
    ensures var (r', p') := RecvSideNext(r, p, a); PipeInv(p') && RecvInv(r', p')
  {
    Parking.EngineKeeps(r.wait, Readable(p), EmptyReadReply(r));
    var (r', p') := RecvSideNext(r, p, a);
    assert PipeInv(p') && Readable(p');
    RecvSignalKeeps(r, p, r'.wait, p');
  }

  lemma ReadableKeeps(r: Receiver, p: Pipe)
    requires PipeInv(p) && RecvInv(r, p)
    ensures RecvInv(r.(wait := Parking.Callback(r.wait)), p)
  {
    Parking.EngineKeeps(r.wait, Readable(p), EmptyReadReply(r));
    RecvSignalKeeps(r, p, Parking.Callback(r.wait), p);
  }

  lemma CloseRecvKeeps(r: Receiver, p: Pipe, err: ConnectionError)
    requires PipeInv(p) && RecvInv(r, p)
    ensures RecvInv(r.(closed := Some(err)), p)
  {
  }

  // -------------------------------------------------------- putting it together

  lemma SendTaskKeeps(w: Sender, p: Pipe, a: SendTaskStep)
    requires SendInv(w, p) && SendTaskEnabled(w, a)
    ensures SendInv(SendTaskNext(w, a), p)
  {
    match a
    case Offer(buf) => OfferKeeps(w, p, buf);
    case SendWrite => IssueWriteKeeps(w, p);
    case TakeWriteReply => OnWriteReplyKeeps(w, p);
    case SendCheckClosed => SendWaitKeeps(w, p, a);
    case SendPollNotified => SendWaitKeeps(w, p, a);
    case SendWake => SendWaitKeeps(w, p, a);
    case SendRecheck => SendWaitKeeps(w, p, a);
    case Finish => IssueTerminalKeeps(w, p, 0);
    case ResetStream(code) => IssueTerminalKeeps(w, p, code);
    case Prioritize(priority) => PrioritizeKeeps(w, p, priority);
    case DropSend => DropSendKeeps(w, p);
    case CancelWrite => CancelWriteKeeps(w, p);
  }

  lemma SendSideKeeps(w: Sender, p: Pipe, a: SendSideStep)
    requires SendInv(w, p) && SendSideEnabled(w, p, a)
    ensures var (w', p') := SendSideNext(w, p, a); SendInv(w', p')
  {
    match a
    case ProcessSend(wa) => ProcessSendKeeps(w, p, wa);
    case LoseSend => LoseSendKeeps(w, p);
    case Grow(k) => GrowKeeps(w, p, k);
    case WritableCallback => WritableKeeps(w, p);
    case CloseSendSide(err) => CloseSendKeeps(w, p, err);
  }

  lemma RecvTaskKeeps(r: Receiver, p: Pipe, a: RecvTaskStep)
    requires PipeInv(p) && RecvInv(r, p) && RecvTaskEnabled(r, a)
    ensures RecvInv(RecvTaskNext(r, a), p)
  {
    match a
    case SendRead(maxLen) => IssueReadKeeps(r, p, maxLen);
    case TakeReadReply => OnReadReplyKeeps(r, p);
    case RecvCheckClosed => RecvWaitKeeps(r, p, a);
    case RecvPollNotified => RecvWaitKeeps(r, p, a);
    case RecvWake => RecvWaitKeeps(r, p, a);
    case RecvRecheck => RecvWaitKeeps(r, p, a);
    case StopStream(code) => IssueStopKeeps(r, p, code);
    case DropRecv => DropRecvKeeps(r, p);
    case CancelRead => CancelReadKeeps(r, p);
  }

  lemma RecvSideKeeps(r: Receiver, p: Pipe, a: RecvSideStep)
    requires PipeInv(p) && RecvInv(r, p) && RecvSideEnabled(r, p, a)
    ensures var (r', p') := RecvSideNext(r, p, a); PipeInv(p') && RecvInv(r', p')
  {
    match a
    case ProcessRecv(ra) => ProcessRecvKeeps(r, p, ra);
    case LoseRecv => LoseRecvKeeps(r, p);
    case ReadableCallback => ReadableKeeps(r, p);
    case CloseRecvSide(err) => CloseRecvKeeps(r, p, err);
    case Deliver(_) => DeliverKeeps(r, p, a);
    case DeliverFin => DeliverKeeps(r, p, a);
  }

  /** The receiving side never notices that the sending side moved. */
  lemma RecvStable(r: Receiver, p: Pipe, p': Pipe)
    requires PipeInv(p) && RecvInv(r, p) && Extends(p, p')
    ensures PipeInv(p') && RecvInv(r, p')
  {
    assert p'.accepted[..p.consumed] == p.accepted[..p.consumed];
    assert Readable(p') == Readable(p);
  }

  /** And the other way round: the receiving side leaves the sender's view alone. */
  lemma SendStable(w: Sender, r: Receiver, p: Pipe, a: RecvSideStep)
    requires SendInv(w, p) && RecvSideEnabled(r, p, a)
    ensures SendInv(w, RecvSideNext(r, p, a).1)
  {
    var p' := RecvSideNext(r, p, a).1;
    assert p'.accepted == p.accepted && p'.fin == p.fin && p'.capacity == p.capacity;
  }

  lemma StepKeeps(s: State, a: Action)
    requires Inv(s) && Enabled(s, a)
    ensures Inv(Next(s, a))
  {
    match a
    case SendTask(t) => SendTaskKeeps(s.w, s.p, t);
    case SendSide(t) =>
      SendSideKeeps(s.w, s.p, t);
      RecvStable(s.r, s.p, SendSideNext(s.w, s.p, t).1);
    case RecvTask(t) => RecvTaskKeeps(s.r, s.p, t);
    case RecvSide(t) =>
      RecvSideKeeps(s.r, s.p, t);
      SendStable(s.w, s.r, s.p, t);
  }

  lemma {:induction false} RunKeeps(states: seq<State>, acts: seq<Action>, i: nat)
    requires Run(states, acts) && i < |states|
    ensures Inv(states[i])
  {
    if i > 0 {
      RunKeeps(states, acts, i - 1);
      StepKeeps(states[i - 1], acts[i - 1]);
    }
  }
}
