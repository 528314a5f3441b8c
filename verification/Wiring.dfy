/** How the systems meet at the bridge: the commands that handles and futures issue,
    as they stand in the shared queue; the calls the bridge makes of them; and what
    those calls do to the pipe, the open futures and the connections. */
module Wiring {
  import opened Types
  import opened Engine
  import opened StreamIds
  import opened Commands
  import P = StreamPath
  import S = Streams
  import ST = StreamsTheorems
  import L = Lifecycle
  import LP = LifecycleProof

  // ------------------------------------------------------------------- streams

  /** A command of a SendStream or RecvStream in the shared queue. */
  function SendCommand(c: ConnId, id: StreamId, cmd: P.SendCmd): Command {
    match cmd
    case Write(data, fin, _) => StreamWrite(c, id, data, fin)
    case SetPriority(urgency) => StreamSetPriority(c, id, urgency)
    case ShutdownWrite(code) => StreamShutdownWrite(c, id, code)
  }

  function RecvCommand(c: ConnId, id: StreamId, cmd: P.RecvCmd): Command {
    match cmd
    case Read(maxLen, _) => StreamRead(c, id, maxLen)
    case ShutdownRead(code) => StreamShutdownRead(c, id, code)
  }

  /** `p'` is `p` after the engine has answered a write of `data` with `fin`: it has
      taken what it says it accepted, and the fin with the last byte. */
  ghost predicate Filled(p: P.Pipe, data: seq<Byte>, fin: bool, wa: Option<WriteAnswer>, p': P.Pipe) {
    match ReplyToWrite(wa)
    case Ok(n) =>
      && n <= |data| && p'.accepted == p.accepted + data[..n] && (p'.fin <==> fin && n == |data|)
      && p'.consumed == p.consumed && p'.finRead == p.finRead && p'.delivered == p.delivered
    case Err(_) => p' == p
  }

  /** The task is waiting for the reply to command number `call`. */
  predicate Awaits(w: P.Sender, call: nat) {
    w.pc.SendAwait? && w.pc.call == call && w.slot == None
  }

  lemma ProcessingFills(w: P.Sender, p: P.Pipe, wa: Option<WriteAnswer>)
    requires P.SendSideEnabled(w, p, P.ProcessSend(wa)) && w.issued[w.done].Write?
    ensures var cmd, n := w.issued[w.done], P.SendSideNext(w, p, P.ProcessSend(wa));
            && Filled(p, cmd.data, cmd.fin, wa, n.1)
            && n.0.slot == (if Awaits(w, cmd.call) then Some(P.Answer(ReplyToWrite(wa))) else w.slot)
  {
    assert P.SendSideNext(w, p, P.ProcessSend(wa)) == P.ProcessWrite(w, p, wa);
  }

  /** The pipe takes in exactly what the call offers, as far as the engine says it
      accepted it, with the fin of the call; and the task is told what the engine
      answered. */
  lemma WriteCallFillsThePipe(c: ConnId, id: StreamId, w: P.Sender, p: P.Pipe, wa: Option<WriteAnswer>,
      config: Option<Config>) returns (direct: DirectCall)
    requires P.SendSideEnabled(w, p, P.ProcessSend(wa)) && w.issued[w.done].Write?
    ensures CallOf(SendCommand(c, id, w.issued[w.done]), config, WriteAnswered(wa)) == Some(direct)
    ensures direct.DoWrite? && direct.c == c && direct.stream == id
    ensures Filled(p, direct.data, direct.fin, wa, P.SendSideNext(w, p, P.ProcessSend(wa)).1)
    ensures var slot := P.SendSideNext(w, p, P.ProcessSend(wa)).0.slot;
            if Awaits(w, w.issued[w.done].call) then
              slot.Some? && slot.value.Answer? && ReplyFor(WriteAnswered(wa)) == Some(WriteReplied(slot.value.value))
            else
              slot == w.slot
  {
    ProcessingFills(w, p, wa);
    direct := CallOf(SendCommand(c, id, w.issued[w.done]), config, WriteAnswered(wa)).value;
  }

  /** `p'` is `p` after the engine has answered a read of at most maxLen bytes: the
      next bytes are gone from it, and nothing else. */
  ghost predicate Drained(p: P.Pipe, maxLen: nat, ra: Option<ReadAnswer>, p': P.Pipe) {
    match ReplyToRead(ra)
    case Ok((data, fin)) =>
      && |data| <= maxLen && p.consumed + |data| <= |p.accepted|
      && data == p.accepted[p.consumed .. p.consumed + |data|]
      && p' == p.(consumed := p.consumed + |data|, finRead := p.finRead || fin)
    case Err(_) => p' == p
  }

  predicate ReadAwaits(r: P.Receiver, call: nat) {
    r.pc.RecvAwait? && r.pc.call == call && r.slot == None
  }

  lemma ProcessingDrains(r: P.Receiver, p: P.Pipe, ra: Option<ReadAnswer>)
    requires P.RecvSideEnabled(r, p, P.ProcessRecv(ra)) && r.issued[r.done].Read?
    ensures var cmd, n := r.issued[r.done], P.RecvSideNext(r, p, P.ProcessRecv(ra));
            && Drained(p, cmd.maxLen, ra, n.1)
            && n.0.slot == (if ReadAwaits(r, cmd.call) then Some(P.Answer(ReplyToRead(ra))) else r.slot)
  {
    assert P.RecvSideNext(r, p, P.ProcessRecv(ra)) == P.ProcessRead(r, p, ra);
  }

  /** The call asks for as many bytes as the caller has room for, and the task gets
      the bytes that leave the pipe. */
  lemma ReadCallDrainsThePipe(c: ConnId, id: StreamId, r: P.Receiver, p: P.Pipe, ra: Option<ReadAnswer>,
      config: Option<Config>) returns (direct: DirectCall)
    requires P.RecvSideEnabled(r, p, P.ProcessRecv(ra)) && r.issued[r.done].Read?
    ensures CallOf(RecvCommand(c, id, r.issued[r.done]), config, ReadAnswered(ra)) == Some(direct)
    ensures direct.DoRead? && direct.c == c && direct.stream == id
    ensures Drained(p, direct.maxLen, ra, P.RecvSideNext(r, p, P.ProcessRecv(ra)).1)
    ensures var slot := P.RecvSideNext(r, p, P.ProcessRecv(ra)).0.slot;
            if ReadAwaits(r, r.issued[r.done].call) then
              slot.Some? && slot.value.Answer? && ReplyFor(ReadAnswered(ra)) == Some(ReadReplied(slot.value.value))
            else
              slot == r.slot
  {
    ProcessingDrains(r, p, ra);
    direct := CallOf(RecvCommand(c, id, r.issued[r.done]), config, ReadAnswered(ra)).value;
  }

  /** Ending a half reaches the engine as that end of that half of that stream. */
  lemma EndsReachTheRightHalf(c: ConnId, id: StreamId, code: U64, config: Option<Config>, call: nat)
    ensures CallOf(SendCommand(c, id, P.ShutdownWrite(code)), config, Silent) == Some(DoShutdown(c, id, false, code))
    ensures CallOf(RecvCommand(c, id, P.ShutdownRead(code)), config, Silent) == Some(DoShutdown(c, id, true, code))
    ensures forall wa ::
              CallOf(SendCommand(c, id, P.Write([], true, call)), config,
                  WriteAnswered(wa)) == Some(DoWrite(c, id, [], true))
  {
  }

  // --------------------------------------------------------------------- opens

  /** The command of an open_bi or open_uni future. */
  function OpenCommand(c: ConnId, d: Dir): Command {
    if d == Bi then OpenBiStream(c) else OpenUniStream(c)
  }

  /** What the bridge tells the future: the engine's stream, or that the connection is
      gone or full. */
  function OpenAnswered(stream: Option<Option<StreamId>>): Option<Result<StreamId, ConnectionError>> {
    match ReplyFor(OpenAnswer(stream))
    case Some(OpenReply(open)) => Some(open)
    case _ => None
  }

  /** The call asks for the direction of the future, and a stream it yields is of that
      direction; what the future resolves with is what the engine answered. */
  lemma OpenCallFitsTheFuture(c: ConnId, s: S.State, k: nat, stream: Option<Option<StreamId>>, config: Option<Config>)
    requires S.Enabled(s, S.ProcessOpen(k, OpenAnswered(stream)))
    ensures var direct := CallOf(OpenCommand(c, s.openers[k].dir), config, OpenAnswer(stream));
            && direct.Some? && direct.value.DoOpen? && direct.value.c == c
            && (direct.value.bidi <==> s.openers[k].dir == Bi)
            && (forall id: StreamId | stream == Some(Some(id)) :: IsBidi(id) <==> direct.value.bidi)
    ensures s.openers[k].pc == S.Sent ==>
              S.Next(s, S.ProcessOpen(k, OpenAnswered(stream))).openers[k].pc == S.Replied(OpenAnswered(stream))
    ensures forall id: StreamId :: ST.Taken(OpenAnswered(stream)) == Ok(id) <==> stream == Some(Some(id))
    ensures ST.Taken(OpenAnswered(stream)).Err? ==> ST.Taken(OpenAnswered(stream)) == Err(LocallyClosed)
  {
  }

  // --------------------------------------------------------------- connections

  /** Closing a connection or the endpoint calls close with the given code and
      reason, as an application close. */
  lemma CloseCallsAreTheSame(s: L.State, c: ConnId, code: U64, reason: seq<Byte>, config: Option<Config>)
    requires c in s.live && c in s.conns
    ensures var direct := CallOf(CloseConnection(c, code, reason), config, Silent);
            && direct.Some? && direct.value.DoClose? && direct.value.app
            && L.BridgeNext(s, L.CloseConnection(c, code, reason)).closing ==
                 s.closing + {L.CloseCall(direct.value.c, direct.value.code, direct.value.reason)}
    ensures var direct := CallOf(CloseEndpoint(code, reason), config, Silent);
            && direct.Some? && direct.value.DoCloseAll?
            && L.CloseCall(c, direct.value.code, direct.value.reason) in
                 L.BridgeNext(s, L.CloseEndpoint(code, reason)).closing
  {
  }

  /** From the engine's refusal of a connect to the error of the Connecting future:
      a configuration it calls invalid keeps its text, any other refusal is reported
      as a local close, and a configuration that cannot be built keeps its cause. */
  lemma RefusalIsReported(answer: Answer, e: ConnectError, err: ConnectionError)
    requires ReplyFor(answer) == Some(ConnectReply(Err(e))) && LP.Refusal(e, err)
    ensures forall text | answer == ConnectAnswer(Err(InvalidConfig(text))) :: err == TransportError(0, text)
    ensures answer == ConnectAnswer(Err(OtherError)) ==> err == LocallyClosed
    ensures forall text | answer == BuildFailed(InvalidDnsName(text)) :: err == TransportError(0, text)
  {
  }
}
