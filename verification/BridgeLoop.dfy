/** The command queue, `process_command` and the event loop of src/bridge.rs. */
module BridgeLoop {
  import opened Types
  import opened Engine
  import opened StreamIds
  import opened Commands
  import L = Linearizability

  class Bridge<E(==, !new)> {
    var queue: seq<L.Request>
    var currentClientConfig: Option<Config>
    var endpointClosed: bool
    var slots: map<nat, Reply>
    var processed: nat
    var e: E
    var calls: seq<DirectCall>
    ghost const initial: Option<Config>
    ghost var sys: L.Sys<E>

    /** The object is the live part of a system state, and the calls it has made are
        those of the sequential run. */
    ghost predicate Valid()
      reads this
    {
      && sys.queue == queue && sys.config == currentClientConfig
      && sys.slots == slots && sys.e == e && |sys.ops| == processed
      && sys.config == L.ConfigOf(sys.ops, initial)
      && calls == L.CallsOf(sys.ops, initial)
    }

    constructor (e0: E, initial: Option<Config>)
      ensures Valid() && L.Init(sys, e0, initial) && !endpointClosed && this.initial == initial
    {
      queue, currentClientConfig, endpointClosed, slots, processed, e := [], initial, false, map[], 0, e0;
      calls := [];
      this.initial := initial;
      sys := L.Sys([], e0, initial, map[], [], [], [], [], {});
    }

    /** send_cmd */
    method SendCmd(task: nat, cmd: Command)
      requires Valid()
      modifies this
      ensures Valid() && sys == L.Next(old(sys), L.Send(task, cmd))
      ensures queue == old(queue) + [L.Request(task, cmd)] && processed == old(processed)
      ensures endpointClosed == old(endpointClosed)
    {
      queue := queue + [L.Request(task, cmd)];
      sys := L.Next(sys, L.Send(task, cmd));
    }

    /** The Connect arm: the engine is called unless the configuration fails to
        build, with the command's own configuration before the default one; only
        the engine's connection is reported as success. */
    method ProcessConnect(cmd: Command, answer: Answer) returns (direct: Option<DirectCall>, reply: Option<Reply>)
      requires cmd.Connect? && Fits(cmd, currentClientConfig, answer)
      ensures direct == None <==> answer.BuildFailed?
      ensures direct.Some? ==> Carries(direct.value, cmd, currentClientConfig)
      ensures reply.Some? && reply.value.ConnectReply?
      ensures forall c: ConnId :: reply.value.connect == Ok(c) <==> answer == ConnectAnswer(Ok(c))
      ensures forall text | answer == ConnectAnswer(Err(InvalidConfig(text))) ::
                reply.value.connect == Err(InvalidDnsName(text))
      ensures answer == ConnectAnswer(Err(OtherError)) ==> reply.value.connect == Err(EndpointStopping)
      ensures answer.BuildFailed? ==> reply.value.connect == Err(answer.cause)
      ensures direct == CallOf(cmd, currentClientConfig, answer) && reply == ReplyFor(answer)
    {
      if answer.BuildFailed? {
        return None, Some(ConnectReply(Err(answer.cause)));
      }
      var config := if cmd.config.Some? then cmd.config else currentClientConfig;
      direct := Some(DoConnect(cmd.addr, cmd.serverName, config));
      match answer.connected
      case Ok(c) => reply := Some(ConnectReply(Ok(c)));
      case Err(InvalidConfig(text)) => reply := Some(ConnectReply(Err(InvalidDnsName(text))));
      case Err(OtherError) => reply := Some(ConnectReply(Err(EndpointStopping)));
    }

    /** The arms that answer a stream command: one call that asks for exactly what the
        command does, and a reply that reports exactly what the engine answered. */
    method ProcessStream(cmd: Command, answer: Answer) returns (direct: DirectCall, reply: Reply)
      requires cmd.OpenBiStream? || cmd.OpenUniStream? || cmd.StreamWrite? || cmd.StreamRead?
      requires Fits(cmd, currentClientConfig, answer)
      ensures Carries(direct, cmd, currentClientConfig)
      ensures cmd.StreamWrite? ==> reply.WriteReplied? && ReportsWrite(reply.write, answer.wrote)
      ensures cmd.StreamRead? ==> reply.ReadReplied? && ReportsRead(reply.read, answer.read)
      ensures cmd.OpenBiStream? || cmd.OpenUniStream? ==>
                && reply.OpenReply?
                && (forall id: StreamId :: reply.open == Ok(id) <==> answer.stream == Some(Some(id)))
                && (reply.open.Err? ==> reply.open.error == LocallyClosed)
      ensures Some(direct) == CallOf(cmd, currentClientConfig, answer) && Some(reply) == ReplyFor(answer)
    {
      if cmd.StreamWrite? {
        direct := DoWrite(cmd.c, cmd.stream, cmd.data, cmd.fin);
        var result: WriteReply := Err(WriteConnectionLost(LocallyClosed));
        if answer.wrote.Some? {
          match answer.wrote.value
          case Wrote(n) => result := Ok(n);
          case WriteDone => result := Ok(0);
          case StreamStopped(code) => result := Err(Stopped(AsU32(code)));
          case WriteFailed => result := Err(WriteClosedStream);
        }
        reply := WriteReplied(result);
      } else if cmd.StreamRead? {
        direct := DoRead(cmd.c, cmd.stream, cmd.maxLen);
        var result: ReadReply := Err(ReadConnectionLost(LocallyClosed));
        if answer.read.Some? {
          match answer.read.value
          case Gave(data, fin) => result := Ok((data, fin));
          case ReadDone => result := Ok(([], false));
          case StreamReset(code) => result := Err(ResetByPeer(AsU32(code)));
          case ReadFailed => result := Err(ReadClosedStream);
        }
        reply := ReadReplied(result);
      } else {
        direct := DoOpen(cmd.c, cmd.OpenBiStream?);
        var result: Result<StreamId, ConnectionError> := Err(LocallyClosed);
        if answer.stream.Some? && answer.stream.value.Some? {
          result := Ok(answer.stream.value.value);
        }
        reply := OpenReply(result);
      }
    }

    /** process_command, given what the engine answers: a reply goes exactly to the
        commands that wait for one; a call asks for exactly what the command does;
        the engine is left alone by the commands that are not for it; only a new
        default configuration replaces the old one. */
    method ProcessCommand(cmd: Command, answer: Answer) returns (direct: Option<DirectCall>, reply: Option<Reply>)
      requires Fits(cmd, currentClientConfig, answer)
      modifies this`currentClientConfig, this`endpointClosed
      ensures reply.Some? <==> Answerable(cmd)
      ensures direct.Some? ==> Carries(direct.value, cmd, old(currentClientConfig))
      ensures direct == None <==> Internal(cmd) || answer.BuildFailed?
      ensures direct == CallOf(cmd, old(currentClientConfig), answer) && reply == ReplyFor(answer)
      ensures cmd.SetDefaultClientConfig? ==> currentClientConfig == Some(cmd.default)
      ensures !cmd.SetDefaultClientConfig? ==> currentClientConfig == old(currentClientConfig)
      ensures currentClientConfig == ConfigAfter(cmd, old(currentClientConfig))
      ensures endpointClosed == (old(endpointClosed) || cmd.CloseEndpoint?)
    {
      direct, reply := None, None;
      match cmd
      case Connect(_, _, _) => direct, reply := ProcessConnect(cmd, answer);
      case SetServerConfig =>
      case SetDefaultClientConfig(config) => currentClientConfig := Some(config);
      case CloseEndpoint(code, reason) =>
        endpointClosed := true;
        direct := Some(DoCloseAll(code, reason));
      case AcceptIncoming =>
      case RefuseIncoming(c) => direct := Some(DoClose(c, false, 0x02, REFUSED));
      case CloseConnection(c, code, reason) => direct := Some(DoClose(c, true, code, reason));
      case StreamShutdownRead(c, id, code) => direct := Some(DoShutdown(c, id, true, code));
      case StreamShutdownWrite(c, id, code) => direct := Some(DoShutdown(c, id, false, code));
      case StreamSetPriority(c, id, urgency) => direct := Some(DoSetPriority(c, id, urgency));
      case _ =>
        var made, sent := ProcessStream(cmd, answer);
        direct, reply := Some(made), Some(sent);
    }

    /** process_command with its call recorded. */
    method Serve(cmd: Command, answer: Answer) returns (reply: Option<Reply>)
      requires Fits(cmd, currentClientConfig, answer)
      modifies this`currentClientConfig, this`endpointClosed, this`calls
      ensures calls == old(calls) + L.Made(cmd, old(currentClientConfig), answer)
      ensures reply == ReplyFor(answer)
      ensures currentClientConfig == ConfigAfter(cmd, old(currentClientConfig))
      ensures endpointClosed == (old(endpointClosed) || cmd.CloseEndpoint?)
    {
      var direct;
      direct, reply := ProcessCommand(cmd, answer);
      if direct.Some? {
        calls := calls + [direct.value];
      }
    }

    /** Take the first command, process it, send its reply. */
    method Dispatch(answer: Answer, after: E)
      requires Valid() && queue != [] && Fits(queue[0].cmd, currentClientConfig, answer)
      modifies this
      ensures Valid() && sys == L.Next(old(sys), L.Process(answer, after))
      ensures endpointClosed == (old(endpointClosed) || old(queue)[0].cmd.CloseEndpoint?)
    {
      L.ProcessIs(sys, answer, after, initial);
      ghost var next := L.Next(sys, L.Process(answer, after));
      var r := queue[0];
      queue := queue[1..];
      var reply := Serve(r.cmd, answer);
      if reply.Some? {
        slots := slots[processed := reply.value];
      }
      e, processed := after, processed + 1;
      sys := next;
    }

    /** A packet, a timeout or `process_connections`: the engine moves by itself. */
    method Settle(after: E)
      requires Valid()
      modifies this
      ensures Valid() && sys == L.Next(old(sys), L.Evolve(after))
      ensures endpointClosed == old(endpointClosed)
    {
      e := after;
      sys := L.Next(sys, L.Evolve(after));
    }

    /** A task awaits its reply, and gets it if it is there. */
    method Await(id: nat) returns (reply: Option<Reply>)
      requires Valid()
      modifies this
      ensures Valid() && endpointClosed == old(endpointClosed)
      ensures reply == if id in old(slots) && id < processed then Some(old(slots)[id]) else None
      ensures sys == L.Next(old(sys), L.Receive(id))
    {
      reply := None;
      if id in slots && id < processed {
        reply := Some(slots[id]);
        slots := slots - {id};
      }
      sys := L.Next(sys, L.Receive(id));
    }

    /** A task drops the future that waits for a reply. */
    method Forget(id: nat)
      requires Valid()
      modifies this
      ensures Valid() && endpointClosed == old(endpointClosed)
      ensures sys == L.Next(old(sys), L.Abandon(id))
    {
      slots := slots - {id};
      sys := L.Next(sys, L.Abandon(id));
    }

    /** One step of the loop or of a task; one the state does not allow is passed
        over. */
    method Perform(spec: L.Spec<E>, step: L.Step<E>)
      requires Valid()
      modifies this
      ensures Valid() && (old(endpointClosed) ==> endpointClosed)
      ensures sys == if L.Enabled(spec, old(sys), step) then L.Next(old(sys), step) else old(sys)
    {
      match step
      case Send(task, cmd) => SendCmd(task, cmd);
      case Process(answer, after) =>
        if queue != [] && L.Serves(spec, e, queue[0].cmd, currentClientConfig, answer, after) {
          Dispatch(answer, after);
        }
      case Evolve(after) =>
        if spec.env(e, after) {
          Settle(after);
        }
      case Receive(id) => var _ := Await(id);
      case Abandon(id) => Forget(id);
    }

    /** run_bridge, with the tasks around it: whatever order commands, replies and
        the engine's own moves come in, what the tasks have seen is explained by
        the operations processed so far, the calls made on the engine are exactly
        those of that explanation, in order, and a closed endpoint stays closed. */
    method RunBridge(spec: L.Spec<E>, ghost e0: E, schedule: seq<L.Step<E>>)
      requires Valid() && L.Inv(spec, e0, initial, sys)
      modifies this
      ensures Valid() && L.Inv(spec, e0, initial, sys)
      ensures L.Linearizes(spec, e0, initial, sys.history, sys.ops)
      ensures sys == L.Drive(spec, old(sys), schedule) && calls == L.CallsOf(sys.ops, initial)
      ensures old(endpointClosed) ==> endpointClosed
    {
      for i := 0 to |schedule|
        invariant Valid() && sys == L.Drive(spec, old(sys), schedule[..i])
        invariant old(endpointClosed) ==> endpointClosed
      {
        assert schedule[..i + 1][..i] == schedule[..i];
        Perform(spec, schedule[i]);
      }
      assert schedule[..|schedule|] == schedule;
      L.DriveKeeps(spec, e0, initial, old(sys), schedule);
      L.InvLinearizes(spec, e0, initial, sys);
    }
  }

  /** src/endpoint.rs, as far as it talks to the bridge. A command is known by its
      number. */
  class Endpoint<E(==, !new)> {
    const bridge: Bridge<E>

    constructor (b: Bridge<E>)
      ensures bridge == b
    {
      bridge := b;
    }

    /** connect: refused once the endpoint is closed; else a Connect without a
        configuration of its own joins the queue. */
    method Connect(task: nat, addr: string, serverName: string) returns (r: Result<nat, ConnectError>)
      requires bridge.Valid()
      modifies bridge
      ensures bridge.Valid() && bridge.endpointClosed == old(bridge.endpointClosed)
      ensures r.Err? <==> bridge.endpointClosed
      ensures r.Err? ==> r.error == EndpointStopping && bridge.queue == old(bridge.queue)
      ensures r.Ok? ==>
                && bridge.queue == old(bridge.queue) + [L.Request(task, Commands.Connect(addr, serverName, None))]
                && r.value == bridge.processed + |old(bridge.queue)|
    {
      if bridge.endpointClosed {
        return Err(EndpointStopping);
      }
      r := Ok(bridge.processed + |bridge.queue|);
      bridge.SendCmd(task, Commands.Connect(addr, serverName, None));
    }

    /** connect_with: the same with a configuration of its own. */
    method ConnectWith(task: nat, config: Config, addr: string, serverName: string)
      returns (r: Result<nat, ConnectError>)
      requires bridge.Valid()
      modifies bridge
      ensures bridge.Valid() && bridge.endpointClosed == old(bridge.endpointClosed)
      ensures r.Err? <==> bridge.endpointClosed
      ensures r.Err? ==> r.error == EndpointStopping && bridge.queue == old(bridge.queue)
      ensures r.Ok? ==>
                && bridge.queue == old(bridge.queue)
                    + [L.Request(task, Commands.Connect(addr, serverName, Some(config)))]
                && r.value == bridge.processed + |old(bridge.queue)|
    {
      if bridge.endpointClosed {
        return Err(EndpointStopping);
      }
      r := Ok(bridge.processed + |bridge.queue|);
      bridge.SendCmd(task, Commands.Connect(addr, serverName, Some(config)));
    }

    /** close: always sends the command, with the given code and reason. */
    method Close(task: nat, code: U64, reason: seq<Byte>)
      requires bridge.Valid()
      modifies bridge
      ensures bridge.Valid() && bridge.endpointClosed == old(bridge.endpointClosed)
      ensures bridge.queue == old(bridge.queue) + [L.Request(task, Commands.CloseEndpoint(code, reason))]
    {
      bridge.SendCmd(task, Commands.CloseEndpoint(code, reason));
    }
  }
}
