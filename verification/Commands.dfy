/** The commands that cross from the async API to the bridge thread, the direct
    engine calls `process_command` makes of them, and the replies it sends. */
module Commands {
  import opened Types
  import opened Engine
  import opened StreamIds
  import Lifecycle

  type ConnId = Lifecycle.ConnId
  type Config = string

  datatype Command =
    | Connect(addr: string, serverName: string, config: Option<Config>)
    | SetServerConfig
    | SetDefaultClientConfig(default: Config)
    | CloseEndpoint(code: U64, reason: seq<Byte>)
    | AcceptIncoming
    | RefuseIncoming(c: ConnId)
    | CloseConnection(c: ConnId, code: U64, reason: seq<Byte>)
    | OpenBiStream(c: ConnId)
    | OpenUniStream(c: ConnId)
    | StreamWrite(c: ConnId, stream: StreamId, data: seq<Byte>, fin: bool)
    | StreamRead(c: ConnId, stream: StreamId, maxLen: nat)
    | StreamShutdownRead(c: ConnId, stream: StreamId, code: U64)
    | StreamShutdownWrite(c: ConnId, stream: StreamId, code: U64)
    | StreamSetPriority(c: ConnId, stream: StreamId, urgency: int)

  /** What is asked of the engine. `config` is None for the endpoint's default. */
  datatype DirectCall =
    | DoConnect(addr: string, serverName: string, config: Option<Config>)
    | DoCloseAll(code: U64, reason: seq<Byte>)
    | DoClose(c: ConnId, app: bool, code: U64, reason: seq<Byte>)
    | DoOpen(c: ConnId, bidi: bool)
    | DoWrite(c: ConnId, stream: StreamId, data: seq<Byte>, fin: bool)
    | DoRead(c: ConnId, stream: StreamId, maxLen: nat)
    | DoShutdown(c: ConnId, stream: StreamId, read: bool, code: U64)
    | DoSetPriority(c: ConnId, stream: StreamId, urgency: int)

  datatype EngineError = InvalidConfig(text: string) | OtherError

  /** What the engine answers; the inner None of an open is a connection that is
      not found. `BuildFailed`: the client configuration could not be built, so
      the engine was not called. */
  datatype Answer =
    | ConnectAnswer(connected: Result<ConnId, EngineError>)
    | BuildFailed(cause: ConnectError)
    | OpenAnswer(stream: Option<Option<StreamId>>)
    | WriteAnswered(wrote: Option<WriteAnswer>)
    | ReadAnswered(read: Option<ReadAnswer>)
    | Silent

  datatype Reply =
    | ConnectReply(connect: Result<ConnId, ConnectError>)
    | OpenReply(open: Result<StreamId, ConnectionError>)
    | WriteReplied(write: WriteReply)
    | ReadReplied(read: ReadReply)

  /** A connect uses its own configuration or else the default of the moment. */
  function ConfigFor(own: Option<Config>, current: Option<Config>): Option<Config> {
    if own.Some? then own else current
  }

  const REFUSED: seq<Byte> := [0x72, 0x65, 0x66, 0x75, 0x73, 0x65, 0x64]

  /** The direct call a command stands for, if any. The configuration of a connect
      is built first, and when that fails the engine is not called. */
  function CallOf(cmd: Command, current: Option<Config>, answer: Answer): Option<DirectCall> {
    match cmd
    case Connect(addr, name, own) =>
      if answer.BuildFailed? then None else Some(DoConnect(addr, name, ConfigFor(own, current)))
    case SetServerConfig => None
    case SetDefaultClientConfig(_) => None
    case CloseEndpoint(code, reason) => Some(DoCloseAll(code, reason))
    case AcceptIncoming => None
    case RefuseIncoming(c) => Some(DoClose(c, false, 0x02, REFUSED))
    case CloseConnection(c, code, reason) => Some(DoClose(c, true, code, reason))
    case OpenBiStream(c) => Some(DoOpen(c, true))
    case OpenUniStream(c) => Some(DoOpen(c, false))
    case StreamWrite(c, id, data, fin) => Some(DoWrite(c, id, data, fin))
    case StreamRead(c, id, maxLen) => Some(DoRead(c, id, maxLen))
    case StreamShutdownRead(c, id, code) => Some(DoShutdown(c, id, true, code))
    case StreamShutdownWrite(c, id, code) => Some(DoShutdown(c, id, false, code))
    case StreamSetPriority(c, id, urgency) => Some(DoSetPriority(c, id, urgency))
  }

  /** The commands that carry a reply channel. */
  predicate Answerable(cmd: Command) {
    cmd.Connect? || cmd.OpenBiStream? || cmd.OpenUniStream? || cmd.StreamWrite? || cmd.StreamRead?
  }

  /** The call asks the engine for what the command asks of the bridge, seen from the
      call: its kind fits, and every value in it is one of the command's. */
  predicate Carries(direct: DirectCall, cmd: Command, current: Option<Config>) {
    match direct
    case DoConnect(addr, name, config) =>
      cmd.Connect? && addr == cmd.addr && name == cmd.serverName && config in {cmd.config, current}
      && (cmd.config.Some? ==> config == cmd.config) && (cmd.config == None ==> config == current)
    case DoCloseAll(code, reason) => cmd.CloseEndpoint? && code == cmd.code && reason == cmd.reason
    case DoClose(c, app, code, reason) =>
      if app then cmd.CloseConnection? && c == cmd.c && code == cmd.code && reason == cmd.reason
      else cmd.RefuseIncoming? && c == cmd.c && code == 2 && Spells(reason, "refused")
    case DoOpen(c, bidi) => (if bidi then cmd.OpenBiStream? else cmd.OpenUniStream?) && c == cmd.c
    case DoWrite(c, id, data, fin) =>
      cmd.StreamWrite? && c == cmd.c && id == cmd.stream && data == cmd.data && fin == cmd.fin
    case DoRead(c, id, maxLen) => cmd.StreamRead? && c == cmd.c && id == cmd.stream && maxLen == cmd.maxLen
    case DoShutdown(c, id, read, code) =>
      (if read then cmd.StreamShutdownRead? else cmd.StreamShutdownWrite?)
      && c == cmd.c && id == cmd.stream && code == cmd.code
    case DoSetPriority(c, id, urgency) =>
      cmd.StreamSetPriority? && c == cmd.c && id == cmd.stream && urgency == cmd.urgency
  }

  predicate Spells(bytes: seq<Byte>, text: string) {
    |bytes| == |text| && forall i | 0 <= i < |text| :: bytes[i] == text[i] as int
  }

  /** The commands that are none of the engine's business. */
  predicate Internal(cmd: Command) {
    cmd.SetServerConfig? || cmd.SetDefaultClientConfig? || cmd.AcceptIncoming?
  }

  function ConfigAfter(cmd: Command, current: Option<Config>): Option<Config> {
    if cmd.SetDefaultClientConfig? then Some(cmd.default) else current
  }

  /** The kind of answer a command can get; only a connect with a configuration
      to build can fail before the engine is called. */
  predicate Fits(cmd: Command, current: Option<Config>, answer: Answer) {
    match cmd
    case Connect(_, _, own) => answer.ConnectAnswer? || (answer.BuildFailed? && ConfigFor(own, current).Some?)
    case OpenBiStream(_) => answer.OpenAnswer?
    case OpenUniStream(_) => answer.OpenAnswer?
    case StreamWrite(_, _, _, _) => answer.WriteAnswered?
    case StreamRead(_, _, _) => answer.ReadAnswered?
    case _ => answer.Silent?
  }

  function ReplyFor(answer: Answer): Option<Reply> {
    match answer
    case ConnectAnswer(Ok(c)) => Some(ConnectReply(Ok(c)))
    case ConnectAnswer(Err(InvalidConfig(text))) => Some(ConnectReply(Err(InvalidDnsName(text))))
    case ConnectAnswer(Err(OtherError)) => Some(ConnectReply(Err(EndpointStopping)))
    case BuildFailed(cause) => Some(ConnectReply(Err(cause)))
    case OpenAnswer(Some(Some(id))) => Some(OpenReply(Ok(id)))
    case OpenAnswer(_) => Some(OpenReply(Err(LocallyClosed)))
    case WriteAnswered(wrote) => Some(WriteReplied(ReplyToWrite(wrote)))
    case ReadAnswered(read) => Some(ReadReplied(ReplyToRead(read)))
    case Silent => None
  }

  /** Every direct call asks for exactly what its command does, and a command that
      leads to none is internal or a connect that could not be built. */
  lemma CallsCarryTheirCommands(cmd: Command, current: Option<Config>, answer: Answer)
    ensures match CallOf(cmd, current, answer)
            case None => Internal(cmd) || (cmd.Connect? && answer.BuildFailed?)
            case Some(direct) => Carries(direct, cmd, current) && !Internal(cmd)
  {
  }
}
