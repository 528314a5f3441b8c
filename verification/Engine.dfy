/** Answers of the QUIC engine to direct stream calls, and the replies that
    `process_command` makes of them. `None` stands for a connection that
    `conn_get_mut` does not find. */
module Engine {
  import opened Types

  datatype WriteAnswer =
    | Wrote(n: nat)
    | WriteDone
    | StreamStopped(code: U64)
    | WriteFailed

  datatype ReadAnswer =
    | Gave(data: seq<Byte>, fin: bool)
    | ReadDone
    | StreamReset(code: U64)
    | ReadFailed

  type WriteReply = Result<nat, WriteError>
  type ReadReply = Result<(seq<Byte>, bool), ReadError>

  /** What a reply to a write says about the engine's answer. Codes are kept modulo
      2^32. */
  predicate ReportsWrite(r: WriteReply, answer: Option<WriteAnswer>) {
    match r
    case Ok(n) => answer == Some(Wrote(n)) || (n == 0 && answer == Some(WriteDone))
    case Err(Stopped(n)) =>
      answer.Some? && answer.value.StreamStopped? && 0 <= n < TWO_32 && (answer.value.code - n) % TWO_32 == 0
    case Err(WriteClosedStream) => answer == Some(WriteFailed)
    case Err(WriteConnectionLost(cause)) => answer == None && cause == LocallyClosed
  }

  predicate ReportsRead(r: ReadReply, answer: Option<ReadAnswer>) {
    match r
    case Ok((data, fin)) => answer == Some(Gave(data, fin)) || (data == [] && !fin && answer == Some(ReadDone))
    case Err(ResetByPeer(n)) =>
      answer.Some? && answer.value.StreamReset? && 0 <= n < TWO_32 && (answer.value.code - n) % TWO_32 == 0
    case Err(ReadClosedStream) => answer == Some(ReadFailed)
    case Err(ReadConnectionLost(cause)) => answer == None && cause == LocallyClosed
  }

  /** The StreamWrite arm. */
  function ReplyToWrite(answer: Option<WriteAnswer>): (r: WriteReply)
    ensures ReportsWrite(r, answer)
  {
    match answer
    case None => Err(WriteConnectionLost(LocallyClosed))
    case Some(Wrote(n)) => Ok(n)
    case Some(WriteDone) => Ok(0)
    case Some(StreamStopped(code)) => Err(Stopped(AsU32(code)))
    case Some(WriteFailed) => Err(WriteClosedStream)
  }

  /** The StreamRead arm. */
  function ReplyToRead(answer: Option<ReadAnswer>): (r: ReadReply)
    ensures ReportsRead(r, answer)
  {
    match answer
    case None => Err(ReadConnectionLost(LocallyClosed))
    case Some(Gave(data, fin)) => Ok((data, fin))
    case Some(ReadDone) => Ok(([], false))
    case Some(StreamReset(code)) => Err(ResetByPeer(AsU32(code)))
    case Some(ReadFailed) => Err(ReadClosedStream)
  }
}
