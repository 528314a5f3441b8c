/** Values shared by every part of the model: results, the error enumerations
    and the integer widths that the crate relies on. */
module Types {

  datatype Option<+T> = None | Some(value: T)

  datatype Result<+T, +E> = Ok(value: T) | Err(error: E)

  /** What polling a future yields. */
  datatype Poll<+T> = Pending | Done(value: T)

  type Byte = b: int | 0 <= b < 256

  const TWO_32: int := 0x1_0000_0000
  const TWO_64: int := 0x1_0000_0000_0000_0000

  type U64 = n: int | 0 <= n < TWO_64

  /** `code as u32`: the width to which the bridge narrows reset and stop codes. */
  function AsU32(code: U64): (r: int)
    ensures 0 <= r < TWO_32 && (code - r) % TWO_32 == 0
    ensures r == code <==> code < TWO_32
  {
    code % TWO_32
  }

  datatype ConnectionError =
    | VersionMismatch
    | TransportError(code: U64, text: string)
    | ConnectionClosed(errorCode: U64, reason: seq<Byte>)
    | ApplicationClosed(errorCode: U64, reason: seq<Byte>)
    | Reset
    | TimedOut
    | LocallyClosed
    | CidsExhausted

  datatype ConnectError =
    | EndpointStopping
    | ConnectCidsExhausted
    | InvalidDnsName(name: string)
    | InvalidRemoteAddress(address: string)
    | NoDefaultClientConfig

  /** ConnectionError::from_connect_error: the two kinds that have a counterpart keep
      it, the others become a transport error that carries their text. */
  function FromConnectError(e: ConnectError): (r: ConnectionError)
    ensures r == LocallyClosed <==> e == EndpointStopping
    ensures r == CidsExhausted <==> e == ConnectCidsExhausted
    ensures forall name :: r == TransportError(0, name) <== e == InvalidDnsName(name)
    ensures forall address ::
              r == TransportError(0, "invalid remote address: " + address) <== e == InvalidRemoteAddress(address)
    ensures e == NoDefaultClientConfig ==> r == TransportError(0, "no default client config")
  {
    match e
    case EndpointStopping => LocallyClosed
    case ConnectCidsExhausted => CidsExhausted
    case InvalidDnsName(s) => TransportError(0, s)
    case InvalidRemoteAddress(a) => TransportError(0, "invalid remote address: " + a)
    case NoDefaultClientConfig => TransportError(0, "no default client config")
  }

  datatype WriteError =
    | Stopped(code: int)
    | WriteConnectionLost(cause: ConnectionError)
    | WriteClosedStream

  datatype ReadError =
    | ResetByPeer(code: int)
    | ReadConnectionLost(cause: ConnectionError)
    | ReadClosedStream
}
