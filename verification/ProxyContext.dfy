/** The state of one proxied connection: the records of
    http_proxy_server_connection_context.hpp, the connection's own fields, and what
    the I/O service holds for it (sockets, timer, outstanding operations). */
module ProxyContext {
  import opened Text
  import opened ChunkChecker
  import opened HeaderParser
  import Authentication

  const BUFFER_LENGTH: nat := 2048
  const MAX_REQUEST_HEADER_LENGTH: nat := 10240
  const MAX_RESPONSE_HEADER_LENGTH: nat := 10240

  datatype ConnectionState =
    | ReadCipherData
    | ResolveOriginServerAddress
    | ConnectToOriginServer
    | TunnelTransfer
    | ReadHttpRequestHeader
    | WriteHttpRequestHeader
    | ReadHttpRequestContent
    | WriteHttpRequestContent
    | ReadHttpResponseHeader
    | WriteHttpResponseHeader
    | ReadHttpResponseContent
    | WriteHttpResponseContent
    | ReportConnectionEstablished
    | ReportError

  datatype Endpoint = Endpoint(address: string, port: nat)

  datatype ConnectionContext = ConnectionContext(
    state: ConnectionState,
    reconnectOnError: bool,
    originName: string,
    originPort: nat,
    originEndpoint: Option<Endpoint>)

  datatype RequestContext = RequestContext(
    keepAlive: bool,
    contentLength: Option<nat>,
    hasRead: nat,
    checker: Option<Checker>)

  datatype ResponseContext = ResponseContext(
    keepAlive: bool,
    contentLength: Option<nat>,
    hasRead: nat,
    checker: Option<Checker>)

  /** The memory a write operation points into. */
  datatype Buffer = ModifiedRequest | UpgoingWrite | ModifiedResponse | DowngoingWrite

  /** A write to the origin, with the peer its socket had when it was started:
      none if the socket was closed. */
  datatype OriginWrite = OriginWrite(buffer: Buffer, offset: nat, size: nat, peer: Option<Endpoint>)

  datatype ClientWrite = ClientWrite(buffer: Buffer, offset: nat, size: nat)

  datatype Query = Query(host: string, port: nat)

  /** Operations started and not completed; those of a kind complete in order. */
  datatype Ops = Ops(
    clientReads: nat,
    originReads: nat,
    resolves: seq<Query>,
    connects: seq<seq<Endpoint>>,
    originWrites: seq<OriginWrite>,
    clientWrites: seq<ClientWrite>)

  const NO_OPS: Ops := Ops(0, 0, [], [], [], [])

  /** One connection. `origin` is the peer of the origin socket while it is open.
      `waits` counts pending timer waits and `fired` the timeouts queued to run.
      `fault` is set when the program would violate an assertion, look into an empty
      optional, or run a handler in a state for which it has no branch. */
  datatype Conn = Conn(
    ctx: ConnectionContext,
    req: RequestContext,
    resp: ResponseContext,
    requestData: string,
    modifiedRequest: string,
    responseData: string,
    modifiedResponse: string,
    requestHead: Option<RequestHead>,
    responseHead: Option<ResponseHead>,
    upRead: string,
    upWrite: string,
    downRead: string,
    downWrite: string,
    clientOpen: bool,
    origin: Option<Endpoint>,
    waits: nat,
    fired: nat,
    ops: Ops,
    fault: bool)
  {
    function BufferText(b: Buffer): string {
      match b
      case ModifiedRequest => modifiedRequest
      case UpgoingWrite => upWrite
      case ModifiedResponse => modifiedResponse
      case DowngoingWrite => downWrite
    }
  }

  /** Settings the connection reads but never writes. */
  datatype Config = Config(enableAuth: bool, users: Authentication.Users)

  /** What the I/O service can do next. */
  datatype Event =
    | ClientRead(data: string)
    | ClientReadFailed
    | OriginRead(data: string)
    | OriginReadFailed
    | ClientWritten(n: nat)
    | ClientWriteFailed
    | OriginWritten(n: nat)
    | OriginWriteFailed
    | Resolved(endpoints: seq<Endpoint>)
    | ResolveFailed
    | Connected
    | ConnectFailed
    | TimerExpires
    | TimeoutRuns
}
