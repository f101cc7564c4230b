/** The handlers of http_proxy_server_connection as functions on its state, one
    completion handler a step. */
module ProxyMachine {
  import opened Text
  import opened ChunkChecker
  import opened HeaderMap
  import opened HeaderParser
  import opened HeadPrinter
  import opened ProxyContext
  import Authentication

  // ----------------------------------------------------------- timer and operations

  function Fault(c: Conn): Conn { c.(fault := true) }

  function InState(c: Conn, s: ConnectionState): Conn { c.(ctx := c.ctx.(state := s)) }

  /** set_timer: a new wait; one that is still pending is an assertion failure. */
  function SetTimer(c: Conn): Conn { c.(waits := 1, fault := c.fault || c.waits > 0) }

  function AsyncReadClient(c: Conn): Conn {
    var d := SetTimer(c);
    d.(ops := d.ops.(clientReads := d.ops.clientReads + 1))
  }

  function ReadOrigin(c: Conn): Conn { c.(ops := c.ops.(originReads := c.ops.originReads + 1)) }

  function AsyncReadOrigin(c: Conn): Conn { ReadOrigin(SetTimer(c)) }

  function AsyncWriteOrigin(c: Conn, buffer: Buffer, offset: nat, size: nat): Conn {
    var d := SetTimer(c);
    d.(ops := d.ops.(originWrites := d.ops.originWrites + [OriginWrite(buffer, offset, size, d.origin)]))
  }

  function AsyncWriteClient(c: Conn, buffer: Buffer, offset: nat, size: nat): Conn {
    var d := SetTimer(c);
    d.(ops := d.ops.(clientWrites := d.ops.clientWrites + [ClientWrite(buffer, offset, size)]))
  }

  function CloseOrigin(c: Conn): Conn { c.(origin := None) }

  function CloseBoth(c: Conn): Conn { c.(origin := None, clientOpen := false) }

  // ----------------------------------------------------------------- error pages

  function PageContent(code: string, description: string, message: string): string {
    "<!DOCTYPE html><html><head><title>" + code + " " + description
    + "</title></head><body bgcolor=\"white\"><center><h1>" + code + " " + description + "</h1>"
    + (if message == "" then "" else "<br/>" + message + "</center>")
    + "<hr><center>azure http proxy server</center></body></html>"
  }

  function ErrorPage(code: string, description: string, message: string, withContent: bool): string {
    var content := PageContent(code, description, message);
    "HTTP/1.1 " + code + (if description == "" then "" else " " + description) + CRLF
    + "Content-Type: text/html" + CRLF + "Server: AzureHttpProxy" + CRLF
    + "Content-Length: " + ToDecimal(|content|) + CRLF + "Proxy-Connection: close" + CRLF + CRLF
    + (if withContent then content else "")
  }

  /** Why the proxy answers a request itself. */
  datatype Problem =
    | RequestHeaderTooLong
    | BadRequestHeader
    | MethodNotAllowed
    | VersionNotSupported
    | UnsupportedScheme
    | BadRequestLength
    | UnsupportedRequestEncoding
    | LengthRequired
    | ResolveFailure
    | ConnectFailure
    | ResponseHeaderTooLong
    | BadResponseHeader
    | ResponseVersion
    | ResponseStatus
    | ResponseConnection
    | BadResponseLength
    | BadResponseChunks
    | UnsupportedResponseEncoding
    | MissingResponseLength

  /** Status code, description and message of an error page. */
  datatype PageWords = PageWords(code: string, description: string, message: string)

  /** What each call of report_error says. */
  function WordsOf(problem: Problem): PageWords {
    match problem
    case RequestHeaderTooLong => PageWords("400", "Bad Request", "Request header too long")
    case BadRequestHeader => PageWords("400", "Bad Request", "Failed to parse the http request header")
    case MethodNotAllowed => PageWords("405", "Method Not Allowed", "")
    case VersionNotSupported => PageWords("505", "HTTP Version Not Supported", "")
    case UnsupportedScheme => PageWords("400", "Bad Request", "Unsupported scheme")
    case BadRequestLength => PageWords("400", "Bad Request", "Invalid Content-Length in request")
    case UnsupportedRequestEncoding => PageWords("400", "Bad Request", "Unsupported Transfer-Encoding")
    case LengthRequired => PageWords("411", "Length Required", "")
    case ResolveFailure => PageWords("504", "Gateway Timeout", "Failed to resolve the hostname")
    case ConnectFailure => PageWords("502", "Bad Gateway", "Failed to connect to origin server")
    case ResponseHeaderTooLong => PageWords("502", "Bad Gateway", "Response header too long")
    case BadResponseHeader => PageWords("502", "Bad Gateway", "Failed to parse response header")
    case ResponseVersion => PageWords("502", "Bad Gateway", "HTTP version not supported")
    case ResponseStatus => PageWords("502", "Bad Gateway", "Unexpected status code")
    case ResponseConnection => PageWords("502", "Bad Gateway", "")
    case BadResponseLength => PageWords("502", "Bad Gateway", "Invalid Content-Length in response")
    case BadResponseChunks => PageWords("502", "Bad Gateway", "Failed to check chunked response")
    case UnsupportedResponseEncoding => PageWords("502", "Bad Gateway", "Unsupported Transfer-Encoding")
    case MissingResponseLength => PageWords("502", "Bad Gateway", "Miss response length info")
  }

  function ProblemPage(problem: Problem, withContent: bool): string {
    var words := WordsOf(problem);
    ErrorPage(words.code, words.description, words.message, withContent)
  }

  const AUTH_CONTENT: string :=
    "<!DOCTYPE html><html><head><title>" + "407 Proxy Authentication Required" + "</title></head>"
    + "<body bgcolor=\"white\"><center><h1>407 Proxy Authentication Required</h1></center>"
    + "<hr><center>azure http proxy server</center></body></html>"

  function AuthPage(): string {
    "HTTP/1.1 " + "407" + " " + "Proxy Authentication Required" + CRLF
    + FieldLine(Field("Server", "AzureHttpProxy")) + CRLF
    + FieldLine(Field("Proxy-Authenticate", "Basic realm=\"AzureHttpProxy\"")) + CRLF
    + FieldLine(Field("Content-Type", "text/html")) + CRLF
    + FieldLine(Field("Connection", "Close")) + CRLF
    + "Content-Length: " + ToDecimal(|AUTH_CONTENT|) + HEAD_END + AUTH_CONTENT
  }

  const ESTABLISHED: string :=
    "HTTP/1.1 " + "200" + " " + "Connection Established" + CRLF + FieldLine(Field("Connection", "Close")) + HEAD_END

  /** Write a page that is the whole answer; the connection closes after it. */
  function WritePage(c: Conn, page: string): Conn {
    AsyncWriteClient(InState(c.(modifiedResponse := page), ReportError), ModifiedResponse, 0, |page|)
  }

  function WithContent(c: Conn): bool { c.requestHead.None? || c.requestHead.value.verb != "HEAD" }

  function Report(c: Conn, problem: Problem): Conn { WritePage(c, ProblemPage(problem, WithContent(c))) }

  // ------------------------------------------------------- what a request head asks

  /** What to do with a message once its head is known, and the context to do it in. */
  datatype Judgement<C> =
    | Reject(context: C, problem: Problem)
    | RejectAuth(context: C)
    | Tunnel(context: C)
    | Forward(context: C)
    | ChunkedUpload(context: C)

  const FORWARDED_METHODS: set<string> := {"GET", "HEAD", "POST", "PUT", "DELETE"}

  function KeepAliveValue(version: string, value: Option<string>): bool {
    if version == "1.1" then value.None? || Lower(value.value) != "close"
    else value.Some? && Lower(value.value) == "keep-alive"
  }

  /** Proxy-Connection decides, then Connection, then the version. */
  function ClientKeepAlive(r: RequestHead): bool {
    var own := Lookup(r.headers, "Proxy-Connection");
    if own.Some? then KeepAliveValue(r.httpVersion, own)
    else KeepAliveValue(r.httpVersion, Lookup(r.headers, "Connection"))
  }

  function Authorized(cfg: Config, r: RequestHead): bool {
    !cfg.enableAuth
    || (var value := Lookup(r.headers, "Proxy-Authorization");
        value.Some? && Authentication.Verdict(cfg.users, value.value) == Authentication.Ok)
  }

  /** `extra` is the number of bytes that came with the head. */
  function JudgeRequest(cfg: Config, r: RequestHead, context: RequestContext, extra: nat): Judgement<RequestContext> {
    if r.verb !in FORWARDED_METHODS && r.verb != CONNECT then Reject(context, MethodNotAllowed)
    else if r.httpVersion != "1.1" && r.httpVersion != "1.0" then
      Reject(context, VersionNotSupported)
    else if !Authorized(cfg, r) then RejectAuth(context)
    else if r.verb == CONNECT then Tunnel(context)
    else if r.scheme != "http" then Reject(context, UnsupportedScheme)
    else
      var reset := RequestContext(ClientKeepAlive(r), None, 0, None);
      if r.verb == "GET" || r.verb == "HEAD" || r.verb == "DELETE" then Forward(reset.(contentLength := Some(0)))
      else JudgeUpload(r, reset, extra)
  }

  function JudgeUpload(r: RequestHead, reset: RequestContext, extra: nat): Judgement<RequestContext> {
    var length := Lookup(r.headers, "Content-Length");
    var encoding := Lookup(r.headers, "Transfer-Encoding");
    if length.Some? then
      var n := Stoull(length.value);
      if n.None? then Reject(reset, BadRequestLength)
      else Forward(reset.(contentLength := n, hasRead := extra))
    else if encoding.Some? then
      if Lower(encoding.value) == "chunked" then ChunkedUpload(reset)
      else Reject(reset, UnsupportedRequestEncoding)
    else Reject(reset, LengthRequired)
  }

  /** What to do with a response, given the method it answers and the bytes of its
      body that came with the head. */
  function JudgeResponse(verb: string, r: ResponseHead, context: ResponseContext, body: string): Judgement<ResponseContext> {
    if r.httpVersion != "1.1" && r.httpVersion != "1.0" then
      Reject(context, ResponseVersion)
    else if r.statusCode < 100 || r.statusCode > 700 then
      Reject(context, ResponseStatus)
    else
      var connection := Lookup(r.headers, "Connection");
      var reset := ResponseContext(r.httpVersion == "1.1", None, 0, None);
      if connection.None? then JudgeLength(verb, r, reset, body)
      else if Lower(connection.value) == "close" then JudgeLength(verb, r, reset.(keepAlive := false), body)
      else if Lower(connection.value) == "keep-alive" then JudgeLength(verb, r, reset.(keepAlive := true), body)
      else Reject(reset, ResponseConnection)
  }

  function JudgeLength(verb: string, r: ResponseHead, reset: ResponseContext, body: string): Judgement<ResponseContext> {
    var length := Lookup(r.headers, "Content-Length");
    var encoding := Lookup(r.headers, "Transfer-Encoding");
    if verb == "HEAD" || r.statusCode == 204 || r.statusCode == 304 then Forward(reset.(contentLength := Some(0)))
    else if length.Some? then
      var n := Stoull(length.value);
      if n.None? then Reject(reset, BadResponseLength)
      else Forward(reset.(contentLength := n, hasRead := |body|))
    else if encoding.Some? then
      if Lower(encoding.value) == "chunked" then
        var checked := reset.(checker := Some(Feed(FRESH, body)));
        if checked.checker.value.IsFail() then
          Reject(checked, BadResponseChunks)
        else Forward(checked)
      else Reject(reset, UnsupportedResponseEncoding)
    else if reset.keepAlive then Reject(reset, MissingResponseLength)
    else Forward(reset)
  }

  // -------------------------------------------------------- reaching the origin server

  /** async_connect_to_origin_server. */
  function AsyncConnect(c: Conn): Conn {
    var d := c.(ctx := c.ctx.(reconnectOnError := false));
    if d.requestHead.None? then Fault(d)
    else
      var r := d.requestHead.value;
      var e := if r.verb == CONNECT then CloseOrigin(d) else d;
      if e.origin.Some? && r.host == e.ctx.originName && r.port == e.ctx.originPort then
        OnConnect(e.(ctx := e.ctx.(reconnectOnError := true)))
      else
        AsyncResolve(e, Query(r.host, r.port))
  }

  function AsyncResolve(c: Conn, q: Query): Conn {
    var d := SetTimer(c.(ctx := c.ctx.(originName := q.host, originPort := q.port, state := ResolveOriginServerAddress)));
    d.(ops := d.ops.(resolves := d.ops.resolves + [q]))
  }

  /** on_resolved. An open socket is reused if its endpoint is among those found; it
      is closed first if its endpoint is not the very first of them. */
  function OnResolved(c: Conn, endpoints: seq<Endpoint>): Conn {
    if endpoints == [] then Fault(c)
    else if c.origin.Some? && c.ctx.originEndpoint.Some? && c.ctx.originEndpoint.value in endpoints then
      var d := if c.ctx.originEndpoint.value == endpoints[0] then c else CloseOrigin(c);
      OnConnect(d.(ctx := d.ctx.(reconnectOnError := true)))
    else
      TryConnect(CloseOrigin(c), endpoints)
  }

  function TryConnect(c: Conn, endpoints: seq<Endpoint>): Conn
    requires endpoints != []
  {
    var d := c.(ctx := c.ctx.(originEndpoint := Some(endpoints[0]), state := ConnectToOriginServer),
                origin := Some(endpoints[0]));
    var e := SetTimer(d);
    e.(ops := e.ops.(connects := e.ops.connects + [endpoints]))
  }

  /** on_connect. */
  function OnConnect(c: Conn): Conn {
    if c.requestHead.None? then Fault(c)
    else if c.requestHead.value.verb == CONNECT then
      AsyncWriteClient(InState(c.(modifiedResponse := ESTABLISHED), ReportConnectionEstablished),
                       ModifiedResponse, 0, |ESTABLISHED|)
    else AsyncWriteRequestHeader(c)
  }

  function AsyncWriteRequestHeader(c: Conn): Conn {
    var p := FindHeadEnd(c.requestData);
    if p.None? || c.requestHead.None? then Fault(c)
    else
      var r := Stripped(c.requestHead.value);
      var text := RequestText(r) + c.requestData[p.value + 4..];
      AsyncWriteOrigin(InState(c.(modifiedRequest := text, requestHead := Some(r)), WriteHttpRequestHeader),
                       ModifiedRequest, 0, |text|)
  }

  function AsyncWriteResponseHeader(c: Conn): Conn {
    var p := FindHeadEnd(c.responseData);
    if p.None? || c.responseHead.None? then Fault(c)
    else
      var text := ResponseText(c.responseHead.value) + c.responseData[p.value + 4..];
      AsyncWriteClient(InState(c.(modifiedResponse := text), WriteHttpResponseHeader), ModifiedResponse, 0, |text|)
  }

  // ------------------------------------------------------------------- data arrived

  /** on_proxy_client_data_arrived. */
  function OnClientData(cfg: Config, c: Conn, n: nat): Conn
    requires n <= |c.upRead|
  {
    var d := c.(upWrite := c.upRead);
    match d.ctx.state
    case ReadHttpRequestHeader => OnRequestHeadData(cfg, d, d.upWrite[..n])
    case ReadHttpRequestContent => OnRequestContent(d, n)
    case TunnelTransfer => AsyncWriteOrigin(d, UpgoingWrite, 0, n)
    case _ => Fault(d)
  }

  function OnRequestHeadData(cfg: Config, c: Conn, data: string): Conn {
    var d := c.(requestData := c.requestData + data);
    var p := FindHeadEnd(d.requestData);
    if p.None? then
      if |d.requestData| < MAX_REQUEST_HEADER_LENGTH then AsyncReadClient(d)
      else Report(d, RequestHeaderTooLong)
    else
      var head := ParsedRequest(d.requestData[..p.value + 4]);
      var e := d.(requestHead := head);
      if head.None? then Report(e, BadRequestHeader)
      else Obey(e, JudgeRequest(cfg, head.value, e.req, |d.requestData| - (p.value + 4)))
  }

  function Obey(c: Conn, j: Judgement<RequestContext>): Conn {
    var d := c.(req := j.context);
    match j
    case Reject(_, problem) => Report(d, problem)
    case RejectAuth(_) => WritePage(d, AuthPage())
    case Tunnel(_) => AsyncConnect(d)
    case Forward(_) => AsyncConnect(d)
    case ChunkedUpload(_) => Fault(d)
  }

  function OnRequestContent(c: Conn, n: nat): Conn
    requires n <= |c.upWrite|
  {
    if c.req.contentLength.Some? then
      SendContent(c.(req := c.req.(hasRead := Wrap64(c.req.hasRead + n))), n)
    else if c.req.checker.None? || c.req.checker.value.IsFail() then Fault(c)
    else
      var checked := Feed(c.req.checker.value, c.upWrite[..n]);
      var d := c.(req := c.req.(checker := Some(checked)));
      if checked.IsFail() then d else SendContent(d, n)
  }

  function SendContent(c: Conn, n: nat): Conn {
    AsyncWriteOrigin(InState(c, WriteHttpRequestContent), UpgoingWrite, 0, n)
  }

  /** on_origin_server_data_arrived. */
  function OnOriginData(c: Conn, n: nat): Conn
    requires n <= |c.downRead|
  {
    match c.ctx.state
    case ReadHttpResponseHeader => OnResponseHeadData(c, c.downRead[..n])
    case ReadHttpResponseContent => OnResponseContent(c, n)
    case TunnelTransfer => AsyncWriteClient(c.(downWrite := c.downRead), DowngoingWrite, 0, n)
    case _ => Fault(c)
  }

  function OnResponseHeadData(c: Conn, data: string): Conn {
    var d := c.(responseData := c.responseData + data);
    var p := FindHeadEnd(d.responseData);
    if p.None? then
      if |d.responseData| < MAX_RESPONSE_HEADER_LENGTH then AsyncReadOrigin(d)
      else Report(d, ResponseHeaderTooLong)
    else
      var head := ParsedResponse(d.responseData[..p.value + 4]);
      var e := d.(responseHead := head);
      if head.None? then Report(e, BadResponseHeader)
      else if e.requestHead.None? then Fault(e)
      else
        ObeyResponse(e, JudgeResponse(e.requestHead.value.verb, head.value, e.resp, d.responseData[p.value + 4..]))
  }

  function ObeyResponse(c: Conn, j: Judgement<ResponseContext>): Conn {
    var d := c.(resp := j.context);
    if j.Reject? then Report(d, j.problem) else AsyncWriteResponseHeader(d)
  }

  /** A chunk checker that fails here ends the connection without a word. */
  function OnResponseContent(c: Conn, n: nat): Conn
    requires n <= |c.downRead|
  {
    if c.resp.contentLength.Some? then
      WriteContent(c.(resp := c.resp.(hasRead := Wrap64(c.resp.hasRead + n))), n)
    else if c.resp.checker.Some? then
      if c.resp.checker.value.IsFail() then Fault(c)
      else
        var checked := Feed(c.resp.checker.value, c.downRead[..n]);
        var d := c.(resp := c.resp.(checker := Some(checked)));
        if checked.IsFail() then d else WriteContent(d, n)
    else WriteContent(c, n)
  }

  function WriteContent(c: Conn, n: nat): Conn {
    AsyncWriteClient(InState(c.(downWrite := c.downRead), WriteHttpResponseContent), DowngoingWrite, 0, n)
  }

  // -------------------------------------------------------------------- data written

  function ResponseDone(r: ResponseContext): bool {
    || (r.contentLength.Some? && r.hasRead >= r.contentLength.value)
    || (r.checker.Some? && r.checker.value.IsComplete())
  }

  /** on_proxy_client_data_written. */
  function OnClientWritten(c: Conn): Conn {
    match c.ctx.state
    case TunnelTransfer => AsyncReadOrigin(c)
    case WriteHttpResponseHeader => OnResponseWritten(c)
    case WriteHttpResponseContent => OnResponseWritten(c)
    case ReportConnectionEstablished => ReadOrigin(AsyncReadClient(InState(c, TunnelTransfer)))
    case ReportError => CloseBoth(c)
    case _ => Fault(c)
  }

  function OnResponseWritten(c: Conn): Conn {
    if ResponseDone(c.resp) then
      var d := if c.resp.keepAlive then c else CloseOrigin(c);
      if c.req.keepAlive then AsyncReadClient(Turnover(d)) else d.(clientOpen := false)
    else AsyncReadOrigin(InState(c, ReadHttpResponseContent))
  }

  /** What is reset between two requests on one client connection. */
  function Turnover(c: Conn): Conn {
    InState(c.(requestData := "", responseData := "", requestHead := None, responseHead := None,
               req := c.req.(contentLength := None, checker := None),
               resp := c.resp.(contentLength := None, checker := None)),
            ReadHttpRequestHeader)
  }

  /** on_origin_server_data_written. */
  function OnOriginWritten(c: Conn): Conn {
    match c.ctx.state
    case TunnelTransfer => AsyncReadClient(c)
    case WriteHttpRequestHeader => OnRequestWritten(c)
    case WriteHttpRequestContent => OnRequestWritten(c)
    case _ => Fault(c)
  }

  function OnRequestWritten(c: Conn): Conn {
    if c.req.contentLength.None? && c.req.checker.None? then Fault(c)
    else if RequestDone(c.req) then AsyncReadOrigin(InState(c, ReadHttpResponseHeader))
    else AsyncReadClient(InState(c, ReadHttpRequestContent))
  }

  function RequestDone(r: RequestContext): bool
    requires r.contentLength.Some? || r.checker.Some?
  {
    if r.contentLength.Some? then r.hasRead >= r.contentLength.value else r.checker.value.IsComplete()
  }

  // ------------------------------------------------------------------------- failures

  /** on_error. */
  function OnError(c: Conn): Conn {
    match c.ctx.state
    case ResolveOriginServerAddress => Report(c, ResolveFailure)
    case ConnectToOriginServer => Report(c, ConnectFailure)
    case WriteHttpRequestHeader => if c.ctx.reconnectOnError then AsyncConnect(CloseOrigin(c)) else CloseBoth(c)
    case _ => CloseBoth(c)
  }

  // ---------------------------------------------------------------------------- steps

  /** What can happen to a connection: outstanding operations complete, and a write to
      a closed socket never succeeds. Reads bring 1 to 2048 bytes, writes take any
      part of what they were given, and a resolver that succeeds finds something. */
  predicate Enabled(c: Conn, e: Event) {
    match e
    case ClientRead(data) => c.ops.clientReads > 0 && 1 <= |data| <= BUFFER_LENGTH
    case ClientReadFailed => c.ops.clientReads > 0
    case OriginRead(data) => c.ops.originReads > 0 && 1 <= |data| <= BUFFER_LENGTH
    case OriginReadFailed => c.ops.originReads > 0
    case ClientWritten(n) => c.ops.clientWrites != [] && 1 <= n <= c.ops.clientWrites[0].size
    case ClientWriteFailed => c.ops.clientWrites != []
    case OriginWritten(n) =>
      c.ops.originWrites != [] && c.ops.originWrites[0].peer.Some? && 1 <= n <= c.ops.originWrites[0].size
    case OriginWriteFailed => c.ops.originWrites != []
    case Resolved(endpoints) => c.ops.resolves != [] && endpoints != []
    case ResolveFailed => c.ops.resolves != []
    case Connected => c.ops.connects != []
    case ConnectFailed => c.ops.connects != []
    case TimerExpires => c.waits > 0
    case TimeoutRuns => c.fired > 0
  }

  /** `std::array` memory after a read put `data` at its front. */
  function Filled(buffer: string, data: string): string {
    if |data| <= |buffer| then data + buffer[|data|..] else data
  }

  /** The completed operation leaves the books, and what was read is in the buffer. */
  function Completed(c: Conn, e: Event): Conn
    requires Enabled(c, e)
  {
    match e
    case ClientRead(data) =>
      c.(ops := c.ops.(clientReads := c.ops.clientReads - 1), upRead := Filled(c.upRead, data))
    case ClientReadFailed => c.(ops := c.ops.(clientReads := c.ops.clientReads - 1))
    case OriginRead(data) =>
      c.(ops := c.ops.(originReads := c.ops.originReads - 1), downRead := Filled(c.downRead, data))
    case OriginReadFailed => c.(ops := c.ops.(originReads := c.ops.originReads - 1))
    case ClientWritten(_) => c.(ops := c.ops.(clientWrites := c.ops.clientWrites[1..]))
    case ClientWriteFailed => c.(ops := c.ops.(clientWrites := c.ops.clientWrites[1..]))
    case OriginWritten(_) => c.(ops := c.ops.(originWrites := c.ops.originWrites[1..]))
    case OriginWriteFailed => c.(ops := c.ops.(originWrites := c.ops.originWrites[1..]))
    case Resolved(_) => c.(ops := c.ops.(resolves := c.ops.resolves[1..]))
    case ResolveFailed => c.(ops := c.ops.(resolves := c.ops.resolves[1..]))
    case Connected => c.(ops := c.ops.(connects := c.ops.connects[1..]))
    case ConnectFailed => c.(ops := c.ops.(connects := c.ops.connects[1..]))
    case _ => c
  }

  /** The part of a completion handler that runs once cancel_timer has found the
      timer still waiting. `before` is the state when the operation completed. */
  function Handle(cfg: Config, c: Conn, before: Ops, e: Event): Conn
    requires e.ClientRead? ==> |e.data| <= |c.upRead|
    requires e.OriginRead? ==> |e.data| <= |c.downRead|
    requires e.ClientWritten? ==> before.clientWrites != [] && e.n <= before.clientWrites[0].size
    requires e.OriginWritten? ==> before.originWrites != [] && e.n <= before.originWrites[0].size
    requires e.ConnectFailed? ==> before.connects != []
  {
    match e
    case ClientRead(data) => OnClientData(cfg, c, |data|)
    case OriginRead(data) => OnOriginData(c, |data|)
    case ClientWritten(n) =>
      var w := before.clientWrites[0];
      if n < w.size then AsyncWriteClient(c, w.buffer, w.offset + n, w.size - n) else OnClientWritten(c)
    case OriginWritten(n) =>
      var w := before.originWrites[0];
      var d := c.(ctx := c.ctx.(reconnectOnError := false));
      if n < w.size then AsyncWriteOrigin(d, w.buffer, w.offset + n, w.size - n) else OnOriginWritten(d)
    case Resolved(endpoints) => OnResolved(c, endpoints)
    case Connected => OnConnect(c)
    case ConnectFailed =>
      var tried := before.connects[0];
      if |tried| > 1 then OnResolved(CloseOrigin(c), tried[1..]) else OnError(CloseOrigin(c))
    case _ => OnError(c)
  }

  /** One step: a completion handler, the timer running out, or on_timeout. */
  function Step(cfg: Config, c: Conn, e: Event): Conn
    requires Enabled(c, e)
  {
    match e
    case TimerExpires => c.(waits := 0, fired := c.fired + c.waits)
    case TimeoutRuns => CloseBoth(c.(fired := c.fired - 1))
    case _ =>
      var d := Completed(c, e).(waits := 0);
      if c.waits == 1 then Handle(cfg, d, c.ops, e)
      else d.(fault := c.fault || c.waits > 1)
  }

  /** A connection that has been created: `start` has not run, and the plain fields
      hold whatever was in memory. */
  ghost predicate Created(c: Conn) {
    && c.requestData == "" && c.responseData == "" && c.requestHead.None? && c.responseHead.None?
    && |c.upRead| == |c.upWrite| == |c.downRead| == |c.downWrite| == BUFFER_LENGTH
    && c.clientOpen && c.origin.None? && c.waits == 0 && c.fired == 0 && c.ops == NO_OPS && !c.fault
  }

  /** start(). */
  function Started(c: Conn): Conn { AsyncReadClient(InState(c, ReadHttpRequestHeader)) }
}
