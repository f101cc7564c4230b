/** What goes over the wire: a connection together with the bytes its two sockets
    have carried in the exchange at hand. */
module ProxyStreams {
  import opened Text
  import opened ChunkChecker
  import opened HeaderParser
  import opened HeadPrinter
  import opened HeadRoundTrips
  import opened ProxyContext
  import opened ProxyMachine
  import opened ProxyInvariants

  /** An endpoint as the place to reach a host and port. */
  datatype Route = Route(query: Query, peer: Endpoint)

  /** History, kept beside the connection. The four streams are those of the current
      exchange, or of the tunnel once there is one; bytes count as read when the
      program looks at them and as written when the socket has taken them. `found` is
      every answer of the resolver and `reached` every peer that took bytes of a
      request, over the whole connection. `connected`, `retries` and `answers` are of
      the current exchange: whether a connect succeeded, how often the request was
      taken to a new connection, and how many response heads were begun. */
  datatype Trace = Trace(
    fromClient: string, toOrigin: string, fromOrigin: string, toClient: string,
    found: set<Route>, reached: set<Route>,
    connected: bool, retries: nat, answers: nat)

  datatype World = World(conn: Conn, trace: Trace)

  const NO_TRACE: Trace := Trace("", "", "", "", {}, {}, false, 0, 0)

  function Piece(s: string, offset: nat, n: nat): string {
    if offset + n <= |s| then s[offset..offset + n] else ""
  }

  function Asked(c: Conn): Query {
    if c.requestHead.None? then Query("", 0) else Query(c.requestHead.value.host, c.requestHead.value.port)
  }

  predicate TakesRetry(c: Conn, e: Event) {
    c.waits == 1 && e.OriginWriteFailed? && c.ctx.state == WriteHttpRequestHeader && c.ctx.reconnectOnError
  }

  /** What the event itself carries over the wire. */
  function Carried(c: Conn, e: Event, t: Trace): Trace
    requires Enabled(c, e)
  {
    match e
    case ClientRead(data) => if c.waits == 1 then t.(fromClient := t.fromClient + data) else t
    case OriginRead(data) => if c.waits == 1 then t.(fromOrigin := t.fromOrigin + data) else t
    case ClientWritten(n) =>
      var w := c.ops.clientWrites[0];
      t.(toClient := t.toClient + Piece(c.BufferText(w.buffer), w.offset, n))
    case OriginWritten(n) =>
      var w := c.ops.originWrites[0];
      t.(toOrigin := t.toOrigin + Piece(c.BufferText(w.buffer), w.offset, n),
         reached := t.reached + {Route(Asked(c), w.peer.value)})
    case Resolved(endpoints) =>
      if c.waits == 1 then t.(found := t.found + set p | p in endpoints :: Route(c.ops.resolves[0], p)) else t
    case Connected => if c.waits == 1 then t.(connected := true) else t
    case OriginWriteFailed => if TakesRetry(c, e) then t.(retries := t.retries + 1) else t
    case _ => t
  }

  /** The step has started to write a response head, an error page or the CONNECT
      acknowledgement from its first byte. */
  predicate AnswerBegins(c: Conn, e: Event, d: Conn)
    requires Enabled(c, e)
  {
    && |d.ops.clientWrites| > |Completed(c, e).ops.clientWrites|
    && var w := d.ops.clientWrites[|d.ops.clientWrites| - 1];
       w.buffer == ModifiedResponse && w.offset == 0
  }

  function Cleared(t: Trace): Trace { t.(fromClient := "", toOrigin := "", fromOrigin := "", toClient := "") }

  /** A new exchange, or the tunnel, starts with empty streams. */
  function Bounded(c: Conn, d: Conn, t: Trace): Trace {
    if c.ctx.state == d.ctx.state then t
    else if d.ctx.state == ReadHttpRequestHeader then Cleared(t).(connected := false, retries := 0, answers := 0)
    else if d.ctx.state == TunnelTransfer then Cleared(t)
    else t
  }

  function Recorded(c: Conn, e: Event, d: Conn, t: Trace): Trace
    requires Enabled(c, e)
  {
    var u := Carried(c, e, t);
    Bounded(c, d, if AnswerBegins(c, e, d) then u.(answers := u.answers + 1) else u)
  }

  function NextWorld(cfg: Config, w: World, e: Event): World
    requires Enabled(w.conn, e)
  {
    var d := Step(cfg, w.conn, e);
    World(d, Recorded(w.conn, e, d, w.trace))
  }

  // ------------------------------------------------------------- what should be sent

  /** What the origin should receive for the bytes of a request: the rewritten head
      and everything after it, in order. */
  function UpImage(x: string): string {
    var p := FindHeadEnd(x);
    if p.None? then ""
    else
      match ParsedRequest(x[..p.value + 4])
      case None => ""
      case Some(r) => RequestText(Stripped(r)) + x[p.value + 4..]
  }

  /** What the client should receive for the bytes of a response. */
  function DownImage(x: string): string {
    var p := FindHeadEnd(x);
    if p.None? then ""
    else
      match ParsedResponse(x[..p.value + 4])
      case None => ""
      case Some(r) => ResponseText(r) + x[p.value + 4..]
  }

  predicate RequestIn(x: string) {
    FindHeadEnd(x).Some? && ParsedRequest(x[..FindHeadEnd(x).value + 4]).Some?
  }

  predicate ResponseIn(x: string) {
    FindHeadEnd(x).Some? && ParsedResponse(x[..FindHeadEnd(x).value + 4]).Some?
  }

  function RequestOf(x: string): RequestHead
    requires RequestIn(x)
  {
    ParsedRequest(x[..FindHeadEnd(x).value + 4]).value
  }

  lemma UpImageGrows(x: string, data: string)
    requires RequestIn(x)
    ensures RequestIn(x + data) && RequestOf(x + data) == RequestOf(x)
    ensures UpImage(x + data) == UpImage(x) + data
  {
    hide ParsedRequest, RequestText, Stripped, FindHeadEnd;
    HeadEndOfPrefix(x, x + data);
    var n := FindHeadEnd(x).value + 4;
    assert (x + data)[..n] == x[..n];
    assert (x + data)[n..] == x[n..] + data;
    AssociateText(RequestText(Stripped(RequestOf(x))), x[n..], data);
  }

  lemma DownImageGrows(x: string, data: string)
    requires ResponseIn(x)
    ensures ResponseIn(x + data) && DownImage(x + data) == DownImage(x) + data
  {
    hide ParsedResponse, ResponseText, FindHeadEnd;
    HeadEndOfPrefix(x, x + data);
    var n := FindHeadEnd(x).value + 4;
    assert (x + data)[..n] == x[..n];
    assert (x + data)[n..] == x[n..] + data;
    AssociateText(ResponseText(ParsedResponse(x[..n]).value), x[n..], data);
  }

  lemma AssociateText(a: string, b: string, c: string)
    ensures a + (b + c) == a + b + c
  {
  }

  // ---------------------------------------------------------- the streams, state by state

  /** The request being served is the one the client sent, stripped or not yet. */
  ghost predicate HeadOf(c: Conn, t: Trace) {
    && c.requestData <= t.fromClient && RequestIn(c.requestData) && c.requestHead.Some?
    && (c.requestHead.value == RequestOf(c.requestData) || c.requestHead.value == Stripped(RequestOf(c.requestData)))
  }

  ghost predicate NothingBack(t: Trace) { t.fromOrigin == "" && t.toClient == "" && t.answers == 0 }

  /** Nothing of the request has left, and nothing but the request has come. */
  ghost predicate Before(c: Conn, t: Trace) {
    HeadOf(c, t) && t.fromClient == c.requestData && t.toOrigin == "" && NothingBack(t)
  }

  /** All of the request there is has been sent. */
  ghost predicate UpDone(c: Conn, t: Trace) { HeadOf(c, t) && t.toOrigin == UpImage(t.fromClient) }

  ghost predicate DownDone(t: Trace) {
    ResponseIn(t.fromOrigin) && t.toClient == DownImage(t.fromOrigin) && t.answers == 1
  }

  /** Text still to be written by the first write to the origin, or to the client. */
  function PendingUp(c: Conn): string {
    if c.ops.originWrites == [] then ""
    else Piece(c.BufferText(c.ops.originWrites[0].buffer), c.ops.originWrites[0].offset, c.ops.originWrites[0].size)
  }

  function PendingDown(c: Conn): string {
    if c.ops.clientWrites == [] then ""
    else Piece(c.BufferText(c.ops.clientWrites[0].buffer), c.ops.clientWrites[0].offset, c.ops.clientWrites[0].size)
  }

  /** For a live connection: what is written and what is being written, together, is
      all there is to write. */
  ghost predicate Streams(c: Conn, t: Trace) {
    match c.ctx.state
    case ReadCipherData => false
    case ReadHttpRequestHeader => t.fromClient == c.requestData && t.toOrigin == "" && NothingBack(t)
    case ResolveOriginServerAddress => Before(c, t)
    case ConnectToOriginServer => Before(c, t)
    case WriteHttpRequestHeader =>
      && HeadOf(c, t) && t.fromClient == c.requestData && c.modifiedRequest == UpImage(t.fromClient)
      && t.toOrigin + PendingUp(c) == UpImage(t.fromClient) && NothingBack(t)
    case ReadHttpRequestContent => UpDone(c, t) && NothingBack(t)
    case WriteHttpRequestContent =>
      HeadOf(c, t) && t.toOrigin + PendingUp(c) == UpImage(t.fromClient) && NothingBack(t)
    case ReadHttpResponseHeader =>
      UpDone(c, t) && t.fromOrigin == c.responseData && t.toClient == "" && t.answers == 0
    case WriteHttpResponseHeader => UpDone(c, t) && Answering(c, t)
    case ReadHttpResponseContent => UpDone(c, t) && DownDone(t)
    case WriteHttpResponseContent => UpDone(c, t) && Answering(c, t)
    case ReportConnectionEstablished =>
      && HeadOf(c, t) && t.toOrigin == "" && t.fromOrigin == "" && t.answers == 1
      && t.toClient + PendingDown(c) == c.modifiedResponse
    case ReportError =>
      && (t.toOrigin == "" || t.toOrigin == UpImage(t.fromClient))
      && t.answers == 1 && t.toClient + PendingDown(c) == c.modifiedResponse
    case TunnelTransfer =>
      && t.answers == 1
      && t.toOrigin + PendingUp(c) == t.fromClient && t.toClient + PendingDown(c) == t.fromOrigin
  }

  ghost predicate Answering(c: Conn, t: Trace) {
    ResponseIn(t.fromOrigin) && t.toClient + PendingDown(c) == DownImage(t.fromOrigin) && t.answers == 1
  }

  /** The trace with the answer that a handler's new state begins. */
  function Answered(d: Conn, t: Trace): Trace {
    if AnswerState(d.ctx.state) then t.(answers := t.answers + 1) else t
  }

  predicate AnswerState(s: ConnectionState) {
    s in {WriteHttpResponseHeader, ReportConnectionEstablished, ReportError}
  }

  /** A handler that enters an answering state has just begun that answer. */
  ghost predicate Fresh(d: Conn) {
    && d.ctx.state != TunnelTransfer
    && (if AnswerState(d.ctx.state) then d.ops.clientWrites == [ClientWrite(ModifiedResponse, 0, |d.modifiedResponse|)]
        else d.ops.clientWrites == [])
  }

  ghost predicate Follows(d: Conn, t: Trace) { Live(d) ==> Streams(d, Answered(d, t)) && Fresh(d) }

  // -------------------------------------------------------------- handler by handler

  lemma WholePiece(s: string)
    ensures Piece(s, 0, |s|) == s
  {
  }

  lemma ReportFollows(c: Conn, problem: Problem, t: Trace)
    requires Quiet(c) && t.toClient == "" && t.answers == 0
    requires t.toOrigin == "" || t.toOrigin == UpImage(t.fromClient)
    ensures Follows(Report(c, problem), t)
  {
    hide ProblemPage, UpImage;
    var page := ProblemPage(problem, WithContent(c));
    WholePiece(page);
    assert "" + page == page;
  }

  lemma AuthPageFollows(c: Conn, t: Trace)
    requires Quiet(c) && t.toClient == "" && t.answers == 0 && t.toOrigin == ""
    ensures Follows(WritePage(c, AuthPage()), t)
  {
    hide AuthPage, UpImage;
    WholePiece(AuthPage());
    assert "" + AuthPage() == AuthPage();
  }

  /** The head written is the rewritten head, also when a request is tried again. */
  lemma RewrittenHead(c: Conn, t: Trace)
    requires Before(c, t)
    ensures Stripped(c.requestHead.value) == Stripped(RequestOf(c.requestData))
    ensures UpImage(t.fromClient)
         == RequestText(Stripped(c.requestHead.value)) + c.requestData[FindHeadEnd(c.requestData).value + 4..]
  {
    hide FindHeadEnd, ParsedRequest, RequestText, Stripped;
    StrippedTwice(RequestOf(c.requestData));
  }

  lemma WriteRequestFollows(c: Conn, t: Trace)
    requires Quiet(c) && Before(c, t)
    ensures Follows(AsyncWriteRequestHeader(c), t)
  {
    hide FindHeadEnd, ParsedRequest, RequestText, Stripped, UpImage, RequestIn, RequestOf;
    RewrittenHead(c, t);
    HasHeadEnd(c, t);
    var text := UpImage(t.fromClient);
    WholePiece(text);
    assert "" + text == text;
  }

  lemma HasHeadEnd(c: Conn, t: Trace)
    requires HeadOf(c, t)
    ensures FindHeadEnd(c.requestData).Some?
  {
    hide FindHeadEnd, ParsedRequest;
  }

  lemma OnConnectFollows(c: Conn, t: Trace)
    requires Quiet(c) && Before(c, t)
    ensures Follows(OnConnect(c), t)
  {
    hide RequestIn, RequestOf, Stripped, AsyncWriteRequestHeader, UpImage;
    WriteRequestFollows(c, t);
    WholePiece(ESTABLISHED);
    assert "" + ESTABLISHED == ESTABLISHED;
  }

  lemma AsyncConnectFollows(c: Conn, t: Trace)
    requires Quiet(c) && Before(c, t)
    ensures Follows(AsyncConnect(c), t)
  {
    hide RequestIn, RequestOf, Stripped, OnConnect, UpImage;
    var d := c.(ctx := c.ctx.(reconnectOnError := false));
    var e := if d.requestHead.value.verb == CONNECT then CloseOrigin(d) else d;
    OnConnectFollows(e.(ctx := e.ctx.(reconnectOnError := true)), t);
  }

  lemma OnResolvedFollows(c: Conn, endpoints: seq<Endpoint>, t: Trace)
    requires Quiet(c) && Before(c, t) && endpoints != []
    ensures Follows(OnResolved(c, endpoints), t)
  {
    hide RequestIn, RequestOf, Stripped, OnConnect, UpImage;
    var d := if c.ctx.originEndpoint == Some(endpoints[0]) then c else CloseOrigin(c);
    OnConnectFollows(d.(ctx := d.ctx.(reconnectOnError := true)), t);
  }

  lemma RequestHeadDataFollows(cfg: Config, c: Conn, data: string, t: Trace)
    requires Quiet(c) && c.ctx.state == ReadHttpRequestHeader && Streams(c, t)
    ensures Follows(OnRequestHeadData(cfg, c, data), t.(fromClient := t.fromClient + data))
  {
    hide FindHeadEnd, ParsedRequest, JudgeRequest, Obey, Report, UpImage;
    var d := c.(requestData := c.requestData + data);
    var u := t.(fromClient := d.requestData);
    var p := FindHeadEnd(d.requestData);
    if p.None? {
      ReportFollows(d, RequestHeaderTooLong, u);
    } else {
      var head := ParsedRequest(d.requestData[..p.value + 4]);
      var e := d.(requestHead := head);
      ReportFollows(e, BadRequestHeader, u);
      if head.Some? {
        BeforeHead(e, u);
        ObeyFollows(e, JudgeRequest(cfg, head.value, e.req, |d.requestData| - (p.value + 4)), u);
      }
    }
  }

  lemma BeforeHead(c: Conn, t: Trace)
    requires FindHeadEnd(c.requestData).Some? && c.requestHead.Some?
    requires ParsedRequest(c.requestData[..FindHeadEnd(c.requestData).value + 4]) == c.requestHead
    requires t.fromClient == c.requestData && t.toOrigin == "" && NothingBack(t)
    ensures Before(c, t)
  {
    hide FindHeadEnd, ParsedRequest, Stripped;
  }

  lemma ObeyFollows(c: Conn, j: Judgement<RequestContext>, t: Trace)
    requires Quiet(c) && Before(c, t)
    ensures Follows(Obey(c, j), t)
  {
    hide RequestIn, RequestOf, Stripped, AsyncConnect, Report, WritePage, AuthPage, UpImage;
    var d := c.(req := j.context);
    match j {
      case Reject(_, problem) => ReportFollows(d, problem, t);
      case RejectAuth(_) => AuthPageFollows(d, t);
      case Tunnel(_) => AsyncConnectFollows(d, t);
      case Forward(_) => AsyncConnectFollows(d, t);
      case ChunkedUpload(_) => NotLive(d);
    }
  }

  lemma NotLive(c: Conn)
    requires Quiet(c)
    ensures !Live(Fault(c))
  {
  }

  lemma RequestWrittenFollows(c: Conn, t: Trace)
    requires Quiet(c) && UpDone(c, t) && NothingBack(t) && c.responseData == ""
    ensures Follows(OnRequestWritten(c), t)
  {
    hide RequestIn, RequestOf, Stripped, UpImage, RequestDone;
  }

  lemma PrefixPiece(s: string, n: nat)
    requires n <= |s|
    ensures Piece(s, 0, n) == s[..n]
  {
  }

  lemma HeadOfMore(c: Conn, t: Trace, data: string)
    requires HeadOf(c, t)
    ensures HeadOf(c, t.(fromClient := t.fromClient + data))
    ensures UpImage(t.fromClient + data) == UpImage(t.fromClient) + data
  {
    hide FindHeadEnd, ParsedRequest, RequestText, Stripped, UpImage, RequestIn, RequestOf;
    var x := t.fromClient[|c.requestData|..];
    assert t.fromClient == c.requestData + x;
    UpImageGrows(c.requestData, x);
    UpImageGrows(t.fromClient, data);
  }

  lemma RequestContentFollows(c: Conn, n: nat, t: Trace)
    requires Quiet(c) && UpDone(c, t) && NothingBack(t) && n <= BUFFER_LENGTH
    ensures Follows(OnRequestContent(c, n), t.(fromClient := t.fromClient + c.upWrite[..n]))
  {
    hide RequestIn, RequestOf, UpImage, Feed, Wrap64, SendContent, Streams, Piece;
    if c.req.contentLength.Some? {
      SentContentFollows(c.(req := c.req.(hasRead := Wrap64(c.req.hasRead + n))), n, t);
    } else if c.req.checker.Some? {
      SentContentFollows(c.(req := c.req.(checker := Some(Feed(c.req.checker.value, c.upWrite[..n])))), n, t);
    }
  }

  lemma SentContentFollows(c: Conn, n: nat, t: Trace)
    requires Quiet(c) && UpDone(c, t) && NothingBack(t) && n <= BUFFER_LENGTH
    ensures Follows(SendContent(c, n), t.(fromClient := t.fromClient + c.upWrite[..n]))
  {
    hide RequestIn, RequestOf, Stripped, UpImage;
    HeadOfMore(c, t, c.upWrite[..n]);
    PrefixPiece(c.upWrite, n);
  }

  lemma ClientDataFollows(cfg: Config, c: Conn, data: string, t: Trace)
    requires Quiet(c) && 1 <= |data| <= BUFFER_LENGTH && c.upRead[..|data|] == data
    requires c.ctx.state in {ReadHttpRequestHeader, ReadHttpRequestContent} && Streams(c, t)
    ensures Follows(OnClientData(cfg, c, |data|), t.(fromClient := t.fromClient + data))
  {
    hide RequestIn, RequestOf, Stripped, UpImage, OnRequestHeadData, OnRequestContent;
    var d := c.(upWrite := c.upRead);
    if c.ctx.state == ReadHttpRequestHeader {
      RequestHeadDataFollows(cfg, d, data, t);
    } else {
      RequestContentFollows(d, |data|, t);
    }
  }

  // Responses.

  lemma WriteResponseFollows(c: Conn, t: Trace)
    requires Quiet(c) && UpDone(c, t) && t.fromOrigin == c.responseData && t.toClient == "" && t.answers == 0
    requires FindHeadEnd(c.responseData).Some? && c.responseHead.Some?
    requires ParsedResponse(c.responseData[..FindHeadEnd(c.responseData).value + 4]) == c.responseHead
    ensures Follows(AsyncWriteResponseHeader(c), t)
  {
    hide RequestIn, RequestOf, Stripped, UpImage, FindHeadEnd, ParsedResponse, ResponseText;
    var text := DownImage(t.fromOrigin);
    WholePiece(text);
    assert "" + text == text;
  }

  lemma ResponseHeadDataFollows(c: Conn, data: string, t: Trace)
    requires Quiet(c) && c.ctx.state == ReadHttpResponseHeader && Streams(c, t)
    ensures Follows(OnResponseHeadData(c, data), t.(fromOrigin := t.fromOrigin + data))
  {
    hide RequestIn, RequestOf, Stripped, UpImage, FindHeadEnd, ParsedResponse, JudgeResponse, Report,
      AsyncWriteResponseHeader;
    var d := c.(responseData := c.responseData + data);
    var u := t.(fromOrigin := d.responseData);
    var p := FindHeadEnd(d.responseData);
    if p.None? {
      ReportFollows(d, ResponseHeaderTooLong, u);
    } else {
      var head := ParsedResponse(d.responseData[..p.value + 4]);
      var e := d.(responseHead := head);
      ReportFollows(e, BadResponseHeader, u);
      if head.Some? {
        var j := JudgeResponse(e.requestHead.value.verb, head.value, e.resp, d.responseData[p.value + 4..]);
        var f := e.(resp := j.context);
        if j.Reject? {
          ReportFollows(f, j.problem, u);
        } else {
          WriteResponseFollows(f, u);
        }
      }
    }
  }

  /** Response content begins no answer: the head went before it. */
  lemma ResponseContentFollows(c: Conn, n: nat, t: Trace)
    requires Quiet(c) && UpDone(c, t) && DownDone(t) && n <= BUFFER_LENGTH
    ensures var d := OnResponseContent(c, n);
            Live(d) ==> Streams(d, t.(fromOrigin := t.fromOrigin + c.downRead[..n]))
  {
    hide RequestIn, RequestOf, Stripped, UpImage, DownImage, ResponseIn, Feed, Wrap64;
    DownImageGrows(t.fromOrigin, c.downRead[..n]);
    PrefixPiece(c.downRead, n);
  }

  lemma ResponseWrittenFollows(c: Conn, t: Trace)
    requires Quiet(c) && UpDone(c, t) && DownDone(t)
    requires c.ctx.state in {WriteHttpResponseHeader, WriteHttpResponseContent}
    ensures var d := OnResponseWritten(c); Live(d) ==> Streams(d, Bounded(c, d, t))
  {
    hide RequestIn, RequestOf, Stripped, UpImage, DownImage, ResponseIn, ResponseDone;
  }

  lemma ErrorFollows(c: Conn, t: Trace)
    requires Quiet(c) && (Before(c, t) || c.ctx.state !in {ResolveOriginServerAddress, ConnectToOriginServer})
    requires c.ctx.state == WriteHttpRequestHeader && c.ctx.reconnectOnError ==> Before(c, t)
    ensures Follows(OnError(c), t)
  {
    hide RequestIn, RequestOf, Stripped, UpImage, AsyncConnect, Report;
    match c.ctx.state {
      case ResolveOriginServerAddress => ReportFollows(c, ResolveFailure, t);
      case ConnectToOriginServer => ReportFollows(c, ConnectFailure, t);
      case WriteHttpRequestHeader =>
        if c.ctx.reconnectOnError {
          AsyncConnectFollows(CloseOrigin(c), t);
        }
      case _ =>
    }
  }

  // --------------------------------------------------------------------- partial writes

  /** The rest of a write: what was pending is the piece taken and the rest. */
  lemma PieceSplits(s: string, offset: nat, size: nat, n: nat)
    requires offset + size <= |s| && n <= size
    ensures Piece(s, offset, size) == Piece(s, offset, n) + Piece(s, offset + n, size - n)
  {
  }

  lemma SendMore(t: string, a: string, b: string)
    ensures t + (a + b) == t + a + b
  {
  }

  /** A write to the origin that was taken in part, or whole, moves text from pending
      to sent and loses none. */
  lemma OriginTakes(c: Conn, n: nat, d: Conn, t: Trace)
    requires c.ops.originWrites != [] && n <= c.ops.originWrites[0].size
    requires var w := c.ops.originWrites[0];
             && w.offset + w.size <= |c.BufferText(w.buffer)| && d.BufferText(w.buffer) == c.BufferText(w.buffer)
             && if n < w.size then d.ops.originWrites == [OriginWrite(w.buffer, w.offset + n, w.size - n, d.origin)]
                else d.ops.originWrites == []
    ensures t.toOrigin + PendingUp(c)
         == t.toOrigin + Piece(c.BufferText(c.ops.originWrites[0].buffer), c.ops.originWrites[0].offset, n) + PendingUp(d)
  {
    var w := c.ops.originWrites[0];
    var s := c.BufferText(w.buffer);
    PieceSplits(s, w.offset, w.size, n);
    SendMore(t.toOrigin, Piece(s, w.offset, n), Piece(s, w.offset + n, w.size - n));
  }

  lemma ClientTakes(c: Conn, n: nat, d: Conn, t: Trace)
    requires c.ops.clientWrites != [] && n <= c.ops.clientWrites[0].size
    requires var w := c.ops.clientWrites[0];
             && w.offset + w.size <= |c.BufferText(w.buffer)| && d.BufferText(w.buffer) == c.BufferText(w.buffer)
             && if n < w.size then d.ops.clientWrites == [ClientWrite(w.buffer, w.offset + n, w.size - n)]
                else d.ops.clientWrites == []
    ensures t.toClient + PendingDown(c)
         == t.toClient + Piece(c.BufferText(c.ops.clientWrites[0].buffer), c.ops.clientWrites[0].offset, n) + PendingDown(d)
  {
    var w := c.ops.clientWrites[0];
    var s := c.BufferText(w.buffer);
    PieceSplits(s, w.offset, w.size, n);
    SendMore(t.toClient, Piece(s, w.offset, n), Piece(s, w.offset + n, w.size - n));
  }

  // --------------------------------------------------------------------------- steps

  ghost predicate StreamsInv(w: World) { Inv(w.conn) && (Live(w.conn) ==> Streams(w.conn, w.trace)) }

  /** When a handler ran alone, an answer is recorded exactly if it entered an
      answering state. */
  lemma RecordedFollows(c: Conn, e: Event, d: Conn, t: Trace)
    requires Enabled(c, e) && Completed(c, e).ops.clientWrites == [] && Fresh(d)
    requires d.ctx.state == ReadHttpRequestHeader ==> c.ctx.state == ReadHttpRequestHeader
    ensures Recorded(c, e, d, t) == Answered(d, Carried(c, e, t))
  {
    hide Carried;
  }

  /** The states a read from the client can lead to. */
  lemma ClientDataStates(cfg: Config, c: Conn, n: nat)
    requires Quiet(c) && n <= BUFFER_LENGTH && c.ctx.state in {ReadHttpRequestHeader, ReadHttpRequestContent}
    ensures var d := OnClientData(cfg, c, n);
            Live(d) && d.ctx.state == ReadHttpRequestHeader ==> c.ctx.state == ReadHttpRequestHeader
  {
    hide FindHeadEnd, ParsedRequest, JudgeRequest, Stripped, RequestText, ProblemPage, AuthPage, Feed, Wrap64,
      OnRequestHeadData;
  }

  lemma ClientReadStreams(cfg: Config, w: World, data: string)
    requires StreamsInv(w) && Live(w.conn) && Enabled(w.conn, ClientRead(data)) && w.conn.ctx.state != TunnelTransfer
    requires Inv(Step(cfg, w.conn, ClientRead(data)))
    ensures StreamsInv(NextWorld(cfg, w, ClientRead(data)))
  {
    hide FindHeadEnd, OnClientData, Streams, Recorded, Shape, AnswerState;
    var c, t, e := w.conn, w.trace, ClientRead(data);
    CompletedIsQuiet(c, e);
    WhoCompletes(c, e);
    var d := Completed(c, e).(waits := 0);
    SameStreams(c, d, t);
    ClientDataFollows(cfg, d, data, t);
    ClientDataStates(cfg, d, |data|);
    var f := OnClientData(cfg, d, |data|);
    if Live(f) {
      RecordedFollows(c, e, f, t);
    }
  }

  /** The streams depend on what has been received and on the pending writes only. */
  lemma SameStreams(c: Conn, d: Conn, t: Trace)
    requires d == c.(ctx := d.ctx, upRead := d.upRead, downRead := d.downRead, waits := d.waits, ops := d.ops)
    requires c.ctx.state == d.ctx.state && PendingUp(c) == PendingUp(d) && PendingDown(c) == PendingDown(d)
    ensures Streams(c, t) == Streams(d, t)
  {
    hide RequestIn, RequestOf, Stripped, UpImage, DownImage, ResponseIn, HeadOf, PendingUp, PendingDown;
    SameHead(c, d, t);
  }

  lemma SameHead(c: Conn, d: Conn, t: Trace)
    requires c.requestData == d.requestData && c.requestHead == d.requestHead
    ensures HeadOf(c, t) == HeadOf(d, t)
  {
    hide RequestIn, RequestOf, Stripped;
  }

  lemma StreamsMean(c: Conn, t: Trace)
    requires Streams(c, t)
    ensures c.ctx.state == ReadHttpResponseContent ==> UpDone(c, t) && DownDone(t)
    ensures c.ctx.state in {ResolveOriginServerAddress, ConnectToOriginServer} ==> Before(c, t)
    ensures c.ctx.state in {WriteHttpResponseHeader, WriteHttpResponseContent} ==> UpDone(c, t) && Answering(c, t)
  {
    hide UpDone, DownDone, Before, Answering;
  }

  lemma ReadersWriteNothing(c: Conn)
    requires Inv(c) && Live(c)
    requires c.ctx.state in {ReadHttpRequestHeader, ReadHttpRequestContent, ReadHttpResponseHeader,
               ReadHttpResponseContent, ResolveOriginServerAddress, ConnectToOriginServer}
    ensures c.ops.clientWrites == [] && c.ops.originWrites == [] && PendingUp(c) == "" && PendingDown(c) == ""
  {
    hide FindHeadEnd;
  }

  lemma ResponseHeadStates(c: Conn, data: string)
    requires Quiet(c) && c.ctx.state == ReadHttpResponseHeader
    ensures OnResponseHeadData(c, data).ctx.state != ReadHttpRequestHeader
  {
    hide FindHeadEnd, ParsedResponse, JudgeResponse, ResponseText, ProblemPage;
  }

  /** Content that follows a head is no new answer. */
  lemma RecordedContent(c: Conn, e: Event, d: Conn, n: nat, t: Trace)
    requires Enabled(c, e) && e.OriginRead? && Completed(c, e).ops.clientWrites == []
    requires c.ctx.state == ReadHttpResponseContent
    requires d.ctx.state == WriteHttpResponseContent && d.ops.clientWrites == [ClientWrite(DowngoingWrite, 0, n)]
    ensures Recorded(c, e, d, t) == Carried(c, e, t)
  {
    hide Carried;
  }

  lemma ContentOutcome(c: Conn, n: nat)
    requires Quiet(c) && n <= BUFFER_LENGTH
    ensures var d := OnResponseContent(c, n);
            || (d == c.(resp := d.resp, fault := d.fault) && !Live(d))
            || (d.ctx.state == WriteHttpResponseContent && d.ops.clientWrites == [ClientWrite(DowngoingWrite, 0, n)])
  {
    hide Feed, Wrap64;
  }

  lemma OriginReadStreams(cfg: Config, w: World, data: string)
    requires StreamsInv(w) && Live(w.conn) && Enabled(w.conn, OriginRead(data)) && w.conn.ctx.state != TunnelTransfer
    requires Inv(Step(cfg, w.conn, OriginRead(data)))
    ensures StreamsInv(NextWorld(cfg, w, OriginRead(data)))
  {
    hide FindHeadEnd, OnResponseHeadData, OnResponseContent, Streams, Recorded, Shape, AnswerState, UpDone, DownDone;
    var c, t, e := w.conn, w.trace, OriginRead(data);
    CompletedIsQuiet(c, e);
    WhoCompletes(c, e);
    var d := Completed(c, e).(waits := 0);
    ReadersWriteNothing(c);
    SameStreams(c, d, t);
    if c.ctx.state == ReadHttpResponseHeader {
      var f := OnResponseHeadData(d, d.downRead[..|data|]);
      ResponseHeadDataFollows(d, data, t);
      ResponseHeadStates(d, data);
      if Live(f) {
        RecordedFollows(c, e, f, t);
      }
    } else {
      var f := OnResponseContent(d, |data|);
      StreamsMean(d, t);
      ResponseContentFollows(d, |data|, t);
      ContentOutcome(d, |data|);
      if Live(f) {
        RecordedContent(c, e, f, |data|, t);
      }
    }
  }

  lemma ReachingStreams(cfg: Config, w: World, e: Event)
    requires StreamsInv(w) && Live(w.conn) && Enabled(w.conn, e) && w.conn.ctx.state != TunnelTransfer
    requires e.Resolved? || e.Connected? || e.ConnectFailed? || e.ResolveFailed?
    requires Inv(Step(cfg, w.conn, e))
    ensures StreamsInv(NextWorld(cfg, w, e))
  {
    hide FindHeadEnd, OnResolved, OnConnect, OnError, Streams, Recorded, Shape, AnswerState, Before, OnClientData,
      OnOriginData, OnClientWritten, OnOriginWritten;
    var c, t := w.conn, w.trace;
    CompletedIsQuiet(c, e);
    WhoCompletes(c, e);
    var d := Completed(c, e).(waits := 0);
    ReadersWriteNothing(c);
    StreamsMean(c, t);
    var u := Carried(c, e, t);
    SameBefore(c, d, t, u);
    SameBefore(c, CloseOrigin(d), t, u);
    var f := Step(cfg, c, e);
    ReachingOutcome(cfg, d, c.ops, e);
    match e {
      case Resolved(endpoints) => OnResolvedFollows(d, endpoints, u);
      case Connected => OnConnectFollows(d, u);
      case ResolveFailed => ErrorFollows(d, u);
      case ConnectFailed =>
        var tried := c.ops.connects[0];
        if |tried| > 1 {
          OnResolvedFollows(CloseOrigin(d), tried[1..], u);
        } else {
          ErrorFollows(CloseOrigin(d), u);
        }
    }
    if Live(f) {
      RecordedFollows(c, e, f, t);
    }
  }

  lemma SameBefore(c: Conn, d: Conn, t: Trace, u: Trace)
    requires c.requestData == d.requestData && c.requestHead == d.requestHead
    requires u == t.(found := u.found, connected := u.connected, retries := u.retries)
    ensures Before(c, t) == Before(d, u)
  {
    hide RequestIn, RequestOf, Stripped;
  }

  lemma ReachingOutcome(cfg: Config, c: Conn, before: Ops, e: Event)
    requires Quiet(c) && c.ctx.state in {ResolveOriginServerAddress, ConnectToOriginServer}
    requires e.Resolved? || e.Connected? || e.ConnectFailed? || e.ResolveFailed?
    requires e.ConnectFailed? ==> before.connects != []
    ensures Handle(cfg, c, before, e).ctx.state != ReadHttpRequestHeader
  {
    hide OnResolved, OnConnect, AsyncConnect, ProblemPage, OnClientData, OnOriginData, OnClientWritten,
      OnOriginWritten;
    if e.Connected? {
      OnConnectOutcome(c);
    } else if e.Resolved? {
      OnResolvedOutcome(c, e.endpoints);
    } else if e.ConnectFailed? && |before.connects[0]| > 1 {
      OnResolvedOutcome(CloseOrigin(c), before.connects[0][1..]);
    }
  }

  lemma OnConnectOutcome(c: Conn)
    requires Quiet(c) && c.ctx.state != ReadHttpRequestHeader
    ensures OnConnect(c).ctx.state != ReadHttpRequestHeader
  {
    hide FindHeadEnd, RequestText, Stripped;
  }

  lemma OnResolvedOutcome(c: Conn, endpoints: seq<Endpoint>)
    requires Quiet(c) && c.ctx.state != ReadHttpRequestHeader
    ensures OnResolved(c, endpoints).ctx.state != ReadHttpRequestHeader
  {
    hide OnConnect;
    if endpoints != [] {
      var d := if c.ctx.originEndpoint == Some(endpoints[0]) then c else CloseOrigin(c);
      OnConnectOutcome(d.(ctx := d.ctx.(reconnectOnError := true)));
    }
  }

  lemma WritersMean(c: Conn, t: Trace)
    requires Inv(c) && Live(c) && Streams(c, t)
    ensures c.ctx.state in {WriteHttpRequestHeader, WriteHttpRequestContent} ==>
      && |c.ops.originWrites| == 1 && c.ops.clientWrites == [] && HeadOf(c, t) && NothingBack(t) && c.responseData == ""
      && c.ops.originWrites[0].offset + c.ops.originWrites[0].size <= |c.BufferText(c.ops.originWrites[0].buffer)|
      && t.toOrigin + PendingUp(c) == UpImage(t.fromClient)
    ensures c.ctx.state in {WriteHttpResponseHeader, WriteHttpResponseContent, ReportConnectionEstablished, ReportError} ==>
      && |c.ops.clientWrites| == 1 && c.ops.originWrites == [] && t.answers == 1
      && c.ops.clientWrites[0].offset + c.ops.clientWrites[0].size <= |c.BufferText(c.ops.clientWrites[0].buffer)|
      && PendingUp(c) == ""
  {
    hide RequestIn, RequestOf, Stripped, UpImage, DownImage, ResponseIn, HeadOf, FindHeadEnd, PendingDown;
  }

  lemma OriginWrittenStreams(cfg: Config, w: World, n: nat)
    requires StreamsInv(w) && Live(w.conn) && Enabled(w.conn, OriginWritten(n)) && w.conn.ctx.state != TunnelTransfer
    requires Inv(Step(cfg, w.conn, OriginWritten(n)))
    ensures StreamsInv(NextWorld(cfg, w, OriginWritten(n)))
  {
    hide FindHeadEnd, OnRequestWritten, Streams, Recorded, Shape, HeadOf, UpImage, PendingUp, PendingDown, RequestIn,
      OnClientData, OnOriginData, OnClientWritten, OnResolved, OnConnect, OnError;
    var c, t, e := w.conn, w.trace, OriginWritten(n);
    CompletedIsQuiet(c, e);
    WhoCompletes(c, e);
    WritersMean(c, t);
    var d := Completed(c, e).(waits := 0);
    var f := d.(ctx := d.ctx.(reconnectOnError := false));
    var g := Step(cfg, c, e);
    var u := Carried(c, e, t);
    if n < c.ops.originWrites[0].size {
      OriginTakes(c, n, g, t);
      WritingOn(c, t, g, u);
      RecordedSame(c, e, g, t);
    } else {
      OriginTakes(c, n, f, t);
      NoPendingUp(f);
      assert u.toOrigin + "" == u.toOrigin;
      SameHead(c, f, t);
      HeadOfSameBytes(f, t, u);
      RequestWrittenFollows(f, u);
      RequestWrittenOutcome(f);
      if Live(g) {
        RecordedFollows(c, e, g, t);
      }
    }
  }

  lemma NoPendingUp(c: Conn)
    requires c.ops.originWrites == []
    ensures PendingUp(c) == ""
  {
  }

  lemma HeadOfSameBytes(c: Conn, t: Trace, u: Trace)
    requires HeadOf(c, t) && u.fromClient == t.fromClient
    ensures HeadOf(c, u)
  {
    hide RequestIn, RequestOf, Stripped;
  }

  /** A write to the origin that goes on where it stopped. */
  lemma WritingOn(c: Conn, t: Trace, d: Conn, u: Trace)
    requires Streams(c, t) && c.ctx.state in {WriteHttpRequestHeader, WriteHttpRequestContent}
    requires d == c.(ctx := d.ctx, waits := d.waits, ops := d.ops) && d.ctx.state == c.ctx.state
    requires u == t.(toOrigin := u.toOrigin, reached := u.reached)
    requires u.toOrigin + PendingUp(d) == t.toOrigin + PendingUp(c)
    ensures Streams(d, u)
  {
    hide RequestIn, RequestOf, Stripped, UpImage, PendingUp;
  }

  lemma RecordedSame(c: Conn, e: Event, d: Conn, t: Trace)
    requires Enabled(c, e) && c.ctx.state == d.ctx.state
    requires d.ops.clientWrites == [] || d.ops.clientWrites == Completed(c, e).ops.clientWrites
          || (Completed(c, e).ops.clientWrites == [] && |d.ops.clientWrites| == 1
              && (d.ops.clientWrites[0].offset > 0 || !d.ops.clientWrites[0].buffer.ModifiedResponse?))
    ensures Recorded(c, e, d, t) == Carried(c, e, t)
  {
    hide Carried;
  }

  lemma RequestWrittenOutcome(c: Conn)
    requires Quiet(c)
    ensures var d := OnRequestWritten(c);
            d == Fault(c) || (d.ops.clientWrites == [] && d.ctx.state in {ReadHttpRequestContent, ReadHttpResponseHeader})
  {
    hide RequestDone;
  }

  lemma ClientWrittenStreams(cfg: Config, w: World, n: nat)
    requires StreamsInv(w) && Live(w.conn) && Enabled(w.conn, ClientWritten(n)) && w.conn.ctx.state != TunnelTransfer
    requires Inv(Step(cfg, w.conn, ClientWritten(n)))
    ensures StreamsInv(NextWorld(cfg, w, ClientWritten(n)))
  {
    hide FindHeadEnd, OnResponseWritten, Streams, Recorded, Shape, HeadOf, DownImage, PendingUp, PendingDown,
      ResponseIn, UpDone, DownDone, OnClientData, OnOriginData, OnOriginWritten, OnResolved, OnConnect, OnError;
    var c, t, e := w.conn, w.trace, ClientWritten(n);
    CompletedIsQuiet(c, e);
    WhoCompletes(c, e);
    WritersMean(c, t);
    StreamsMean(c, t);
    var d := Completed(c, e).(waits := 0);
    var g := Step(cfg, c, e);
    var u := Carried(c, e, t);
    if n < c.ops.clientWrites[0].size {
      ClientTakes(c, n, g, t);
      AnsweringOn(c, t, g, u);
      RecordedSame(c, e, g, t);
    } else {
      ClientTakes(c, n, d, t);
      LastBytes(cfg, c, e, d, t, u);
    }
  }

  lemma AnsweringOn(c: Conn, t: Trace, d: Conn, u: Trace)
    requires Streams(c, t)
    requires c.ctx.state in {WriteHttpResponseHeader, WriteHttpResponseContent, ReportConnectionEstablished, ReportError}
    requires d == c.(waits := d.waits, ops := d.ops) && u == t.(toClient := u.toClient)
    requires u.toClient + PendingDown(d) == t.toClient + PendingDown(c)
    ensures Streams(d, u)
  {
    hide RequestIn, RequestOf, Stripped, UpImage, PendingDown, DownImage, ResponseIn;
  }

  /** The answer, or a part of it, is all written. */
  lemma LastBytes(cfg: Config, c: Conn, e: Event, d: Conn, t: Trace, u: Trace)
    requires Inv(c) && Live(c) && Streams(c, t) && Enabled(c, e) && e.ClientWritten? && Quiet(d)
    requires c.ctx.state in {WriteHttpResponseHeader, WriteHttpResponseContent, ReportConnectionEstablished, ReportError}
    requires d == c.(waits := 0, ops := NO_OPS) && Completed(c, e).ops.clientWrites == []
    requires u == Carried(c, e, t) && u == t.(toClient := u.toClient)
    requires u.toClient + PendingDown(d) == t.toClient + PendingDown(c) && t.answers == 1
    ensures var f := OnClientWritten(d); Live(f) ==> Streams(f, Recorded(c, e, f, t))
  {
    hide FindHeadEnd, RequestIn, RequestOf, Stripped, UpImage, DownImage, ResponseIn, OnResponseWritten, Carried,
      Shape;
    assert u.toClient + "" == u.toClient;
    if c.ctx.state in {WriteHttpResponseHeader, WriteHttpResponseContent} {
      ResponseWrittenFollows(d, u);
      ResponseWrittenOutcome(d);
    }
  }

  lemma ResponseWrittenOutcome(c: Conn)
    requires Quiet(c) && c.ctx.state in {WriteHttpResponseHeader, WriteHttpResponseContent}
    ensures var d := OnResponseWritten(c); d.ops.clientWrites == [] && d.ctx.state != TunnelTransfer
  {
    hide ResponseDone;
  }

  lemma FailureStreams(cfg: Config, w: World, e: Event)
    requires StreamsInv(w) && Live(w.conn) && Enabled(w.conn, e) && w.conn.ctx.state != TunnelTransfer
    requires e.ClientReadFailed? || e.OriginReadFailed? || e.ClientWriteFailed? || e.OriginWriteFailed?
    requires Inv(Step(cfg, w.conn, e))
    ensures StreamsInv(NextWorld(cfg, w, e))
  {
    hide FindHeadEnd, AsyncConnect, Streams, Recorded, Shape, Before, OnClientData, OnOriginData, OnClientWritten,
      OnOriginWritten, OnResolved, OnConnect, Report;
    var c, t := w.conn, w.trace;
    CompletedIsQuiet(c, e);
    WhoCompletes(c, e);
    var d := Completed(c, e).(waits := 0);
    if TakesRetry(c, e) {
      RetryIsBefore(c, t);
      var u := Carried(c, e, t);
      SameBefore(c, CloseOrigin(d), t, u);
      AsyncConnectFollows(CloseOrigin(d), u);
      AsyncConnectOutcome(CloseOrigin(d));
      var f := Step(cfg, c, e);
      if Live(f) {
        RecordedFollows(c, e, f, t);
      }
    }
  }

  /** The retry branch is taken with nothing sent. */
  lemma RetryIsBefore(c: Conn, t: Trace)
    requires Inv(c) && Live(c) && Streams(c, t) && c.ctx.state == WriteHttpRequestHeader && c.ctx.reconnectOnError
    ensures Before(c, t)
  {
    hide FindHeadEnd, RequestIn, RequestOf, Stripped, UpImage;
    assert PendingUp(c) == c.modifiedRequest;
    assert |t.toOrigin| == 0;
  }

  lemma AsyncConnectOutcome(c: Conn)
    requires Quiet(c) && c.ctx.state != ReadHttpRequestHeader
    ensures AsyncConnect(c).ctx.state != ReadHttpRequestHeader
  {
    hide FindHeadEnd, RequestText, Stripped;
  }

  // ----------------------------------------------------------------------- the tunnel

  lemma TunnelMeans(c: Conn)
    requires Inv(c) && Live(c) && c.ctx.state == TunnelTransfer
    ensures BuffersSized(c)
    ensures if c.ops.clientReads == 0 then WritesOrigin(c, UpgoingWrite) else c.ops.clientReads == 1 && c.ops.originWrites == []
    ensures if c.ops.originReads == 0 then WritesClient(c, DowngoingWrite) else c.ops.originReads == 1 && c.ops.clientWrites == []
  {
    hide FindHeadEnd;
  }

  lemma TunnelReadUp(cfg: Config, w: World, data: string)
    requires StreamsInv(w) && Live(w.conn) && Enabled(w.conn, ClientRead(data)) && w.conn.ctx.state == TunnelTransfer
    requires Inv(Step(cfg, w.conn, ClientRead(data)))
    ensures StreamsInv(NextWorld(cfg, w, ClientRead(data)))
  {
    hide FindHeadEnd, Recorded, PendingDown, Shape, OnRequestHeadData, OnRequestContent, OnOriginData, OnResolved,
      OnConnect;
    var c, t, e := w.conn, w.trace, ClientRead(data);
    TunnelMeans(c);
    var d := Step(cfg, c, e);
    PrefixPiece(d.upWrite, |data|);
    assert d.upWrite[..|data|] == data;
    SamePendingDown(c, d);
    RecordedSame(c, e, d, t);
  }

  lemma SamePendingDown(c: Conn, d: Conn)
    requires c.ops.clientWrites == d.ops.clientWrites
    requires c.ops.clientWrites != [] ==> c.BufferText(c.ops.clientWrites[0].buffer) == d.BufferText(c.ops.clientWrites[0].buffer)
    ensures PendingDown(c) == PendingDown(d)
  {
  }

  lemma SamePendingUp(c: Conn, d: Conn)
    requires c.ops.originWrites == d.ops.originWrites
    requires c.ops.originWrites != [] ==> c.BufferText(c.ops.originWrites[0].buffer) == d.BufferText(c.ops.originWrites[0].buffer)
    ensures PendingUp(c) == PendingUp(d)
  {
  }

  lemma TunnelReadDown(cfg: Config, w: World, data: string)
    requires StreamsInv(w) && Live(w.conn) && Enabled(w.conn, OriginRead(data)) && w.conn.ctx.state == TunnelTransfer
    requires Inv(Step(cfg, w.conn, OriginRead(data)))
    ensures StreamsInv(NextWorld(cfg, w, OriginRead(data)))
  {
    hide FindHeadEnd, Recorded, PendingUp, Shape, OnResponseHeadData, OnResponseContent, OnClientData, OnResolved,
      OnConnect;
    var c, t, e := w.conn, w.trace, OriginRead(data);
    TunnelMeans(c);
    var d := Step(cfg, c, e);
    PrefixPiece(d.downWrite, |data|);
    assert d.downWrite[..|data|] == data;
    SamePendingUp(c, d);
    RecordedSame(c, e, d, t);
  }

  lemma TunnelWriteUp(cfg: Config, w: World, n: nat)
    requires StreamsInv(w) && Live(w.conn) && Enabled(w.conn, OriginWritten(n)) && w.conn.ctx.state == TunnelTransfer
    requires Inv(Step(cfg, w.conn, OriginWritten(n)))
    ensures StreamsInv(NextWorld(cfg, w, OriginWritten(n)))
  {
    hide FindHeadEnd, Recorded, PendingUp, PendingDown, Shape, OnRequestWritten;
    var c, t, e := w.conn, w.trace, OriginWritten(n);
    TunnelMeans(c);
    var d := Step(cfg, c, e);
    OriginTakes(c, n, d, t);
    SamePendingDown(c, d);
    RecordedSame(c, e, d, t);
  }

  lemma TunnelWriteDown(cfg: Config, w: World, n: nat)
    requires StreamsInv(w) && Live(w.conn) && Enabled(w.conn, ClientWritten(n)) && w.conn.ctx.state == TunnelTransfer
    requires Inv(Step(cfg, w.conn, ClientWritten(n)))
    ensures StreamsInv(NextWorld(cfg, w, ClientWritten(n)))
  {
    hide FindHeadEnd, Recorded, PendingUp, PendingDown, Shape, OnResponseWritten;
    var c, t, e := w.conn, w.trace, ClientWritten(n);
    TunnelMeans(c);
    var d := Step(cfg, c, e);
    ClientTakes(c, n, d, t);
    SamePendingUp(c, d);
    RecordedSame(c, e, d, t);
  }

  lemma TunnelFails(cfg: Config, c: Conn, e: Event)
    requires Inv(c) && Live(c) && Enabled(c, e) && c.ctx.state == TunnelTransfer
    requires !e.ClientRead? && !e.OriginRead? && !e.ClientWritten? && !e.OriginWritten?
    ensures !Live(Step(cfg, c, e))
  {
    hide FindHeadEnd;
  }

  /** Every step keeps the streams. */
  lemma StepKeepsStreams(cfg: Config, w: World, e: Event)
    requires StreamsInv(w) && Enabled(w.conn, e) && Inv(Step(cfg, w.conn, e))
    ensures StreamsInv(NextWorld(cfg, w, e))
  {
    hide Streams, Shape, Recorded, Handle, Inv, Enabled;
    if e.TimerExpires? || e.TimeoutRuns? || !Live(w.conn) {
      NoMoreLife(cfg, w.conn, e);
    } else if w.conn.ctx.state == TunnelTransfer {
      match e {
        case ClientRead(data) => TunnelReadUp(cfg, w, data);
        case OriginRead(data) => TunnelReadDown(cfg, w, data);
        case ClientWritten(n) => TunnelWriteDown(cfg, w, n);
        case OriginWritten(n) => TunnelWriteUp(cfg, w, n);
        case _ => TunnelFails(cfg, w.conn, e);
      }
    } else {
      match e {
        case ClientRead(data) => ClientReadStreams(cfg, w, data);
        case OriginRead(data) => OriginReadStreams(cfg, w, data);
        case ClientWritten(n) => ClientWrittenStreams(cfg, w, n);
        case OriginWritten(n) => OriginWrittenStreams(cfg, w, n);
        case Resolved(_) => ReachingStreams(cfg, w, e);
        case ResolveFailed => ReachingStreams(cfg, w, e);
        case Connected => ReachingStreams(cfg, w, e);
        case ConnectFailed => ReachingStreams(cfg, w, e);
        case _ => FailureStreams(cfg, w, e);
      }
    }
  }

  lemma NoMoreLife(cfg: Config, c: Conn, e: Event)
    requires Inv(c) && Enabled(c, e) && (e.TimerExpires? || e.TimeoutRuns? || !Live(c))
    ensures !Live(Step(cfg, c, e))
  {
  }
}
