/** What every reachable state of a connection keeps: one timer wait, the operations
    its state calls for, and nothing the program's assertions forbid. */
module ProxyInvariants {
  import opened Text
  import opened ChunkChecker
  import opened HeaderMap
  import opened HeaderParser
  import opened HeadPrinter
  import opened ProxyContext
  import opened ProxyMachine

  ghost predicate BuffersSized(c: Conn) {
    |c.upRead| == |c.upWrite| == |c.downRead| == |c.downWrite| == BUFFER_LENGTH
  }

  /** An open origin socket is the one last connected. */
  ghost predicate EndpointKnown(c: Conn) { c.origin.Some? ==> c.ctx.originEndpoint == c.origin }

  /** The request being served: its head is in `requestData`, and unless it is a
      CONNECT the length of its body is known. */
  ghost predicate Serving(c: Conn) {
    && c.requestHead.Some? && FindHeadEnd(c.requestData).Some?
    && (c.requestHead.value.verb != CONNECT ==> c.req.contentLength.Some?)
  }

  ghost predicate ServingHttp(c: Conn) { Serving(c) && c.requestHead.value.verb != CONNECT }

  ghost predicate CheckerAlive(c: Conn) { c.resp.checker.Some? ==> !c.resp.checker.value.IsFail() }

  /** One write to the origin, up to byte `end` of a buffer, on the present socket. */
  ghost predicate WritesOrigin(c: Conn, buffer: Buffer) {
    && |c.ops.originWrites| == 1
    && var w := c.ops.originWrites[0];
       && w.buffer == buffer && w.peer == c.origin
       && w.offset + w.size <= |c.BufferText(buffer)|
       && (buffer.ModifiedRequest? ==> w.offset + w.size == |c.modifiedRequest|)
  }

  ghost predicate WritesClient(c: Conn, buffer: Buffer) {
    && |c.ops.clientWrites| == 1
    && var w := c.ops.clientWrites[0];
       && w.buffer == buffer
       && w.offset + w.size <= |c.BufferText(buffer)|
       && (buffer.ModifiedResponse? ==> w.offset + w.size == |c.modifiedResponse|)
  }

  ghost predicate OnlyOriginWrite(c: Conn, buffer: Buffer) {
    WritesOrigin(c, buffer) && c.ops == NO_OPS.(originWrites := c.ops.originWrites)
  }

  ghost predicate OnlyClientWrite(c: Conn, buffer: Buffer) {
    WritesClient(c, buffer) && c.ops == NO_OPS.(clientWrites := c.ops.clientWrites)
  }

  /** The operations in flight, and what the handlers to come rely on, state by state. */
  ghost predicate Shape(c: Conn) {
    match c.ctx.state
    case ReadCipherData => false
    case ReadHttpRequestHeader =>
      && c.ops == NO_OPS.(clientReads := 1)
      && c.requestHead.None? && c.responseData == ""
      && FindHeadEnd(c.requestData).None? && |c.requestData| < MAX_REQUEST_HEADER_LENGTH
    case ResolveOriginServerAddress =>
      && Serving(c) && c.responseData == "" && !c.ctx.reconnectOnError
      && c.ctx.originName == c.requestHead.value.host && c.ctx.originPort == c.requestHead.value.port
      && c.ops == NO_OPS.(resolves := [Query(c.ctx.originName, c.ctx.originPort)])
    case ConnectToOriginServer =>
      && Serving(c) && c.responseData == "" && !c.ctx.reconnectOnError
      && |c.ops.connects| == 1 && c.ops.connects[0] != []
      && c.ops == NO_OPS.(connects := c.ops.connects)
      && c.origin == Some(c.ops.connects[0][0])
    case WriteHttpRequestHeader =>
      && ServingHttp(c) && c.responseData == "" && OnlyOriginWrite(c, ModifiedRequest)
      && (c.ctx.reconnectOnError ==> c.ops.originWrites[0].offset == 0)
    case ReadHttpRequestContent => ServingHttp(c) && c.responseData == "" && c.ops == NO_OPS.(clientReads := 1)
    case WriteHttpRequestContent => ServingHttp(c) && c.responseData == "" && OnlyOriginWrite(c, UpgoingWrite)
    case ReadHttpResponseHeader =>
      && ServingHttp(c) && c.ops == NO_OPS.(originReads := 1)
      && FindHeadEnd(c.responseData).None? && |c.responseData| < MAX_RESPONSE_HEADER_LENGTH
    case WriteHttpResponseHeader => ServingHttp(c) && CheckerAlive(c) && OnlyClientWrite(c, ModifiedResponse)
    case ReadHttpResponseContent => ServingHttp(c) && CheckerAlive(c) && c.ops == NO_OPS.(originReads := 1)
    case WriteHttpResponseContent => ServingHttp(c) && CheckerAlive(c) && OnlyClientWrite(c, DowngoingWrite)
    case ReportConnectionEstablished =>
      && Serving(c) && c.requestHead.value.verb == CONNECT && OnlyClientWrite(c, ModifiedResponse)
      && c.modifiedResponse == ESTABLISHED
    case ReportError => OnlyClientWrite(c, ModifiedResponse)
    case TunnelTransfer =>
      && Serving(c) && c.requestHead.value.verb == CONNECT
      && c.ops.resolves == [] && c.ops.connects == []
      && (if c.ops.clientReads == 0 then WritesOrigin(c, UpgoingWrite)
          else c.ops.clientReads == 1 && c.ops.originWrites == [])
      && (if c.ops.originReads == 0 then WritesClient(c, DowngoingWrite)
          else c.ops.originReads == 1 && c.ops.clientWrites == [])
  }

  ghost predicate Live(c: Conn) { c.waits == 1 }

  /** A connection is live, with its one timer wait and the operations of its state;
      or its timeout is queued; or it is over, and nothing it does starts anything. */
  ghost predicate Inv(c: Conn) {
    && !c.fault && c.waits + c.fired <= 1 && BuffersSized(c)
    && (Live(c) ==> EndpointKnown(c) && Shape(c))
  }

  // ------------------------------------------- a handler's start and what it leaves

  /** The state in which a half-duplex handler runs: the timer is cancelled and the
      operation it completes was the only one. */
  ghost predicate Quiet(c: Conn) {
    !c.fault && c.waits == 0 && c.fired == 0 && BuffersSized(c) && EndpointKnown(c) && c.ops == NO_OPS
  }

  lemma ReportGood(c: Conn, problem: Problem)
    requires Quiet(c)
    ensures Inv(Report(c, problem))
  {
    hide ProblemPage;
  }

  lemma AuthPageGood(c: Conn)
    requires Quiet(c)
    ensures Inv(WritePage(c, AuthPage()))
  {
    hide AuthPage;
  }

  lemma StrippedVerb(c: Conn)
    requires c.requestHead.Some?
    ensures Stripped(c.requestHead.value).verb == c.requestHead.value.verb
  {
  }

  lemma WriteRequestGood(c: Conn)
    requires Quiet(c) && ServingHttp(c) && c.responseData == ""
    ensures Inv(AsyncWriteRequestHeader(c))
  {
    hide RequestText, Stripped, FindHeadEnd;
    StrippedVerb(c);
  }

  lemma OnConnectGood(c: Conn)
    requires Quiet(c) && Serving(c) && c.responseData == ""
    ensures Inv(OnConnect(c))
  {
    hide AsyncWriteRequestHeader, FindHeadEnd;
    if c.requestHead.value.verb != CONNECT {
      WriteRequestGood(c);
    }
  }

  lemma AsyncConnectGood(c: Conn)
    requires Quiet(c) && Serving(c) && c.responseData == ""
    ensures Inv(AsyncConnect(c))
  {
    hide OnConnect, FindHeadEnd;
    var d := c.(ctx := c.ctx.(reconnectOnError := false));
    var e := if d.requestHead.value.verb == CONNECT then CloseOrigin(d) else d;
    OnConnectGood(e.(ctx := e.ctx.(reconnectOnError := true)));
  }

  lemma TryConnectGood(c: Conn, endpoints: seq<Endpoint>)
    requires Quiet(c) && Serving(c) && c.responseData == "" && !c.ctx.reconnectOnError && endpoints != []
    ensures Inv(TryConnect(c, endpoints))
  {
    hide FindHeadEnd;
  }

  lemma OnResolvedGood(c: Conn, endpoints: seq<Endpoint>)
    requires Quiet(c) && Serving(c) && c.responseData == "" && !c.ctx.reconnectOnError && endpoints != []
    ensures Inv(OnResolved(c, endpoints))
  {
    hide OnConnect, TryConnect, FindHeadEnd;
    TryConnectGood(CloseOrigin(c), endpoints);
    var d := if c.ctx.originEndpoint == Some(endpoints[0]) then c else CloseOrigin(c);
    OnConnectGood(d.(ctx := d.ctx.(reconnectOnError := true)));
  }

  // ------------------------------------------------------------------- judgements

  /** A request that is forwarded is no CONNECT and has a length; one that is
      tunnelled is a CONNECT. */
  lemma JudgedRequest(cfg: Config, r: RequestHead, context: RequestContext, extra: nat)
    ensures var j := JudgeRequest(cfg, r, context, extra);
            && (j.Forward? ==> r.verb != CONNECT && j.context.contentLength.Some?)
            && (j.Tunnel? ==> r.verb == CONNECT)
  {
    hide ClientKeepAlive, Authorized, JudgeUpload;
    JudgedUpload(r, RequestContext(ClientKeepAlive(r), None, 0, None), extra);
  }

  lemma JudgedUpload(r: RequestHead, reset: RequestContext, extra: nat)
    ensures var j := JudgeUpload(r, reset, extra);
            && (j.Forward? ==> j.context.contentLength.Some?) && !j.Tunnel?
  {
    hide Lookup, Stoull, Lower;
  }

  lemma JudgedResponse(verb: string, r: ResponseHead, context: ResponseContext, body: string)
    ensures var j := JudgeResponse(verb, r, context, body);
            && (j.Reject? || j.Forward?)
            && (j.Forward? && j.context.checker.Some? ==>
                  j.context.checker.value == Feed(FRESH, body) && !Feed(FRESH, body).IsFail())
  {
    hide Feed, Lookup, Lower, JudgeLength;
    var reset := ResponseContext(r.httpVersion == "1.1", None, 0, None);
    JudgedLength(verb, r, reset, body);
    JudgedLength(verb, r, reset.(keepAlive := false), body);
    JudgedLength(verb, r, reset.(keepAlive := true), body);
  }

  lemma JudgedLength(verb: string, r: ResponseHead, reset: ResponseContext, body: string)
    requires reset.checker.None?
    ensures var j := JudgeLength(verb, r, reset, body);
            && (j.Reject? || j.Forward?)
            && (j.Forward? && j.context.checker.Some? ==>
                  j.context.checker.value == Feed(FRESH, body) && !Feed(FRESH, body).IsFail())
  {
    hide Feed, Lookup, Lower, Stoull;
  }

  // ----------------------------------------------------------- data from the client

  /** An upload that would be let through, but for being framed by chunks. */
  predicate UploadsInChunks(cfg: Config, r: RequestHead) {
    && (r.verb == "POST" || r.verb == "PUT") && (r.httpVersion == "1.1" || r.httpVersion == "1.0")
    && Authorized(cfg, r) && r.scheme == "http"
    && Lookup(r.headers, "Content-Length").None?
    && var encoding := Lookup(r.headers, "Transfer-Encoding");
       encoding.Some? && Lower(encoding.value) == "chunked"
  }

  lemma ChunkedUploadIff(cfg: Config, r: RequestHead, context: RequestContext, extra: nat)
    ensures JudgeRequest(cfg, r, context, extra).ChunkedUpload? <==> UploadsInChunks(cfg, r)
  {
    hide Authorized, ClientKeepAlive, Lookup, Stoull, Lower;
  }

  /** The program's one unsound branch: an upload framed by chunks, whose checker it
      looks for in an empty optional. */
  predicate AsksChunkedUpload(cfg: Config, c: Conn, data: string) {
    var all := c.requestData + data;
    var p := FindHeadEnd(all);
    && c.ctx.state == ReadHttpRequestHeader && p.Some?
    && var head := ParsedRequest(all[..p.value + 4]);
       head.Some? && UploadsInChunks(cfg, head.value)
  }

  lemma ObeyGood(cfg: Config, c: Conn, extra: nat)
    requires Quiet(c) && c.requestHead.Some? && FindHeadEnd(c.requestData).Some? && c.responseData == ""
    ensures var j := JudgeRequest(cfg, c.requestHead.value, c.req, extra);
            if UploadsInChunks(cfg, c.requestHead.value) then Obey(c, j).fault else Inv(Obey(c, j))
  {
    hide JudgeRequest, UploadsInChunks, FindHeadEnd, AsyncConnect, Report, WritePage, AuthPage;
    var r := c.requestHead.value;
    JudgedRequest(cfg, r, c.req, extra);
    ChunkedUploadIff(cfg, r, c.req, extra);
    var j := JudgeRequest(cfg, r, c.req, extra);
    var d := c.(req := j.context);
    match j {
      case Reject(_, problem) => ReportGood(d, problem);
      case RejectAuth(_) => AuthPageGood(d);
      case Tunnel(_) => AsyncConnectGood(d);
      case Forward(_) => AsyncConnectGood(d);
      case ChunkedUpload(_) =>
    }
  }

  lemma RequestHeadDataGood(cfg: Config, c: Conn, data: string)
    requires Quiet(c) && c.ctx.state == ReadHttpRequestHeader
    requires c.requestHead.None? && c.responseData == ""
    ensures var d := OnRequestHeadData(cfg, c, data);
            if AsksChunkedUpload(cfg, c, data) then d.fault else Inv(d)
  {
    hide JudgeRequest, UploadsInChunks, FindHeadEnd, ParsedRequest, Obey, Report;
    var d := c.(requestData := c.requestData + data);
    var p := FindHeadEnd(d.requestData);
    if p.None? {
      ReportGood(d, RequestHeaderTooLong);
    } else {
      var head := ParsedRequest(d.requestData[..p.value + 4]);
      var e := d.(requestHead := head);
      ReportGood(e, BadRequestHeader);
      if head.Some? {
        ObeyGood(cfg, e, |d.requestData| - (p.value + 4));
      }
    }
  }

  lemma ClientDataGood(cfg: Config, c: Conn, n: nat)
    requires Quiet(c) && 1 <= n <= BUFFER_LENGTH
    requires c.ctx.state == ReadHttpRequestHeader ==> c.requestHead.None? && c.responseData == ""
    requires c.ctx.state == ReadHttpRequestContent ==> ServingHttp(c) && c.responseData == ""
    requires c.ctx.state in {ReadHttpRequestHeader, ReadHttpRequestContent}
    ensures var d := OnClientData(cfg, c, n);
            if AsksChunkedUpload(cfg, c, c.upRead[..n]) then d.fault else Inv(d)
  {
    hide UploadsInChunks, FindHeadEnd, ParsedRequest, OnRequestHeadData;
    var d := c.(upWrite := c.upRead);
    if c.ctx.state == ReadHttpRequestHeader {
      RequestHeadDataGood(cfg, d, d.upWrite[..n]);
      SameAsk(cfg, c, d, c.upRead[..n]);
    }
  }

  lemma SameAsk(cfg: Config, c: Conn, d: Conn, data: string)
    requires d == c.(upWrite := d.upWrite)
    ensures AsksChunkedUpload(cfg, c, data) == AsksChunkedUpload(cfg, d, data)
  {
    hide UploadsInChunks, FindHeadEnd, ParsedRequest;
  }

  // --------------------------------------------------------- data from the origin

  lemma WriteResponseGood(c: Conn)
    requires Quiet(c) && ServingHttp(c) && CheckerAlive(c)
    requires FindHeadEnd(c.responseData).Some? && c.responseHead.Some?
    ensures Inv(AsyncWriteResponseHeader(c))
  {
    hide FindHeadEnd, ResponseText;
  }

  lemma ResponseHeadDataGood(c: Conn, data: string)
    requires Quiet(c) && c.ctx.state == ReadHttpResponseHeader && ServingHttp(c)
    ensures Inv(OnResponseHeadData(c, data))
  {
    hide FindHeadEnd, ParsedResponse, JudgeResponse, Report, AsyncWriteResponseHeader;
    var d := c.(responseData := c.responseData + data);
    var p := FindHeadEnd(d.responseData);
    if p.None? {
      ReportGood(d, ResponseHeaderTooLong);
    } else {
      var head := ParsedResponse(d.responseData[..p.value + 4]);
      var e := d.(responseHead := head);
      ReportGood(e, BadResponseHeader);
      if head.Some? {
        var verb, body := e.requestHead.value.verb, d.responseData[p.value + 4..];
        JudgedResponse(verb, head.value, e.resp, body);
        var j := JudgeResponse(verb, head.value, e.resp, body);
        var f := e.(resp := j.context);
        if j.Reject? {
          ReportGood(f, j.problem);
        } else {
          WriteResponseGood(f);
        }
      }
    }
  }

  lemma ResponseContentGood(c: Conn, n: nat)
    requires Quiet(c) && ServingHttp(c) && CheckerAlive(c) && n <= BUFFER_LENGTH
    ensures Inv(OnResponseContent(c, n))
  {
    hide FindHeadEnd, Feed, Wrap64;
  }

  // --------------------------------------------------------------- what was written

  lemma ResponseWrittenGood(c: Conn)
    requires Quiet(c) && ServingHttp(c) && CheckerAlive(c)
    ensures Inv(OnResponseWritten(c))
  {
    hide FindHeadEnd, ResponseDone;
    NoHeadInNothing();
  }

  lemma NoHeadInNothing()
    ensures FindHeadEnd("").None?
  {
  }

  lemma RequestWrittenGood(c: Conn)
    requires Quiet(c) && ServingHttp(c) && c.responseData == ""
    ensures Inv(OnRequestWritten(c))
  {
    hide FindHeadEnd;
    NoHeadInNothing();
  }

  lemma ErrorGood(c: Conn)
    requires Quiet(c)
    requires c.ctx.state == WriteHttpRequestHeader && c.ctx.reconnectOnError ==> Serving(c) && c.responseData == ""
    ensures Inv(OnError(c))
  {
    hide FindHeadEnd, AsyncConnect, Report;
    match c.ctx.state {
      case ResolveOriginServerAddress => ReportGood(c, ResolveFailure);
      case ConnectToOriginServer => ReportGood(c, ConnectFailure);
      case WriteHttpRequestHeader =>
        if c.ctx.reconnectOnError {
          AsyncConnectGood(CloseOrigin(c));
        }
      case _ =>
    }
  }

  // ------------------------------------------------------------------------- steps

  /** A completion that finds the timer waiting, outside the tunnel, leaves no other
      operation behind. */
  lemma CompletedIsQuiet(c: Conn, e: Event)
    requires Inv(c) && Live(c) && Enabled(c, e) && !e.TimerExpires? && !e.TimeoutRuns?
    requires c.ctx.state != TunnelTransfer
    ensures var d := Completed(c, e).(waits := 0);
            Quiet(d) && d == c.(upRead := d.upRead, downRead := d.downRead, waits := 0, ops := NO_OPS)
    ensures e.ClientRead? ==> Completed(c, e).upRead[..|e.data|] == e.data
    ensures e.OriginRead? ==> Completed(c, e).downRead[..|e.data|] == e.data
  {
    hide FindHeadEnd;
  }

  /** Each kind of completion belongs to the states that started the operation. */
  lemma WhoCompletes(c: Conn, e: Event)
    requires Inv(c) && Live(c) && Enabled(c, e) && c.ctx.state != TunnelTransfer
    ensures e.ClientRead? || e.ClientReadFailed? ==> c.ctx.state in {ReadHttpRequestHeader, ReadHttpRequestContent}
    ensures e.OriginRead? || e.OriginReadFailed? ==> c.ctx.state in {ReadHttpResponseHeader, ReadHttpResponseContent}
    ensures e.ClientWritten? || e.ClientWriteFailed? ==>
      c.ctx.state in {WriteHttpResponseHeader, WriteHttpResponseContent, ReportConnectionEstablished, ReportError}
    ensures e.OriginWritten? || e.OriginWriteFailed? ==> c.ctx.state in {WriteHttpRequestHeader, WriteHttpRequestContent}
    ensures e.Resolved? || e.ResolveFailed? ==> c.ctx.state == ResolveOriginServerAddress
    ensures e.Connected? || e.ConnectFailed? ==> c.ctx.state == ConnectToOriginServer
  {
    hide FindHeadEnd;
  }

  lemma ClientWrittenGood(cfg: Config, c: Conn, n: nat)
    requires Inv(c) && Live(c) && Enabled(c, ClientWritten(n)) && c.ctx.state != TunnelTransfer
    ensures Inv(Step(cfg, c, ClientWritten(n)))
  {
    hide FindHeadEnd, OnResponseWritten, Serving, CheckerAlive, OnClientData, OnOriginData, OnOriginWritten,
      OnResolved, OnConnect, OnError;
    var e := ClientWritten(n);
    CompletedIsQuiet(c, e);
    WhoCompletes(c, e);
    var d := Completed(c, e).(waits := 0);
    if n == c.ops.clientWrites[0].size {
      match c.ctx.state {
        case WriteHttpResponseHeader => SameServing(c, d); ResponseWrittenGood(d);
        case WriteHttpResponseContent => SameServing(c, d); ResponseWrittenGood(d);
        case ReportConnectionEstablished => SameServing(c, Step(cfg, c, e));
        case ReportError =>
      }
    } else {
      SameServing(c, Step(cfg, c, e));
    }
  }

  /** What a connection serves does not depend on its operations or its timer. */
  lemma SameServing(c: Conn, d: Conn)
    ensures c.requestHead == d.requestHead && c.requestData == d.requestData && c.req == d.req
            ==> Serving(c) == Serving(d)
    ensures c.resp == d.resp ==> CheckerAlive(c) == CheckerAlive(d)
  {
    hide FindHeadEnd;
  }

  lemma OriginWrittenGood(cfg: Config, c: Conn, n: nat)
    requires Inv(c) && Live(c) && Enabled(c, OriginWritten(n)) && c.ctx.state != TunnelTransfer
    ensures Inv(Step(cfg, c, OriginWritten(n)))
  {
    hide FindHeadEnd, OnRequestWritten, Serving, OnClientData, OnOriginData, OnClientWritten, OnResolved, OnConnect,
      OnError;
    var e := OriginWritten(n);
    CompletedIsQuiet(c, e);
    WhoCompletes(c, e);
    var d := Completed(c, e).(waits := 0);
    var f := d.(ctx := d.ctx.(reconnectOnError := false));
    SameServing(c, f);
    if n == c.ops.originWrites[0].size {
      RequestWrittenGood(f);
    } else {
      SameServing(c, Step(cfg, c, e));
    }
  }

  lemma ReadGood(cfg: Config, c: Conn, e: Event)
    requires Inv(c) && Live(c) && Enabled(c, e) && c.ctx.state != TunnelTransfer
    requires e.ClientRead? || e.OriginRead?
    ensures if e.ClientRead? && AsksChunkedUpload(cfg, c, e.data) then Step(cfg, c, e).fault else Inv(Step(cfg, c, e))
  {
    hide FindHeadEnd, OnClientData, OnResponseHeadData, OnResponseContent, Serving, CheckerAlive, AsksChunkedUpload;
    CompletedIsQuiet(c, e);
    WhoCompletes(c, e);
    var d := Completed(c, e).(waits := 0);
    SameServing(c, d);
    if e.ClientRead? {
      ClientDataGood(cfg, d, |e.data|);
      SameRequestSoFar(cfg, c, d, e.data);
    } else if c.ctx.state == ReadHttpResponseHeader {
      ResponseHeadDataGood(d, d.downRead[..|e.data|]);
    } else {
      ResponseContentGood(d, |e.data|);
    }
  }

  lemma SameRequestSoFar(cfg: Config, c: Conn, d: Conn, data: string)
    requires c.requestData == d.requestData && c.ctx == d.ctx
    ensures AsksChunkedUpload(cfg, c, data) == AsksChunkedUpload(cfg, d, data)
  {
    hide UploadsInChunks, FindHeadEnd, ParsedRequest;
  }

  lemma ReachingGood(cfg: Config, c: Conn, e: Event)
    requires Inv(c) && Live(c) && Enabled(c, e) && c.ctx.state != TunnelTransfer
    requires e.Resolved? || e.Connected? || e.ConnectFailed?
    ensures Inv(Step(cfg, c, e))
  {
    hide FindHeadEnd, OnResolved, OnConnect, OnError, Serving;
    CompletedIsQuiet(c, e);
    WhoCompletes(c, e);
    var d := Completed(c, e).(waits := 0);
    SameServing(c, d);
    match e {
      case Resolved(endpoints) => OnResolvedGood(d, endpoints);
      case Connected => OnConnectGood(d);
      case ConnectFailed =>
        var tried := c.ops.connects[0];
        SameServing(c, CloseOrigin(d));
        if |tried| > 1 {
          OnResolvedGood(CloseOrigin(d), tried[1..]);
        } else {
          ErrorGood(CloseOrigin(d));
        }
    }
  }

  lemma FailureGood(cfg: Config, c: Conn, e: Event)
    requires Inv(c) && Live(c) && Enabled(c, e) && c.ctx.state != TunnelTransfer
    requires e.ClientReadFailed? || e.OriginReadFailed? || e.ClientWriteFailed? || e.OriginWriteFailed? || e.ResolveFailed?
    ensures Inv(Step(cfg, c, e))
  {
    hide FindHeadEnd, OnError, Serving, OnClientData, OnOriginData, OnClientWritten, OnOriginWritten, OnResolved,
      OnConnect, Report;
    CompletedIsQuiet(c, e);
    var d := Completed(c, e).(waits := 0);
    SameServing(c, d);
    ErrorGood(d);
  }

  lemma TunnelUpGood(cfg: Config, c: Conn, e: Event)
    requires Inv(c) && Live(c) && Enabled(c, e) && c.ctx.state == TunnelTransfer
    requires e.ClientRead? || e.OriginWritten?
    ensures Inv(Step(cfg, c, e))
  {
    hide FindHeadEnd, Serving, OnRequestHeadData, OnRequestContent, OnRequestWritten, OnResolved, OnError, OnConnect,
      OnOriginData, OnClientWritten;
    SameServing(c, Step(cfg, c, e));
  }

  lemma TunnelDownGood(cfg: Config, c: Conn, e: Event)
    requires Inv(c) && Live(c) && Enabled(c, e) && c.ctx.state == TunnelTransfer
    requires e.OriginRead? || e.ClientWritten?
    ensures Inv(Step(cfg, c, e))
  {
    hide FindHeadEnd, Serving, OnResponseHeadData, OnResponseContent, OnResponseWritten, OnResolved, OnError, OnConnect,
      OnClientData, OnOriginWritten;
    SameServing(c, Step(cfg, c, e));
  }

  /** In the tunnel the two directions take turns with the one timer. */
  lemma TunnelGood(cfg: Config, c: Conn, e: Event)
    requires Inv(c) && Live(c) && Enabled(c, e) && c.ctx.state == TunnelTransfer
    ensures Inv(Step(cfg, c, e))
  {
    hide FindHeadEnd, Serving, OnClientData, OnOriginData, OnClientWritten, OnOriginWritten, OnResolved, OnConnect,
      AsyncConnect, Report;
    if e.ClientRead? || e.OriginWritten? {
      TunnelUpGood(cfg, c, e);
    } else if e.OriginRead? || e.ClientWritten? {
      TunnelDownGood(cfg, c, e);
    }
  }

  /** Every step keeps the invariant, except the one that meets a chunked upload. */
  lemma StepKeepsInv(cfg: Config, c: Conn, e: Event)
    requires Inv(c) && Enabled(c, e)
    requires !(Live(c) && e.ClientRead? && AsksChunkedUpload(cfg, c, e.data))
    ensures Inv(Step(cfg, c, e))
  {
    hide FindHeadEnd, Serving, AsksChunkedUpload, Shape, Handle;
    if e.TimerExpires? || e.TimeoutRuns? || !Live(c) {
    } else if c.ctx.state == TunnelTransfer {
      TunnelGood(cfg, c, e);
    } else {
      match e {
        case ClientRead(_) => ReadGood(cfg, c, e);
        case OriginRead(_) => ReadGood(cfg, c, e);
        case ClientWritten(n) => ClientWrittenGood(cfg, c, n);
        case OriginWritten(n) => OriginWrittenGood(cfg, c, n);
        case Resolved(_) => ReachingGood(cfg, c, e);
        case Connected => ReachingGood(cfg, c, e);
        case ConnectFailed => ReachingGood(cfg, c, e);
        case _ => FailureGood(cfg, c, e);
      }
    }
  }

  /** Assertions, empty optionals and missing branches: a step goes wrong exactly when
      it completes the head of a chunked upload. */
  lemma FaultIffChunkedUpload(cfg: Config, c: Conn, e: Event)
    requires Inv(c) && Enabled(c, e)
    ensures Step(cfg, c, e).fault <==> Live(c) && e.ClientRead? && AsksChunkedUpload(cfg, c, e.data)
  {
    hide FindHeadEnd, AsksChunkedUpload, Handle;
    if Live(c) && e.ClientRead? && AsksChunkedUpload(cfg, c, e.data) {
      OnlyInHead(cfg, c, e.data);
      ReadGood(cfg, c, e);
    } else {
      StepKeepsInv(cfg, c, e);
    }
  }

  lemma OnlyInHead(cfg: Config, c: Conn, data: string)
    requires AsksChunkedUpload(cfg, c, data)
    ensures c.ctx.state == ReadHttpRequestHeader
  {
    hide UploadsInChunks, FindHeadEnd, ParsedRequest;
  }

  lemma StartedInv(c: Conn)
    requires Created(c)
    ensures Inv(Started(c)) && Live(Started(c))
  {
    hide FindHeadEnd;
    NoHeadInNothing();
  }

  // -------------------------------------------------------------------------- runs

  /** The state after a run of events, each possible when it comes. */
  ghost predicate Possible(cfg: Config, c: Conn, run: seq<Event>)
    decreases |run|
  {
    run == [] || (Enabled(c, run[0]) && Possible(cfg, Step(cfg, c, run[0]), run[1..]))
  }

  ghost function After(cfg: Config, c: Conn, run: seq<Event>): Conn
    requires Possible(cfg, c, run)
    decreases |run|
  {
    if run == [] then c else After(cfg, Step(cfg, c, run[0]), run[1..])
  }

  /** No read of the run completes the head of a chunked upload. */
  ghost predicate NoChunkedUpload(cfg: Config, c: Conn, run: seq<Event>)
    requires Possible(cfg, c, run)
    decreases |run|
  {
    run != [] ==>
      && !(Live(c) && run[0].ClientRead? && AsksChunkedUpload(cfg, c, run[0].data))
      && NoChunkedUpload(cfg, Step(cfg, c, run[0]), run[1..])
  }

  lemma {:induction false} RunKeepsInv(cfg: Config, c: Conn, run: seq<Event>)
    requires Inv(c) && Possible(cfg, c, run) && NoChunkedUpload(cfg, c, run)
    ensures Inv(After(cfg, c, run))
    decreases |run|
  {
    hide Inv, Enabled, Step, AsksChunkedUpload;
    if run != [] {
      StepKeepsInv(cfg, c, run[0]);
      RunKeepsInv(cfg, Step(cfg, c, run[0]), run[1..]);
    }
  }

  lemma FaultStaysWritingHead(c: Conn)
    requires c.fault
    ensures OnConnect(c).fault
  {
    hide FindHeadEnd, RequestText, Stripped;
  }

  lemma FaultStaysResolved(c: Conn, endpoints: seq<Endpoint>)
    requires c.fault
    ensures OnResolved(c, endpoints).fault
  {
    hide OnConnect;
    var d := if c.ctx.originEndpoint.Some? && endpoints != [] && c.ctx.originEndpoint.value == endpoints[0] then c
             else CloseOrigin(c);
    FaultStaysWritingHead(d.(ctx := d.ctx.(reconnectOnError := true)));
  }

  lemma FaultStaysConnecting(c: Conn)
    requires c.fault
    ensures AsyncConnect(c).fault && OnConnect(c).fault
    ensures forall endpoints :: OnResolved(c, endpoints).fault
  {
    hide OnConnect, OnResolved;
    FaultStaysWritingHead(c);
    var d := c.(ctx := c.ctx.(reconnectOnError := false));
    FaultStaysWritingHead(d.(ctx := d.ctx.(reconnectOnError := true)));
    FaultStaysWritingHead(CloseOrigin(d).(ctx := d.ctx.(reconnectOnError := true)));
    forall endpoints ensures OnResolved(c, endpoints).fault {
      FaultStaysResolved(c, endpoints);
    }
  }

  lemma FaultStaysReading(cfg: Config, c: Conn, n: nat)
    requires c.fault
    ensures n <= |c.upRead| ==> OnClientData(cfg, c, n).fault
    ensures n <= |c.downRead| ==> OnOriginData(c, n).fault
  {
    hide FindHeadEnd, JudgeRequest, JudgeResponse, ParsedRequest, ParsedResponse, AsyncConnect, Feed,
      ResponseText, ProblemPage, AuthPage;
    if n <= |c.upRead| {
      FaultStaysObeying(cfg, c.(upWrite := c.upRead), c.upRead[..n]);
    }
  }

  lemma FaultStaysObey(c: Conn, j: Judgement<RequestContext>)
    requires c.fault
    ensures Obey(c, j).fault
  {
    hide AsyncConnect, ProblemPage, AuthPage;
    FaultStaysConnecting(c.(req := j.context));
  }

  lemma FaultStaysObeying(cfg: Config, c: Conn, data: string)
    requires c.fault
    ensures OnRequestHeadData(cfg, c, data).fault
  {
    hide FindHeadEnd, JudgeRequest, ParsedRequest, Obey, ProblemPage;
    var d := c.(requestData := c.requestData + data);
    var p := FindHeadEnd(d.requestData);
    if p.Some? {
      var head := ParsedRequest(d.requestData[..p.value + 4]);
      if head.Some? {
        FaultStaysObey(d.(requestHead := head), JudgeRequest(cfg, head.value, d.req, |d.requestData| - (p.value + 4)));
      }
    }
  }

  lemma FaultStaysAnswering(c: Conn)
    requires c.fault
    ensures OnResponseWritten(c).fault && OnRequestWritten(c).fault
  {
    hide ResponseDone, RequestDone;
  }

  lemma FaultStaysWriting(c: Conn)
    requires c.fault
    ensures OnClientWritten(c).fault && OnOriginWritten(c).fault
  {
    hide OnResponseWritten, OnRequestWritten;
    FaultStaysAnswering(c);
  }

  lemma FaultStaysFailing(c: Conn)
    requires c.fault
    ensures OnError(c).fault
  {
    hide AsyncConnect, ProblemPage, OnConnect, OnResolved;
    FaultStaysConnecting(CloseOrigin(c));
  }

  lemma FaultStays(cfg: Config, c: Conn, e: Event)
    requires c.fault && Enabled(c, e)
    ensures Step(cfg, c, e).fault
  {
    hide FindHeadEnd, AsyncConnect, OnConnect, OnResolved, OnClientData, OnOriginData, ProblemPage, OnClientWritten,
      OnOriginWritten, OnError;
    if c.waits == 1 && !e.TimerExpires? && !e.TimeoutRuns? {
      var d := Completed(c, e).(waits := 0);
      FaultStaysConnecting(d);
      FaultStaysConnecting(CloseOrigin(d));
      FaultStaysWriting(d);
      FaultStaysWriting(d.(ctx := d.ctx.(reconnectOnError := false)));
      FaultStaysFailing(d);
      FaultStaysFailing(CloseOrigin(d));
      if e.ClientRead? || e.OriginRead? {
        FaultStaysReading(cfg, d, |e.data|);
      }
    }
  }

  lemma {:induction false} RunKeepsFault(cfg: Config, c: Conn, run: seq<Event>)
    requires c.fault && Possible(cfg, c, run)
    ensures After(cfg, c, run).fault
    decreases |run|
  {
    hide Enabled, Step;
    if run != [] {
      FaultStays(cfg, c, run[0]);
      RunKeepsFault(cfg, Step(cfg, c, run[0]), run[1..]);
    }
  }

  /** A run goes wrong exactly when one of its reads completes the head of a chunked
      upload. */
  lemma {:induction false} RunFaultIff(cfg: Config, c: Conn, run: seq<Event>)
    requires Inv(c) && Possible(cfg, c, run)
    ensures After(cfg, c, run).fault <==> !NoChunkedUpload(cfg, c, run)
    decreases |run|
  {
    hide Inv, Enabled, Step, AsksChunkedUpload;
    if run == [] {
      InvMeansNoFault(c);
    } else {
      FaultIffChunkedUpload(cfg, c, run[0]);
      var d := Step(cfg, c, run[0]);
      if d.fault {
        RunKeepsFault(cfg, d, run[1..]);
      } else {
        StepKeepsInv(cfg, c, run[0]);
        RunFaultIff(cfg, d, run[1..]);
      }
    }
  }

  lemma InvMeansNoFault(c: Conn)
    requires Inv(c)
    ensures !c.fault
  {
  }

  /** Over a whole run from the start, no assertion fails and a live connection waits
      for exactly one timeout and the operations of its state. */
  lemma SafeRuns(cfg: Config, c: Conn, run: seq<Event>)
    requires Created(c) && Possible(cfg, Started(c), run) && NoChunkedUpload(cfg, Started(c), run)
    ensures var d := After(cfg, Started(c), run);
            && !d.fault && d.waits + d.fired <= 1
            && (Live(d) ==> Shape(d))
  {
    hide Shape, Step;
    StartedInv(c);
    RunKeepsInv(cfg, Started(c), run);
  }

  /** Once the timer is no longer waiting, whatever completes starts nothing: no timer,
      no operation, and no byte of a buffer changes that a pending write could send. */
  lemma NothingAfterTheEnd(cfg: Config, c: Conn, e: Event)
    requires Inv(c) && !Live(c) && Enabled(c, e)
    ensures var d := Step(cfg, c, e);
            && !Live(d) && d.fired <= c.fired && !d.fault
            && d.ops.clientReads <= c.ops.clientReads && d.ops.originReads <= c.ops.originReads
            && (d.ops.originWrites == c.ops.originWrites || (c.ops.originWrites != [] && d.ops.originWrites == c.ops.originWrites[1..]))
            && (d.ops.clientWrites == c.ops.clientWrites || (c.ops.clientWrites != [] && d.ops.clientWrites == c.ops.clientWrites[1..]))
            && d.ctx == c.ctx && (forall b: Buffer :: d.BufferText(b) == c.BufferText(b))
            && (e.TimeoutRuns? ==> d.origin.None? && !d.clientOpen)
  {
  }
}
