/** Independence of requests on one client connection: what a turnover does not reset
    is overwritten before it is looked at. */
module ProxySession {
  import opened Text
  import opened ChunkChecker
  import opened HeaderMap
  import opened HeaderParser
  import opened HeadPrinter
  import opened ProxyContext
  import opened ProxyMachine
  import opened ProxyInvariants
  import opened ProxyStreams
  import opened ProxyRouting
  import opened ProxyConservation
  import opened ProxyFraming
  import opened ProxyRuns

  /** The same but for the request and response records, the printed heads, and what
      the four buffers hold. */
  ghost predicate Akin(c: Conn, d: Conn) {
    d == c.(req := d.req, resp := d.resp, modifiedRequest := d.modifiedRequest, modifiedResponse := d.modifiedResponse,
            upRead := d.upRead, upWrite := d.upWrite, downRead := d.downRead, downWrite := d.downWrite)
  }

  /** The request record is still to be read: its request is being served over HTTP. */
  ghost predicate RequestMatters(c: Conn) {
    Passed(c.ctx.state) && c.requestHead.Some? && c.requestHead.value.verb != CONNECT
  }

  ghost predicate ResponseMatters(c: Conn) { Responds(c.ctx.state) }

  /** Two connections that nobody outside can tell apart. */
  ghost predicate Alike(c: Conn, d: Conn) {
    && Akin(c, d)
    && (RequestMatters(c) ==> c.req == d.req)
    && (ResponseMatters(c) ==> c.resp == d.resp)
    && PendingUp(c) == PendingUp(d) && PendingDown(c) == PendingDown(d)
  }

  /** Handlers run with nothing pending; what they leave is alike. */
  ghost predicate Leaves(c: Conn, d: Conn) { (c.fault <==> d.fault) && (!c.fault ==> Alike(c, d)) }

  // -------------------------------------------------------------- handler by handler

  lemma ReportAlike(c: Conn, d: Conn, problem: Problem)
    requires Quiet(c) && Quiet(d) && Akin(c, d)
    ensures Leaves(Report(c, problem), Report(d, problem))
  {
    hide ProblemPage;
  }

  lemma OnConnectAlike(c: Conn, d: Conn)
    requires Quiet(c) && Quiet(d) && Akin(c, d)
    requires c.requestHead.Some? && c.requestHead.value.verb != CONNECT ==> c.req == d.req
    ensures Leaves(OnConnect(c), OnConnect(d))
  {
    hide FindHeadEnd, RequestText, Erase;
  }

  lemma AsyncConnectAlike(c: Conn, d: Conn)
    requires Quiet(c) && Quiet(d) && Akin(c, d)
    requires c.requestHead.Some? && c.requestHead.value.verb != CONNECT ==> c.req == d.req
    ensures Leaves(AsyncConnect(c), AsyncConnect(d))
  {
    hide OnConnect;
    if c.requestHead.Some? {
      var c1, d1 := c.(ctx := c.ctx.(reconnectOnError := false)), d.(ctx := d.ctx.(reconnectOnError := false));
      var c2 := if c1.requestHead.value.verb == CONNECT then CloseOrigin(c1) else c1;
      var d2 := if d1.requestHead.value.verb == CONNECT then CloseOrigin(d1) else d1;
      OnConnectAlike(c2.(ctx := c2.ctx.(reconnectOnError := true)), d2.(ctx := d2.ctx.(reconnectOnError := true)));
    }
  }

  lemma OnResolvedAlike(c: Conn, d: Conn, endpoints: seq<Endpoint>)
    requires Quiet(c) && Quiet(d) && Akin(c, d)
    requires c.requestHead.Some? && c.requestHead.value.verb != CONNECT ==> c.req == d.req
    ensures Leaves(OnResolved(c, endpoints), OnResolved(d, endpoints))
  {
    hide OnConnect;
    if endpoints != [] {
      var c1 := if c.ctx.originEndpoint == Some(endpoints[0]) then c else CloseOrigin(c);
      var d1 := if d.ctx.originEndpoint == Some(endpoints[0]) then d else CloseOrigin(d);
      OnConnectAlike(c1.(ctx := c1.ctx.(reconnectOnError := true)), d1.(ctx := d1.ctx.(reconnectOnError := true)));
    }
  }

  /** A request is judged by its head alone; the old record only survives where it no
      longer matters. */
  lemma JudgedAlike(cfg: Config, r: RequestHead, a: RequestContext, b: RequestContext, extra: nat)
    ensures var j, k := JudgeRequest(cfg, r, a, extra), JudgeRequest(cfg, r, b, extra);
            && (j.Reject? <==> k.Reject?) && (j.Reject? ==> j.problem == k.problem)
            && (j.RejectAuth? <==> k.RejectAuth?) && (j.Tunnel? <==> k.Tunnel?) && (j.ChunkedUpload? <==> k.ChunkedUpload?)
            && (j.Forward? <==> k.Forward?) && (j.Forward? ==> j.context == k.context)
  {
    hide Authorized, ClientKeepAlive, JudgeUpload;
  }

  lemma ObeyAlike(cfg: Config, c: Conn, d: Conn, extra: nat)
    requires Quiet(c) && Quiet(d) && Akin(c, d) && c.requestHead.Some?
    ensures Leaves(Obey(c, JudgeRequest(cfg, c.requestHead.value, c.req, extra)),
                   Obey(d, JudgeRequest(cfg, d.requestHead.value, d.req, extra)))
  {
    hide JudgeRequest, AsyncConnect, Report, AuthPage;
    var r := c.requestHead.value;
    JudgedAlike(cfg, r, c.req, d.req, extra);
    PassedIffMayPass(cfg, r, c.req, extra);
    var j, k := JudgeRequest(cfg, r, c.req, extra), JudgeRequest(cfg, r, d.req, extra);
    var c1, d1 := c.(req := j.context), d.(req := k.context);
    match j {
      case Reject(_, problem) => ReportAlike(c1, d1, problem);
      case RejectAuth(_) =>
      case Tunnel(_) => AsyncConnectAlike(c1, d1);
      case Forward(_) => AsyncConnectAlike(c1, d1);
      case ChunkedUpload(_) =>
    }
  }

  lemma RequestHeadDataAlike(cfg: Config, c: Conn, d: Conn, data: string)
    requires Quiet(c) && Quiet(d) && Akin(c, d) && c.ctx.state == ReadHttpRequestHeader
    ensures Leaves(OnRequestHeadData(cfg, c, data), OnRequestHeadData(cfg, d, data))
  {
    hide FindHeadEnd, ParsedRequest, JudgeRequest, Obey, Report;
    var c1, d1 := c.(requestData := c.requestData + data), d.(requestData := d.requestData + data);
    var p := FindHeadEnd(c1.requestData);
    if p.None? {
      ReportAlike(c1, d1, RequestHeaderTooLong);
    } else {
      var head := ParsedRequest(c1.requestData[..p.value + 4]);
      var c2, d2 := c1.(requestHead := head), d1.(requestHead := head);
      ReportAlike(c2, d2, BadRequestHeader);
      if head.Some? {
        ObeyAlike(cfg, c2, d2, |c1.requestData| - (p.value + 4));
      }
    }
  }

  lemma ClientDataAlike(cfg: Config, c: Conn, d: Conn, n: nat)
    requires Quiet(c) && Quiet(d) && Akin(c, d) && 1 <= n <= BUFFER_LENGTH && c.upRead[..n] == d.upRead[..n]
    requires c.ctx.state in {ReadHttpRequestHeader, ReadHttpRequestContent}
    requires c.ctx.state == ReadHttpRequestContent ==> c.req == d.req && c.req.contentLength.Some?
    ensures Leaves(OnClientData(cfg, c, n), OnClientData(cfg, d, n))
  {
    hide OnRequestHeadData, Wrap64, Feed;
    var c1, d1 := c.(upWrite := c.upRead), d.(upWrite := d.upRead);
    if c.ctx.state == ReadHttpRequestHeader {
      RequestHeadDataAlike(cfg, c1, d1, c.upRead[..n]);
    } else {
      PrefixPiece(c.upRead, n);
      PrefixPiece(d.upRead, n);
    }
  }

  lemma JudgedResponseAlike(verb: string, r: ResponseHead, a: ResponseContext, b: ResponseContext, body: string)
    ensures var j, k := JudgeResponse(verb, r, a, body), JudgeResponse(verb, r, b, body);
            && (j.Reject? <==> k.Reject?) && (j.Reject? ==> j.problem == k.problem)
            && (!j.Reject? ==> j == k)
  {
    hide JudgeLength, Lookup, Lower;
  }

  lemma ObeyResponseAlike(c: Conn, d: Conn, body: string)
    requires Quiet(c) && Quiet(d) && Akin(c, d) && c.req == d.req && c.requestHead.Some? && c.responseHead.Some?
    ensures Leaves(ObeyResponse(c, JudgeResponse(c.requestHead.value.verb, c.responseHead.value, c.resp, body)),
                   ObeyResponse(d, JudgeResponse(d.requestHead.value.verb, d.responseHead.value, d.resp, body)))
  {
    hide JudgeResponse, FindHeadEnd, ResponseText, Report;
    var verb, r := c.requestHead.value.verb, c.responseHead.value;
    JudgedResponseAlike(verb, r, c.resp, d.resp, body);
    var j, k := JudgeResponse(verb, r, c.resp, body), JudgeResponse(verb, r, d.resp, body);
    if j.Reject? {
      ReportAlike(c.(resp := j.context), d.(resp := k.context), j.problem);
    }
  }

  lemma ResponseHeadDataAlike(c: Conn, d: Conn, data: string)
    requires Quiet(c) && Quiet(d) && Akin(c, d) && c.req == d.req && c.ctx.state == ReadHttpResponseHeader
    ensures Leaves(OnResponseHeadData(c, data), OnResponseHeadData(d, data))
  {
    hide FindHeadEnd, ParsedResponse, JudgeResponse, ObeyResponse, Report;
    var c1, d1 := c.(responseData := c.responseData + data), d.(responseData := d.responseData + data);
    var p := FindHeadEnd(c1.responseData);
    if p.None? {
      ReportAlike(c1, d1, ResponseHeaderTooLong);
    } else {
      var head := ParsedResponse(c1.responseData[..p.value + 4]);
      var c2, d2 := c1.(responseHead := head), d1.(responseHead := head);
      ReportAlike(c2, d2, BadResponseHeader);
      if head.Some? && c.requestHead.Some? {
        ObeyResponseAlike(c2, d2, c1.responseData[p.value + 4..]);
      }
    }
  }

  lemma WriteContentAlike(c: Conn, d: Conn, n: nat)
    requires Quiet(c) && Quiet(d) && Akin(c, d) && c.req == d.req && c.resp == d.resp
    requires 1 <= n <= BUFFER_LENGTH && c.downRead[..n] == d.downRead[..n]
    ensures Leaves(WriteContent(c, n), WriteContent(d, n))
  {
    PrefixPiece(c.downRead, n);
    PrefixPiece(d.downRead, n);
  }

  lemma ResponseContentAlike(c: Conn, d: Conn, n: nat)
    requires Quiet(c) && Quiet(d) && Akin(c, d) && c.req == d.req && c.resp == d.resp
    requires 1 <= n <= BUFFER_LENGTH && c.downRead[..n] == d.downRead[..n] && c.ctx.state == ReadHttpResponseContent
    ensures Leaves(OnResponseContent(c, n), OnResponseContent(d, n))
  {
    hide Wrap64, Feed, WriteContent;
    var counted := c.resp.(hasRead := Wrap64(c.resp.hasRead + n));
    WriteContentAlike(c, d, n);
    WriteContentAlike(c.(resp := counted), d.(resp := counted), n);
    if c.resp.checker.Some? {
      var checked := c.resp.(checker := Some(Feed(c.resp.checker.value, c.downRead[..n])));
      WriteContentAlike(c.(resp := checked), d.(resp := checked), n);
    }
  }

  lemma ResponseWrittenAlike(c: Conn, d: Conn)
    requires Quiet(c) && Quiet(d) && Akin(c, d) && c.req == d.req && c.resp == d.resp
    ensures Leaves(OnResponseWritten(c), OnResponseWritten(d))
  {
    hide ResponseDone;
  }

  lemma RequestWrittenAlike(c: Conn, d: Conn)
    requires Quiet(c) && Quiet(d) && Akin(c, d) && c.req == d.req
    ensures Leaves(OnRequestWritten(c), OnRequestWritten(d))
  {
    hide RequestDone;
  }

  lemma ErrorAlike(c: Conn, d: Conn)
    requires Quiet(c) && Quiet(d) && Akin(c, d)
    requires RequestMatters(c) ==> c.req == d.req
    requires ResponseMatters(c) ==> c.resp == d.resp
    ensures Leaves(OnError(c), OnError(d))
  {
    hide AsyncConnect, Report;
    ReportAlike(c, d, ResolveFailure);
    ReportAlike(c, d, ConnectFailure);
    AsyncConnectErrorAlike(c, d);
  }

  lemma AsyncConnectErrorAlike(c: Conn, d: Conn)
    requires Quiet(c) && Quiet(d) && Akin(c, d)
    requires RequestMatters(c) ==> c.req == d.req
    ensures c.ctx.state == WriteHttpRequestHeader ==> Leaves(AsyncConnect(CloseOrigin(c)), AsyncConnect(CloseOrigin(d)))
  {
    hide AsyncConnect;
    if c.ctx.state == WriteHttpRequestHeader {
      AsyncConnectAlike(CloseOrigin(c), CloseOrigin(d));
    }
  }

  // --------------------------------------------------------------------- partial writes

  lemma PieceWithin(s: string, offset: nat, size: nat, n: nat)
    requires offset + size <= |s| && n <= size
    ensures Piece(s, offset, n) == Piece(s, offset, size)[..n]
    ensures Piece(s, offset + n, size - n) == Piece(s, offset, size)[n..]
  {
  }

  /** What the sockets take of pending writes that are alike is the same. */
  lemma CarriedAlike(c: Conn, d: Conn, e: Event, t: Trace)
    requires Alike(c, d) && WritesInBounds(c) && WritesInBounds(d) && Enabled(c, e)
    ensures Enabled(d, e) && Carried(c, e, t) == Carried(d, e, t)
  {
    match e {
      case ClientWritten(n) =>
        var w := c.ops.clientWrites[0];
        PieceWithin(c.BufferText(w.buffer), w.offset, w.size, n);
        PieceWithin(d.BufferText(w.buffer), w.offset, w.size, n);
      case OriginWritten(n) =>
        var w := c.ops.originWrites[0];
        PieceWithin(c.BufferText(w.buffer), w.offset, w.size, n);
        PieceWithin(d.BufferText(w.buffer), w.offset, w.size, n);
      case _ =>
    }
  }

  lemma RecordedAlike(c: Conn, d: Conn, e: Event, f: Conn, g: Conn, t: Trace)
    requires Akin(c, d) && Akin(f, g) && Enabled(c, e) && Enabled(d, e) && Carried(c, e, t) == Carried(d, e, t)
    ensures Recorded(c, e, f, t) == Recorded(d, e, g, t)
  {
    hide Carried;
  }

  lemma RestUpAlike(c: Conn, d: Conn, n: nat, f: Conn, g: Conn)
    requires Alike(c, d) && WritesInBounds(c) && WritesInBounds(d) && c.ops.originWrites != []
    requires var w := c.ops.originWrites[0];
             && n <= w.size
             && f.ops.originWrites == g.ops.originWrites == [OriginWrite(w.buffer, w.offset + n, w.size - n, f.origin)]
             && f.BufferText(w.buffer) == c.BufferText(w.buffer) && g.BufferText(w.buffer) == d.BufferText(w.buffer)
    ensures PendingUp(f) == PendingUp(g)
  {
    var w := c.ops.originWrites[0];
    PieceWithin(c.BufferText(w.buffer), w.offset, w.size, n);
    PieceWithin(d.BufferText(w.buffer), w.offset, w.size, n);
  }

  lemma RestDownAlike(c: Conn, d: Conn, n: nat, f: Conn, g: Conn)
    requires Alike(c, d) && WritesInBounds(c) && WritesInBounds(d) && c.ops.clientWrites != []
    requires var w := c.ops.clientWrites[0];
             && n <= w.size
             && f.ops.clientWrites == g.ops.clientWrites == [ClientWrite(w.buffer, w.offset + n, w.size - n)]
             && f.BufferText(w.buffer) == c.BufferText(w.buffer) && g.BufferText(w.buffer) == d.BufferText(w.buffer)
    ensures PendingDown(f) == PendingDown(g)
  {
    var w := c.ops.clientWrites[0];
    PieceWithin(c.BufferText(w.buffer), w.offset, w.size, n);
    PieceWithin(d.BufferText(w.buffer), w.offset, w.size, n);
  }

  // --------------------------------------------------------------------------- steps

  /** Two connections about to take the same step. */
  ghost predicate Paired(c: Conn, d: Conn, e: Event) {
    && Inv(c) && Inv(d) && Alike(c, d) && WritesInBounds(c) && WritesInBounds(d) && Enabled(c, e) && Enabled(d, e)
  }

  lemma CompletedAkin(c: Conn, d: Conn, e: Event)
    requires Akin(c, d) && Enabled(c, e) && Enabled(d, e)
    ensures Akin(Completed(c, e), Completed(d, e))
  {
  }

  predicate ServesHttp(s: ConnectionState) {
    || s in {WriteHttpRequestHeader, WriteHttpRequestContent, ReadHttpRequestContent, ReadHttpResponseHeader}
    || Responds(s)
  }

  lemma MattersMean(c: Conn, d: Conn)
    requires Inv(c) && Live(c) && Alike(c, d)
    ensures ServesHttp(c.ctx.state) ==> c.req == d.req && c.req.contentLength.Some?
    ensures c.requestHead.Some? && c.requestHead.value.verb != CONNECT && Passed(c.ctx.state) ==> c.req == d.req
    ensures Responds(c.ctx.state) ==> c.resp == d.resp
  {
    hide FindHeadEnd, PendingUp, PendingDown;
  }

  lemma ReadAlike(cfg: Config, c: Conn, d: Conn, e: Event)
    requires Paired(c, d, e) && Live(c) && c.ctx.state != TunnelTransfer && (e.ClientRead? || e.OriginRead?)
    ensures Leaves(Step(cfg, c, e), Step(cfg, d, e))
  {
    hide FindHeadEnd, OnClientData, OnResponseHeadData, OnResponseContent, Shape, PendingUp, PendingDown, Alike;
    AlikeMeans(c, d);
    CompletedIsQuiet(c, e);
    CompletedIsQuiet(d, e);
    WhoCompletes(c, e);
    MattersMean(c, d);
    CompletedAkin(c, d, e);
    var c1, d1 := Completed(c, e).(waits := 0), Completed(d, e).(waits := 0);
    if e.ClientRead? {
      ClientDataAlike(cfg, c1, d1, |e.data|);
    } else if c.ctx.state == ReadHttpResponseHeader {
      ResponseHeadDataAlike(c1, d1, e.data);
    } else {
      ResponseContentAlike(c1, d1, |e.data|);
    }
  }

  lemma AlikeMeans(c: Conn, d: Conn)
    requires Alike(c, d)
    ensures Akin(c, d)
  {
  }

  /** What a partial write leaves is the rest of it. */
  lemma RestAlike(c: Conn, d: Conn, f: Conn, g: Conn)
    requires Alike(c, d) && Akin(f, g)
    requires f == c.(ctx := f.ctx, waits := f.waits, ops := f.ops) && f.ctx.state == c.ctx.state
    requires g == d.(ctx := g.ctx, waits := g.waits, ops := g.ops)
    requires PendingUp(f) == PendingUp(g) && PendingDown(f) == PendingDown(g)
    ensures Leaves(f, g)
  {
    hide PendingUp, PendingDown;
  }

  lemma OriginWrittenPartAlike(cfg: Config, c: Conn, d: Conn, n: nat)
    requires Paired(c, d, OriginWritten(n)) && Live(c) && c.ctx.state != TunnelTransfer && n < c.ops.originWrites[0].size
    ensures Leaves(Step(cfg, c, OriginWritten(n)), Step(cfg, d, OriginWritten(n)))
  {
    hide FindHeadEnd, Shape, PendingUp, PendingDown, WritesInBounds, Leaves, EndpointKnown, BuffersSized, OnClientData,
      OnOriginData, OnClientWritten, OnOriginWritten, OnResolved, OnConnect, OnError;
    var e := OriginWritten(n);
    CompletedIsQuiet(c, e);
    CompletedIsQuiet(d, e);
    var f, g := Step(cfg, c, e), Step(cfg, d, e);
    RestUpAlike(c, d, n, f, g);
    NothingDown(f);
    NothingDown(g);
    RestAlike(c, d, f, g);
  }

  lemma OriginWrittenAlike(cfg: Config, c: Conn, d: Conn, n: nat)
    requires Paired(c, d, OriginWritten(n)) && Live(c) && c.ctx.state != TunnelTransfer
    ensures Leaves(Step(cfg, c, OriginWritten(n)), Step(cfg, d, OriginWritten(n)))
  {
    hide FindHeadEnd, OnRequestWritten, Shape, PendingUp, PendingDown, WritesInBounds, Leaves, OnClientData,
      OnOriginData, OnClientWritten, OnResolved, OnConnect, OnError;
    var e := OriginWritten(n);
    if n < c.ops.originWrites[0].size {
      OriginWrittenPartAlike(cfg, c, d, n);
    } else {
      CompletedIsQuiet(c, e);
      CompletedIsQuiet(d, e);
      WhoCompletes(c, e);
      MattersMean(c, d);
      CompletedAkin(c, d, e);
      var c1, d1 := Completed(c, e).(waits := 0), Completed(d, e).(waits := 0);
      RequestWrittenAlike(c1.(ctx := c1.ctx.(reconnectOnError := false)), d1.(ctx := d1.ctx.(reconnectOnError := false)));
    }
  }

  lemma NothingDown(c: Conn)
    ensures c.ops.clientWrites == [] ==> PendingDown(c) == ""
  {
  }

  lemma NothingUp(c: Conn)
    ensures c.ops.originWrites == [] ==> PendingUp(c) == ""
  {
  }

  lemma ClientWrittenPartAlike(cfg: Config, c: Conn, d: Conn, n: nat)
    requires Paired(c, d, ClientWritten(n)) && Live(c) && c.ctx.state != TunnelTransfer && n < c.ops.clientWrites[0].size
    ensures Leaves(Step(cfg, c, ClientWritten(n)), Step(cfg, d, ClientWritten(n)))
  {
    hide FindHeadEnd, Shape, PendingUp, PendingDown, WritesInBounds, Leaves, OnClientData, OnOriginData,
      OnOriginWritten, OnResolved, OnConnect, OnError;
    var e := ClientWritten(n);
    CompletedIsQuiet(c, e);
    CompletedIsQuiet(d, e);
    var f, g := Step(cfg, c, e), Step(cfg, d, e);
    RestDownAlike(c, d, n, f, g);
    NothingUp(f);
    NothingUp(g);
    RestAlike(c, d, f, g);
  }

  /** The tunnel begins, or a page ends the connection. */
  lemma OwnAnswerWrittenAlike(c: Conn, d: Conn)
    requires Quiet(c) && Quiet(d) && Akin(c, d) && AnswersItself(c.ctx.state)
    requires c.ctx.state == ReportConnectionEstablished ==> c.requestHead.Some? && c.requestHead.value.verb == CONNECT
    ensures Leaves(OnClientWritten(c), OnClientWritten(d))
  {
    hide OnResponseWritten;
  }

  lemma ClientWrittenAlike(cfg: Config, c: Conn, d: Conn, n: nat)
    requires Paired(c, d, ClientWritten(n)) && Live(c) && c.ctx.state != TunnelTransfer
    ensures Leaves(Step(cfg, c, ClientWritten(n)), Step(cfg, d, ClientWritten(n)))
  {
    hide FindHeadEnd, OnResponseWritten, Shape, PendingUp, PendingDown, WritesInBounds, Leaves, OnClientData,
      OnOriginData, OnOriginWritten, OnResolved, OnConnect, OnError;
    var e := ClientWritten(n);
    if n < c.ops.clientWrites[0].size {
      ClientWrittenPartAlike(cfg, c, d, n);
    } else {
      CompletedIsQuiet(c, e);
      CompletedIsQuiet(d, e);
      WhoCompletes(c, e);
      MattersMean(c, d);
      CompletedAkin(c, d, e);
      var c1, d1 := Completed(c, e).(waits := 0), Completed(d, e).(waits := 0);
      if Responds(c.ctx.state) {
        ResponseWrittenAlike(c1, d1);
      } else {
        if c.ctx.state == ReportConnectionEstablished {
          AcknowledgesConnect(c);
        }
        OwnAnswerWrittenAlike(c1, d1);
      }
    }
  }

  lemma AcknowledgesConnect(c: Conn)
    requires Inv(c) && Live(c) && c.ctx.state in {ReportConnectionEstablished, TunnelTransfer}
    ensures c.requestHead.Some? && c.requestHead.value.verb == CONNECT
  {
    hide FindHeadEnd;
  }

  lemma ReachingAlike(cfg: Config, c: Conn, d: Conn, e: Event)
    requires Paired(c, d, e) && Live(c) && c.ctx.state != TunnelTransfer
    requires e.Resolved? || e.Connected? || e.ConnectFailed?
    ensures Leaves(Step(cfg, c, e), Step(cfg, d, e))
  {
    hide FindHeadEnd, OnResolved, OnConnect, OnError, Shape, Alike, OnClientData, OnOriginData, OnClientWritten,
      OnOriginWritten;
    AlikeMeans(c, d);
    CompletedIsQuiet(c, e);
    CompletedIsQuiet(d, e);
    WhoCompletes(c, e);
    MattersMean(c, d);
    CompletedAkin(c, d, e);
    var c1, d1 := Completed(c, e).(waits := 0), Completed(d, e).(waits := 0);
    match e {
      case Resolved(endpoints) => OnResolvedAlike(c1, d1, endpoints);
      case Connected => OnConnectAlike(c1, d1);
      case ConnectFailed =>
        if |c.ops.connects[0]| > 1 {
          OnResolvedAlike(CloseOrigin(c1), CloseOrigin(d1), c.ops.connects[0][1..]);
        } else {
          ErrorAlike(CloseOrigin(c1), CloseOrigin(d1));
        }
    }
  }

  lemma FailureAlike(cfg: Config, c: Conn, d: Conn, e: Event)
    requires Paired(c, d, e) && Live(c) && c.ctx.state != TunnelTransfer
    requires e.ClientReadFailed? || e.OriginReadFailed? || e.ClientWriteFailed? || e.OriginWriteFailed? || e.ResolveFailed?
    ensures Leaves(Step(cfg, c, e), Step(cfg, d, e))
  {
    hide FindHeadEnd, OnError, Shape, Alike;
    AlikeMeans(c, d);
    CompletedIsQuiet(c, e);
    CompletedIsQuiet(d, e);
    MattersMean(c, d);
    CompletedAkin(c, d, e);
    ErrorAlike(Completed(c, e).(waits := 0), Completed(d, e).(waits := 0));
  }

  lemma TunnelReadAlike(cfg: Config, c: Conn, d: Conn, e: Event)
    requires Paired(c, d, e) && Live(c) && c.ctx.state == TunnelTransfer && (e.ClientRead? || e.OriginRead?)
    ensures Leaves(Step(cfg, c, e), Step(cfg, d, e))
  {
    hide FindHeadEnd, Shape, OnRequestHeadData, OnRequestContent, OnResponseHeadData, OnResponseContent;
    TunnelMeans(c);
    TunnelMeans(d);
    AcknowledgesConnect(c);
    var f, g := Step(cfg, c, e), Step(cfg, d, e);
    if e.ClientRead? {
      assert f.upWrite[..|e.data|] == e.data == g.upWrite[..|e.data|];
      PrefixPiece(f.upWrite, |e.data|);
      PrefixPiece(g.upWrite, |e.data|);
    } else {
      assert f.downWrite[..|e.data|] == e.data == g.downWrite[..|e.data|];
      PrefixPiece(f.downWrite, |e.data|);
      PrefixPiece(g.downWrite, |e.data|);
    }
  }

  lemma TunnelClientWrittenAlike(cfg: Config, c: Conn, d: Conn, n: nat)
    requires Paired(c, d, ClientWritten(n)) && Live(c) && c.ctx.state == TunnelTransfer
    ensures Leaves(Step(cfg, c, ClientWritten(n)), Step(cfg, d, ClientWritten(n)))
  {
    hide FindHeadEnd, Shape, OnResponseWritten, PendingUp, PendingDown, WritesInBounds, Leaves, OnClientData,
      OnOriginData, OnOriginWritten, OnResolved, OnConnect, OnError;
    TunnelMeans(c);
    TunnelMeans(d);
    AcknowledgesConnect(c);
    var f, g := Step(cfg, c, ClientWritten(n)), Step(cfg, d, ClientWritten(n));
    SamePendingUp(c, f);
    SamePendingUp(d, g);
    NothingDown(f);
    NothingDown(g);
    if n < c.ops.clientWrites[0].size {
      RestDownAlike(c, d, n, f, g);
    }
    RestAlike(c, d, f, g);
  }

  lemma TunnelOriginWrittenAlike(cfg: Config, c: Conn, d: Conn, n: nat)
    requires Paired(c, d, OriginWritten(n)) && Live(c) && c.ctx.state == TunnelTransfer
    ensures Leaves(Step(cfg, c, OriginWritten(n)), Step(cfg, d, OriginWritten(n)))
  {
    hide FindHeadEnd, Shape, OnRequestWritten, PendingUp, PendingDown, WritesInBounds, Leaves, EndpointKnown, BuffersSized,
      OnClientData, OnOriginData, OnClientWritten, OnResolved, OnConnect, OnError;
    TunnelMeans(c);
    TunnelMeans(d);
    AcknowledgesConnect(c);
    var f, g := Step(cfg, c, OriginWritten(n)), Step(cfg, d, OriginWritten(n));
    SamePendingDown(c, f);
    SamePendingDown(d, g);
    NothingUp(f);
    NothingUp(g);
    if n < c.ops.originWrites[0].size {
      RestUpAlike(c, d, n, f, g);
    }
    RestAlike(c, d, f, g);
  }

  /** What is left of a write to the origin, when a step only loses, is all or nothing. */
  lemma LosingLeavesUp(c: Conn, e: Event, f: Conn)
    requires Enabled(c, e) && OnlyLoses(c, e, f) && |c.ops.originWrites| <= 1
    ensures PendingUp(f) == if e.OriginWritten? || e.OriginWriteFailed? then "" else PendingUp(c)
  {
    hide Piece;
  }

  lemma LosingLeavesDown(c: Conn, e: Event, f: Conn)
    requires Enabled(c, e) && OnlyLoses(c, e, f) && |c.ops.clientWrites| <= 1
    ensures PendingDown(f) == if e.ClientWritten? || e.ClientWriteFailed? then "" else PendingDown(c)
  {
    hide Piece;
  }

  /** A step that only loses leaves alike what was alike. */
  lemma LosingAlike(c: Conn, d: Conn, e: Event, f: Conn, g: Conn)
    requires Alike(c, d) && Enabled(c, e) && Enabled(d, e) && OnlyLoses(c, e, f) && OnlyLoses(d, e, g) && Akin(f, g)
    requires WritesInBounds(c) && WritesInBounds(d)
    requires f.req == c.req && f.resp == c.resp && g.req == d.req && g.resp == d.resp && f.requestHead == c.requestHead
    ensures Alike(f, g)
  {
    hide Enabled, Completed, PendingUp, PendingDown;
    LosingLeavesUp(c, e, f);
    LosingLeavesUp(d, e, g);
    LosingLeavesDown(c, e, f);
    LosingLeavesDown(d, e, g);
  }

  lemma EndedAlike(cfg: Config, c: Conn, d: Conn, e: Event)
    requires Paired(c, d, e) && (e.TimerExpires? || e.TimeoutRuns? || !Live(c))
    ensures Leaves(Step(cfg, c, e), Step(cfg, d, e))
  {
    hide PendingUp, PendingDown, WritesInBounds, Shape, OnlyLoses;
    EndedLoses(cfg, c, e);
    EndedLoses(cfg, d, e);
    CompletedAkin(c, d, e);
    LosingAlike(c, d, e, Step(cfg, c, e), Step(cfg, d, e));
  }

  lemma TunnelFailAlike(cfg: Config, c: Conn, d: Conn, e: Event)
    requires Paired(c, d, e) && Live(c) && c.ctx.state == TunnelTransfer
    requires e.ClientReadFailed? || e.OriginReadFailed? || e.ClientWriteFailed? || e.OriginWriteFailed?
    ensures Leaves(Step(cfg, c, e), Step(cfg, d, e))
  {
    hide PendingUp, PendingDown, WritesInBounds, Shape, AsyncConnect, Report;
    CompletedAkin(c, d, e);
    LosingAlike(c, d, e, Step(cfg, c, e), Step(cfg, d, e));
  }

  lemma TunnelAlike(cfg: Config, c: Conn, d: Conn, e: Event)
    requires Paired(c, d, e) && Live(c) && c.ctx.state == TunnelTransfer
    ensures Leaves(Step(cfg, c, e), Step(cfg, d, e))
  {
    hide Leaves, Inv, WritesInBounds, Step;
    match e {
      case ClientRead(_) => TunnelReadAlike(cfg, c, d, e);
      case OriginRead(_) => TunnelReadAlike(cfg, c, d, e);
      case ClientWritten(n) => TunnelClientWrittenAlike(cfg, c, d, n);
      case OriginWritten(n) => TunnelOriginWrittenAlike(cfg, c, d, n);
      case TimerExpires => EndedAlike(cfg, c, d, e);
      case TimeoutRuns => EndedAlike(cfg, c, d, e);
      case Resolved(_) => TunnelHasNoConnects(c);
      case ResolveFailed => TunnelHasNoConnects(c);
      case Connected => TunnelHasNoConnects(c);
      case ConnectFailed => TunnelHasNoConnects(c);
      case _ => TunnelFailAlike(cfg, c, d, e);
    }
  }

  /** The same event takes connections that are alike to connections that are alike,
      and carries the same bytes. */
  lemma StepAlike(cfg: Config, c: Conn, d: Conn, e: Event, t: Trace)
    requires Inv(c) && Inv(d) && Alike(c, d) && WritesInBounds(c) && WritesInBounds(d) && Enabled(c, e)
    ensures Enabled(d, e) && Leaves(Step(cfg, c, e), Step(cfg, d, e))
    ensures !Step(cfg, c, e).fault ==>
              Recorded(c, e, Step(cfg, c, e), t) == Recorded(d, e, Step(cfg, d, e), t)
  {
    hide Inv, WritesInBounds, Recorded, Alike, Step, Carried;
    CarriedAlike(c, d, e, t);
    AlikeMeans(c, d);
    if e.TimerExpires? || e.TimeoutRuns? || !Live(c) {
      EndedAlike(cfg, c, d, e);
    } else if c.ctx.state == TunnelTransfer {
      TunnelAlike(cfg, c, d, e);
    } else {
      match e {
        case ClientRead(_) => ReadAlike(cfg, c, d, e);
        case OriginRead(_) => ReadAlike(cfg, c, d, e);
        case ClientWritten(n) => ClientWrittenAlike(cfg, c, d, n);
        case OriginWritten(n) => OriginWrittenAlike(cfg, c, d, n);
        case Resolved(_) => ReachingAlike(cfg, c, d, e);
        case Connected => ReachingAlike(cfg, c, d, e);
        case ConnectFailed => ReachingAlike(cfg, c, d, e);
        case _ => FailureAlike(cfg, c, d, e);
      }
    }
    var f, g := Step(cfg, c, e), Step(cfg, d, e);
    if !f.fault {
      AlikeMeans(f, g);
      RecordedAlike(c, d, e, f, g, t);
    }
  }

  // -------------------------------------------------------------------------- runs

  ghost predicate Twins(c: Conn, d: Conn) {
    Inv(c) && Inv(d) && WritesInBounds(c) && WritesInBounds(d) && Alike(c, d)
  }

  lemma StepKeepsBounds(cfg: Config, c: Conn, e: Event)
    requires Inv(c) && WritesInBounds(c) && Enabled(c, e) && Inv(Step(cfg, c, e))
    ensures WritesInBounds(Step(cfg, c, e))
  {
    hide Inv, Step, WritesInBounds, OnlyLoses, IsPage;
    var d := Step(cfg, c, e);
    StepLivesOrLoses(cfg, c, e);
    if Live(d) {
      LiveInBounds(d);
    } else {
      LosingOps(c, e, d);
    }
  }

  lemma StepKeepsTwins(cfg: Config, c: Conn, d: Conn, e: Event, t: Trace)
    requires Twins(c, d) && Enabled(c, e) && !(Live(c) && e.ClientRead? && AsksChunkedUpload(cfg, c, e.data))
    ensures Enabled(d, e) && Twins(Step(cfg, c, e), Step(cfg, d, e))
    ensures !(Live(d) && e.ClientRead? && AsksChunkedUpload(cfg, d, e.data))
    ensures NextWorld(cfg, World(c, t), e).trace == NextWorld(cfg, World(d, t), e).trace
  {
    hide WritesInBounds, Alike, Step, Recorded, AsksChunkedUpload, Inv;
    StepAlike(cfg, c, d, e, t);
    StepKeepsInv(cfg, c, e);
    StepKeepsBounds(cfg, c, e);
    InvMeansNoFault(Step(cfg, c, e));
    FaultIffChunkedUpload(cfg, d, e);
    StepKeepsInv(cfg, d, e);
    StepKeepsBounds(cfg, d, e);
  }

  /** Over every run, twins can do the same things, start the same operations and put
      the same bytes on the wire. */
  lemma {:induction false} RunKeepsTwins(cfg: Config, c: Conn, d: Conn, t: Trace, run: seq<Event>)
    requires Twins(c, d) && Possible(cfg, c, run) && NoChunkedUpload(cfg, c, run)
    ensures Possible(cfg, d, run) && NoChunkedUpload(cfg, d, run)
    ensures AfterWorld(cfg, World(c, t), run).trace == AfterWorld(cfg, World(d, t), run).trace
    ensures Twins(AfterWorld(cfg, World(c, t), run).conn, AfterWorld(cfg, World(d, t), run).conn)
    decreases |run|
  {
    hide Twins, Step, Recorded, Enabled, AsksChunkedUpload;
    if run != [] {
      StepKeepsTwins(cfg, c, d, run[0], t);
      var w := NextWorld(cfg, World(c, t), run[0]);
      RunKeepsTwins(cfg, w.conn, Step(cfg, d, run[0]), w.trace, run[1..]);
    }
  }

  /** A connection that waits for a request, told apart only by what nobody will look
      at: whether clients were kept alive, what was counted, what was printed. */
  ghost predicate Expects(c: Conn, ctx: ConnectionContext, origin: Option<Endpoint>) {
    && Inv(c) && Live(c) && c.clientOpen && c.ctx == ctx && c.origin == origin && ctx.state == ReadHttpRequestHeader
    && c.requestData == "" && c.responseHead.None?
  }

  lemma ExpectingAreTwins(c: Conn, d: Conn, ctx: ConnectionContext, origin: Option<Endpoint>)
    requires Expects(c, ctx, origin) && Expects(d, ctx, origin)
    ensures Twins(c, d)
  {
    hide FindHeadEnd;
  }

  /** What a connection does with the requests to come does not depend on those it has
      served, but for the origin connection that it keeps. */
  lemma RequestsAreIndependent(cfg: Config, c: Conn, d: Conn, ctx: ConnectionContext, origin: Option<Endpoint>, t: Trace,
                               run: seq<Event>)
    requires Expects(c, ctx, origin) && Expects(d, ctx, origin)
    requires Possible(cfg, c, run) && NoChunkedUpload(cfg, c, run)
    ensures Possible(cfg, d, run)
    ensures var w, v := AfterWorld(cfg, World(c, t), run), AfterWorld(cfg, World(d, t), run);
            && w.trace == v.trace && w.conn.ops == v.conn.ops && w.conn.ctx == v.conn.ctx
            && w.conn.origin == v.conn.origin && w.conn.clientOpen == v.conn.clientOpen
            && w.conn.waits == v.conn.waits && w.conn.fired == v.conn.fired
  {
    hide Expects, Step, Recorded, Enabled, Possible, NoChunkedUpload, Inv, WritesInBounds, PendingUp, PendingDown;
    ExpectingAreTwins(c, d, ctx, origin);
    RunKeepsTwins(cfg, c, d, t, run);
  }

  /** A turnover leaves a connection that expects a request, as a new one does. */
  lemma TurnoverExpects(c: Conn)
    requires Quiet(c) && c.clientOpen
    ensures var d := AsyncReadClient(Turnover(c)); Expects(d, d.ctx, c.origin)
  {
    hide FindHeadEnd;
    NoHeadInNothing();
  }

  lemma StartedExpects(c: Conn)
    requires Created(c)
    ensures Expects(Started(c), Started(c).ctx, None)
  {
    hide Inv;
    StartedInv(c);
  }
}
