/** Conservation of the two byte streams in every state, live or ended, and what a
    handler can leave behind. */
module ProxyConservation {
  import opened Text
  import opened ChunkChecker
  import opened HeaderParser
  import opened HeadPrinter
  import opened ProxyContext
  import opened ProxyMachine
  import opened ProxyInvariants
  import opened ProxyStreams
  import opened ProxyRouting

  // ------------------------------------------------------------- what handlers leave

  /** One of the answers the proxy makes itself. */
  ghost predicate IsPage(page: string) {
    page == AuthPage() || exists problem, withContent :: page == ProblemPage(problem, withContent)
  }

  /** A handler has gone wrong, or the connection lives on; a page of the proxy's own
      is what it reports. */
  ghost predicate Lives(d: Conn) {
    d.fault || (Live(d) && (d.ctx.state == ReportError ==> IsPage(d.modifiedResponse)))
  }

  lemma ReportLives(c: Conn, problem: Problem)
    requires Quiet(c)
    ensures Lives(Report(c, problem))
  {
    hide ProblemPage, AuthPage;
  }

  lemma OnConnectLives(c: Conn)
    requires Quiet(c)
    ensures Lives(OnConnect(c))
  {
    hide FindHeadEnd, RequestText, Stripped, IsPage;
  }

  lemma AsyncConnectLives(c: Conn)
    requires Quiet(c)
    ensures Lives(AsyncConnect(c))
  {
    hide OnConnect, IsPage;
    var d := c.(ctx := c.ctx.(reconnectOnError := false));
    if d.requestHead.Some? {
      var e := if d.requestHead.value.verb == CONNECT then CloseOrigin(d) else d;
      OnConnectLives(e.(ctx := e.ctx.(reconnectOnError := true)));
    }
  }

  lemma OnResolvedLives(c: Conn, endpoints: seq<Endpoint>)
    requires Quiet(c)
    ensures Lives(OnResolved(c, endpoints))
  {
    hide OnConnect, IsPage;
    if endpoints != [] {
      var d := if c.ctx.originEndpoint == Some(endpoints[0]) then c else CloseOrigin(c);
      OnConnectLives(d.(ctx := d.ctx.(reconnectOnError := true)));
    }
  }

  lemma ObeyLives(c: Conn, j: Judgement<RequestContext>)
    requires Quiet(c)
    ensures Lives(Obey(c, j))
  {
    hide AsyncConnect, Report, AuthPage, ProblemPage;
    var d := c.(req := j.context);
    match j {
      case Reject(_, problem) => ReportLives(d, problem);
      case RejectAuth(_) =>
      case Tunnel(_) => AsyncConnectLives(d);
      case Forward(_) => AsyncConnectLives(d);
      case ChunkedUpload(_) =>
    }
  }

  lemma RequestHeadDataLives(cfg: Config, c: Conn, data: string)
    requires Quiet(c) && c.ctx.state == ReadHttpRequestHeader
    ensures Lives(OnRequestHeadData(cfg, c, data))
  {
    hide FindHeadEnd, ParsedRequest, JudgeRequest, Obey, Report, IsPage;
    var d := c.(requestData := c.requestData + data);
    var p := FindHeadEnd(d.requestData);
    if p.None? {
      ReportLives(d, RequestHeaderTooLong);
    } else {
      var head := ParsedRequest(d.requestData[..p.value + 4]);
      var e := d.(requestHead := head);
      ReportLives(e, BadRequestHeader);
      if head.Some? {
        ObeyLives(e, JudgeRequest(cfg, head.value, e.req, |d.requestData| - (p.value + 4)));
      }
    }
  }

  lemma ClientDataLives(cfg: Config, c: Conn, n: nat)
    requires Quiet(c) && n <= BUFFER_LENGTH && c.ctx.state in {ReadHttpRequestHeader, ReadHttpRequestContent}
    requires c.ctx.state == ReadHttpRequestContent ==> c.req.contentLength.Some?
    ensures Lives(OnClientData(cfg, c, n))
  {
    hide OnRequestHeadData, Wrap64, IsPage;
    var d := c.(upWrite := c.upRead);
    if c.ctx.state == ReadHttpRequestHeader {
      RequestHeadDataLives(cfg, d, d.upWrite[..n]);
    }
  }

  lemma ResponseHeadDataLives(c: Conn, data: string)
    requires Quiet(c) && c.ctx.state == ReadHttpResponseHeader
    ensures Lives(OnResponseHeadData(c, data))
  {
    hide FindHeadEnd, ParsedResponse, JudgeResponse, Report, ResponseText, IsPage;
    var d := c.(responseData := c.responseData + data);
    var p := FindHeadEnd(d.responseData);
    if p.None? {
      ReportLives(d, ResponseHeaderTooLong);
    } else {
      var head := ParsedResponse(d.responseData[..p.value + 4]);
      var e := d.(responseHead := head);
      ReportLives(e, BadResponseHeader);
      if head.Some? && e.requestHead.Some? {
        var j := JudgeResponse(e.requestHead.value.verb, head.value, e.resp, d.responseData[p.value + 4..]);
        var f := e.(resp := j.context);
        if j.Reject? {
          ReportLives(f, j.problem);
        }
      }
    }
  }

  // ---------------------------------------------------------------- steps that only lose

  /** The completed operation leaves the books and no other is started; what pending
      writes point at stays. */
  ghost predicate OnlyLoses(c: Conn, e: Event, d: Conn)
    requires Enabled(c, e)
  {
    && d.ctx.state == c.ctx.state
    && d.modifiedRequest == c.modifiedRequest && d.modifiedResponse == c.modifiedResponse
    && d.upWrite == c.upWrite && d.downWrite == c.downWrite
    && d.ops == Completed(c, e).ops && d.resp.checker.Some? == c.resp.checker.Some?
  }

  lemma ErrorLoses(c: Conn)
    requires Quiet(c)
    ensures if c.ctx.state in {ResolveOriginServerAddress, ConnectToOriginServer}
                 || (c.ctx.state == WriteHttpRequestHeader && c.ctx.reconnectOnError)
            then Lives(OnError(c)) else OnError(c) == CloseBoth(c)
  {
    hide AsyncConnect, Report, IsPage;
    match c.ctx.state {
      case ResolveOriginServerAddress => ReportLives(c, ResolveFailure);
      case ConnectToOriginServer => ReportLives(c, ConnectFailure);
      case WriteHttpRequestHeader => AsyncConnectLives(CloseOrigin(c));
      case _ =>
    }
  }

  /** A step either keeps the connection alive or only loses what was outstanding. */
  ghost predicate LivesOrLoses(c: Conn, e: Event, d: Conn)
    requires Enabled(c, e)
  {
    (Live(d) && (c.ctx.state != ReportError && d.ctx.state == ReportError ==> IsPage(d.modifiedResponse)))
    || (!Live(d) && OnlyLoses(c, e, d))
  }

  lemma ReadOutcome(cfg: Config, c: Conn, e: Event)
    requires Inv(c) && Live(c) && Enabled(c, e) && c.ctx.state != TunnelTransfer && (e.ClientRead? || e.OriginRead?)
    requires Inv(Step(cfg, c, e))
    ensures LivesOrLoses(c, e, Step(cfg, c, e))
  {
    hide FindHeadEnd, OnClientData, OnResponseHeadData, Feed, Wrap64, IsPage, Shape;
    CompletedIsQuiet(c, e);
    WhoCompletes(c, e);
    ReadersKnowLength(c);
    var d := Completed(c, e).(waits := 0);
    if e.ClientRead? {
      ClientDataLives(cfg, d, |e.data|);
    } else if c.ctx.state == ReadHttpResponseHeader {
      ResponseHeadDataLives(d, d.downRead[..|e.data|]);
    }
  }

  lemma ReadersKnowLength(c: Conn)
    requires Inv(c) && Live(c)
    ensures c.ctx.state == ReadHttpRequestContent ==> c.req.contentLength.Some?
  {
    hide FindHeadEnd;
  }

  lemma WrittenOutcome(cfg: Config, c: Conn, e: Event)
    requires Inv(c) && Live(c) && Enabled(c, e) && c.ctx.state != TunnelTransfer && (e.ClientWritten? || e.OriginWritten?)
    requires Inv(Step(cfg, c, e))
    ensures LivesOrLoses(c, e, Step(cfg, c, e))
  {
    hide FindHeadEnd, OnOriginWritten, OnResponseWritten, IsPage, Shape, OnClientData, OnOriginData, OnResolved,
      OnConnect, OnError;
    CompletedIsQuiet(c, e);
    WhoCompletes(c, e);
    var d := Completed(c, e).(waits := 0);
    ResponseWrittenLives(d);
    if e.OriginWritten? {
      OriginWrittenLives(d.(ctx := d.ctx.(reconnectOnError := false)));
    }
  }

  lemma ResponseWrittenLives(c: Conn)
    requires Quiet(c)
    ensures var d := OnResponseWritten(c);
            if Live(d) then d.ctx.state != ReportError
            else d == c.(origin := d.origin, clientOpen := d.clientOpen)
  {
    hide ResponseDone;
  }

  lemma OriginWrittenLives(c: Conn)
    requires Quiet(c) && c.ctx.state in {WriteHttpRequestHeader, WriteHttpRequestContent}
    ensures var d := OnOriginWritten(c); d.fault || (Live(d) && d.ctx.state != ReportError)
  {
    hide RequestDone;
  }

  lemma ReachingLives(cfg: Config, c: Conn, e: Event)
    requires Inv(c) && Live(c) && Enabled(c, e) && c.ctx.state != TunnelTransfer
    requires e.Resolved? || e.ResolveFailed? || e.Connected? || e.ConnectFailed?
    requires Inv(Step(cfg, c, e))
    ensures LivesOrLoses(c, e, Step(cfg, c, e))
  {
    hide FindHeadEnd, OnResolved, OnConnect, OnError, IsPage, Shape, OnClientData, OnOriginData, OnClientWritten,
      OnOriginWritten;
    CompletedIsQuiet(c, e);
    WhoCompletes(c, e);
    var d := Completed(c, e).(waits := 0);
    ErrorLoses(d);
    ErrorLoses(CloseOrigin(d));
    OnConnectLives(d);
    if e.Resolved? {
      OnResolvedLives(d, e.endpoints);
    } else if e.ConnectFailed? && |c.ops.connects[0]| > 1 {
      OnResolvedLives(CloseOrigin(d), c.ops.connects[0][1..]);
    }
  }

  lemma FailureOutcome(cfg: Config, c: Conn, e: Event)
    requires Inv(c) && Live(c) && Enabled(c, e) && c.ctx.state != TunnelTransfer
    requires e.ClientReadFailed? || e.OriginReadFailed? || e.ClientWriteFailed? || e.OriginWriteFailed?
    requires Inv(Step(cfg, c, e))
    ensures LivesOrLoses(c, e, Step(cfg, c, e))
  {
    hide FindHeadEnd, OnError, IsPage, Shape, OnClientData, OnOriginData, OnClientWritten, OnOriginWritten,
      OnResolved, OnConnect, Report;
    CompletedIsQuiet(c, e);
    ErrorLoses(Completed(c, e).(waits := 0));
  }

  lemma TunnelOutcome(cfg: Config, c: Conn, e: Event)
    requires Inv(c) && Live(c) && Enabled(c, e) && c.ctx.state == TunnelTransfer
    requires Inv(Step(cfg, c, e))
    ensures LivesOrLoses(c, e, Step(cfg, c, e))
  {
    hide FindHeadEnd, IsPage, Shape, OnRequestHeadData, OnRequestContent, OnResponseHeadData, OnResponseContent,
      OnResponseWritten, OnRequestWritten, OnResolved, OnConnect, AsyncConnect, Report;
    TunnelMeans(c);
    TunnelHasNoConnects(c);
  }

  lemma StepLivesOrLoses(cfg: Config, c: Conn, e: Event)
    requires Inv(c) && Enabled(c, e) && Inv(Step(cfg, c, e))
    ensures LivesOrLoses(c, e, Step(cfg, c, e))
  {
    hide Shape, Handle, IsPage, Inv;
    if e.TimerExpires? || e.TimeoutRuns? || !Live(c) {
      EndedLoses(cfg, c, e);
    } else if c.ctx.state == TunnelTransfer {
      TunnelOutcome(cfg, c, e);
    } else {
      match e {
        case ClientRead(_) => ReadOutcome(cfg, c, e);
        case OriginRead(_) => ReadOutcome(cfg, c, e);
        case ClientWritten(_) => WrittenOutcome(cfg, c, e);
        case OriginWritten(_) => WrittenOutcome(cfg, c, e);
        case Resolved(_) => ReachingLives(cfg, c, e);
        case ResolveFailed => ReachingLives(cfg, c, e);
        case Connected => ReachingLives(cfg, c, e);
        case ConnectFailed => ReachingLives(cfg, c, e);
        case _ => FailureOutcome(cfg, c, e);
      }
    }
  }

  lemma EndedLoses(cfg: Config, c: Conn, e: Event)
    requires Inv(c) && Enabled(c, e) && (e.TimerExpires? || e.TimeoutRuns? || !Live(c))
    ensures var d := Step(cfg, c, e); !Live(d) && OnlyLoses(c, e, d)
  {
  }

  // ------------------------------------------------------------------- conservation

  /** Every byte the origin is to have in this exchange, given what the client sent. */
  function UpTarget(c: Conn, t: Trace): string {
    if c.ctx.state == TunnelTransfer then t.fromClient else UpImage(t.fromClient)
  }

  /** Every byte the client is to have in this exchange. */
  function DownTarget(c: Conn, t: Trace): string {
    match c.ctx.state
    case TunnelTransfer => t.fromOrigin
    case WriteHttpResponseHeader => DownImage(t.fromOrigin)
    case ReadHttpResponseContent => DownImage(t.fromOrigin)
    case WriteHttpResponseContent => DownImage(t.fromOrigin)
    case ReportConnectionEstablished => c.modifiedResponse
    case ReportError => c.modifiedResponse
    case _ => ""
  }

  /** The pending writes lie within their buffers, one a direction at most. */
  ghost predicate WritesInBounds(c: Conn) {
    && |c.ops.originWrites| <= 1 && |c.ops.clientWrites| <= 1
    && (c.ops.originWrites != [] ==>
          c.ops.originWrites[0].offset + c.ops.originWrites[0].size <= |c.BufferText(c.ops.originWrites[0].buffer)|)
    && (c.ops.clientWrites != [] ==>
          c.ops.clientWrites[0].offset + c.ops.clientWrites[0].size <= |c.BufferText(c.ops.clientWrites[0].buffer)|)
  }

  /** What has been written and what is being written is a prefix of what is to be. */
  ghost predicate Conserved(c: Conn, t: Trace) {
    && WritesInBounds(c)
    && t.toOrigin + PendingUp(c) <= UpTarget(c, t)
    && t.toClient + PendingDown(c) <= DownTarget(c, t)
    && t.answers <= 1
    && (c.ctx.state == ReportError ==> t.answers == 1 && OnlyPage(c))
  }

  /** A page is the answer, and nothing else is in flight. */
  ghost predicate OnlyPage(c: Conn) {
    IsPage(c.modifiedResponse) && c.ops == NO_OPS.(clientWrites := c.ops.clientWrites)
  }

  ghost predicate ConservedInv(w: World) { StreamsInv(w) && Conserved(w.conn, w.trace) }

  lemma LiveInBounds(c: Conn)
    requires Inv(c) && Live(c)
    ensures WritesInBounds(c)
  {
    hide FindHeadEnd;
  }

  predicate WritesToClient(s: ConnectionState) {
    s in {WriteHttpResponseHeader, WriteHttpResponseContent, ReportConnectionEstablished, ReportError}
  }

  lemma PendingNothing(c: Conn)
    requires Inv(c) && Live(c)
    ensures c.ctx.state !in {WriteHttpRequestHeader, WriteHttpRequestContent, TunnelTransfer} ==> PendingUp(c) == ""
    ensures (c.ctx.state != TunnelTransfer && !WritesToClient(c.ctx.state)) ==> PendingDown(c) == ""
  {
    hide FindHeadEnd;
  }

  lemma PageOps(c: Conn)
    requires Inv(c) && Live(c) && c.ctx.state == ReportError
    ensures c.ops == NO_OPS.(clientWrites := c.ops.clientWrites)
  {
    hide FindHeadEnd;
  }

  /** A live connection is exact, so it conserves. */
  lemma StreamsConserve(c: Conn, t: Trace)
    requires Inv(c) && Live(c) && Streams(c, t)
    requires c.ctx.state == ReportError ==> IsPage(c.modifiedResponse)
    ensures Conserved(c, t)
  {
    hide FindHeadEnd, Shape, HeadOf, UpImage, DownImage, RequestIn, ResponseIn, PendingUp, PendingDown, IsPage,
      WritesInBounds;
    LiveInBounds(c);
    if c.ctx.state == ReportError {
      PageOps(c);
    }
    PendingNothing(c);
    assert t.toOrigin + "" == t.toOrigin;
    assert t.toClient + "" == t.toClient;
  }

  lemma UpImageOnlyGrows(x: string, data: string)
    ensures UpImage(x) <= UpImage(x + data)
  {
    hide FindHeadEnd, ParsedRequest, RequestText;
    if RequestIn(x) {
      UpImageGrows(x, data);
    }
  }

  lemma DownImageOnlyGrows(x: string, data: string)
    ensures DownImage(x) <= DownImage(x + data)
  {
    hide FindHeadEnd, ParsedResponse, ResponseText;
    if ResponseIn(x) {
      DownImageGrows(x, data);
    }
  }

  lemma TargetsGrow(c: Conn, e: Event, d: Conn, t: Trace)
    requires Enabled(c, e) && OnlyLoses(c, e, d)
    ensures var u := Carried(c, e, t);
            UpTarget(c, t) <= UpTarget(d, u) && DownTarget(c, t) <= DownTarget(d, u)
  {
    hide UpImage, DownImage, Enabled;
    match e {
      case ClientRead(data) => UpImageOnlyGrows(t.fromClient, data);
      case OriginRead(data) => DownImageOnlyGrows(t.fromOrigin, data);
      case _ =>
    }
  }

  /** What is taken of a pending write was pending. */
  lemma LosingUp(c: Conn, e: Event, d: Conn, t: Trace)
    requires Enabled(c, e) && OnlyLoses(c, e, d) && WritesInBounds(c)
    ensures Carried(c, e, t).toOrigin + PendingUp(d) <= t.toOrigin + PendingUp(c)
  {
    if e.OriginWritten? || e.OriginWriteFailed? {
      var w := c.ops.originWrites[0];
      var n := if e.OriginWritten? then e.n else 0;
      PieceSplits(c.BufferText(w.buffer), w.offset, w.size, n);
      assert PendingUp(d) == "";
      SendMore(t.toOrigin, Piece(c.BufferText(w.buffer), w.offset, n),
        Piece(c.BufferText(w.buffer), w.offset + n, w.size - n));
    }
  }

  lemma LosingDown(c: Conn, e: Event, d: Conn, t: Trace)
    requires Enabled(c, e) && OnlyLoses(c, e, d) && WritesInBounds(c)
    ensures Carried(c, e, t).toClient + PendingDown(d) <= t.toClient + PendingDown(c)
  {
    if e.ClientWritten? || e.ClientWriteFailed? {
      var w := c.ops.clientWrites[0];
      var n := if e.ClientWritten? then e.n else 0;
      PieceSplits(c.BufferText(w.buffer), w.offset, w.size, n);
      assert PendingDown(d) == "";
      SendMore(t.toClient, Piece(c.BufferText(w.buffer), w.offset, n),
        Piece(c.BufferText(w.buffer), w.offset + n, w.size - n));
    }
  }

  lemma LosingRecords(c: Conn, e: Event, d: Conn, t: Trace)
    requires Enabled(c, e) && OnlyLoses(c, e, d)
    ensures Recorded(c, e, d, t) == Carried(c, e, t)
    ensures Carried(c, e, t).answers == t.answers
  {
  }

  lemma LosingOps(c: Conn, e: Event, d: Conn)
    requires Enabled(c, e) && OnlyLoses(c, e, d)
    ensures WritesInBounds(c) ==> WritesInBounds(d)
    ensures c.ctx.state == ReportError && OnlyPage(c) ==> OnlyPage(d)
  {
    hide IsPage;
  }

  lemma LosingConserves(c: Conn, e: Event, d: Conn, t: Trace)
    requires Enabled(c, e) && OnlyLoses(c, e, d) && Conserved(c, t)
    ensures Conserved(d, Recorded(c, e, d, t))
  {
    hide Carried, Recorded, PendingUp, PendingDown, UpTarget, DownTarget, IsPage, Completed, Enabled;
    LosingOps(c, e, d);
    LosingRecords(c, e, d, t);
    TargetsGrow(c, e, d, t);
    LosingUp(c, e, d, t);
    LosingDown(c, e, d, t);
  }

  /** A page, once it is the answer, stays the answer. */
  lemma PageStays(cfg: Config, c: Conn, e: Event)
    requires Inv(c) && Enabled(c, e) && c.ctx.state == ReportError && OnlyPage(c)
    ensures var d := Step(cfg, c, e);
            && d.ctx.state == ReportError && d.modifiedResponse == c.modifiedResponse && OnlyPage(d)
            && (Live(d) ==> d.clientOpen == c.clientOpen && d.origin == c.origin)
    ensures Live(c) && e.ClientWritten? && e.n == c.ops.clientWrites[0].size ==>
              var d := Step(cfg, c, e); d.ops == NO_OPS && !d.clientOpen && d.origin.None?
  {
    hide FindHeadEnd, IsPage;
    if Live(c) && !e.TimerExpires? && !e.TimeoutRuns? {
      WhoCompletes(c, e);
    }
  }

  /** Every step conserves. */
  lemma StepConserves(cfg: Config, w: World, e: Event)
    requires ConservedInv(w) && Enabled(w.conn, e) && Inv(Step(cfg, w.conn, e))
    ensures ConservedInv(NextWorld(cfg, w, e))
  {
    hide Streams, Shape, Recorded, Step, Enabled, IsPage, Inv, OnlyLoses;
    var d := Step(cfg, w.conn, e);
    StepKeepsStreams(cfg, w, e);
    StepLivesOrLoses(cfg, w.conn, e);
    if Live(d) {
      if w.conn.ctx.state == ReportError {
        PageStays(cfg, w.conn, e);
      }
      StreamsConserve(d, Recorded(w.conn, e, d, w.trace));
    } else {
      LosingConserves(w.conn, e, d, w.trace);
    }
  }

  /** No step changes bytes that a write still in flight points at. */
  lemma PendingWritesUntouched(cfg: Config, c: Conn, e: Event)
    requires Inv(c) && Enabled(c, e) && Inv(Step(cfg, c, e))
    ensures var d, left := Step(cfg, c, e), Completed(c, e).ops;
            && left.originWrites <= d.ops.originWrites
            && (forall w :: w in left.originWrites ==> d.BufferText(w.buffer) == c.BufferText(w.buffer))
            && left.clientWrites <= d.ops.clientWrites
            && (forall w :: w in left.clientWrites ==> d.BufferText(w.buffer) == c.BufferText(w.buffer))
  {
    hide Shape, Handle, FindHeadEnd, Inv;
    if e.TimerExpires? || e.TimeoutRuns? || !Live(c) {
      EndedLoses(cfg, c, e);
    } else if c.ctx.state == TunnelTransfer {
      TunnelLeavesPending(cfg, c, e);
    } else {
      CompletedIsQuiet(c, e);
    }
  }

  lemma TunnelLeavesPending(cfg: Config, c: Conn, e: Event)
    requires Inv(c) && Live(c) && Enabled(c, e) && c.ctx.state == TunnelTransfer
    ensures var d, left := Step(cfg, c, e), Completed(c, e).ops;
            && left.originWrites <= d.ops.originWrites
            && (left.originWrites != [] ==> |left.originWrites| == 1 && left.originWrites[0].buffer == UpgoingWrite
                                            && d.upWrite == c.upWrite)
            && left.clientWrites <= d.ops.clientWrites
            && (left.clientWrites != [] ==> |left.clientWrites| == 1 && left.clientWrites[0].buffer == DowngoingWrite
                                            && d.downWrite == c.downWrite)
  {
    hide FindHeadEnd, Shape, OnRequestHeadData, OnRequestContent, OnResponseHeadData, OnResponseContent,
      OnResponseWritten, OnRequestWritten, OnResolved, OnConnect, AsyncConnect, Report;
    TunnelMeans(c);
    TunnelHasNoConnects(c);
  }
}
