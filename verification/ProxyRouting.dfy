/** Where the bytes of a request go: only to an endpoint the resolver gave for the
    host and port of that request, and to a new connection at most once. */
module ProxyRouting {
  import opened Text
  import opened ChunkChecker
  import opened HeaderMap
  import opened HeaderParser
  import opened HeadPrinter
  import opened ProxyContext
  import opened ProxyMachine
  import opened ProxyInvariants
  import opened ProxyStreams

  /** The open origin socket leads where its remembered name says. */
  ghost predicate SocketRouted(c: Conn, t: Trace) {
    c.origin.Some? ==> Route(Query(c.ctx.originName, c.ctx.originPort), c.origin.value) in t.found
  }

  /** The socket leads where the request asks to go. */
  ghost predicate RequestRouted(c: Conn, t: Trace) {
    && c.requestHead.Some? && Asked(c) == Query(c.ctx.originName, c.ctx.originPort)
    && SocketRouted(c, t)
  }

  /** How often the request has been taken to a new connection. */
  ghost predicate RetryOnce(c: Conn, t: Trace) {
    t.retries <= 1 && (c.ctx.reconnectOnError ==> t.retries == 0)
  }

  ghost predicate Routed(c: Conn, t: Trace) {
    match c.ctx.state
    case ReadHttpRequestHeader => SocketRouted(c, t) && t.retries == 0
    case ResolveOriginServerAddress =>
      && RetryOnce(c, t) && c.requestHead.Some?
      && (c.origin.Some? ==> t.retries == 0 && c.requestHead.value.verb != CONNECT)
    case ConnectToOriginServer =>
      && RetryOnce(c, t) && c.requestHead.Some? && Asked(c) == Query(c.ctx.originName, c.ctx.originPort)
      && |c.ops.connects| == 1 && forall p :: p in c.ops.connects[0] ==> Route(Asked(c), p) in t.found
    case ReportError => t.retries <= 1
    case ReportConnectionEstablished => RequestRouted(c, t) && RetryOnce(c, t) && t.connected
    case TunnelTransfer => RequestRouted(c, t) && RetryOnce(c, t) && t.connected
    case _ => RequestRouted(c, t) && RetryOnce(c, t)
  }

  /** At every moment, live or not: what took bytes was found, and so was the peer of
      the write that is still pending. */
  ghost predicate Reached(c: Conn, t: Trace) {
    && t.reached <= t.found
    && |c.ops.originWrites| <= 1
    && (c.ops.originWrites != [] && c.ops.originWrites[0].peer.Some? ==>
          Route(Asked(c), c.ops.originWrites[0].peer.value) in t.found)
  }

  ghost predicate RoutingInv(w: World) {
    Inv(w.conn) && Reached(w.conn, w.trace) && (Live(w.conn) ==> Routed(w.conn, w.trace))
  }

  /** A handler that ran alone leaves a routed connection. */
  ghost predicate Arrives(d: Conn, t: Trace) { Reached(d, t) && (Live(d) ==> Routed(d, t)) }

  // -------------------------------------------------------------- handler by handler

  lemma ReportArrives(c: Conn, problem: Problem, t: Trace)
    requires Quiet(c) && t.reached <= t.found && t.retries <= 1
    ensures Arrives(Report(c, problem), t)
  {
    hide ProblemPage;
  }

  lemma OnConnectArrives(c: Conn, t: Trace)
    requires Quiet(c) && t.reached <= t.found && RequestRouted(c, t) && RetryOnce(c, t)
    requires c.requestHead.value.verb == CONNECT ==> t.connected
    ensures Arrives(OnConnect(c), t)
  {
    hide FindHeadEnd, RequestText, Erase;
  }

  lemma AsyncConnectArrives(c: Conn, t: Trace)
    requires Quiet(c) && t.reached <= t.found && c.requestHead.Some? && SocketRouted(c, t)
    requires t.retries <= 1 && (c.origin.Some? ==> t.retries == 0)
    ensures Arrives(AsyncConnect(c), t)
  {
    hide OnConnect;
    var d := c.(ctx := c.ctx.(reconnectOnError := false));
    var r := d.requestHead.value;
    var e := if r.verb == CONNECT then CloseOrigin(d) else d;
    if e.origin.Some? && r.host == e.ctx.originName && r.port == e.ctx.originPort {
      OnConnectArrives(e.(ctx := e.ctx.(reconnectOnError := true)), t);
    }
  }

  lemma OnResolvedArrives(c: Conn, endpoints: seq<Endpoint>, t: Trace)
    requires Quiet(c) && t.reached <= t.found && c.requestHead.Some? && endpoints != [] && !c.ctx.reconnectOnError
    requires Asked(c) == Query(c.ctx.originName, c.ctx.originPort) && t.retries <= 1
    requires c.origin.Some? ==> t.retries == 0 && c.requestHead.value.verb != CONNECT
    requires forall p :: p in endpoints ==> Route(Asked(c), p) in t.found
    ensures Arrives(OnResolved(c, endpoints), t)
  {
    hide OnConnect;
    if c.origin.Some? && c.ctx.originEndpoint.Some? && c.ctx.originEndpoint.value in endpoints {
      var d := if c.ctx.originEndpoint.value == endpoints[0] then c else CloseOrigin(c);
      OnConnectArrives(d.(ctx := d.ctx.(reconnectOnError := true)), t);
    }
  }

  lemma ObeyArrives(c: Conn, j: Judgement<RequestContext>, t: Trace)
    requires Quiet(c) && t.reached <= t.found && c.requestHead.Some? && SocketRouted(c, t) && t.retries == 0
    ensures Arrives(Obey(c, j), t)
  {
    hide AsyncConnect, Report, AuthPage;
    var d := c.(req := j.context);
    match j {
      case Reject(_, problem) => ReportArrives(d, problem, t);
      case RejectAuth(_) =>
      case Tunnel(_) => AsyncConnectArrives(d, t);
      case Forward(_) => AsyncConnectArrives(d, t);
      case ChunkedUpload(_) =>
    }
  }

  lemma ClientDataArrives(cfg: Config, c: Conn, n: nat, t: Trace)
    requires Quiet(c) && t.reached <= t.found && Routed(c, t) && n <= BUFFER_LENGTH
    requires c.ctx.state in {ReadHttpRequestHeader, ReadHttpRequestContent}
    ensures Arrives(OnClientData(cfg, c, n), t)
  {
    hide OnRequestHeadData, Wrap64;
    var d := c.(upWrite := c.upRead);
    if c.ctx.state == ReadHttpRequestHeader {
      RequestHeadDataArrives(cfg, d, d.upWrite[..n], t);
    }
  }

  lemma RequestHeadDataArrives(cfg: Config, c: Conn, data: string, t: Trace)
    requires Quiet(c) && t.reached <= t.found && Routed(c, t) && c.ctx.state == ReadHttpRequestHeader
    ensures Arrives(OnRequestHeadData(cfg, c, data), t)
  {
    hide FindHeadEnd, ParsedRequest, JudgeRequest, Obey, Report;
    var d := c.(requestData := c.requestData + data);
    var p := FindHeadEnd(d.requestData);
    if p.None? {
      ReportArrives(d, RequestHeaderTooLong, t);
    } else {
      var head := ParsedRequest(d.requestData[..p.value + 4]);
      var e := d.(requestHead := head);
      ReportArrives(e, BadRequestHeader, t);
      if head.Some? {
        ObeyArrives(e, JudgeRequest(cfg, head.value, e.req, |d.requestData| - (p.value + 4)), t);
      }
    }
  }

  /** Data from the origin moves no socket and no request. */
  lemma OriginDataKeeps(c: Conn, n: nat)
    requires Quiet(c) && n <= BUFFER_LENGTH && c.ctx.state in {ReadHttpResponseHeader, ReadHttpResponseContent}
    ensures var d := OnOriginData(c, n);
            && Undisturbed(c, d)
            && d.ctx.state in {ReadHttpResponseHeader, WriteHttpResponseHeader, ReadHttpResponseContent,
                               WriteHttpResponseContent, ReportError}
  {
    hide OnResponseHeadData, OnResponseContent, Undisturbed;
    if c.ctx.state == ReadHttpResponseHeader {
      ResponseHeadKeeps(c, c.downRead[..n]);
    } else {
      ResponseContentKeeps(c, n);
    }
  }

  lemma ResponseContentKeeps(c: Conn, n: nat)
    requires Quiet(c) && n <= BUFFER_LENGTH
    ensures var d := OnResponseContent(c, n);
            Undisturbed(c, d) && d.ctx.state in {c.ctx.state, WriteHttpResponseContent}
  {
    hide Feed, Wrap64, WriteContent;
    WriteContentKeeps(c, n);
    WriteContentKeeps(c.(resp := c.resp.(hasRead := Wrap64(c.resp.hasRead + n))), n);
    if c.resp.checker.Some? {
      WriteContentKeeps(c.(resp := c.resp.(checker := Some(Feed(c.resp.checker.value, c.downRead[..n])))), n);
    }
  }

  lemma WriteContentKeeps(c: Conn, n: nat)
    requires Quiet(c) && n <= BUFFER_LENGTH
    ensures Undisturbed(c, WriteContent(c, n)) && WriteContent(c, n).ctx.state == WriteHttpResponseContent
  {
  }

  /** Only the answer has been touched. */
  ghost predicate Undisturbed(c: Conn, d: Conn) {
    && d.requestHead == c.requestHead && d.origin == c.origin && d.ctx == c.ctx.(state := d.ctx.state)
    && d.ops.originWrites == [] && d.ops.connects == []
  }

  lemma ReportKeeps(c: Conn, problem: Problem)
    requires Quiet(c)
    ensures Undisturbed(c, Report(c, problem)) && Report(c, problem).ctx.state == ReportError
  {
    hide ProblemPage;
  }

  lemma ObeyResponseKeeps(c: Conn, j: Judgement<ResponseContext>)
    requires Quiet(c)
    ensures var d := ObeyResponse(c, j);
            Undisturbed(c, d) && d.ctx.state in {c.ctx.state, WriteHttpResponseHeader, ReportError}
  {
    hide FindHeadEnd, ResponseText, Report;
    if j.Reject? {
      ReportKeeps(c.(resp := j.context), j.problem);
    }
  }

  lemma ResponseHeadKeeps(c: Conn, data: string)
    requires Quiet(c) && c.ctx.state == ReadHttpResponseHeader
    ensures var d := OnResponseHeadData(c, data);
            Undisturbed(c, d) && d.ctx.state in {ReadHttpResponseHeader, WriteHttpResponseHeader, ReportError}
  {
    hide FindHeadEnd, ParsedResponse, JudgeResponse, ObeyResponse, Report;
    var d := c.(responseData := c.responseData + data);
    var p := FindHeadEnd(d.responseData);
    if p.None? {
      ReportKeeps(d, ResponseHeaderTooLong);
    } else {
      var head := ParsedResponse(d.responseData[..p.value + 4]);
      var e := d.(responseHead := head);
      ReportKeeps(e, BadResponseHeader);
      if head.Some? && e.requestHead.Some? {
        ObeyResponseKeeps(e, JudgeResponse(e.requestHead.value.verb, head.value, e.resp, d.responseData[p.value + 4..]));
      }
    }
  }

  lemma OriginDataArrives(c: Conn, n: nat, t: Trace)
    requires Quiet(c) && t.reached <= t.found && Routed(c, t) && n <= BUFFER_LENGTH
    requires c.ctx.state in {ReadHttpResponseHeader, ReadHttpResponseContent}
    ensures Arrives(OnOriginData(c, n), t)
  {
    hide OnOriginData;
    OriginDataKeeps(c, n);
  }

  lemma ErrorArrives(c: Conn, t: Trace)
    requires Quiet(c) && t.reached <= t.found && t.retries <= 1
    requires c.ctx.state == WriteHttpRequestHeader && c.ctx.reconnectOnError ==> c.requestHead.Some?
    ensures Arrives(OnError(c), t)
  {
    hide AsyncConnect, Report;
    match c.ctx.state {
      case ResolveOriginServerAddress => ReportArrives(c, ResolveFailure, t);
      case ConnectToOriginServer => ReportArrives(c, ConnectFailure, t);
      case WriteHttpRequestHeader =>
        if c.ctx.reconnectOnError {
          AsyncConnectArrives(CloseOrigin(c), t);
        }
      case _ =>
    }
  }

  // ------------------------------------------------------------------------- records

  /** How a step's record changes what routing looks at. */
  lemma RecordedRoutes(c: Conn, e: Event, d: Conn, t: Trace)
    requires Enabled(c, e)
    ensures var r, u := Recorded(c, e, d, t), Carried(c, e, t);
            && r.found == u.found && r.reached == u.reached
            && (if c.ctx.state != d.ctx.state && d.ctx.state == ReadHttpRequestHeader then r.retries == 0
                else r.retries == u.retries && r.connected == u.connected)
  {
    hide Carried, AnswerBegins;
  }

  lemma SameRouting(d: Conn, t: Trace, u: Trace)
    requires t.found == u.found && t.reached == u.reached
    requires if d.ctx.state == ReadHttpRequestHeader then u.retries == 0 else t.retries == u.retries && t.connected == u.connected
    ensures Arrives(d, t) ==> Arrives(d, u)
  {
  }

  // --------------------------------------------------------------------------- steps

  lemma RoutedMeans(c: Conn, t: Trace)
    requires Inv(c) && Live(c) && Routed(c, t)
    ensures c.ctx.state == ResolveOriginServerAddress ==>
      c.ops.resolves == [Asked(c)] && Asked(c) == Query(c.ctx.originName, c.ctx.originPort) && !c.ctx.reconnectOnError
    ensures c.ctx.state == ConnectToOriginServer ==> !c.ctx.reconnectOnError
    ensures c.ctx.state !in {ReadHttpRequestHeader, ResolveOriginServerAddress, ConnectToOriginServer, ReportError} ==>
      RequestRouted(c, t) && RetryOnce(c, t)
    ensures c.ctx.state != TunnelTransfer ==> c.ops.originWrites == [] || |c.ops.originWrites| == 1
    ensures t.retries <= 1
  {
    hide FindHeadEnd;
  }

  lemma ReadRoutes(cfg: Config, w: World, e: Event)
    requires RoutingInv(w) && Live(w.conn) && Enabled(w.conn, e) && w.conn.ctx.state != TunnelTransfer
    requires e.ClientRead? || e.OriginRead?
    requires Inv(Step(cfg, w.conn, e))
    ensures RoutingInv(NextWorld(cfg, w, e))
  {
    hide FindHeadEnd, OnClientData, OnOriginData, Shape, Recorded, Routed;
    var c, t := w.conn, w.trace;
    CompletedIsQuiet(c, e);
    WhoCompletes(c, e);
    var d := Completed(c, e).(waits := 0);
    var u := Carried(c, e, t);
    SameRouted(c, d, t, u);
    if e.ClientRead? {
      ClientDataArrives(cfg, d, |e.data|, u);
    } else {
      OriginDataArrives(d, |e.data|, u);
    }
    StepRecords(cfg, w, e, u);
  }

  lemma SameRouted(c: Conn, d: Conn, t: Trace, u: Trace)
    requires d == c.(upRead := d.upRead, downRead := d.downRead, waits := d.waits, ops := d.ops)
    requires c.ctx.state != ConnectToOriginServer
    requires u.found == t.found && u.retries == t.retries && u.connected == t.connected
    ensures Routed(c, t) ==> Routed(d, u)
  {
  }

  /** From a handler's outcome to the step's. */
  lemma StepRecords(cfg: Config, w: World, e: Event, u: Trace)
    requires Enabled(w.conn, e) && Inv(Step(cfg, w.conn, e))
    requires u == Carried(w.conn, e, w.trace) && Arrives(Step(cfg, w.conn, e), u)
    requires var d := Step(cfg, w.conn, e);
             w.conn.ctx.state == d.ctx.state && d.ctx.state == ReadHttpRequestHeader && Live(d) ==> u.retries == 0
    ensures RoutingInv(NextWorld(cfg, w, e))
  {
    hide Step, Recorded, Carried, Enabled, Inv, Reached, Routed;
    var d := Step(cfg, w.conn, e);
    RecordedRoutes(w.conn, e, d, w.trace);
    RecordArrives(w.conn, e, d, w.trace, u);
  }

  lemma RecordArrives(c: Conn, e: Event, d: Conn, t: Trace, u: Trace)
    requires Enabled(c, e) && u == Carried(c, e, t) && Arrives(d, u)
    requires c.ctx.state == d.ctx.state && d.ctx.state == ReadHttpRequestHeader && Live(d) ==> u.retries == 0
    ensures Arrives(d, Recorded(c, e, d, t))
  {
    hide Carried, Enabled;
    RecordedRoutes(c, e, d, t);
  }

  lemma ReachingRoutes(cfg: Config, w: World, e: Event)
    requires RoutingInv(w) && Live(w.conn) && Enabled(w.conn, e) && w.conn.ctx.state != TunnelTransfer
    requires e.Resolved? || e.ResolveFailed? || e.Connected? || e.ConnectFailed?
    requires Inv(Step(cfg, w.conn, e))
    ensures RoutingInv(NextWorld(cfg, w, e))
  {
    hide FindHeadEnd, OnResolved, OnConnect, OnError, Shape, Recorded, OnClientData, OnOriginData, OnClientWritten,
      OnOriginWritten;
    var c, t := w.conn, w.trace;
    CompletedIsQuiet(c, e);
    WhoCompletes(c, e);
    RoutedMeans(c, t);
    var d := Completed(c, e).(waits := 0);
    var u := Carried(c, e, t);
    match e {
      case Resolved(endpoints) =>
        forall p | p in endpoints ensures Route(Asked(d), p) in u.found {
          assert Route(c.ops.resolves[0], p) in set q | q in endpoints :: Route(c.ops.resolves[0], q);
        }
        OnResolvedArrives(d, endpoints, u);
      case ResolveFailed => ErrorArrives(d, u);
      case Connected =>
        ConnectingTo(c);
        OnConnectArrives(d, u);
      case ConnectFailed =>
        var tried := c.ops.connects[0];
        var f := CloseOrigin(d);
        if |tried| > 1 {
          assert forall p :: p in tried[1..] ==> p in tried;
          OnResolvedArrives(f, tried[1..], u);
        } else {
          ErrorArrives(f, u);
        }
    }
    ReachingOutcome(cfg, d, c.ops, e);
    StepRecords(cfg, w, e, u);
  }

  lemma ConnectingTo(c: Conn)
    requires Inv(c) && Live(c) && c.ctx.state == ConnectToOriginServer
    ensures |c.ops.connects| == 1 && c.ops.connects[0] != [] && c.origin == Some(c.ops.connects[0][0])
  {
    hide FindHeadEnd;
  }

  lemma OriginWritesOne(c: Conn)
    requires Inv(c) && Live(c) && c.ctx.state in {WriteHttpRequestHeader, WriteHttpRequestContent}
    ensures |c.ops.originWrites| == 1 && c.ops.originWrites[0].peer == c.origin
  {
    hide FindHeadEnd;
  }

  lemma OriginWrittenRoutes(cfg: Config, w: World, n: nat)
    requires RoutingInv(w) && Live(w.conn) && Enabled(w.conn, OriginWritten(n)) && w.conn.ctx.state != TunnelTransfer
    requires Inv(Step(cfg, w.conn, OriginWritten(n)))
    ensures RoutingInv(NextWorld(cfg, w, OriginWritten(n)))
  {
    hide FindHeadEnd, Shape, Recorded, OnRequestWritten, Routed, OnClientData, OnOriginData, OnClientWritten,
      OnResolved, OnConnect, OnError;
    var c, t, e := w.conn, w.trace, OriginWritten(n);
    CompletedIsQuiet(c, e);
    WhoCompletes(c, e);
    RoutedMeans(c, t);
    OriginWritesOne(c);
    var q := Completed(c, e).(waits := 0);
    var f := q.(ctx := q.ctx.(reconnectOnError := false));
    RequestWrittenKeeps(f);
    RequestStaysRouted(c, Step(cfg, c, e), t, Carried(c, e, t));
    StepRecords(cfg, w, e, Carried(c, e, t));
  }

  lemma RequestWrittenKeeps(c: Conn)
    requires Quiet(c)
    ensures var d := OnRequestWritten(c);
            Undisturbed(c, d) && d.ctx.state in {c.ctx.state, ReadHttpRequestContent, ReadHttpResponseHeader}
  {
    hide RequestDone;
  }

  lemma RequestStaysRouted(c: Conn, d: Conn, t: Trace, u: Trace)
    requires RequestRouted(c, t) && RetryOnce(c, t) && d.requestHead == c.requestHead && d.origin == c.origin
    requires d.ctx == c.ctx.(state := d.ctx.state, reconnectOnError := false)
    requires d.ctx.state in {WriteHttpRequestHeader, WriteHttpRequestContent, ReadHttpRequestContent, ReadHttpResponseHeader}
    requires u.found == t.found && u.retries == t.retries
    ensures Routed(d, u)
  {
  }

  /** What has been answered goes on, ends, or makes room for the next request. */
  lemma ResponseWrittenRoutes(c: Conn, t: Trace)
    requires Quiet(c) && t.reached <= t.found && RequestRouted(c, t) && RetryOnce(c, t)
    requires c.ctx.state in {WriteHttpResponseHeader, WriteHttpResponseContent}
    ensures var d := OnResponseWritten(c);
            Arrives(d, if d.ctx.state == ReadHttpRequestHeader then t.(retries := 0) else t)
  {
    hide ResponseDone;
  }

  /** A write to the client that goes on, or an answer of the proxy's own that ends. */
  lemma OtherwiseWrittenRoutes(cfg: Config, c: Conn, n: nat, t: Trace)
    requires Inv(c) && Live(c) && Enabled(c, ClientWritten(n)) && c.ctx.state != TunnelTransfer
    requires n < c.ops.clientWrites[0].size || c.ctx.state in {ReportConnectionEstablished, ReportError}
    requires Routed(c, t) && t.reached <= t.found
    ensures var d := Step(cfg, c, ClientWritten(n)); Arrives(d, t) && d.ctx.state != ReadHttpRequestHeader
  {
    hide FindHeadEnd, Shape, OnResponseWritten, OnClientData, OnOriginData, OnOriginWritten, OnResolved, OnConnect,
      OnError;
    CompletedIsQuiet(c, ClientWritten(n));
    WhoCompletes(c, ClientWritten(n));
  }

  lemma ClientWrittenRoutes(cfg: Config, w: World, n: nat)
    requires RoutingInv(w) && Live(w.conn) && Enabled(w.conn, ClientWritten(n)) && w.conn.ctx.state != TunnelTransfer
    requires Inv(Step(cfg, w.conn, ClientWritten(n)))
    ensures RoutingInv(NextWorld(cfg, w, ClientWritten(n)))
  {
    hide FindHeadEnd, Shape, Recorded, OnResponseWritten, Routed, Reached, SocketRouted, RequestRouted, RetryOnce,
      OnClientData, OnOriginData, OnOriginWritten, OnResolved, OnConnect, OnError;
    var c, t, e := w.conn, w.trace, ClientWritten(n);
    CompletedIsQuiet(c, e);
    WhoCompletes(c, e);
    RoutedMeans(c, t);
    ReachedMeans(c, t);
    var d := Step(cfg, c, e);
    var q := Completed(c, e).(waits := 0);
    if n < c.ops.clientWrites[0].size || c.ctx.state in {ReportConnectionEstablished, ReportError} {
      OtherwiseWrittenRoutes(cfg, c, n, t);
    } else {
      RequestRoutedSame(c, q, t);
      ResponseWrittenRoutes(q, t);
    }
    var v := if d.ctx.state == ReadHttpRequestHeader then t.(retries := 0) else t;
    assert Arrives(d, v);
    RecordedRoutes(c, e, d, t);
    SameRouting(d, v, Recorded(c, e, d, t));
  }

  lemma ReachedMeans(c: Conn, t: Trace)
    requires Reached(c, t)
    ensures t.reached <= t.found
  {
  }

  lemma RequestRoutedSame(c: Conn, d: Conn, t: Trace)
    requires d == c.(upRead := d.upRead, downRead := d.downRead, waits := d.waits, ops := d.ops)
    ensures RequestRouted(c, t) == RequestRouted(d, t) && RetryOnce(c, t) == RetryOnce(d, t)
  {
  }

  lemma FailureRoutes(cfg: Config, w: World, e: Event)
    requires RoutingInv(w) && Live(w.conn) && Enabled(w.conn, e) && w.conn.ctx.state != TunnelTransfer
    requires e.ClientReadFailed? || e.OriginReadFailed? || e.ClientWriteFailed? || e.OriginWriteFailed?
    requires Inv(Step(cfg, w.conn, e))
    ensures RoutingInv(NextWorld(cfg, w, e))
  {
    hide FindHeadEnd, AsyncConnect, Shape, Recorded, Routed, OnClientData, OnOriginData, OnClientWritten,
      OnOriginWritten, OnResolved, OnConnect, Report;
    var c, t := w.conn, w.trace;
    CompletedIsQuiet(c, e);
    WhoCompletes(c, e);
    RoutedMeans(c, t);
    var d := Completed(c, e).(waits := 0);
    var u := Carried(c, e, t);
    if TakesRetry(c, e) {
      AsyncConnectArrives(CloseOrigin(d), u);
      AsyncConnectOutcome(CloseOrigin(d));
    }
    StepRecords(cfg, w, e, u);
  }

  lemma TunnelRoutes(cfg: Config, w: World, e: Event)
    requires RoutingInv(w) && Live(w.conn) && Enabled(w.conn, e) && w.conn.ctx.state == TunnelTransfer
    requires Inv(Step(cfg, w.conn, e))
    ensures RoutingInv(NextWorld(cfg, w, e))
  {
    hide FindHeadEnd, Shape, Recorded, Serving, OnClientData, OnOriginData, OnClientWritten, OnOriginWritten, OnResolved,
      OnConnect, OnError, EndpointKnown, BuffersSized;
    var c, t := w.conn, w.trace;
    TunnelMeans(c);
    TunnelHasNoConnects(c);
    TunnelKeeps(cfg, c, e);
    StepRecords(cfg, w, e, Carried(c, e, t));
  }

  lemma TunnelHasNoConnects(c: Conn)
    requires Inv(c) && Live(c) && c.ctx.state == TunnelTransfer
    ensures c.ops.connects == [] && c.ops.resolves == []
  {
    hide FindHeadEnd;
  }

  /** In the tunnel the socket, the request and the state stay, unless all ends. */
  ghost predicate TunnelKept(c: Conn, d: Conn) {
    && d.ctx.state == TunnelTransfer && d.requestHead == c.requestHead
    && (Live(d) ==> d.origin == c.origin && d.ctx == c.ctx.(reconnectOnError := d.ctx.reconnectOnError)
                    && (d.ctx.reconnectOnError ==> c.ctx.reconnectOnError))
    && |d.ops.originWrites| <= 1
    && (d.ops.originWrites != [] ==> d.ops.originWrites[0].peer == c.origin)
  }

  lemma TunnelUpKeeps(cfg: Config, c: Conn, e: Event)
    requires Inv(c) && Live(c) && Enabled(c, e) && c.ctx.state == TunnelTransfer && (e.ClientRead? || e.OriginWritten?)
    ensures TunnelKept(c, Step(cfg, c, e))
  {
    hide FindHeadEnd, Shape, OnRequestHeadData, OnRequestContent, OnOriginData, OnClientWritten, OnRequestWritten,
      OnResolved, OnConnect, OnError;
    TunnelMeans(c);
  }

  lemma TunnelDownKeeps(cfg: Config, c: Conn, e: Event)
    requires Inv(c) && Live(c) && Enabled(c, e) && c.ctx.state == TunnelTransfer && (e.OriginRead? || e.ClientWritten?)
    ensures TunnelKept(c, Step(cfg, c, e))
  {
    hide FindHeadEnd, Shape, OnResponseHeadData, OnResponseContent, OnClientData, OnOriginWritten, OnResponseWritten,
      OnResolved, OnConnect, OnError;
    TunnelMeans(c);
  }

  lemma TunnelKeeps(cfg: Config, c: Conn, e: Event)
    requires Inv(c) && Live(c) && Enabled(c, e) && c.ctx.state == TunnelTransfer
    ensures TunnelKept(c, Step(cfg, c, e))
  {
    hide FindHeadEnd, Shape, OnClientData, OnOriginData, OnClientWritten, OnOriginWritten, OnResolved, OnConnect,
      AsyncConnect, Report;
    TunnelMeans(c);
    TunnelHasNoConnects(c);
    if e.ClientRead? || e.OriginWritten? {
      TunnelUpKeeps(cfg, c, e);
    } else if e.OriginRead? || e.ClientWritten? {
      TunnelDownKeeps(cfg, c, e);
    }
  }

  lemma EndedRoutes(cfg: Config, w: World, e: Event)
    requires RoutingInv(w) && Enabled(w.conn, e) && (e.TimerExpires? || e.TimeoutRuns? || !Live(w.conn))
    requires Inv(Step(cfg, w.conn, e))
    ensures RoutingInv(NextWorld(cfg, w, e))
  {
    hide Shape, Routed, Recorded;
    var c := w.conn;
    EndedKeeps(cfg, c, e);
    StepRecords(cfg, w, e, Carried(c, e, w.trace));
  }

  /** Without its timer a connection only loses what was outstanding. */
  lemma EndedKeeps(cfg: Config, c: Conn, e: Event)
    requires Inv(c) && Enabled(c, e) && (e.TimerExpires? || e.TimeoutRuns? || !Live(c))
    ensures var d := Step(cfg, c, e);
            && !Live(d) && d.ctx == c.ctx && d.requestHead == c.requestHead
            && d.ops.originWrites == (if e.OriginWritten? || e.OriginWriteFailed? then c.ops.originWrites[1..] else c.ops.originWrites)
            && d.ops.clientWrites == (if e.ClientWritten? || e.ClientWriteFailed? then c.ops.clientWrites[1..] else c.ops.clientWrites)
            && (forall b: Buffer :: d.BufferText(b) == c.BufferText(b))
  {
  }

  /** Every step keeps the routing. */
  lemma StepKeepsRouting(cfg: Config, w: World, e: Event)
    requires RoutingInv(w) && Enabled(w.conn, e) && Inv(Step(cfg, w.conn, e))
    ensures RoutingInv(NextWorld(cfg, w, e))
  {
    hide Routed, Shape, Recorded, Handle, Inv, Enabled, Step;
    if e.TimerExpires? || e.TimeoutRuns? || !Live(w.conn) {
      EndedRoutes(cfg, w, e);
    } else if w.conn.ctx.state == TunnelTransfer {
      TunnelRoutes(cfg, w, e);
    } else {
      match e {
        case ClientRead(_) => ReadRoutes(cfg, w, e);
        case OriginRead(_) => ReadRoutes(cfg, w, e);
        case ClientWritten(n) => ClientWrittenRoutes(cfg, w, n);
        case OriginWritten(n) => OriginWrittenRoutes(cfg, w, n);
        case Resolved(_) => ReachingRoutes(cfg, w, e);
        case ResolveFailed => ReachingRoutes(cfg, w, e);
        case Connected => ReachingRoutes(cfg, w, e);
        case ConnectFailed => ReachingRoutes(cfg, w, e);
        case _ => FailureRoutes(cfg, w, e);
      }
    }
  }
}
