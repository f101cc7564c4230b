/** That the proxy serves: with a client, a resolver and an origin that do their part,
    a request is answered in six events, and the connection is ready for the next. */
module ProxyService {
  import opened Text
  import opened ChunkChecker
  import opened HeaderMap
  import opened HeaderParser
  import opened HeadPrinter
  import opened ProxyContext
  import opened ProxyMachine
  import opened ProxyInvariants
  import opened ProxyStreams
  import opened ProxyFraming
  import opened ProxyExchange
  import opened ProxyRuns
  import opened ProxySession
  import ChunkGrammar

  // ---------------------------------------------------------------- what is forwarded

  /** The responses the proxy passes on, given the body bytes that came with the head. */
  predicate MayForward(verb: string, h: ResponseHead, body: string) {
    && (h.httpVersion == "1.1" || h.httpVersion == "1.0") && 100 <= h.statusCode <= 700
    && (var connection := Lookup(h.headers, "Connection");
        connection.None? || Lower(connection.value) in {"close", "keep-alive"})
    && ResponseLength(verb, h).Some?
    && (ResponseLength(verb, h) == Some(Chunked) ==> !Feed(FRESH, body).IsFail())
  }

  lemma JudgedLengthIff(verb: string, h: ResponseHead, reset: ResponseContext, body: string)
    requires reset == ResponseContext(OriginKeepAlive(h), None, 0, None)
    ensures JudgeLength(verb, h, reset, body).Forward? <==>
              && ResponseLength(verb, h).Some?
              && (ResponseLength(verb, h) == Some(Chunked) ==> !Feed(FRESH, body).IsFail())
  {
    hide Lookup, Stoull, Lower, Feed, OriginKeepAlive;
  }

  /** A response goes on exactly if it may. */
  lemma ForwardedIffMayForward(verb: string, h: ResponseHead, context: ResponseContext, body: string)
    ensures JudgeResponse(verb, h, context, body).Forward? <==> MayForward(verb, h, body)
  {
    hide Lookup, JudgeLength, Lower, Feed, ResponseLength;
    JudgedLengthIff(verb, h, ResponseContext(OriginKeepAlive(h), None, 0, None), body);
  }

  // ------------------------------------------------------------------ the six events

  /** The head of a request to be forwarded, with what comes behind it in one read. */
  predicate HeadInOneRead(cfg: Config, x: string) {
    && 1 <= |x| <= BUFFER_LENGTH && RequestIn(x) && MayPass(cfg, RequestOf(x)) && RequestOf(x).verb != CONNECT
  }

  /** A client's whole request, with its body if it has one, in one read. */
  predicate WholeRequest(cfg: Config, x: string) {
    HeadInOneRead(cfg, x) && WholeLength(x) && ClientKeepAlive(RequestOf(x))
  }

  /** What comes with the head is all the body. */
  predicate WholeLength(x: string)
    requires RequestIn(x)
  {
    RequestLength(RequestOf(x)).Some? && RequestLength(RequestOf(x)).value <= |BodyOf(x)|
  }

  /** The origin's whole answer to it, in one read. */
  ghost predicate WholeResponse(verb: string, y: string) {
    && 1 <= |y| <= BUFFER_LENGTH && ResponseIn(y) && MayForward(verb, ResponseOf(y), BodyOf(y))
    && match ResponseLength(verb, ResponseOf(y)).value
       case Fixed(n) => n <= |BodyOf(y)|
       case Chunked => ChunkGrammar.IsBody(BodyOf(y))
       case UntilClose => false
  }

  /** A request that may pass is resolved when no socket is open. */
  lemma PassedIsResolved(cfg: Config, c: Conn, extra: nat)
    requires Quiet(c) && c.requestHead.Some? && c.origin.None? && MayPass(cfg, c.requestHead.value)
    requires c.requestHead.value.verb != CONNECT
    ensures var r := c.requestHead.value;
            var j := JudgeRequest(cfg, r, c.req, extra);
            var d := Obey(c, j);
            && !UploadsInChunks(cfg, r) && Live(d) && d.ctx.state == ResolveOriginServerAddress && d.origin.None?
            && d.clientOpen == c.clientOpen && d.requestData == c.requestData && d.requestHead == c.requestHead
            && d.ops.resolves == [Query(r.host, r.port)]
            && d.req == RequestContext(ClientKeepAlive(r), RequestLength(r), if Uploads(r) then extra else 0, None)
  {
    hide JudgeRequest, MayPass, ClientKeepAlive, OnConnect, UploadsInChunks, RequestLength, Uploads;
    PassedIffMayPass(cfg, c.requestHead.value, c.req, extra);
    PassedIsNoTunnel(cfg, c.requestHead.value, c.req, extra);
    ChunkedUploadIff(cfg, c.requestHead.value, c.req, extra);
  }

  lemma PassedIsNoTunnel(cfg: Config, r: RequestHead, context: RequestContext, extra: nat)
    requires r.verb != CONNECT
    ensures !JudgeRequest(cfg, r, context, extra).Tunnel?
  {
    hide Authorized, ClientKeepAlive, Lookup, Stoull, Lower;
  }

  lemma FirstData(cfg: Config, c: Conn, x: string)
    requires Quiet(c) && c.ctx.state == ReadHttpRequestHeader && c.requestData == "" && c.origin.None?
    requires HeadInOneRead(cfg, x)
    ensures var d, r := OnRequestHeadData(cfg, c, x), RequestOf(x);
            && Live(d) && d.ctx.state == ResolveOriginServerAddress && d.origin.None?
            && d.clientOpen == c.clientOpen && d.requestData == x && d.requestHead == Some(r)
            && d.ops.resolves == [Query(r.host, r.port)]
            && Measured(d.req, r, x)
    ensures !AsksChunkedUpload(cfg, c, x)
  {
    hide FindHeadEnd, ParsedRequest, JudgeRequest, MayPass, ClientKeepAlive, Obey, Report, UploadsInChunks, RequestLength,
      Uploads, Wrap64;
    assert "" + x == x;
    var p := FindHeadEnd(x).value + 4;
    var e := c.(requestData := x, requestHead := ParsedRequest(x[..p]));
    PassedIsResolved(cfg, e, |x| - p);
    WrapSmall(|BodyOf(x)|);
  }

  lemma RequestArrives(cfg: Config, c: Conn, x: string)
    requires Expects(c, c.ctx, None) && HeadInOneRead(cfg, x)
    ensures Enabled(c, ClientRead(x)) && !AsksChunkedUpload(cfg, c, x)
    ensures var d, r := Step(cfg, c, ClientRead(x)), RequestOf(x);
            && Live(d) && d.ctx.state == ResolveOriginServerAddress && d.origin.None? && d.clientOpen
            && d.ops.resolves == [Query(r.host, r.port)]
            && d.requestData == x && d.requestHead == Some(r)
            && Measured(d.req, r, x)
  {
    hide FindHeadEnd, HeadInOneRead, OnRequestHeadData, AsksChunkedUpload, OnOriginData, OnClientWritten, OnOriginWritten,
      OnResolved, OnConnect, OnError, RequestIn, RequestOf, Measured;
    HeadIsRead(cfg, x);
    ExpectingReads(c);
    CompletedIsQuiet(c, ClientRead(x));
    var d := Completed(c, ClientRead(x)).(waits := 0);
    FirstData(cfg, d.(upWrite := d.upRead), x);
    SameRequestSoFar(cfg, c, d.(upWrite := d.upRead), x);
  }

  lemma HeadIsRead(cfg: Config, x: string)
    requires HeadInOneRead(cfg, x)
    ensures 1 <= |x| <= BUFFER_LENGTH && RequestIn(x) && RequestOf(x).verb != CONNECT
    ensures RequestLength(RequestOf(x)).Some?
  {
    hide RequestIn, RequestOf, Authorized, RequestLength;
  }

  lemma WholeIsRead(cfg: Config, x: string)
    requires WholeRequest(cfg, x)
    ensures HeadInOneRead(cfg, x) && RequestIn(x) && RequestOf(x).verb != CONNECT && WholeLength(x)
    ensures forall req | Measured(req, RequestOf(x), x) :: req.keepAlive
  {
    hide RequestIn, RequestOf, MayPass, ClientKeepAlive, BodyOf, Wrap64, RequestLength;
  }

  lemma BodyIsPart(x: string)
    ensures |BodyOf(x)| <= |x|
  {
    hide FindHeadEnd;
  }

  lemma NoUpload(r: RequestHead)
    ensures !Uploads(r) ==> RequestLength(r) == Some(0)
  {
  }

  lemma ExpectingReads(c: Conn)
    requires Expects(c, c.ctx, c.origin)
    ensures c.ops.clientReads == 1
  {
    hide FindHeadEnd;
  }

  lemma AddressIsFound(cfg: Config, c: Conn, p: Endpoint)
    requires Inv(c) && Live(c) && c.ctx.state == ResolveOriginServerAddress && c.origin.None?
    ensures Enabled(c, Resolved([p]))
    ensures var d := Step(cfg, c, Resolved([p]));
            && Live(d) && d.ctx.state == ConnectToOriginServer && d.origin == Some(p)
            && d.requestData == c.requestData && d.requestHead == c.requestHead && d.req == c.req
            && d.clientOpen == c.clientOpen
  {
    hide FindHeadEnd, OnConnect, OnClientData, OnOriginData, OnClientWritten, OnOriginWritten, OnError;
    CompletedIsQuiet(c, Resolved([p]));
  }

  lemma OriginIsReached(cfg: Config, c: Conn)
    requires Inv(c) && Live(c) && c.ctx.state == ConnectToOriginServer && c.requestHead.value.verb != CONNECT
    ensures Enabled(c, Connected)
    ensures var d := Step(cfg, c, Connected);
            && Live(d) && d.ctx.state == WriteHttpRequestHeader && d.origin == c.origin && d.origin.Some?
            && d.ops.originWrites == [OriginWrite(ModifiedRequest, 0, |d.modifiedRequest|, d.origin)]
            && 1 <= |d.modifiedRequest|
            && d.requestData == c.requestData && d.requestHead == Some(Stripped(c.requestHead.value)) && d.req == c.req
            && d.clientOpen == c.clientOpen
  {
    hide FindHeadEnd, Stripped, OnResolved, OnClientData, OnOriginData, OnClientWritten, OnOriginWritten, OnError;
    CompletedIsQuiet(c, Connected);
  }

  /** When all of the head and what came with it is written, the response is awaited, or
      the rest of the body. */
  lemma RequestIsTaken(cfg: Config, c: Conn)
    requires Inv(c) && Live(c) && c.ctx.state == WriteHttpRequestHeader && c.origin.Some?
    requires c.ops.originWrites == [OriginWrite(ModifiedRequest, 0, |c.modifiedRequest|, c.origin)] && 1 <= |c.modifiedRequest|
    requires c.req.contentLength.Some?
    ensures var e := OriginWritten(|c.modifiedRequest|);
            Enabled(c, e)
            && var d := Step(cfg, c, e);
               && Live(d) && d.ctx.state == (if RequestDone(c.req) then ReadHttpResponseHeader else ReadHttpRequestContent)
               && d.origin == c.origin && d.responseData == ""
               && d.requestData == c.requestData && d.requestHead == c.requestHead && d.req == c.req
               && d.clientOpen == c.clientOpen
  {
    hide FindHeadEnd, OnResolved, OnConnect, OnClientData, OnOriginData, OnClientWritten, OnError;
    CompletedIsQuiet(c, OriginWritten(|c.modifiedRequest|));
  }

  lemma FirstResponseData(c: Conn, y: string)
    requires Quiet(c) && c.ctx.state == ReadHttpResponseHeader && c.responseData == "" && c.requestHead.Some?
    requires WholeResponse(c.requestHead.value.verb, y)
    ensures var d := OnResponseHeadData(c, y);
            && Live(d) && d.ctx.state == WriteHttpResponseHeader && d.origin == c.origin
            && d.ops.clientWrites == [ClientWrite(ModifiedResponse, 0, |d.modifiedResponse|)] && 1 <= |d.modifiedResponse|
            && d.requestHead == c.requestHead && d.req == c.req && d.clientOpen == c.clientOpen
            && ResponseDone(d.resp) && d.resp.keepAlive == OriginKeepAlive(ResponseOf(y))
  {
    hide FindHeadEnd, ParsedResponse, JudgeResponse, MayForward, ResponseLength, OriginKeepAlive, NoContent, ResponseText,
      ResponseDone, Feed, ResponseMeasured, ChunkGrammar.IsBody;
    assert "" + y == y;
    var p := FindHeadEnd(y).value + 4;
    var verb, h, body := c.requestHead.value.verb, ResponseOf(y), y[p..];
    ForwardedIffMayForward(verb, h, c.resp, body);
    JudgedResponseMeasures(verb, h, c.resp, body);
    var j := JudgeResponse(verb, h, c.resp, body);
    WholeIsDone(j.context, verb, y);
    TextIsLong(h);
  }

  lemma TextIsLong(h: ResponseHead)
    ensures 1 <= |ResponseText(h)|
  {
  }

  lemma WholeIsDone(resp: ResponseContext, verb: string, y: string)
    requires WholeResponse(verb, y) && ResponseMeasured(resp, verb, ResponseOf(y), BodyOf(y))
    ensures ResponseDone(resp) && resp.keepAlive == OriginKeepAlive(ResponseOf(y))
  {
    hide ResponseIn, ResponseOf, BodyOf, MayForward, ResponseLength, OriginKeepAlive, Feed, Wrap64,
      ChunkGrammar.IsBody;
    BodyIsShorter(y);
    WrapSmall(|BodyOf(y)|);
    ChunkGrammar.CompleteIffBody(BodyOf(y));
    NoContentHasNoLength(verb, ResponseOf(y));
  }

  lemma ResponseArrives(cfg: Config, c: Conn, y: string)
    requires Inv(c) && Live(c) && c.ctx.state == ReadHttpResponseHeader && c.responseData == "" && c.requestHead.Some?
    requires WholeResponse(c.requestHead.value.verb, y)
    ensures Enabled(c, OriginRead(y))
    ensures var d := Step(cfg, c, OriginRead(y));
            && Live(d) && d.ctx.state == WriteHttpResponseHeader && d.origin == c.origin
            && d.ops.clientWrites == [ClientWrite(ModifiedResponse, 0, |d.modifiedResponse|)] && 1 <= |d.modifiedResponse|
            && d.requestHead == c.requestHead && d.req == c.req && d.clientOpen == c.clientOpen
            && ResponseDone(d.resp) && d.resp.keepAlive == OriginKeepAlive(ResponseOf(y))
  {
    hide FindHeadEnd, OnResponseHeadData, OnClientData, OnClientWritten, OnOriginWritten, OnResolved, OnConnect, OnError,
      ResponseDone, OriginKeepAlive, ResponseIn, ResponseOf, WholeResponse;
    WholeResponseIsRead(c.requestHead.value.verb, y);
    AwaitingReads(c);
    CompletedIsQuiet(c, OriginRead(y));
    FirstResponseData(Completed(c, OriginRead(y)).(waits := 0), y);
  }

  lemma WholeResponseIsRead(verb: string, y: string)
    requires WholeResponse(verb, y)
    ensures 1 <= |y| <= BUFFER_LENGTH && ResponseIn(y)
  {
    hide ResponseIn, ResponseOf, BodyOf, MayForward, ResponseLength, ChunkGrammar.IsBody;
  }

  lemma AwaitingReads(c: Conn)
    requires Inv(c) && Live(c) && c.ctx.state == ReadHttpResponseHeader
    ensures c.ops.originReads == 1
  {
    hide FindHeadEnd;
  }

  lemma AnswerIsTaken(cfg: Config, c: Conn)
    requires Inv(c) && Live(c) && c.ctx.state == WriteHttpResponseHeader && c.clientOpen
    requires c.ops.clientWrites == [ClientWrite(ModifiedResponse, 0, |c.modifiedResponse|)] && 1 <= |c.modifiedResponse|
    requires ResponseDone(c.resp) && c.req.keepAlive
    ensures var e := ClientWritten(|c.modifiedResponse|);
            Enabled(c, e)
            && var d := Step(cfg, c, e);
               Expects(d, d.ctx, if c.resp.keepAlive then c.origin else None)
  {
    hide FindHeadEnd, ResponseDone, Turnover, OnResolved, OnConnect, OnClientData, OnOriginData, OnOriginWritten,
      OnError;
    CompletedIsQuiet(c, ClientWritten(|c.modifiedResponse|));
    var d := Completed(c, ClientWritten(|c.modifiedResponse|)).(waits := 0);
    TurnoverExpects(if c.resp.keepAlive then d else CloseOrigin(d));
  }

  // ------------------------------------------------------------------ putting together

  lemma RunCons(cfg: Config, w: World, e: Event, rest: seq<Event>)
    requires Enabled(w.conn, e) && Possible(cfg, Step(cfg, w.conn, e), rest)
    requires NoChunkedUpload(cfg, Step(cfg, w.conn, e), rest)
    requires !(Live(w.conn) && e.ClientRead? && AsksChunkedUpload(cfg, w.conn, e.data))
    ensures Possible(cfg, w.conn, [e] + rest) && NoChunkedUpload(cfg, w.conn, [e] + rest)
    ensures AfterWorld(cfg, w, [e] + rest) == AfterWorld(cfg, NextWorld(cfg, w, e), rest)
  {
    hide Enabled, Step, Recorded, AsksChunkedUpload;
    assert ([e] + rest)[0] == e && ([e] + rest)[1..] == rest;
  }

  /** The head comes in one read, the resolver finds an endpoint and the connect
      succeeds. */
  function ConnectRun(x: string, p: Endpoint): seq<Event> {
    [ClientRead(x)] + ([Resolved([p])] + ([Connected] + []))
  }

  /** And the origin takes the rewritten head and what came with it at once. */
  function RequestRun(x: string, p: Endpoint): seq<Event> { ConnectRun(x, p) + ([OriginWritten(|UpImage(x)|)] + []) }

  /** The response comes in one read and the client takes the rewritten response. */
  function ResponseRun(y: string): seq<Event> { [OriginRead(y)] + ([ClientWritten(|DownImage(y)|)] + []) }

  lemma WorldFacts(cfg: Config, w: World)
    requires WorldInv(cfg, w)
    ensures Inv(w.conn) && (Live(w.conn) ==> Streams(w.conn, w.trace))
  {
    hide Inv, Streams;
  }

  /** A step that keeps faith, from one world to the next. */
  lemma GoodStep(cfg: Config, w: World, e: Event)
    requires WorldInv(cfg, w) && Enabled(w.conn, e)
    requires !(Live(w.conn) && e.ClientRead? && AsksChunkedUpload(cfg, w.conn, e.data))
    ensures WorldInv(cfg, NextWorld(cfg, w, e)) && Inv(Step(cfg, w.conn, e))
  {
    hide WorldInv, Inv, Enabled, Step, Recorded, AsksChunkedUpload;
    WorldFacts(cfg, w);
    StepKeepsInv(cfg, w.conn, e);
    StepKeepsWorld(cfg, w, e);
  }

  lemma BeforeMeans(c: Conn, t: Trace)
    requires Streams(c, t)
    ensures c.ctx.state in {ResolveOriginServerAddress, WriteHttpRequestHeader} ==> t.fromClient == c.requestData
    ensures c.ctx.state == WriteHttpRequestHeader ==> c.modifiedRequest == UpImage(t.fromClient)
    ensures c.ctx.state in {ReadHttpRequestContent, ReadHttpResponseHeader} ==> t.toOrigin == UpImage(t.fromClient)
    ensures c.ctx.state == ReadHttpResponseHeader ==> t.fromOrigin == c.responseData && t.toClient == ""
    ensures c.ctx.state == WriteHttpResponseHeader ==> t.toClient + PendingDown(c) == DownImage(t.fromOrigin)
  {
    hide UpImage, DownImage, HeadOf, ResponseIn, PendingUp, PendingDown;
  }

  /** In three events a connection to an endpoint of its host is made for a request, and
      its rewritten head is being written there. */
  lemma HeadGetsThrough(cfg: Config, w: World, x: string, p: Endpoint)
    requires WorldInv(cfg, w) && Expects(w.conn, w.conn.ctx, None) && HeadInOneRead(cfg, x)
    ensures Possible(cfg, w.conn, ConnectRun(x, p)) && NoChunkedUpload(cfg, w.conn, ConnectRun(x, p))
    ensures var v := AfterWorld(cfg, w, ConnectRun(x, p));
            && WorldInv(cfg, v) && v.trace.fromClient == x
            && Live(v.conn) && v.conn.ctx.state == WriteHttpRequestHeader && v.conn.modifiedRequest == UpImage(x)
            && v.conn.ops.originWrites == [OriginWrite(ModifiedRequest, 0, |UpImage(x)|, v.conn.origin)] && UpImage(x) != ""
            && v.conn.origin == Some(p) && v.conn.clientOpen && Measured(v.conn.req, RequestOf(x), x)
            && v.conn.requestHead.Some? && v.conn.requestHead.value.verb == RequestOf(x).verb
  {
    hide WorldInv, Inv, Enabled, Step, Recorded, AsksChunkedUpload, HeadInOneRead, Streams, Expects, UpImage, RequestOf,
      RequestIn, Stripped, Possible, NoChunkedUpload, AfterWorld, Measured;
    HeadIsRead(cfg, x);
    RequestArrives(cfg, w.conn, x);
    GoodStep(cfg, w, ClientRead(x));
    var w1 := NextWorld(cfg, w, ClientRead(x));
    AddressIsFound(cfg, w1.conn, p);
    GoodStep(cfg, w1, Resolved([p]));
    var w2 := NextWorld(cfg, w1, Resolved([p]));
    OriginIsReached(cfg, w2.conn);
    GoodStep(cfg, w2, Connected);
    var w3 := NextWorld(cfg, w2, Connected);
    StrippedVerb(w2.conn);
    WorldFacts(cfg, w3);
    BeforeMeans(w3.conn, w3.trace);
    EmptyRun(cfg, w3);
    RunCons(cfg, w2, Connected, []);
    RunCons(cfg, w1, Resolved([p]), [Connected] + []);
    RunCons(cfg, w, ClientRead(x), [Resolved([p])] + ([Connected] + []));
  }

  /** In a fourth the origin has all that came with the head; if that was the whole
      request, its response is awaited, and else the rest of it. */
  lemma RequestGetsThrough(cfg: Config, w: World, x: string, p: Endpoint)
    requires WorldInv(cfg, w) && Expects(w.conn, w.conn.ctx, None) && HeadInOneRead(cfg, x)
    ensures Possible(cfg, w.conn, RequestRun(x, p)) && NoChunkedUpload(cfg, w.conn, RequestRun(x, p))
    ensures var v := AfterWorld(cfg, w, RequestRun(x, p));
            && WorldInv(cfg, v) && v.trace.toOrigin == UpImage(x) && v.trace.fromClient == x
            && Live(v.conn) && v.conn.responseData == ""
            && v.conn.ctx.state == (if WholeLength(x) then ReadHttpResponseHeader else ReadHttpRequestContent)
            && v.conn.origin == Some(p) && v.conn.clientOpen && Measured(v.conn.req, RequestOf(x), x)
            && v.conn.requestHead.Some? && v.conn.requestHead.value.verb == RequestOf(x).verb
  {
    hide WorldInv, Inv, Enabled, Step, Recorded, AsksChunkedUpload, HeadInOneRead, Streams, Expects, UpImage, RequestOf,
      RequestIn, Possible, NoChunkedUpload, AfterWorld, Measured, ConnectRun, RequestDone, WholeLength;
    HeadIsRead(cfg, x);
    HeadGetsThrough(cfg, w, x, p);
    var v, e := AfterWorld(cfg, w, ConnectRun(x, p)), OriginWritten(|UpImage(x)|);
    WorldFacts(cfg, v);
    MeasuredIsDone(v.conn.req, x);
    RequestIsTaken(cfg, v.conn);
    GoodStep(cfg, v, e);
    var u := NextWorld(cfg, v, e);
    WorldFacts(cfg, u);
    BeforeMeans(u.conn, u.trace);
    RecordedKeepsClient(v.conn, e, u.conn, v.trace);
    EmptyRun(cfg, u);
    RunCons(cfg, v, e, []);
    RunsJoin(cfg, w, ConnectRun(x, p), [e] + []);
  }

  lemma MeasuredIsDone(req: RequestContext, x: string)
    requires RequestIn(x) && Measured(req, RequestOf(x), x) && |x| <= BUFFER_LENGTH && RequestLength(RequestOf(x)).Some?
    ensures req.contentLength.Some? && (RequestDone(req) <==> WholeLength(x))
  {
    hide RequestIn, RequestOf, ClientKeepAlive, BodyOf, Wrap64, RequestLength;
    BodyIsPart(x);
    WrapSmall(|BodyOf(x)|);
    NoUpload(RequestOf(x));
  }

  lemma EmptyRun(cfg: Config, w: World)
    ensures Possible(cfg, w.conn, []) && NoChunkedUpload(cfg, w.conn, []) && AfterWorld(cfg, w, []) == w
  {
  }

  lemma RecordedKeepsClient(c: Conn, e: Event, d: Conn, t: Trace)
    requires Enabled(c, e) && e.OriginWritten? && d.ctx.state in {ReadHttpRequestContent, ReadHttpResponseHeader}
    ensures Recorded(c, e, d, t).fromClient == t.fromClient
  {
  }

  /** In two more the client has the whole rewritten response, and the connection
      expects its next request, with the origin connection the response left open. */
  lemma AnswerGetsBack(cfg: Config, w: World, y: string)
    requires WorldInv(cfg, w) && Live(w.conn) && w.conn.ctx.state == ReadHttpResponseHeader && w.conn.responseData == ""
    requires w.conn.clientOpen && w.conn.req.keepAlive && w.conn.requestHead.Some?
    requires WholeResponse(w.conn.requestHead.value.verb, y)
    ensures Possible(cfg, w.conn, ResponseRun(y)) && NoChunkedUpload(cfg, w.conn, ResponseRun(y))
    ensures var v := AfterWorld(cfg, w, ResponseRun(y)).conn;
            Expects(v, v.ctx, if OriginKeepAlive(ResponseOf(y)) then w.conn.origin else None)
    ensures Enabled(w.conn, OriginRead(y))
    ensures var v := NextWorld(cfg, w, OriginRead(y));
            var e := ClientWritten(|DownImage(y)|);
            && Enabled(v.conn, e) && Carried(v.conn, e, v.trace).toClient == DownImage(y)
            && WorldInv(cfg, v) && Live(v.conn) && v.conn.ctx.state == WriteHttpResponseHeader && LastByte(v.conn, e)
            && v.trace.fromClient == w.trace.fromClient && v.trace.fromOrigin == y
            && AfterWorld(cfg, w, ResponseRun(y)) == NextWorld(cfg, v, e)
  {
    hide WorldInv, Inv, Enabled, Step, Recorded, AsksChunkedUpload, WholeResponse, Streams, Expects, DownImage, ResponseOf,
      ResponseIn, Possible, NoChunkedUpload, AfterWorld, OriginKeepAlive, ResponseDone, Carried, PendingDown, LastByte;
    WholeResponseIsRead(w.conn.requestHead.value.verb, y);
    WorldFacts(cfg, w);
    BeforeMeans(w.conn, w.trace);
    ResponseArrives(cfg, w.conn, y);
    GoodStep(cfg, w, OriginRead(y));
    var v := NextWorld(cfg, w, OriginRead(y));
    WorldFacts(cfg, v);
    BeforeMeans(v.conn, v.trace);
    RecordedReads(w.conn, y, v.conn, w.trace);
    assert "" + y == y;
    assert "" + PendingDown(v.conn) == PendingDown(v.conn);
    WholePending(v.conn);
    var e := ClientWritten(|DownImage(y)|);
    AnswerIsTaken(cfg, v.conn);
    TakesAll(v.conn);
    AllForwarded(v.conn, e, v.trace);
    EmptyRun(cfg, NextWorld(cfg, v, e));
    RunCons(cfg, v, e, []);
    RunCons(cfg, w, OriginRead(y), [e] + []);
  }

  lemma RecordedReads(c: Conn, y: string, d: Conn, t: Trace)
    requires Enabled(c, OriginRead(y)) && Live(c) && d.ctx.state == WriteHttpResponseHeader
    ensures var u := Recorded(c, OriginRead(y), d, t);
            u.fromOrigin == t.fromOrigin + y && u.toClient == t.toClient && u.fromClient == t.fromClient
  {
  }

  lemma WholePending(c: Conn)
    requires c.ops.clientWrites == [ClientWrite(ModifiedResponse, 0, |c.modifiedResponse|)]
    ensures PendingDown(c) == c.modifiedResponse
  {
  }

  lemma TakesAll(c: Conn)
    requires c.ops.clientWrites == [ClientWrite(ModifiedResponse, 0, |c.modifiedResponse|)]
    requires Enabled(c, ClientWritten(|c.modifiedResponse|))
    ensures LastByte(c, ClientWritten(|c.modifiedResponse|))
  {
  }

  /** Six events are enough: on a new connection four bring a whole request to an
      endpoint of its host, a fifth the response, and with the sixth the client has it
      all and the next request is awaited, with the origin connection the response left
      open. */
  lemma ExchangeCompletes(cfg: Config, c: Conn, x: string, y: string, p: Endpoint)
    requires Created(c) && WholeRequest(cfg, x) && WholeResponse(RequestOf(x).verb, y)
    ensures GoodRun(cfg, c, RequestRun(x, p)) && |RequestRun(x, p)| == 4
    ensures Outcome(cfg, c, RequestRun(x, p)).trace.toOrigin == UpImage(x)
    ensures Enabled(Outcome(cfg, c, RequestRun(x, p)).conn, OriginRead(y))
    ensures var w := NextWorld(cfg, Outcome(cfg, c, RequestRun(x, p)), OriginRead(y));
            var e := ClientWritten(|DownImage(y)|);
            Enabled(w.conn, e) && Carried(w.conn, e, w.trace).toClient == DownImage(y)
    ensures var run := RequestRun(x, p) + ResponseRun(y);
            && GoodRun(cfg, c, run) && |run| == 6
            && var d := Outcome(cfg, c, run).conn;
               Expects(d, d.ctx, if OriginKeepAlive(ResponseOf(y)) then Some(p) else None)
  {
    hide WorldInv, Step, Recorded, WholeRequest, WholeResponse, RequestRun, ResponseRun, Possible, NoChunkedUpload,
      AfterWorld, Created, Started, OriginKeepAlive, ResponseOf, RequestOf, Expects, Enabled, Measured, Carried,
      UpImage, DownImage;
    WholeIsRead(cfg, x);
    WholeResponseIsRead(RequestOf(x).verb, y);
    FirstWorldGood(cfg, c);
    StartedExpects(c);
    var w := FirstWorld(c);
    RequestGetsThrough(cfg, w, x, p);
    var v := AfterWorld(cfg, w, RequestRun(x, p));
    AnswerGetsBack(cfg, v, y);
    RunsJoin(cfg, w, RequestRun(x, p), ResponseRun(y));
    RunLengths(x, y, p);
  }

  lemma RunLengths(x: string, y: string, p: Endpoint)
    ensures |RequestRun(x, p)| == 4 && |ResponseRun(y)| == 2
  {
    hide UpImage, DownImage;
  }

  lemma {:induction false} RunsJoin(cfg: Config, w: World, a: seq<Event>, b: seq<Event>)
    requires Possible(cfg, w.conn, a) && NoChunkedUpload(cfg, w.conn, a)
    requires Possible(cfg, AfterWorld(cfg, w, a).conn, b) && NoChunkedUpload(cfg, AfterWorld(cfg, w, a).conn, b)
    ensures Possible(cfg, w.conn, a + b) && NoChunkedUpload(cfg, w.conn, a + b)
    ensures AfterWorld(cfg, w, a + b) == AfterWorld(cfg, AfterWorld(cfg, w, a), b)
    decreases |a|
  {
    hide Enabled, Step, Recorded, AsksChunkedUpload;
    if a == [] {
      assert a + b == b;
    } else {
      assert (a + b)[0] == a[0] && (a + b)[1..] == a[1..] + b;
      RunsJoin(cfg, NextWorld(cfg, w, a[0]), a[1..], b);
    }
  }
}
