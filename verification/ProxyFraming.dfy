/** Where messages end: which requests are let through, how much of a body has been
    counted, and when an exchange turns from request to response and is over. */
module ProxyFraming {
  import opened Text
  import opened ChunkChecker
  import opened HeaderMap
  import opened HeaderParser
  import opened HeadPrinter
  import opened ProxyContext
  import opened ProxyMachine
  import opened ProxyInvariants
  import opened ProxyStreams
  import opened ProxyRouting
  import opened KeepAlive
  import Authentication
  import Base64

  // -------------------------------------------------------------------- requests

  predicate Uploads(r: RequestHead) { r.verb == "POST" || r.verb == "PUT" }

  /** The length a forwarded request says its body has. */
  function RequestLength(r: RequestHead): Option<nat> {
    if Uploads(r) then
      match Lookup(r.headers, "Content-Length")
      case None => None
      case Some(value) => Stoull(value)
    else Some(0)
  }

  /** The requests the proxy passes on or opens a tunnel for. */
  predicate MayPass(cfg: Config, r: RequestHead) {
    && r.verb in {"GET", "HEAD", "POST", "PUT", "DELETE", "CONNECT"}
    && (r.httpVersion == "1.1" || r.httpVersion == "1.0")
    && Authorized(cfg, r)
    && (r.verb != "CONNECT" ==> r.scheme == "http" && RequestLength(r).Some?)
  }

  lemma JudgedUploadIff(r: RequestHead, reset: RequestContext, extra: nat)
    requires Uploads(r)
    ensures var j := JudgeUpload(r, reset, extra);
            && (j.Forward? <==> RequestLength(r).Some?)
            && (j.Forward? ==> j.context == reset.(contentLength := RequestLength(r), hasRead := extra))
            && !j.Tunnel?
  {
    hide Lookup, Stoull, Lower;
  }

  /** A request goes on exactly if it may pass, and is then counted by its length. */
  lemma PassedIffMayPass(cfg: Config, r: RequestHead, context: RequestContext, extra: nat)
    ensures var j := JudgeRequest(cfg, r, context, extra);
            && (j.Forward? || j.Tunnel? <==> MayPass(cfg, r))
            && (j.Tunnel? ==> r.verb == CONNECT)
            && (j.Forward? ==>
                  && r.verb != CONNECT
                  && j.context == RequestContext(ClientKeepAlive(r), RequestLength(r), if Uploads(r) then extra else 0, None))
  {
    hide ClientKeepAlive, Authorized, JudgeUpload, Lookup, Stoull;
    if Uploads(r) {
      JudgedUploadIff(r, RequestContext(ClientKeepAlive(r), None, 0, None), extra);
    }
  }

  /** With authentication on, a request that brings a name and a password in Basic form
      is admitted exactly if that is the last password set for that name. */
  lemma AdmittedIffLastPassword(cfg: Config, history: seq<Authentication.Change>, r: RequestHead,
                                user: Base64.Bytes, password: Base64.Bytes)
    requires cfg == Config(true, Authentication.Table(history)) && Authentication.COLON !in user
    requires Lookup(r.headers, "Proxy-Authorization") == Some(Authentication.Credentials(user, password))
    ensures Authorized(cfg, r) <==> Authentication.LastPassword(history, user, password)
    ensures MayPass(cfg, r) ==> Authentication.LastPassword(history, user, password)
  {
    hide Authentication.Table, Authentication.Verdict, Authentication.LastPassword, Authentication.Credentials,
      Lookup;
    Authentication.AcceptedIffLastPassword(history, user, password);
  }

  /** With authentication on, a request is admitted exactly if it has the field and that
      carries a name with its password. */
  lemma AdmittedIff(cfg: Config, r: RequestHead)
    ensures cfg.enableAuth ==>
              (Authorized(cfg, r) <==>
                 && Lookup(r.headers, "Proxy-Authorization").Some?
                 && Authentication.Carries(cfg.users, Lookup(r.headers, "Proxy-Authorization").value))
    ensures !cfg.enableAuth ==> Authorized(cfg, r)
  {
    hide Lookup, Authentication.Verdict, Authentication.Carries;
    var value := Lookup(r.headers, "Proxy-Authorization");
    Authentication.AcceptedIff(cfg.users, if value.Some? then value.value else "");
  }

  function BodyOf(x: string): string {
    var p := FindHeadEnd(x);
    if p.None? then "" else x[p.value + 4..]
  }

  lemma BodyGrows(x: string, data: string)
    requires FindHeadEnd(x).Some?
    ensures BodyOf(x + data) == BodyOf(x) + data
  {
    hide FindHeadEnd;
    HeadEndOfPrefix(x, x + data);
  }

  /** The program's record of a request whose bytes so far are `x`. */
  ghost predicate Measured(req: RequestContext, r: RequestHead, x: string) {
    req == RequestContext(ClientKeepAlive(r), RequestLength(r), if Uploads(r) then Wrap64(|BodyOf(x)|) else 0, None)
  }

  /** A length that the 64-bit counter passes without wrapping: reads of up to 2048
      bytes go past it by less than that. */
  predicate Countable(length: nat) { length + 2048 <= TWO_64 }

  /** How much of the body has come. `y` is what came up to the read that completed
      the head, and `x` all that has come. */
  ghost predicate Timely(s: ConnectionState, r: RequestHead, y: string, x: string)
    requires RequestLength(r).Some?
  {
    var length, n := RequestLength(r).value, |BodyOf(x)|;
    match s
    case ReadHttpRequestContent => Uploads(r) && (Countable(length) ==> n < length)
    case WriteHttpRequestContent => Uploads(r) && (Countable(length) ==> n < length + BUFFER_LENGTH)
    case ReadHttpResponseHeader => length <= n && (Countable(length) ==> x == y || n < length + BUFFER_LENGTH)
    case WriteHttpResponseHeader => length <= n && (Countable(length) ==> x == y || n < length + BUFFER_LENGTH)
    case ReadHttpResponseContent => length <= n && (Countable(length) ==> x == y || n < length + BUFFER_LENGTH)
    case WriteHttpResponseContent => length <= n && (Countable(length) ==> x == y || n < length + BUFFER_LENGTH)
    case _ => x == y
  }

  ghost predicate SameVerb(c: Conn, r: RequestHead) {
    c.requestHead.Some? && c.requestHead.value.verb == r.verb
  }

  ghost predicate FramedRequest(cfg: Config, c: Conn, t: Trace) {
    && RequestIn(c.requestData) && |c.requestData| < MAX_REQUEST_HEADER_LENGTH + BUFFER_LENGTH
    && var r := RequestOf(c.requestData);
       && MayPass(cfg, r) && SameVerb(c, r) && (c.ctx.state == TunnelTransfer ==> r.verb == CONNECT)
       && (r.verb != CONNECT ==>
             Measured(c.req, r, t.fromClient) && Timely(c.ctx.state, r, c.requestData, t.fromClient))
  }

  // -------------------------------------------------------------------- responses

  datatype BodyLength = Fixed(length: nat) | Chunked | UntilClose

  function OriginKeepAlive(h: ResponseHead): bool {
    match Lookup(h.headers, "Connection")
    case None => h.httpVersion == "1.1"
    case Some(value) => Lower(value) != "close"
  }

  predicate NoContent(verb: string, h: ResponseHead) { verb == "HEAD" || h.statusCode == 204 || h.statusCode == 304 }

  /** How a response says where its body ends. */
  function ResponseLength(verb: string, h: ResponseHead): Option<BodyLength> {
    if NoContent(verb, h) then Some(Fixed(0))
    else
      match Lookup(h.headers, "Content-Length")
      case Some(value) => (match Stoull(value) case None => None case Some(n) => Some(Fixed(n)))
      case None =>
        match Lookup(h.headers, "Transfer-Encoding")
        case Some(value) => if Lower(value) == "chunked" then Some(Chunked) else None
        case None => if OriginKeepAlive(h) then None else Some(UntilClose)
  }

  /** The program's record of a response to `verb` with head `h` and body so far `body`. */
  ghost predicate ResponseMeasured(resp: ResponseContext, verb: string, h: ResponseHead, body: string) {
    && ResponseLength(verb, h).Some?
    && resp.keepAlive == OriginKeepAlive(h)
    && match ResponseLength(verb, h).value
       case Fixed(n) =>
         && resp.contentLength == Some(n) && resp.checker.None?
         && resp.hasRead == (if NoContent(verb, h) then resp.hasRead else Wrap64(|body|))
       case Chunked =>
         resp.contentLength.None? && resp.checker == Some(Feed(FRESH, body)) && !Feed(FRESH, body).IsFail()
       case UntilClose => resp.contentLength.None? && resp.checker.None?
  }

  function ResponseOf(x: string): ResponseHead
    requires ResponseIn(x)
  {
    ParsedResponse(x[..FindHeadEnd(x).value + 4]).value
  }

  lemma JudgedLengthMeasures(verb: string, h: ResponseHead, reset: ResponseContext, body: string)
    requires reset == ResponseContext(OriginKeepAlive(h), None, 0, None) && |body| < TWO_64
    ensures var j := JudgeLength(verb, h, reset, body);
            (j.Forward? || j.Reject?) && (j.Forward? ==> ResponseMeasured(j.context, verb, h, body))
  {
    hide Lookup, Stoull, Lower, Feed, OriginKeepAlive;
  }

  lemma JudgedResponseMeasures(verb: string, h: ResponseHead, context: ResponseContext, body: string)
    requires |body| < TWO_64
    ensures var j := JudgeResponse(verb, h, context, body);
            (j.Forward? || j.Reject?) && (j.Forward? ==> ResponseMeasured(j.context, verb, h, body))
  {
    hide Lookup, JudgeLength, ResponseMeasured, Lower;
    JudgedLengthMeasures(verb, h, ResponseContext(OriginKeepAlive(h), None, 0, None), body);
  }

  /** How much of a body of a given length has come, when the response says one. */
  ghost predicate TimelyResponse(s: ConnectionState, kind: Option<BodyLength>, body: string) {
    && (kind == Some(Chunked) && s == ReadHttpResponseContent ==> !Feed(FRESH, body).IsComplete())
    && (kind.Some? && kind.value.Fixed? && Countable(kind.value.length) ==>
          && (s == ReadHttpResponseContent ==> |body| < kind.value.length)
          && (|body| < kind.value.length + BUFFER_LENGTH || |body| < MAX_RESPONSE_HEADER_LENGTH + BUFFER_LENGTH))
  }

  ghost predicate FramedResponse(c: Conn, t: Trace) {
    && ResponseIn(t.fromOrigin) && c.requestHead.Some? && Understood(ResponseOf(t.fromOrigin))
    && TimelyResponse(c.ctx.state, ResponseLength(c.requestHead.value.verb, ResponseOf(t.fromOrigin)), BodyOf(t.fromOrigin))
    && ResponseMeasured(c.resp, c.requestHead.value.verb, ResponseOf(t.fromOrigin), BodyOf(t.fromOrigin))
  }

  predicate Passed(s: ConnectionState) { s !in {ReadCipherData, ReadHttpRequestHeader, ReportError} }

  predicate Responds(s: ConnectionState) {
    s in {WriteHttpResponseHeader, ReadHttpResponseContent, WriteHttpResponseContent}
  }

  ghost predicate Framed(cfg: Config, c: Conn, t: Trace) {
    && (Passed(c.ctx.state) ==> FramedRequest(cfg, c, t))
    && (Responds(c.ctx.state) ==> FramedResponse(c, t))
  }

  ghost predicate FramingInv(cfg: Config, w: World) {
    StreamsInv(w) && (Live(w.conn) ==> Framed(cfg, w.conn, w.trace))
  }

  // ------------------------------------------------- handlers that leave the record be

  predicate Reaches(s: ConnectionState) {
    s in {ResolveOriginServerAddress, ConnectToOriginServer, WriteHttpRequestHeader, ReportConnectionEstablished, ReportError}
  }

  ghost predicate KeepsRecord(c: Conn, d: Conn) {
    && d.req == c.req && d.requestData == c.requestData && (Live(d) ==> Reaches(d.ctx.state))
    && (c.requestHead.Some? ==> SameVerb(d, c.requestHead.value))
  }

  lemma ReportKeepsRecord(c: Conn, problem: Problem)
    ensures KeepsRecord(c, Report(c, problem))
  {
    hide ProblemPage;
  }

  lemma OnConnectKeepsRecord(c: Conn)
    requires Quiet(c)
    ensures KeepsRecord(c, OnConnect(c))
  {
    hide FindHeadEnd, RequestText, Erase;
  }

  lemma AsyncConnectKeepsRecord(c: Conn)
    requires Quiet(c)
    ensures KeepsRecord(c, AsyncConnect(c))
  {
    hide OnConnect;
    var d := c.(ctx := c.ctx.(reconnectOnError := false));
    if d.requestHead.Some? {
      var e := if d.requestHead.value.verb == CONNECT then CloseOrigin(d) else d;
      OnConnectKeepsRecord(e.(ctx := e.ctx.(reconnectOnError := true)));
    }
  }

  lemma OnResolvedKeepsRecord(c: Conn, endpoints: seq<Endpoint>)
    requires Quiet(c)
    ensures KeepsRecord(c, OnResolved(c, endpoints))
  {
    hide OnConnect;
    if endpoints != [] {
      var d := if c.ctx.originEndpoint == Some(endpoints[0]) then c else CloseOrigin(c);
      OnConnectKeepsRecord(d.(ctx := d.ctx.(reconnectOnError := true)));
    }
  }

  lemma ErrorKeepsRecord(c: Conn)
    requires Quiet(c)
    ensures KeepsRecord(c, OnError(c))
  {
    hide AsyncConnect, Report;
    ReportKeepsRecord(c, ResolveFailure);
    ReportKeepsRecord(c, ConnectFailure);
    AsyncConnectKeepsRecord(CloseOrigin(c));
  }

  /** Until the request has been sent, its framing is that of its first bytes. */
  lemma RecordFrames(cfg: Config, c: Conn, d: Conn, t: Trace, u: Trace)
    requires FramedRequest(cfg, c, t) && KeepsRecord(c, d) && Live(d)
    requires t.fromClient == u.fromClient
    requires RequestOf(c.requestData).verb != CONNECT ==> t.fromClient == c.requestData
    ensures Framed(cfg, d, u)
  {
    hide RequestIn, RequestOf, MayPass, BodyOf, RequestLength, ClientKeepAlive;
  }

  // -------------------------------------------------------------- handler by handler

  lemma RequestHeadDataFrames(cfg: Config, c: Conn, data: string, t: Trace)
    requires Quiet(c) && c.ctx.state == ReadHttpRequestHeader && |data| <= BUFFER_LENGTH
    requires |c.requestData| < MAX_REQUEST_HEADER_LENGTH
    requires t.fromClient == c.requestData + data
    ensures var d := OnRequestHeadData(cfg, c, data); Live(d) ==> Framed(cfg, d, t)
  {
    hide FindHeadEnd, ParsedRequest, JudgeRequest, Obey, Report, BodyOf, FramedRequest;
    var d := c.(requestData := c.requestData + data);
    var p := FindHeadEnd(d.requestData);
    if p.None? {
      ReportKeepsRecord(d, RequestHeaderTooLong);
      ReportStates(d, RequestHeaderTooLong);
    } else {
      var head := ParsedRequest(d.requestData[..p.value + 4]);
      var e := d.(requestHead := head);
      ReportStates(e, BadRequestHeader);
      if head.Some? {
        IsRequestOf(d.requestData);
        ObeyFrames(cfg, e, t);
      }
    }
  }

  lemma ReportStates(c: Conn, problem: Problem)
    ensures Report(c, problem).ctx.state == ReportError
  {
    hide ProblemPage;
  }

  lemma IsRequestOf(x: string)
    requires FindHeadEnd(x).Some? && ParsedRequest(x[..FindHeadEnd(x).value + 4]).Some?
    ensures RequestIn(x) && ParsedRequest(x[..FindHeadEnd(x).value + 4]) == Some(RequestOf(x))
    ensures |x| - (FindHeadEnd(x).value + 4) == |BodyOf(x)| <= |x|
  {
    hide FindHeadEnd, ParsedRequest;
  }

  lemma ObeyFrames(cfg: Config, c: Conn, t: Trace)
    requires Quiet(c) && RequestIn(c.requestData) && c.requestHead == Some(RequestOf(c.requestData))
    requires t.fromClient == c.requestData && |c.requestData| < MAX_REQUEST_HEADER_LENGTH + BUFFER_LENGTH
    requires |BodyOf(c.requestData)| <= |c.requestData|
    ensures var d := Obey(c, JudgeRequest(cfg, c.requestHead.value, c.req, |BodyOf(c.requestData)|));
            Live(d) ==> Framed(cfg, d, t)
  {
    hide JudgeRequest, AsyncConnect, Report, AuthPage, RequestIn, RequestOf, BodyOf, MayPass, ClientKeepAlive,
      RequestLength;
    var r, n := c.requestHead.value, |BodyOf(c.requestData)|;
    PassedIffMayPass(cfg, r, c.req, n);
    var j := JudgeRequest(cfg, r, c.req, n);
    var d := c.(req := j.context);
    AsyncConnectKeepsRecord(d);
    if j.Reject? {
      ReportStates(d, j.problem);
    } else if j.Forward? {
      MayPassHasLength(cfg, r);
      assert Wrap64(n) == n;
    }
  }

  lemma MayPassHasLength(cfg: Config, r: RequestHead)
    requires MayPass(cfg, r) && r.verb != CONNECT
    ensures RequestLength(r).Some?
  {
  }

  /** When a write ends, the counter tells whether the body is all there. */
  lemma TurnsInTime(s: ConnectionState, req: RequestContext, r: RequestHead, y: string, x: string)
    requires RequestLength(r).Some? && Measured(req, r, x) && Timely(s, r, y, x)
    requires s in {WriteHttpRequestHeader, WriteHttpRequestContent} && |y| < TWO_64
    ensures Timely(if RequestDone(req) then ReadHttpResponseHeader else ReadHttpRequestContent, r, y, x)
  {
    hide BodyOf, ClientKeepAlive, Wrap64, Uploads, RequestLength;
    BodyIsShorter(x);
    NoLengthWithoutUpload(r);
    var length, n := RequestLength(r).value, |BodyOf(x)|;
    if Countable(length) || s == WriteHttpRequestHeader {
      WrapSmall(n);
    }
  }

  lemma NoLengthWithoutUpload(r: RequestHead)
    ensures !Uploads(r) ==> RequestLength(r) == Some(0)
  {
  }

  lemma RequestWrittenFrames(cfg: Config, c: Conn, t: Trace)
    requires Quiet(c) && FramedRequest(cfg, c, t) && RequestOf(c.requestData).verb != CONNECT
    requires c.ctx.state in {WriteHttpRequestHeader, WriteHttpRequestContent}
    ensures var d := OnRequestWritten(c); Live(d) ==> Framed(cfg, d, t)
  {
    hide RequestIn, RequestOf, BodyOf, MayPass, ClientKeepAlive, Wrap64, Timely, Measured, RequestDone;
    var r := RequestOf(c.requestData);
    MayPassHasLength(cfg, r);
    TurnsInTime(c.ctx.state, c.req, r, c.requestData, t.fromClient);
  }

  lemma WrapSmall(n: nat)
    requires n < TWO_64
    ensures Wrap64(n) == n
  {
  }

  lemma BodyIsShorter(x: string)
    ensures |BodyOf(x)| <= |x|
  {
    hide FindHeadEnd;
  }

  lemma WrapAdds(a: nat, n: nat)
    ensures Wrap64(Wrap64(a) + n) == Wrap64(a + n)
  {
  }

  /** Content that comes while some was missing goes past the end by less than a read. */
  lemma CountsInTime(req: RequestContext, r: RequestHead, y: string, x: string, more: string)
    requires RequestLength(r).Some? && Measured(req, r, x) && Timely(ReadHttpRequestContent, r, y, x)
    requires |more| <= BUFFER_LENGTH && BodyOf(x + more) == BodyOf(x) + more
    ensures Timely(WriteHttpRequestContent, r, y, x + more)
    ensures Measured(req.(hasRead := Wrap64(req.hasRead + |more|)), r, x + more)
  {
    hide BodyOf, ClientKeepAlive, Wrap64, Uploads, RequestLength;
    WrapAdds(|BodyOf(x)|, |more|);
  }

  lemma RequestContentFrames(cfg: Config, c: Conn, n: nat, t: Trace)
    requires Quiet(c) && FramedRequest(cfg, c, t) && RequestOf(c.requestData).verb != CONNECT
    requires c.requestData <= t.fromClient && c.ctx.state == ReadHttpRequestContent && n <= BUFFER_LENGTH
    ensures var d := OnRequestContent(c, n);
            Live(d) ==> Framed(cfg, d, t.(fromClient := t.fromClient + c.upWrite[..n]))
  {
    hide RequestIn, RequestOf, BodyOf, MayPass, Wrap64, Feed, Timely, Measured;
    var r, more := RequestOf(c.requestData), c.upWrite[..n];
    var x := t.fromClient[|c.requestData|..];
    assert t.fromClient == c.requestData + x;
    HeadEndIn(c.requestData, x);
    BodyGrows(t.fromClient, more);
    MayPassHasLength(cfg, r);
    MeasuredHasLength(c.req, r, t.fromClient);
    CountsInTime(c.req, r, c.requestData, t.fromClient, more);
  }

  lemma MeasuredHasLength(req: RequestContext, r: RequestHead, x: string)
    requires Measured(req, r, x) && RequestLength(r).Some?
    ensures req.contentLength.Some?
  {
    hide BodyOf, ClientKeepAlive, Wrap64, RequestLength;
  }

  lemma HeadEndIn(x: string, more: string)
    requires RequestIn(x)
    ensures FindHeadEnd(x + more).Some?
  {
    hide FindHeadEnd, ParsedRequest;
    HeadEndOfPrefix(x, x + more);
  }

  lemma ResponseHeadDataFrames(cfg: Config, c: Conn, data: string, t: Trace)
    requires Quiet(c) && c.ctx.state == ReadHttpResponseHeader && |data| <= BUFFER_LENGTH
    requires |c.responseData| < MAX_RESPONSE_HEADER_LENGTH && FramedRequest(cfg, c, t)
    requires t.fromOrigin == c.responseData
    ensures var d := OnResponseHeadData(c, data);
            Live(d) ==> Framed(cfg, d, t.(fromOrigin := t.fromOrigin + data))
  {
    hide FindHeadEnd, ParsedResponse, JudgeResponse, Report, AsyncWriteResponseHeader, BodyOf, FramedResponse,
      FramedRequest;
    var d := c.(responseData := c.responseData + data);
    var u := t.(fromOrigin := d.responseData);
    var p := FindHeadEnd(d.responseData);
    if p.None? {
      ReportStates(d, ResponseHeaderTooLong);
      SameFramedRequest(cfg, c, AsyncReadOrigin(d), t, u);
    } else {
      var head := ParsedResponse(d.responseData[..p.value + 4]);
      var e := d.(responseHead := head);
      ReportStates(e, BadResponseHeader);
      if head.Some? && e.requestHead.Some? {
        ResponseHeadFrames(cfg, c, e, t, u);
      }
    }
  }

  lemma ResponseHeadFrames(cfg: Config, c: Conn, e: Conn, t: Trace, u: Trace)
    requires Quiet(e) && e.ctx == c.ctx && c.ctx.state == ReadHttpResponseHeader && FramedRequest(cfg, c, t)
    requires e.requestHead.Some? && e.requestHead == c.requestHead && e.req == c.req && e.requestData == c.requestData
    requires u == t.(fromOrigin := e.responseData) && |e.responseData| < MAX_RESPONSE_HEADER_LENGTH + BUFFER_LENGTH
    requires FindHeadEnd(e.responseData).Some? && e.responseHead.Some?
    requires ParsedResponse(e.responseData[..FindHeadEnd(e.responseData).value + 4]) == e.responseHead
    ensures var p := FindHeadEnd(e.responseData).value;
            var d := ObeyResponse(e, JudgeResponse(e.requestHead.value.verb, e.responseHead.value, e.resp, e.responseData[p + 4..]));
            Live(d) ==> Framed(cfg, d, u)
  {
    hide FindHeadEnd, ParsedResponse, JudgeResponse, Report, ResponseText, FramedRequest, ResponseMeasured, Understood,
      OriginStays;
    AnswerStays(e.requestHead.value.verb, e.responseHead.value, e.resp, e.responseData[FindHeadEnd(e.responseData).value + 4..]);
    var body := e.responseData[FindHeadEnd(e.responseData).value + 4..];
    JudgedResponseMeasures(e.requestHead.value.verb, e.responseHead.value, e.resp, body);
    var j := JudgeResponse(e.requestHead.value.verb, e.responseHead.value, e.resp, body);
    var d := ObeyResponse(e, j);
    if j.Reject? {
      ReportStates(e.(resp := j.context), j.problem);
    } else {
      SameFramedRequest(cfg, c, d, t, u);
    }
  }

  /** Once the response is awaited, the request's framing is settled. */
  lemma SameFramedRequest(cfg: Config, c: Conn, d: Conn, t: Trace, u: Trace)
    requires FramedRequest(cfg, c, t) && t.fromClient == u.fromClient
    requires d.req == c.req && d.requestData == c.requestData && d.requestHead == c.requestHead
    requires d.ctx.state == c.ctx.state
          || (c.ctx.state in {ReadHttpResponseHeader, WriteHttpResponseHeader, ReadHttpResponseContent, WriteHttpResponseContent}
              && d.ctx.state in {ReadHttpResponseHeader, WriteHttpResponseHeader, ReadHttpResponseContent, WriteHttpResponseContent})
    ensures FramedRequest(cfg, d, u)
  {
    hide RequestIn, RequestOf, BodyOf, MayPass, Measured;
  }

  lemma TimelyMore(kind: Option<BodyLength>, body: string, x: string)
    requires TimelyResponse(ReadHttpResponseContent, kind, body) && |x| <= BUFFER_LENGTH
    ensures TimelyResponse(WriteHttpResponseContent, kind, body + x)
  {
  }

  /** Content that is written on is counted or checked first. */
  lemma ContentMeasures(c: Conn, n: nat, verb: string, h: ResponseHead, body: string)
    requires Quiet(c) && n <= BUFFER_LENGTH && ResponseMeasured(c.resp, verb, h, body)
    ensures var d := OnResponseContent(c, n);
            Live(d) ==>
              && ResponseMeasured(d.resp, verb, h, body + c.downRead[..n])
              && d.ctx.state == WriteHttpResponseContent
              && d.req == c.req && d.requestData == c.requestData && d.requestHead == c.requestHead
  {
    hide Wrap64, Feed, ResponseLength, OriginKeepAlive, NoContent;
    WrapAdds(|body|, n);
    FeedConcat(FRESH, body, c.downRead[..n]);
  }

  lemma ResponseContentFrames(cfg: Config, c: Conn, n: nat, t: Trace)
    requires Quiet(c) && FramedRequest(cfg, c, t) && FramedResponse(c, t)
    requires c.ctx.state == ReadHttpResponseContent && n <= BUFFER_LENGTH
    ensures var d := OnResponseContent(c, n);
            Live(d) ==> Framed(cfg, d, t.(fromOrigin := t.fromOrigin + c.downRead[..n]))
  {
    hide FramedRequest, OnResponseContent, ResponseMeasured, ResponseIn, ResponseOf, BodyOf, Understood,
      TimelyResponse;
    var x, verb, h := c.downRead[..n], c.requestHead.value.verb, ResponseOf(t.fromOrigin);
    var u := t.(fromOrigin := t.fromOrigin + x);
    ResponseStays(t.fromOrigin, x);
    TimelyMore(ResponseLength(verb, h), BodyOf(t.fromOrigin), x);
    ContentMeasures(c, n, verb, h, BodyOf(t.fromOrigin));
    var d := OnResponseContent(c, n);
    if Live(d) {
      SameFramedRequest(cfg, c, d, t, u);
    }
  }

  lemma ResponseStays(x: string, data: string)
    requires ResponseIn(x)
    ensures ResponseIn(x + data) && ResponseOf(x + data) == ResponseOf(x) && BodyOf(x + data) == BodyOf(x) + data
  {
    hide FindHeadEnd, ParsedResponse;
    HeadEndOfPrefix(x, x + data);
    var n := FindHeadEnd(x).value + 4;
    assert (x + data)[..n] == x[..n];
    assert (x + data)[n..] == x[n..] + data;
  }

  /** A response that is not done is missing content. */
  lemma NotDoneInTime(s: ConnectionState, resp: ResponseContext, verb: string, h: ResponseHead, body: string)
    requires ResponseMeasured(resp, verb, h, body) && TimelyResponse(s, ResponseLength(verb, h), body)
    requires !ResponseDone(resp)
    ensures TimelyResponse(ReadHttpResponseContent, ResponseLength(verb, h), body)
  {
    hide Lookup, OriginKeepAlive, Stoull, Feed, Wrap64, Lower;
    if |body| < TWO_64 {
      WrapSmall(|body|);
    }
  }

  lemma ResponseWrittenFrames(cfg: Config, c: Conn, t: Trace)
    requires Quiet(c) && FramedRequest(cfg, c, t) && FramedResponse(c, t)
    requires c.ctx.state in {WriteHttpResponseHeader, WriteHttpResponseContent}
    ensures var d := OnResponseWritten(c); Live(d) ==> Framed(cfg, d, t)
  {
    hide FramedRequest, ResponseDone, ResponseMeasured, TimelyResponse, ResponseIn, ResponseOf, BodyOf,
      ResponseLength;
    var d := OnResponseWritten(c);
    if Live(d) && d.ctx.state == ReadHttpResponseContent {
      SameFramedRequest(cfg, c, d, t, t);
      ReadingOnMeansNotDone(c);
      NotDoneInTime(c.ctx.state, c.resp, c.requestHead.value.verb, ResponseOf(t.fromOrigin), BodyOf(t.fromOrigin));
    }
  }

  lemma ReadingOnMeansNotDone(c: Conn)
    requires Quiet(c) && c.ctx.state in {WriteHttpResponseHeader, WriteHttpResponseContent}
    ensures OnResponseWritten(c).ctx.state == ReadHttpResponseContent <==> !ResponseDone(c.resp)
  {
    hide ResponseDone;
  }

  // --------------------------------------------------------------------------- steps

  lemma ServingFacts(cfg: Config, c: Conn, t: Trace)
    requires Inv(c) && Live(c) && Streams(c, t) && Framed(cfg, c, t) && Passed(c.ctx.state)
    ensures FramedRequest(cfg, c, t)
    ensures c.ctx.state != TunnelTransfer ==> HeadOf(c, t)
    ensures c.requestHead.Some? && c.requestHead.value.verb == RequestOf(c.requestData).verb
    ensures c.ctx.state !in {TunnelTransfer, ReportConnectionEstablished, ResolveOriginServerAddress, ConnectToOriginServer} ==>
              RequestOf(c.requestData).verb != CONNECT
    ensures c.ctx.state in {ResolveOriginServerAddress, ConnectToOriginServer, WriteHttpRequestHeader} ==>
              t.fromClient == c.requestData
    ensures c.ctx.state in {ReportConnectionEstablished, TunnelTransfer} ==> c.requestHead.value.verb == CONNECT
    ensures Responds(c.ctx.state) ==> FramedResponse(c, t)
  {
    hide FindHeadEnd, RequestIn, RequestOf, UpImage, DownImage, ResponseIn, FramedResponse, PendingUp, PendingDown,
      MayPass, Measured, Timely;
  }

  lemma ReadingFacts(c: Conn, t: Trace)
    requires Inv(c) && Live(c) && Streams(c, t)
    ensures c.ctx.state == ReadHttpRequestHeader ==>
              t.fromClient == c.requestData && |c.requestData| < MAX_REQUEST_HEADER_LENGTH
    ensures c.ctx.state == ReadHttpResponseHeader ==>
              t.fromOrigin == c.responseData && |c.responseData| < MAX_RESPONSE_HEADER_LENGTH
  {
    hide FindHeadEnd, UpDone;
  }

  /** The framing depends on the record and what has been received. */
  lemma SameFramed(cfg: Config, c: Conn, d: Conn, t: Trace, u: Trace)
    requires d.ctx.state == c.ctx.state && d.req == c.req && d.resp == c.resp
    requires d.requestData == c.requestData && d.requestHead == c.requestHead
    requires t.fromClient == u.fromClient && t.fromOrigin == u.fromOrigin
    ensures Framed(cfg, c, t) == Framed(cfg, d, u)
  {
    hide RequestIn, RequestOf, BodyOf, MayPass, Measured, Timely, ResponseMeasured, ResponseOf, ResponseIn;
  }

  lemma ReadFrames(cfg: Config, w: World, e: Event)
    requires FramingInv(cfg, w) && Live(w.conn) && Enabled(w.conn, e) && w.conn.ctx.state != TunnelTransfer
    requires e.ClientRead? || e.OriginRead?
    ensures var d := Step(cfg, w.conn, e); Live(d) ==> Framed(cfg, d, Carried(w.conn, e, w.trace))
  {
    hide FindHeadEnd, OnClientData, OnOriginData, Shape, Framed, FramedRequest, FramedResponse, Streams, RequestOf;
    var c, t := w.conn, w.trace;
    CompletedIsQuiet(c, e);
    WhoCompletes(c, e);
    var d := Completed(c, e).(waits := 0);
    ReadingFacts(c, t);
    if Passed(c.ctx.state) {
      ServingFacts(cfg, c, t);
      SameFramed(cfg, c, d, t, t);
      FramedMeans(cfg, d, t);
    }
    if e.ClientRead? {
      ClientDataFrames(cfg, d, e.data, t);
    } else {
      OriginDataFrames(cfg, d, e.data, t);
    }
  }

  lemma FramedMeans(cfg: Config, c: Conn, t: Trace)
    requires Framed(cfg, c, t)
    ensures Passed(c.ctx.state) ==> FramedRequest(cfg, c, t)
    ensures Responds(c.ctx.state) ==> FramedResponse(c, t)
  {
    hide FramedRequest, FramedResponse;
  }

  lemma ClientDataFrames(cfg: Config, c: Conn, data: string, t: Trace)
    requires Quiet(c) && 1 <= |data| <= BUFFER_LENGTH && c.upRead[..|data|] == data
    requires c.ctx.state in {ReadHttpRequestHeader, ReadHttpRequestContent}
    requires c.ctx.state == ReadHttpRequestHeader ==>
               t.fromClient == c.requestData && |c.requestData| < MAX_REQUEST_HEADER_LENGTH
    requires c.ctx.state == ReadHttpRequestContent ==>
               FramedRequest(cfg, c, t) && HeadOf(c, t) && RequestOf(c.requestData).verb != CONNECT
    ensures var d := OnClientData(cfg, c, |data|); Live(d) ==> Framed(cfg, d, t.(fromClient := t.fromClient + data))
  {
    hide OnRequestHeadData, OnRequestContent, Framed, RequestOf, RequestIn, BodyOf, MayPass, Measured, Timely;
    var d := c.(upWrite := c.upRead);
    if c.ctx.state == ReadHttpRequestHeader {
      RequestHeadDataFrames(cfg, d, data, t.(fromClient := t.fromClient + data));
    } else {
      RequestContentFrames(cfg, d, |data|, t);
    }
  }

  lemma OriginDataFrames(cfg: Config, c: Conn, data: string, t: Trace)
    requires Quiet(c) && 1 <= |data| <= BUFFER_LENGTH && c.downRead[..|data|] == data
    requires c.ctx.state in {ReadHttpResponseHeader, ReadHttpResponseContent} && FramedRequest(cfg, c, t)
    requires c.ctx.state == ReadHttpResponseHeader ==>
               t.fromOrigin == c.responseData && |c.responseData| < MAX_RESPONSE_HEADER_LENGTH
    requires c.ctx.state == ReadHttpResponseContent ==> FramedResponse(c, t)
    ensures var d := OnOriginData(c, |data|); Live(d) ==> Framed(cfg, d, t.(fromOrigin := t.fromOrigin + data))
  {
    hide OnResponseHeadData, OnResponseContent, Framed, FramedRequest, FramedResponse;
    if c.ctx.state == ReadHttpResponseHeader {
      ResponseHeadDataFrames(cfg, c, data, t);
    } else {
      ResponseContentFrames(cfg, c, |data|, t);
    }
  }

  lemma OriginWrittenFrames(cfg: Config, w: World, e: Event)
    requires FramingInv(cfg, w) && Live(w.conn) && Enabled(w.conn, e) && w.conn.ctx.state != TunnelTransfer
    requires e.OriginWritten?
    ensures var d := Step(cfg, w.conn, e); Live(d) ==> Framed(cfg, d, w.trace)
  {
    hide FindHeadEnd, OnRequestWritten, Shape, Framed, FramedRequest, FramedResponse, Streams, RequestOf,
      OnClientData, OnOriginData, OnClientWritten, OnResolved, OnConnect, OnError;
    var c, t := w.conn, w.trace;
    CompletedIsQuiet(c, e);
    WhoCompletes(c, e);
    ServingFacts(cfg, c, t);
    var d := Completed(c, e).(waits := 0);
    var g := d.(ctx := d.ctx.(reconnectOnError := false));
    SameFramed(cfg, c, g, t, t);
    FramedMeans(cfg, g, t);
    if e.n < c.ops.originWrites[0].size {
      SameFramed(cfg, c, Step(cfg, c, e), t, t);
    } else {
      RequestWrittenFrames(cfg, g, t);
    }
  }

  lemma ClientWrittenFrames(cfg: Config, w: World, e: Event)
    requires FramingInv(cfg, w) && Live(w.conn) && Enabled(w.conn, e) && w.conn.ctx.state != TunnelTransfer
    requires e.ClientWritten?
    ensures var d := Step(cfg, w.conn, e); Live(d) ==> Framed(cfg, d, w.trace)
  {
    hide FindHeadEnd, OnResponseWritten, Shape, Framed, FramedRequest, FramedResponse, Streams, RequestOf,
      EndpointKnown, BuffersSized, OnClientData, OnOriginData, OnOriginWritten, OnResolved, OnConnect, OnError;
    var c, t := w.conn, w.trace;
    CompletedIsQuiet(c, e);
    WhoCompletes(c, e);
    var d := Completed(c, e).(waits := 0);
    var f := Step(cfg, c, e);
    SameFramed(cfg, c, d, t, t);
    FramedMeans(cfg, d, t);
    if e.n < c.ops.clientWrites[0].size {
      SameFramed(cfg, c, f, t, t);
    } else if Responds(c.ctx.state) {
      ResponseWrittenFrames(cfg, d, t);
    } else if c.ctx.state == ReportConnectionEstablished {
      ServingFacts(cfg, c, t);
      TunnelFramed(cfg, c, f, t, t);
    }
  }

  /** In the tunnel it only counts that the CONNECT was let through. */
  lemma TunnelFramed(cfg: Config, c: Conn, d: Conn, t: Trace, u: Trace)
    requires FramedRequest(cfg, c, t) && RequestOf(c.requestData).verb == CONNECT
    requires d.requestData == c.requestData && d.requestHead == c.requestHead
    requires d.ctx.state == TunnelTransfer
    ensures Framed(cfg, d, u)
  {
    hide RequestIn, RequestOf, BodyOf, MayPass, Measured, Timely;
  }

  lemma ReachingFrames(cfg: Config, w: World, e: Event)
    requires FramingInv(cfg, w) && Live(w.conn) && Enabled(w.conn, e) && w.conn.ctx.state != TunnelTransfer
    requires e.Resolved? || e.ResolveFailed? || e.Connected? || e.ConnectFailed?
    ensures var d := Step(cfg, w.conn, e); Live(d) ==> Framed(cfg, d, w.trace)
  {
    hide FindHeadEnd, OnResolved, OnConnect, OnError, Shape, Framed, FramedRequest, FramedResponse, Streams, RequestOf,
      OnClientData, OnOriginData, OnClientWritten, OnOriginWritten, AsyncConnect, Understood;
    var c, t := w.conn, w.trace;
    CompletedIsQuiet(c, e);
    WhoCompletes(c, e);
    ServingFacts(cfg, c, t);
    var d := Completed(c, e).(waits := 0);
    OnConnectKeepsRecord(d);
    ErrorKeepsRecord(d);
    ErrorKeepsRecord(CloseOrigin(d));
    if e.Resolved? {
      OnResolvedKeepsRecord(d, e.endpoints);
    } else if e.ConnectFailed? && |c.ops.connects[0]| > 1 {
      OnResolvedKeepsRecord(CloseOrigin(d), c.ops.connects[0][1..]);
    }
    var f := Step(cfg, c, e);
    assert KeepsRecord(c, f);
    if Live(f) {
      RecordFrames(cfg, c, f, t, t);
    }
  }

  lemma FailureFrames(cfg: Config, w: World, e: Event)
    requires FramingInv(cfg, w) && Live(w.conn) && Enabled(w.conn, e) && w.conn.ctx.state != TunnelTransfer
    requires e.ClientReadFailed? || e.OriginReadFailed? || e.ClientWriteFailed? || e.OriginWriteFailed?
    ensures var d := Step(cfg, w.conn, e); Live(d) ==> Framed(cfg, d, w.trace)
  {
    hide FindHeadEnd, AsyncConnect, Shape, Framed, FramedRequest, Streams, RequestOf, OnClientData, OnOriginData,
      OnClientWritten, OnOriginWritten, OnResolved, OnConnect, Report;
    var c, t := w.conn, w.trace;
    CompletedIsQuiet(c, e);
    WhoCompletes(c, e);
    if TakesRetry(c, e) {
      ServingFacts(cfg, c, t);
      var d := Completed(c, e).(waits := 0);
      AsyncConnectKeepsRecord(CloseOrigin(d));
      var f := Step(cfg, c, e);
      if Live(f) {
        RecordFrames(cfg, c, f, t, t);
      }
    }
  }

  lemma TunnelFrames(cfg: Config, w: World, e: Event)
    requires FramingInv(cfg, w) && Live(w.conn) && Enabled(w.conn, e) && w.conn.ctx.state == TunnelTransfer
    ensures var d := Step(cfg, w.conn, e); Live(d) ==> Framed(cfg, d, Carried(w.conn, e, w.trace))
  {
    hide FindHeadEnd, Shape, Streams, Framed, FramedRequest, RequestOf, OnRequestHeadData, OnRequestContent,
      OnResponseHeadData, OnResponseContent, OnResponseWritten, OnRequestWritten, OnResolved, OnConnect, AsyncConnect,
      Report;
    var c, t := w.conn, w.trace;
    TunnelMeans(c);
    TunnelHasNoConnects(c);
    ServingFacts(cfg, c, t);
    var d := Step(cfg, c, e);
    if Live(d) {
      TunnelFramed(cfg, c, d, t, Carried(c, e, t));
    }
  }

  /** The streams a step clears are those the framing no longer looks at. */
  lemma RecordedFrames(cfg: Config, c: Conn, e: Event, d: Conn, t: Trace, u: Trace)
    requires Enabled(c, e) && Framed(cfg, d, u)
    requires u.fromClient == Carried(c, e, t).fromClient && u.fromOrigin == Carried(c, e, t).fromOrigin
    ensures Framed(cfg, d, Recorded(c, e, d, t))
  {
    hide Carried, Enabled, RequestIn, RequestOf, BodyOf, MayPass, Measured, Timely, ResponseMeasured, ResponseOf,
      ResponseIn, AnswerBegins;
  }

  lemma CarriedReads(c: Conn, e: Event, t: Trace)
    requires Enabled(c, e) && !e.ClientRead? && !e.OriginRead?
    ensures Carried(c, e, t).fromClient == t.fromClient && Carried(c, e, t).fromOrigin == t.fromOrigin
  {
  }

  /** Every step keeps the framing. */
  lemma StepKeepsFraming(cfg: Config, w: World, e: Event)
    requires FramingInv(cfg, w) && Enabled(w.conn, e) && Inv(Step(cfg, w.conn, e))
    ensures FramingInv(cfg, NextWorld(cfg, w, e))
  {
    hide Streams, Shape, Recorded, Handle, Inv, Enabled, Framed, Carried, Step;
    StepKeepsStreams(cfg, w, e);
    var c, t, d := w.conn, w.trace, Step(cfg, w.conn, e);
    var u := if e.ClientRead? || e.OriginRead? || c.ctx.state == TunnelTransfer then Carried(c, e, t) else t;
    if e.TimerExpires? || e.TimeoutRuns? || !Live(c) {
      NoMoreLife(cfg, c, e);
    } else if c.ctx.state == TunnelTransfer {
      TunnelFrames(cfg, w, e);
    } else {
      match e {
        case ClientRead(_) => ReadFrames(cfg, w, e);
        case OriginRead(_) => ReadFrames(cfg, w, e);
        case ClientWritten(_) => ClientWrittenFrames(cfg, w, e);
        case OriginWritten(_) => OriginWrittenFrames(cfg, w, e);
        case Resolved(_) => ReachingFrames(cfg, w, e);
        case ResolveFailed => ReachingFrames(cfg, w, e);
        case Connected => ReachingFrames(cfg, w, e);
        case ConnectFailed => ReachingFrames(cfg, w, e);
        case _ => FailureFrames(cfg, w, e);
      }
    }
    if Live(d) {
      if !e.ClientRead? && !e.OriginRead? {
        CarriedReads(c, e, t);
      }
      RecordedFrames(cfg, c, e, d, t, u);
    }
  }
}
