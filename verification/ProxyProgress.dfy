/** That every exchange ends: whatever the sizes of reads and writes and however many
    endpoints fail, if client, resolver and origin do their part the request is answered. */
module ProxyProgress {
  import opened Text
  import opened ChunkChecker
  import opened HeaderMap
  import opened HeaderParser
  import opened HeadPrinter
  import opened ProxyContext
  import opened ProxyMachine
  import opened ProxyInvariants
  import opened ProxyStreams
  import opened ProxyRouting
  import opened ProxyConservation
  import opened ProxyFraming
  import opened ProxyExchange
  import opened ProxyRuns
  import opened ProxyService
  import ChunkGrammar

  // ------------------------------------------------------------------------ the play

  /** A connection with its history, what the client has still to send, and what the
      origin has still to send. */
  datatype Play = Play(world: World, client: string, origin: string)

  /** What happens when everybody does their part: the two sides send what they have to,
      in any pieces, and take what they are sent, in any pieces; the resolver finds
      endpoints; of these any may fail but the last; a connection that is used again may
      turn out closed; and the origin closes when it has sent all. */
  predicate Cooperative(p: Play, e: Event) {
    && Enabled(p.world.conn, e)
    && match e
       case ClientRead(data) => data <= p.client
       case OriginRead(data) => data <= p.origin
       case OriginReadFailed => p.origin == "" && p.world.conn.ctx.state == ReadHttpResponseContent
       case ConnectFailed => |p.world.conn.ops.connects[0]| > 1
       case OriginWriteFailed => TakesRetry(p.world.conn, e)
       case ClientWritten(_) => true
       case OriginWritten(_) => true
       case Resolved(_) => true
       case Connected => true
       case _ => false
  }

  function Proceed(cfg: Config, p: Play, e: Event): Play
    requires Cooperative(p, e)
  {
    Play(NextWorld(cfg, p.world, e),
         if e.ClientRead? then p.client[|e.data|..] else p.client,
         if e.OriginRead? then p.origin[|e.data|..] else p.origin)
  }

  // ----------------------------------------------------------------------- the script

  /** A client that sends a head and, if its request is an upload that may pass, as much
      of a body as it says. */
  ghost predicate SendsRequest(cfg: Config, x: string) {
    && FindHeadEnd(x).Some?
    && (RequestIn(x) ==>
          && !UploadsInChunks(cfg, RequestOf(x))
          && (MayPass(cfg, RequestOf(x)) && Uploads(RequestOf(x)) ==>
                Countable(RequestLength(RequestOf(x)).value) && RequestLength(RequestOf(x)).value <= |BodyOf(x)|))
  }

  /** An origin that sends a head and as much of a body as it says. */
  ghost predicate SendsResponse(x: string, y: string) {
    RequestIn(x) ==>
      && FindHeadEnd(y).Some?
      && (ResponseIn(y) ==>
            match ResponseLength(RequestOf(x).verb, ResponseOf(y))
            case Some(Fixed(n)) => Countable(n) && n <= |BodyOf(y)|
            case Some(Chunked) => ChunkGrammar.IsBody(BodyOf(y))
            case _ => true)
  }

  /** Heads within the limit that parse and may go on. */
  ghost predicate WellMade(cfg: Config, x: string, y: string) {
    && FindHeadEnd(x).Some? && FindHeadEnd(x).value + 4 <= MAX_REQUEST_HEADER_LENGTH
    && RequestIn(x) && MayPass(cfg, RequestOf(x))
    && (RequestOf(x).verb != CONNECT ==>
          && FindHeadEnd(y).Some? && FindHeadEnd(y).value + 4 <= MAX_RESPONSE_HEADER_LENGTH
          && ResponseIn(y) && MayForward(RequestOf(x).verb, ResponseOf(y), BodyOf(y)))
  }

  // ---------------------------------------------------------------------- the measure

  /** Whether a connection used again could still turn out closed. */
  function Chances(c: Conn): nat {
    match c.ctx.state
    case ReadHttpRequestHeader => 1
    case ResolveOriginServerAddress => if c.origin.Some? then 1 else 0
    case WriteHttpRequestHeader => if c.ctx.reconnectOnError then 1 else 0
    case _ => 0
  }

  function Stage(s: ConnectionState): nat {
    match s
    case ReadHttpRequestHeader => 9
    case ResolveOriginServerAddress => 8
    case ConnectToOriginServer => 7
    case WriteHttpRequestHeader => 6
    case ReadHttpRequestContent => 5
    case WriteHttpRequestContent => 5
    case ReadHttpResponseHeader => 4
    case WriteHttpResponseHeader => 3
    case ReadHttpResponseContent => 2
    case WriteHttpResponseContent => 2
    case _ => 1
  }

  /** What the operation at hand has still to do. */
  function Left(c: Conn): nat {
    if c.ops.connects != [] then |c.ops.connects[0]|
    else if c.ops.originWrites != [] then c.ops.originWrites[0].size
    else if c.ops.clientWrites != [] then c.ops.clientWrites[0].size
    else 0
  }

  datatype Distance = Distance(chances: nat, stage: nat, unread: nat, left: nat)

  function Remaining(p: Play): Distance {
    Distance(Chances(p.world.conn), Stage(p.world.conn.ctx.state), |p.client| + |p.origin|, Left(p.world.conn))
  }

  predicate Nearer(a: Distance, b: Distance) {
    || a.chances < b.chances
    || (a.chances == b.chances && a.stage < b.stage)
    || (a.chances == b.chances && a.stage == b.stage && a.unread < b.unread)
    || (a.chances == b.chances && a.stage == b.stage && a.unread == b.unread && a.left < b.left)
  }

  /** The step ends the exchange: the connection ends, a tunnel begins, or the next
      request is awaited. */
  predicate Ends(c: Conn, d: Conn) {
    || d.waits != 1 || d.ctx.state == TunnelTransfer
    || (d.ctx.state == ReadHttpRequestHeader && c.ctx.state != ReadHttpRequestHeader)
  }

  /** A step of the connection brings the end nearer, given whether it read something. */
  predicate Advances(c: Conn, d: Conn, read: bool) {
    || Chances(d) < Chances(c)
    || (Chances(d) == Chances(c) && Stage(d.ctx.state) < Stage(c.ctx.state))
    || (Chances(d) == Chances(c) && Stage(d.ctx.state) == Stage(c.ctx.state) && (read || Left(d) < Left(c)))
  }

  /** Past the resolver the origin socket is open, unless a write to it is still to be
      tried, and tried again elsewhere; and what is being written is not nothing. */
  predicate OriginStands(c: Conn) {
    && OriginOpen(c)
    && (c.ops.originWrites != [] ==> 1 <= c.ops.originWrites[0].size)
    && (c.ops.clientWrites != [] ==> 1 <= c.ops.clientWrites[0].size)
  }

  predicate OriginOpen(c: Conn) {
    match c.ctx.state
    case WriteHttpRequestHeader => c.origin.Some? || c.ctx.reconnectOnError
    case ReadHttpRequestContent => c.origin.Some?
    case WriteHttpRequestContent => c.origin.Some?
    case ReadHttpResponseHeader => c.origin.Some?
    case WriteHttpResponseHeader => c.origin.Some?
    case ReadHttpResponseContent => c.origin.Some?
    case WriteHttpResponseContent => c.origin.Some?
    case _ => true
  }

  /** The exchange goes on, nearer to its end, with the origin standing; only what is
      read can lead to a page. */
  predicate GoesOn(c: Conn, d: Conn, read: bool) {
    && !Ends(c, d) && Advances(c, d, read) && OriginStands(d)
    && (d.ctx.state == ReportError ==> read || c.ctx.state == ReportError)
  }

  /** A step goes well if the exchange goes on or ends. */
  predicate GoesWell(c: Conn, d: Conn, read: bool) { Ends(c, d) || GoesOn(c, d, read) }

  // -------------------------------------------------------------- handler by handler

  lemma ReportGoesWell(c: Conn, problem: Problem)
    requires Quiet(c)
    ensures var d := Report(c, problem); Live(d) && d.ctx.state == ReportError && OriginStands(d)
  {
    hide ErrorPage, WordsOf;
    var words := WordsOf(problem);
    PageIsSomething(words.code, words.description, words.message, WithContent(c));
  }

  lemma PageIsSomething(code: string, description: string, message: string, withContent: bool)
    ensures 1 <= |ErrorPage(code, description, message, withContent)| && 1 <= |AuthPage()|
  {
    hide PageContent, ToDecimal, FieldLine;
  }

  lemma HeadIsSomething(r: RequestHead, h: ResponseHead)
    ensures 1 <= |RequestText(r)| && 1 <= |ResponseText(h)|
  {
    hide FieldsText;
  }

  /** A request that is sent leaves the chance of a retry exactly if the flag is set. */
  lemma OnConnectGoesWell(c: Conn)
    requires Quiet(c) && (c.origin.Some? || c.ctx.reconnectOnError)
    ensures var d := OnConnect(c);
            d.fault || (Live(d) && d.ctx.state in {WriteHttpRequestHeader, ReportConnectionEstablished} && OriginStands(d)
                        && Chances(d) <= (if c.ctx.reconnectOnError then 1 else 0))
  {
    hide FindHeadEnd, RequestText, Stripped;
    if c.requestHead.Some? {
      HeadIsSomething(Stripped(c.requestHead.value), ResponseHead("", 0, "", []));
    }
  }

  lemma AsyncConnectGoesWell(c: Conn)
    requires Quiet(c)
    ensures var d := AsyncConnect(c);
            d.fault || (Live(d)
                        && d.ctx.state in {ResolveOriginServerAddress, WriteHttpRequestHeader, ReportConnectionEstablished}
                        && OriginStands(d) && (c.origin.None? ==> d.ctx.state == ResolveOriginServerAddress && Chances(d) == 0))
  {
    hide OnConnect;
    var d := c.(ctx := c.ctx.(reconnectOnError := false));
    if d.requestHead.Some? {
      var e := if d.requestHead.value.verb == CONNECT then CloseOrigin(d) else d;
      OnConnectGoesWell(e.(ctx := e.ctx.(reconnectOnError := true)));
    }
  }

  lemma OnResolvedGoesWell(c: Conn, endpoints: seq<Endpoint>)
    requires Quiet(c) && endpoints != [] && !c.ctx.reconnectOnError
    ensures var d := OnResolved(c, endpoints);
            d.fault || (Live(d) && OriginStands(d) && Chances(d) <= (if c.origin.Some? then 1 else 0)
                        && d.ctx.state in {ConnectToOriginServer, WriteHttpRequestHeader, ReportConnectionEstablished}
                        && (c.origin.None? ==> d.ctx.state == ConnectToOriginServer && d.ops.connects == [endpoints]))
  {
    hide OnConnect;
    var d := if c.ctx.originEndpoint == Some(endpoints[0]) then c else CloseOrigin(c);
    OnConnectGoesWell(d.(ctx := d.ctx.(reconnectOnError := true)));
  }

  lemma ObeyGoesWell(c: Conn, j: Judgement<RequestContext>)
    requires Quiet(c)
    ensures var d := Obey(c, j);
            d.fault || (Live(d) && OriginStands(d)
                        && d.ctx.state in {ReportError, ResolveOriginServerAddress, WriteHttpRequestHeader,
                                                           ReportConnectionEstablished}
                        && (j.Forward? || j.Tunnel? ==> d.ctx.state != ReportError))
  {
    hide AsyncConnect, Report, AuthPage;
    var d := c.(req := j.context);
    AsyncConnectGoesWell(d);
    PageIsSomething("", "", "", true);
    if j.Reject? {
      ReportGoesWell(d, j.problem);
    }
  }

  lemma RequestHeadGoesWell(cfg: Config, c: Conn, data: string)
    requires Quiet(c) && c.ctx.state == ReadHttpRequestHeader
    ensures var d := OnRequestHeadData(cfg, c, data);
            d.fault || (Live(d) && OriginStands(d)
                        && d.ctx.state in {ReadHttpRequestHeader, ReportError, ResolveOriginServerAddress,
                                                           WriteHttpRequestHeader, ReportConnectionEstablished})
  {
    hide FindHeadEnd, ParsedRequest, JudgeRequest, Obey, Report;
    var d := c.(requestData := c.requestData + data);
    var p := FindHeadEnd(d.requestData);
    if p.None? {
      ReportGoesWell(d, RequestHeaderTooLong);
    } else {
      var head := ParsedRequest(d.requestData[..p.value + 4]);
      var e := d.(requestHead := head);
      ReportGoesWell(e, BadRequestHeader);
      if head.Some? {
        ObeyGoesWell(e, JudgeRequest(cfg, head.value, e.req, |d.requestData| - (p.value + 4)));
      }
    }
  }

  lemma ResponseHeadGoesWell(c: Conn, data: string)
    requires Quiet(c) && c.ctx.state == ReadHttpResponseHeader && c.origin.Some?
    ensures var d := OnResponseHeadData(c, data);
            d.fault || (Live(d) && OriginStands(d)
                        && d.ctx.state in {ReadHttpResponseHeader, WriteHttpResponseHeader, ReportError})
  {
    hide FindHeadEnd, ParsedResponse, JudgeResponse, ResponseText, Report;
    var d := c.(responseData := c.responseData + data);
    var p := FindHeadEnd(d.responseData);
    if p.None? {
      ReportGoesWell(d, ResponseHeaderTooLong);
    } else {
      var head := ParsedResponse(d.responseData[..p.value + 4]);
      var e := d.(responseHead := head);
      ReportGoesWell(e, BadResponseHeader);
      if head.Some? && e.requestHead.Some? {
        HeadIsSomething(e.requestHead.value, head.value);
        var j := JudgeResponse(e.requestHead.value.verb, head.value, e.resp, d.responseData[p.value + 4..]);
        if j.Reject? {
          ReportGoesWell(e.(resp := j.context), j.problem);
        }
      }
    }
  }

  // --------------------------------------------------------------------- event by event

  lemma LeftIs(c: Conn)
    requires Inv(c) && Live(c) && c.ctx.state != TunnelTransfer
    ensures c.ops.connects == [] && c.ops.originWrites == [] && c.ops.clientWrites == [] ==> Left(c) == 0
    ensures c.ops.originWrites != [] ==> |c.ops.originWrites| == 1 && Left(c) == c.ops.originWrites[0].size
                                         && c.ops.originWrites[0].peer == c.origin && c.ops.clientWrites == []
    ensures c.ops.clientWrites != [] ==> |c.ops.clientWrites| == 1 && Left(c) == c.ops.clientWrites[0].size
    ensures c.ops.connects != [] ==> |c.ops.connects| == 1 && Left(c) == |c.ops.connects[0]|
    ensures c.ctx.state == ConnectToOriginServer ==> c.origin.Some? && !c.ctx.reconnectOnError
    ensures c.ctx.state == ResolveOriginServerAddress ==> !c.ctx.reconnectOnError
    ensures c.ctx.state == ReadHttpRequestContent ==> c.req.contentLength.Some?
    ensures c.ctx.state != ReadCipherData
  {
    hide FindHeadEnd;
  }

  lemma ReadGoesWell(cfg: Config, c: Conn, e: Event)
    requires Inv(c) && Live(c) && Enabled(c, e) && c.ctx.state != TunnelTransfer && OriginStands(c)
    requires (e.ClientRead? || e.OriginRead?) && Inv(Step(cfg, c, e))
    ensures GoesWell(c, Step(cfg, c, e), true)
  {
    hide FindHeadEnd, OnRequestHeadData, OnResponseHeadData, OnResponseContent, Shape, Wrap64, OnClientWritten,
      OnOriginWritten, OnResolved, OnConnect, OnError;
    CompletedIsQuiet(c, e);
    WhoCompletes(c, e);
    LeftIs(c);
    var d := Completed(c, e).(waits := 0);
    if c.ctx.state == ReadHttpRequestHeader {
      RequestHeadGoesWell(cfg, d.(upWrite := d.upRead), e.data);
    } else if c.ctx.state == ReadHttpResponseHeader {
      ResponseHeadGoesWell(d, e.data);
    } else if c.ctx.state == ReadHttpResponseContent {
      ContentOutcome(d, |e.data|);
      ResponseContentKeeps(d, |e.data|);
    }
  }

  lemma RequestWrittenGoesWell(c: Conn)
    requires Quiet(c) && c.ctx.state in {WriteHttpRequestHeader, WriteHttpRequestContent} && c.origin.Some?
    ensures var d := OnRequestWritten(c);
            d.fault || (Live(d) && d.ctx.state in {ReadHttpRequestContent, ReadHttpResponseHeader} && OriginStands(d)
                        && Left(d) == 0)
  {
    hide RequestDone;
  }

  lemma OriginPartGoesWell(cfg: Config, c: Conn, n: nat)
    requires Inv(c) && Live(c) && Enabled(c, OriginWritten(n)) && c.ctx.state != TunnelTransfer
    requires n < c.ops.originWrites[0].size
    ensures GoesOn(c, Step(cfg, c, OriginWritten(n)), false)
  {
    hide FindHeadEnd, OnRequestWritten, Shape, OnClientData, OnOriginData, OnClientWritten, OnResolved, OnConnect,
      OnError;
    CompletedIsQuiet(c, OriginWritten(n));
    WhoCompletes(c, OriginWritten(n));
    LeftIs(c);
  }

  lemma OriginWrittenGoesWell(cfg: Config, c: Conn, n: nat)
    requires Inv(c) && Live(c) && Enabled(c, OriginWritten(n)) && c.ctx.state != TunnelTransfer
    requires Inv(Step(cfg, c, OriginWritten(n)))
    ensures GoesOn(c, Step(cfg, c, OriginWritten(n)), false)
  {
    hide FindHeadEnd, OnRequestWritten, Shape, OnClientData, OnOriginData, OnClientWritten, OnResolved, OnConnect,
      OnError;
    if n < c.ops.originWrites[0].size {
      OriginPartGoesWell(cfg, c, n);
    } else {
      CompletedIsQuiet(c, OriginWritten(n));
      WhoCompletes(c, OriginWritten(n));
      LeftIs(c);
      var d := Completed(c, OriginWritten(n)).(waits := 0);
      RequestWrittenGoesWell(d.(ctx := d.ctx.(reconnectOnError := false)));
    }
  }

  lemma ResponseWrittenGoesWell(c: Conn)
    requires Quiet(c) && Responds(c.ctx.state) && c.origin.Some?
    ensures var d := OnResponseWritten(c);
            Ends(c, d) || (d.ctx.state == ReadHttpResponseContent && OriginStands(d) && Left(d) == 0)
  {
    hide ResponseDone;
  }

  lemma ClientWrittenGoesWell(cfg: Config, c: Conn, n: nat)
    requires Inv(c) && Live(c) && Enabled(c, ClientWritten(n)) && c.ctx.state != TunnelTransfer && OriginStands(c)
    ensures GoesWell(c, Step(cfg, c, ClientWritten(n)), false)
  {
    hide FindHeadEnd, OnResponseWritten, Shape, OnClientData, OnOriginData, OnOriginWritten, OnResolved, OnConnect,
      OnError;
    var e := ClientWritten(n);
    CompletedIsQuiet(c, e);
    WhoCompletes(c, e);
    LeftIs(c);
    if Responds(c.ctx.state) {
      ResponseWrittenGoesWell(Completed(c, e).(waits := 0));
    }
  }

  lemma ReachingGoesWell(cfg: Config, c: Conn, e: Event)
    requires Inv(c) && Live(c) && Enabled(c, e) && c.ctx.state != TunnelTransfer
    requires e.Resolved? || e.Connected? || (e.ConnectFailed? && |c.ops.connects[0]| > 1)
    requires Inv(Step(cfg, c, e))
    ensures GoesOn(c, Step(cfg, c, e), false)
  {
    hide FindHeadEnd, Shape, OnClientData, OnOriginData, OnClientWritten, OnOriginWritten, OnResolved, OnConnect,
      OnError;
    CompletedIsQuiet(c, e);
    WhoCompletes(c, e);
    LeftIs(c);
    var d := Completed(c, e).(waits := 0);
    match e {
      case Resolved(endpoints) => OnResolvedGoesWell(d, endpoints);
      case Connected => OnConnectGoesWell(d);
      case ConnectFailed => OnResolvedGoesWell(CloseOrigin(d), c.ops.connects[0][1..]);
    }
  }

  lemma RetryGoesWell(cfg: Config, c: Conn)
    requires Inv(c) && Live(c) && Enabled(c, OriginWriteFailed) && TakesRetry(c, OriginWriteFailed)
    requires Inv(Step(cfg, c, OriginWriteFailed))
    ensures GoesOn(c, Step(cfg, c, OriginWriteFailed), false)
  {
    hide FindHeadEnd, Shape, AsyncConnect;
    CompletedIsQuiet(c, OriginWriteFailed);
    AsyncConnectGoesWell(CloseOrigin(Completed(c, OriginWriteFailed).(waits := 0)));
  }

  lemma CloseEnds(cfg: Config, c: Conn)
    requires Inv(c) && Live(c) && Enabled(c, OriginReadFailed) && c.ctx.state == ReadHttpResponseContent
    ensures !Live(Step(cfg, c, OriginReadFailed))
  {
    hide FindHeadEnd, Shape, AsyncConnect, Report;
    CompletedIsQuiet(c, OriginReadFailed);
  }

  lemma StepGoesWell(cfg: Config, p: Play, e: Event)
    requires var c := p.world.conn;
             Inv(c) && Live(c) && c.ctx.state != TunnelTransfer && OriginStands(c)
    requires Cooperative(p, e) && Inv(Step(cfg, p.world.conn, e))
    ensures var d := Step(cfg, p.world.conn, e);
            && GoesWell(p.world.conn, d, e.ClientRead? || e.OriginRead?)
            && (Ends(p.world.conn, d) ==> e.ClientRead? || e.OriginRead? || e.ClientWritten? || e.OriginReadFailed?)
  {
    hide Inv, Shape, Step, GoesOn, OriginStands, Enabled, Ends;
    var c := p.world.conn;
    GoingOnIsNoEnd(c, Step(cfg, c, e), false);
    match e {
      case ClientRead(_) => ReadGoesWell(cfg, c, e);
      case OriginRead(_) => ReadGoesWell(cfg, c, e);
      case ClientWritten(n) => ClientWrittenGoesWell(cfg, c, n);
      case OriginWritten(n) => OriginWrittenGoesWell(cfg, c, n);
      case Resolved(_) => ReachingGoesWell(cfg, c, e);
      case Connected => ReachingGoesWell(cfg, c, e);
      case ConnectFailed => ReachingGoesWell(cfg, c, e);
      case OriginWriteFailed => RetryGoesWell(cfg, c);
      case OriginReadFailed =>
        CloseEnds(cfg, c);
        NotLiveEnds(c, Step(cfg, c, e));
    }
  }

  lemma GoingOnIsNoEnd(c: Conn, d: Conn, read: bool)
    ensures GoesOn(c, d, read) ==> !Ends(c, d)
  {
  }

  lemma NotLiveEnds(c: Conn, d: Conn)
    ensures !Live(d) ==> Ends(c, d) && forall read :: GoesWell(c, d, read)
  {
  }

  // ------------------------------------------------------------------ following the script

  /** A play in the middle of an exchange in which the client sends `x` in all and the
      origin `y`. */
  ghost predicate OnScript(cfg: Config, x: string, y: string, p: Play) {
    && WorldInv(cfg, p.world) && InExchange(p.world.conn)
    && p.world.trace.fromClient + p.client == x && p.world.trace.fromOrigin + p.origin == y
    && SendsRequest(cfg, x) && SendsResponse(x, y)
    && (WellMade(cfg, x, y) ==> p.world.conn.ctx.state != ReportError)
  }

  predicate InExchange(c: Conn) { c.waits == 1 && c.ctx.state != TunnelTransfer && OriginStands(c) }

  lemma SendsNoChunks(cfg: Config, c: Conn, data: string, x: string)
    requires SendsRequest(cfg, x) && c.requestData + data <= x
    ensures !AsksChunkedUpload(cfg, c, data)
  {
    hide FindHeadEnd, ParsedRequest, UploadsInChunks, MayPass, RequestLength, Uploads, BodyOf;
    var all := c.requestData + data;
    if AsksChunkedUpload(cfg, c, data) {
      SameHeadEarly(all, x);
    }
  }

  lemma GoodHeadIsObeyed(cfg: Config, c: Conn, data: string, x: string, y: string)
    requires Quiet(c) && c.ctx.state == ReadHttpRequestHeader && c.requestData + data <= x && WellMade(cfg, x, y)
    ensures var d := OnRequestHeadData(cfg, c, data); d.fault || d.ctx.state != ReportError
  {
    hide FindHeadEnd, ParsedRequest, JudgeRequest, MayPass, MayForward, Obey, Report;
    var d := c.(requestData := c.requestData + data);
    var p := FindHeadEnd(d.requestData);
    if p.None? {
      HeadEndOfPrefix(d.requestData, x);
    } else {
      SameHeadEarly(d.requestData, x);
      var e := d.(requestHead := ParsedRequest(d.requestData[..p.value + 4]));
      var n := |d.requestData| - (p.value + 4);
      PassedIffMayPass(cfg, RequestOf(x), e.req, n);
      ObeyGoesWell(e, JudgeRequest(cfg, RequestOf(x), e.req, n));
    }
  }

  lemma ForwardedIsNoPage(c: Conn, j: Judgement<ResponseContext>)
    requires Quiet(c) && j.Forward?
    ensures var d := ObeyResponse(c, j); d.fault || d.ctx.state != ReportError
  {
    hide FindHeadEnd, ResponseText;
  }

  /** What may be forwarded whole may be forwarded from any part of its body on. */
  lemma EarlyBodyMayForward(verb: string, h: ResponseHead, body: string, more: string)
    requires MayForward(verb, h, body + more)
    ensures MayForward(verb, h, body)
  {
    hide Feed, ResponseLength, Lookup, Lower;
    FeedConcat(FRESH, body, more);
    if Feed(FRESH, body).IsFail() {
      FailIsForever(Feed(FRESH, body), more);
    }
  }

  lemma GoodResponseIsForwarded(cfg: Config, c: Conn, data: string, x: string, y: string)
    requires Quiet(c) && c.ctx.state == ReadHttpResponseHeader && c.responseData + data <= y && WellMade(cfg, x, y)
    requires c.requestHead.Some? && c.requestHead.value.verb == RequestOf(x).verb != CONNECT
    ensures var d := OnResponseHeadData(c, data); d.fault || d.ctx.state != ReportError
  {
    hide FindHeadEnd, ParsedResponse, JudgeResponse, MayPass, MayForward, ObeyResponse, Report, RequestIn, RequestOf;
    var d := c.(responseData := c.responseData + data);
    var p := FindHeadEnd(d.responseData);
    if p.None? {
      HeadEndOfPrefix(d.responseData, y);
    } else {
      SameHeadEarly(d.responseData, y);
      var n := p.value + 4;
      var e := d.(responseHead := ParsedResponse(d.responseData[..n]));
      var verb, body, more := c.requestHead.value.verb, d.responseData[n..], y[|d.responseData|..];
      assert BodyOf(y) == body + more;
      EarlyBodyMayForward(verb, ResponseOf(y), body, more);
      ForwardedIffMayForward(verb, ResponseOf(y), e.resp, body);
      ForwardedIsNoPage(e, JudgeResponse(verb, ResponseOf(y), e.resp, body));
    }
  }

  // ----------------------------------------------------------------- what a play is about

  /** Once past the head, the request is the one the client sends. */
  lemma ServedIsSent(cfg: Config, w: World, x: string)
    requires WorldInv(cfg, w) && InExchange(w.conn) && w.trace.fromClient <= x
    requires Passed(w.conn.ctx.state)
    ensures RequestIn(w.trace.fromClient) && RequestIn(x)
    ensures RequestOf(w.trace.fromClient) == RequestOf(x) == RequestOf(w.conn.requestData)
    ensures w.conn.requestHead.Some? && w.conn.requestHead.value.verb == RequestOf(x).verb && MayPass(cfg, RequestOf(x))
    ensures w.conn.ctx.state == ReadHttpResponseHeader || Responds(w.conn.ctx.state) ==> RequestOf(x).verb != CONNECT
  {
    hide RequestIn, RequestOf, MayPass, FramedResponse, UpImage, DownImage, Measured, Timely, Conserved, RoutingInv,
      ForwardsViable, Inv, Streams, OriginStands;
    ServingFacts(cfg, w.conn, w.trace);
    ExtendedRequest(w.conn.requestData, w.trace.fromClient);
    ExtendedRequest(w.conn.requestData, x);
  }

  /** More of a body that is chunked throughout never fails its check. */
  lemma ContentPasses(cfg: Config, w: World, data: string, x: string, y: string)
    requires WorldInv(cfg, w) && InExchange(w.conn) && w.conn.ctx.state == ReadHttpResponseContent
    requires w.trace.fromClient <= x && w.trace.fromOrigin + data <= y && SendsResponse(x, y)
    ensures w.conn.resp.checker.Some? && w.conn.resp.contentLength.None? ==>
              !w.conn.resp.checker.value.IsFail() && !Feed(w.conn.resp.checker.value, data).IsFail()
  {
    hide RequestIn, RequestOf, ResponseIn, ResponseOf, BodyOf, ResponseLength, Feed, Conserved, RoutingInv, Inv, Streams,
      ForwardsViable, Framed, FindHeadEnd, DownImage, UpImage, FramedResponse, OriginStands, PendingDown, MayPass;
    var c, t := w.conn, w.trace;
    ServedIsSent(cfg, w, x);
    RespondingFacts(cfg, c, t);
    HasResponse(c, t);
    CheckerIsForChunks(c, t);
    ResponseStays(t.fromOrigin, data);
    ExtendedResponse(t.fromOrigin + data, y);
    if c.resp.checker.Some? {
      FeedConcat(FRESH, BodyOf(t.fromOrigin), data);
      BodyPrefixPasses(BodyOf(t.fromOrigin + data), BodyOf(y));
    }
  }

  lemma BodyPrefixPasses(s: string, body: string)
    requires s <= body && ChunkGrammar.IsBody(body)
    ensures !Feed(FRESH, s).IsFail()
  {
    hide Feed, ChunkGrammar.IsBody;
    assert body + "" == body;
    assert Viable(body);
    PrefixIsViable(s, body);
    AcceptedIsViable(s);
  }

  lemma ContentIsWritten(c: Conn, n: nat)
    requires Quiet(c) && n <= BUFFER_LENGTH
    requires c.resp.checker.Some? && c.resp.contentLength.None? ==>
               !c.resp.checker.value.IsFail() && !Feed(c.resp.checker.value, c.downRead[..n]).IsFail()
    ensures var d := OnResponseContent(c, n); Live(d) && d.ctx.state == WriteHttpResponseContent
  {
    hide Feed, Wrap64;
  }

  lemma ClientReadsGoOn(cfg: Config, p: Play, data: string, x: string, y: string)
    requires OnScript(cfg, x, y, p) && Cooperative(p, ClientRead(data)) && Inv(Step(cfg, p.world.conn, ClientRead(data)))
    ensures var d := Step(cfg, p.world.conn, ClientRead(data));
            !Ends(p.world.conn, d) && (WellMade(cfg, x, y) ==> d.ctx.state != ReportError)
  {
    hide FindHeadEnd, OnRequestHeadData, OnResponseHeadData, OnResponseContent, Shape, Wrap64, OnClientWritten,
      OnOriginWritten, OnResolved, OnConnect, OnError, WellMade, SendsRequest, SendsResponse, Conserved, RoutingInv,
      ForwardsViable, Framed, Streams, OriginStands, RequestOf, OnOriginData;
    var c, t := p.world.conn, p.world.trace;
    CompletedIsQuiet(c, ClientRead(data));
    WhoCompletes(c, ClientRead(data));
    LeftIs(c);
    ReadingFacts(c, t);
    var d := Completed(c, ClientRead(data)).(waits := 0);
    if c.ctx.state == ReadHttpRequestHeader {
      PrefixOfMore(t.fromClient, data, p.client);
      RequestHeadGoesWell(cfg, d.(upWrite := d.upRead), data);
      RequestHeadDataLives(cfg, d.(upWrite := d.upRead), data);
      if WellMade(cfg, x, y) {
        GoodHeadIsObeyed(cfg, d.(upWrite := d.upRead), data, x, y);
      }
    } else {
      ClientDataLives(cfg, d, |data|);
    }
  }

  /** A read of response head data, as a step. */
  lemma HeadDataStep(cfg: Config, c: Conn, data: string) returns (d: Conn)
    requires Inv(c) && Live(c) && Enabled(c, OriginRead(data)) && c.ctx.state == ReadHttpResponseHeader
    ensures Quiet(d) && d.ctx == c.ctx && Step(cfg, c, OriginRead(data)) == OnResponseHeadData(d, data)
    ensures d.requestHead == c.requestHead && d.responseData == c.responseData && c.waits == 1
  {
    hide FindHeadEnd, OnRequestHeadData, OnResponseHeadData, OnResponseContent, Shape, OnClientData, OnClientWritten,
      OnOriginWritten, OnResolved, OnConnect, OnError;
    CompletedIsQuiet(c, OriginRead(data));
    d := Completed(c, OriginRead(data)).(waits := 0);
  }

  lemma ResponseHeadGoesOn(cfg: Config, p: Play, data: string, x: string, y: string)
    requires OnScript(cfg, x, y, p) && Cooperative(p, OriginRead(data)) && Inv(Step(cfg, p.world.conn, OriginRead(data)))
    requires p.world.conn.ctx.state == ReadHttpResponseHeader
    ensures var d := Step(cfg, p.world.conn, OriginRead(data));
            !Ends(p.world.conn, d) && (WellMade(cfg, x, y) ==> d.ctx.state != ReportError)
  {
    hide FindHeadEnd, OnResponseHeadData, Step, Enabled, WellMade, SendsRequest, SendsResponse, Conserved, RoutingInv,
      ForwardsViable, Framed, Streams, OriginStands, RequestOf, RequestIn, MayPass, Inv;
    var c, t := p.world.conn, p.world.trace;
    OnScriptFacts(cfg, x, y, p);
    var d := HeadDataStep(cfg, c, data);
    PrefixOfMore(t.fromOrigin, data, p.origin);
    ReadingFacts(c, t);
    ResponseHeadKeeps(d, data);
    ResponseHeadDataLives(d, data);
    InvMeansNoFault(Step(cfg, c, OriginRead(data)));
    if WellMade(cfg, x, y) {
      ServedIsSent(cfg, p.world, x);
      GoodResponseIsForwarded(cfg, d, data, x, y);
    }
  }

  lemma ResponseContentGoesOn(cfg: Config, p: Play, data: string, x: string, y: string)
    requires OnScript(cfg, x, y, p) && Cooperative(p, OriginRead(data))
    requires p.world.conn.ctx.state == ReadHttpResponseContent
    ensures var d := Step(cfg, p.world.conn, OriginRead(data));
            !Ends(p.world.conn, d) && d.ctx.state != ReportError
  {
    hide FindHeadEnd, OnRequestHeadData, OnResponseHeadData, OnResponseContent, Shape, Wrap64, OnClientData,
      OnClientWritten, OnOriginWritten, OnResolved, OnConnect, OnError, WellMade, SendsRequest, SendsResponse, Conserved,
      RoutingInv, ForwardsViable, Framed, Streams, OriginStands, RequestOf, RequestIn, MayPass, Passed;
    var c, t := p.world.conn, p.world.trace;
    CompletedIsQuiet(c, OriginRead(data));
    PrefixOfAll(t.fromClient, p.client, x);
    PrefixOfMore(t.fromOrigin, data, p.origin);
    var d := Completed(c, OriginRead(data)).(waits := 0);
    ContentPasses(cfg, p.world, data, x, y);
    ContentIsWritten(d, |data|);
  }

  lemma OriginReadsGoOn(cfg: Config, p: Play, data: string, x: string, y: string)
    requires OnScript(cfg, x, y, p) && Cooperative(p, OriginRead(data)) && Inv(Step(cfg, p.world.conn, OriginRead(data)))
    ensures var d := Step(cfg, p.world.conn, OriginRead(data));
            !Ends(p.world.conn, d) && (WellMade(cfg, x, y) ==> d.ctx.state != ReportError)
  {
    hide Step, WellMade, Conserved, RoutingInv, ForwardsViable, Framed, Streams, OriginStands, Inv, SendsRequest,
      SendsResponse;
    OnScriptFacts(cfg, x, y, p);
    WhoCompletes(p.world.conn, OriginRead(data));
    if p.world.conn.ctx.state == ReadHttpResponseHeader {
      ResponseHeadGoesOn(cfg, p, data, x, y);
    } else {
      ResponseContentGoesOn(cfg, p, data, x, y);
    }
  }

  /** Reads never end an exchange, and only a request or response that is not well made
      leads to a page. */
  lemma ReadsGoOn(cfg: Config, p: Play, e: Event, x: string, y: string)
    requires OnScript(cfg, x, y, p) && Cooperative(p, e) && (e.ClientRead? || e.OriginRead?)
    requires Inv(Step(cfg, p.world.conn, e))
    ensures var d := Step(cfg, p.world.conn, e);
            !Ends(p.world.conn, d) && (WellMade(cfg, x, y) ==> d.ctx.state != ReportError)
  {
    hide OnScript, Step, Inv, Ends, WellMade, Enabled;
    match e {
      case ClientRead(data) => ClientReadsGoOn(cfg, p, data, x, y);
      case OriginRead(data) => OriginReadsGoOn(cfg, p, data, x, y);
    }
  }

  lemma PrefixOfAll(a: string, b: string, x: string)
    requires a + b == x
    ensures a <= x
  {
  }

  lemma PrefixOfMore(a: string, data: string, b: string)
    requires data <= b
    ensures a + data <= a + b && a + data + b[|data|..] == a + b
  {
  }

  lemma RecordedScript(c: Conn, e: Event, d: Conn, t: Trace)
    requires Enabled(c, e) && Live(c) && !Ends(c, d)
    ensures var r := Recorded(c, e, d, t);
            && r.fromClient == (if e.ClientRead? then t.fromClient + e.data else t.fromClient)
            && r.fromOrigin == (if e.OriginRead? then t.fromOrigin + e.data else t.fromOrigin)
  {
    hide AnswerBegins;
  }

  // ------------------------------------------------------------------------- proceeding

  lemma OnScriptFacts(cfg: Config, x: string, y: string, p: Play)
    requires OnScript(cfg, x, y, p)
    ensures var c, t := p.world.conn, p.world.trace;
            && Inv(c) && Live(c) && c.ctx.state != TunnelTransfer && OriginStands(c) && Streams(c, t)
            && Framed(cfg, c, t) && t.fromClient <= x && t.fromOrigin <= y
  {
    hide Inv, OriginStands, Streams, Framed, SendsRequest, SendsResponse, WellMade, Conserved, RoutingInv,
      ForwardsViable;
    PrefixOfAll(p.world.trace.fromClient, p.client, x);
    PrefixOfAll(p.world.trace.fromOrigin, p.origin, y);
  }

  lemma NoChunksToCome(cfg: Config, x: string, y: string, p: Play, e: Event)
    requires OnScript(cfg, x, y, p) && Cooperative(p, e) && e.ClientRead?
    ensures !AsksChunkedUpload(cfg, p.world.conn, e.data)
  {
    hide Inv, OriginStands, Streams, Framed, SendsRequest, SendsResponse, WellMade, Conserved, RoutingInv, ForwardsViable,
      AsksChunkedUpload, Enabled;
    var c, t := p.world.conn, p.world.trace;
    if c.ctx.state == ReadHttpRequestHeader {
      OnScriptFacts(cfg, x, y, p);
      ReadingFacts(c, t);
      PrefixOfMore(t.fromClient, e.data, p.client);
      SendsNoChunks(cfg, c, e.data, x);
    } else {
      OnlyInHeadState(cfg, c, e.data);
    }
  }

  /** A cooperative event keeps the play on its script and brings its end nearer, or
      ends it. */
  lemma ProceedsWell(cfg: Config, x: string, y: string, p: Play, e: Event)
    requires OnScript(cfg, x, y, p) && Cooperative(p, e)
    ensures Inv(Step(cfg, p.world.conn, e))
    ensures Ends(p.world.conn, Step(cfg, p.world.conn, e)) ||
              (OnScript(cfg, x, y, Proceed(cfg, p, e)) && Nearer(Remaining(Proceed(cfg, p, e)), Remaining(p)))
  {
    hide Inv, OriginStands, Streams, Framed, SendsRequest, SendsResponse, WellMade, Conserved, RoutingInv, ForwardsViable,
      AsksChunkedUpload, Enabled, Step, WorldInv, Recorded, Chances, Stage, Left;
    var c, t := p.world.conn, p.world.trace;
    OnScriptFacts(cfg, x, y, p);
    if e.ClientRead? {
      NoChunksToCome(cfg, x, y, p, e);
    }
    GoodStep(cfg, p.world, e);
    var d := Step(cfg, c, e);
    StepGoesWell(cfg, p, e);
    if !Ends(c, d) {
      RecordedScript(c, e, d, t);
      if e.ClientRead? {
        PrefixOfMore(t.fromClient, e.data, p.client);
      } else if e.OriginRead? {
        PrefixOfMore(t.fromOrigin, e.data, p.origin);
      }
      if e.ClientRead? || e.OriginRead? {
        ReadsGoOn(cfg, p, e, x, y);
        ReadsSomething(c, e);
      }
      assert InExchange(d);
    }
  }

  lemma ReadsSomething(c: Conn, e: Event)
    requires Enabled(c, e)
    ensures e.ClientRead? || e.OriginRead? ==> |e.data| > 0
  {
  }

  // ------------------------------------------------------------------ no one waits in vain

  lemma WaitingForClient(cfg: Config, x: string, y: string, p: Play)
    requires OnScript(cfg, x, y, p) && p.world.conn.ctx.state in {ReadHttpRequestHeader, ReadHttpRequestContent}
    ensures p.client != ""
  {
    hide FindHeadEnd, RequestIn, RequestOf, BodyOf, Inv, Streams, Framed, SendsResponse, WellMade, Conserved, RoutingInv,
      ForwardsViable, OriginStands, MayPass, Uploads, RequestLength, FramedRequest;
    var c, t := p.world.conn, p.world.trace;
    OnScriptFacts(cfg, x, y, p);
    assert t.fromClient + "" == t.fromClient;
    if c.ctx.state == ReadHttpRequestHeader {
      ReadingFacts(c, t);
      GatheringHasNoHead(c);
    } else {
      ServedIsSent(cfg, p.world, x);
      ServingFacts(cfg, c, t);
      ContentIsMissing(cfg, c, t);
    }
  }

  lemma GatheringHasNoHead(c: Conn)
    requires Inv(c) && Live(c)
    ensures c.ctx.state == ReadHttpRequestHeader ==> FindHeadEnd(c.requestData).None?
    ensures c.ctx.state == ReadHttpResponseHeader ==> FindHeadEnd(c.responseData).None?
  {
    hide FindHeadEnd;
  }

  lemma ContentIsMissing(cfg: Config, c: Conn, t: Trace)
    requires FramedRequest(cfg, c, t) && c.ctx.state == ReadHttpRequestContent && RequestOf(c.requestData).verb != CONNECT
    ensures var r := RequestOf(c.requestData);
            && Uploads(r) && RequestLength(r).Some?
            && (Countable(RequestLength(r).value) ==> |BodyOf(t.fromClient)| < RequestLength(r).value)
  {
    hide RequestIn, RequestOf, BodyOf, Measured, Authorized, Uploads, RequestLength;
    MayPassHasLength(cfg, RequestOf(c.requestData));
  }

  lemma WaitingForHead(cfg: Config, x: string, y: string, p: Play)
    requires OnScript(cfg, x, y, p) && p.world.conn.ctx.state == ReadHttpResponseHeader
    ensures p.origin != ""
  {
    hide FindHeadEnd, RequestIn, RequestOf, ResponseIn, ResponseOf, BodyOf, Inv, Streams, Framed, SendsRequest, WellMade,
      Conserved, RoutingInv, ForwardsViable, OriginStands, MayPass, ResponseLength, NoContent, ChunkGrammar.IsBody,
      FramedRequest, FramedResponse;
    var c, t := p.world.conn, p.world.trace;
    OnScriptFacts(cfg, x, y, p);
    ServedIsSent(cfg, p.world, x);
    ReadingFacts(c, t);
    GatheringHasNoHead(c);
    assert t.fromOrigin + "" == t.fromOrigin;
  }

  /** Only a response framed by the close of its connection is awaited when all has
      come. */
  lemma WaitingForOrigin(cfg: Config, x: string, y: string, p: Play)
    requires OnScript(cfg, x, y, p) && p.world.conn.ctx.state == ReadHttpResponseContent && p.origin == ""
    ensures RequestIn(x) && ResponseIn(y) && p.world.trace.fromOrigin == y
    ensures ResponseLength(RequestOf(x).verb, ResponseOf(y)) == Some(UntilClose)
  {
    hide FindHeadEnd, RequestIn, RequestOf, ResponseIn, ResponseOf, BodyOf, Inv, Streams, Framed, SendsRequest, WellMade,
      Conserved, RoutingInv, ForwardsViable, OriginStands, MayPass, ResponseLength, NoContent, ChunkGrammar.IsBody,
      FramedRequest, FramedResponse;
    var t := p.world.trace;
    OnScriptFacts(cfg, x, y, p);
    ServedIsSent(cfg, p.world, x);
    AwaitedContentIsMissing(cfg, p.world);
    assert t.fromOrigin + "" == t.fromOrigin;
  }

  /** At every moment of an exchange something cooperative can happen. */
  lemma CanProceed(cfg: Config, x: string, y: string, p: Play) returns (e: Event)
    requires OnScript(cfg, x, y, p)
    ensures Cooperative(p, e)
  {
    hide Inv, Streams, Framed, SendsRequest, SendsResponse, WellMade, Conserved, RoutingInv, ForwardsViable, WorldInv,
      OriginStands, InExchange;
    var c := p.world.conn;
    OnScriptFacts(cfg, x, y, p);
    OperationsOf(c);
    if c.ctx.state == ReadHttpRequestHeader || c.ctx.state == ReadHttpRequestContent {
      WaitingForClient(cfg, x, y, p);
      e := ClientRead(p.client[..1]);
    } else if c.ctx.state == ResolveOriginServerAddress {
      e := Resolved([Endpoint("", 0)]);
    } else if c.ctx.state == ConnectToOriginServer {
      e := Connected;
    } else if c.ctx.state == WriteHttpRequestHeader || c.ctx.state == WriteHttpRequestContent {
      e := if c.origin.Some? then OriginWritten(1) else OriginWriteFailed;
    } else if c.ctx.state == ReadHttpResponseHeader {
      WaitingForHead(cfg, x, y, p);
      e := OriginRead(p.origin[..1]);
    } else if c.ctx.state == ReadHttpResponseContent {
      e := if p.origin == "" then OriginReadFailed else OriginRead(p.origin[..1]);
    } else {
      e := ClientWritten(1);
    }
  }

  lemma OperationsOf(c: Conn)
    requires Inv(c) && Live(c) && c.ctx.state != TunnelTransfer && OriginStands(c)
    ensures c.ctx.state in {ReadHttpRequestHeader, ReadHttpRequestContent} ==> c.ops.clientReads == 1
    ensures c.ctx.state in {ReadHttpResponseHeader, ReadHttpResponseContent} ==> c.ops.originReads == 1
    ensures c.ctx.state == ResolveOriginServerAddress ==> c.ops.resolves != []
    ensures c.ctx.state == ConnectToOriginServer ==> c.ops.connects != []
    ensures c.ctx.state in {WriteHttpRequestHeader, WriteHttpRequestContent} ==>
              c.ops.originWrites != [] && c.ops.originWrites[0].peer == c.origin && 1 <= c.ops.originWrites[0].size
    ensures c.ctx.state == WriteHttpRequestHeader && c.origin.None? ==> c.ctx.reconnectOnError
    ensures c.ctx.state == WriteHttpRequestContent ==> c.origin.Some?
    ensures WritesToClient(c.ctx.state) || c.ctx.state == WriteHttpResponseContent ==>
              c.ops.clientWrites != [] && 1 <= c.ops.clientWrites[0].size
    ensures c.ctx.state != ReadCipherData
  {
    hide FindHeadEnd;
  }

  // --------------------------------------------------------------------------- the end

  /** With this event the exchange is answered: with a page of the proxy's own, with the
      acknowledgement of a CONNECT, or with a response that is whole, to a request that
      has been sent whole. */
  ghost predicate WellAnswered(x: string, y: string, p: Play, e: Event)
    requires Enabled(p.world.conn, e)
  {
    var c, u := p.world.conn, Carried(p.world.conn, e, p.world.trace);
    match c.ctx.state
    case ReportError => IsPage(c.modifiedResponse) && u.toClient == c.modifiedResponse
    case ReportConnectionEstablished => u.toClient == ESTABLISHED
    case _ => Responds(c.ctx.state) && WholeRequestIn(x, u) && WholeResponseIn(x, y, u)
  }

  ghost predicate WholeRequestIn(x: string, u: Trace) {
    && RequestIn(u.fromClient) && u.fromClient <= x && RequestIn(x) && RequestLength(RequestOf(x)).Some?
    && RequestLength(RequestOf(x)).value <= |BodyOf(u.fromClient)|
    && u.toOrigin == UpImage(u.fromClient)
  }

  ghost predicate WholeResponseIn(x: string, y: string, u: Trace)
    requires RequestIn(u.fromClient) && u.fromClient <= x
  {
    && RequestIn(x) && ResponseIn(u.fromOrigin) && u.fromOrigin <= y
    && u.toClient == DownImage(u.fromOrigin)
    && match ResponseLength(RequestOf(x).verb, ResponseOf(u.fromOrigin))
       case Some(Fixed(n)) => n <= |BodyOf(u.fromOrigin)|
       case Some(Chunked) => ChunkGrammar.IsBody(BodyOf(u.fromOrigin))
       case Some(UntilClose) => u.fromOrigin == y
       case None => false
  }

  lemma RequestIsWhole(cfg: Config, x: string, p: Play, u: Trace)
    requires WorldInv(cfg, p.world) && InExchange(p.world.conn) && p.world.trace.fromClient <= x
    requires Responds(p.world.conn.ctx.state)
    requires u.fromClient == p.world.trace.fromClient && u.toOrigin == p.world.trace.toOrigin
    ensures WholeRequestIn(x, u)
  {
    hide RequestIn, RequestOf, BodyOf, Inv, Streams, Framed, Conserved, RoutingInv, ForwardsViable, OriginStands, MayPass,
      RequestLength, UpImage;
    ServedIsSent(cfg, p.world, x);
    UploadIsWhole(cfg, p.world);
  }

  lemma PartIsNoEnd(cfg: Config, c: Conn, n: nat)
    requires Inv(c) && Live(c) && Enabled(c, ClientWritten(n)) && c.ctx.state != TunnelTransfer
    requires Ends(c, Step(cfg, c, ClientWritten(n)))
    ensures LastByte(c, ClientWritten(n))
    ensures WritesToClient(c.ctx.state) || c.ctx.state == WriteHttpResponseContent
  {
    hide FindHeadEnd, Shape, OnResponseWritten, OnClientData, OnOriginData, OnOriginWritten, OnResolved, OnConnect,
      OnError;
    CompletedIsQuiet(c, ClientWritten(n));
    WhoCompletes(c, ClientWritten(n));
  }

  /** A response whose last byte ends the exchange is whole. */
  lemma ResponseIsWhole(cfg: Config, x: string, y: string, p: Play, e: Event)
    requires WorldInv(cfg, p.world) && InExchange(p.world.conn) && Enabled(p.world.conn, e)
    requires p.world.trace.fromClient <= x && p.world.trace.fromOrigin <= y
    requires p.world.conn.ctx.state in {WriteHttpResponseHeader, WriteHttpResponseContent}
    requires LastByte(p.world.conn, e) && Ends(p.world.conn, Step(cfg, p.world.conn, e))
    ensures var u := Carried(p.world.conn, e, p.world.trace); WholeRequestIn(x, u) && WholeResponseIn(x, y, u)
  {
    hide RequestIn, RequestOf, ResponseIn, ResponseOf, BodyOf, Inv, Streams, Framed, Conserved, RoutingInv, OriginStands,
      ForwardsViable, MayPass, ResponseLength, RequestLength, DownImage, UpImage, ChunkGrammar.IsBody, Step, Enabled,
      LastByte, Carried, FramedResponse, ResponseText, PendingDown, Wrap64;
    var w := p.world;
    var u := Carried(w.conn, e, w.trace);
    LastByteCarries(w.conn, e, w.trace);
    RequestIsWhole(cfg, x, p, u);
    ServedIsSent(cfg, w, x);
    RespondingFacts(cfg, w.conn, w.trace);
    HasResponse(w.conn, w.trace);
    CheckerIsForChunks(w.conn, w.trace);
    AllForwarded(w.conn, e, w.trace);
    match ResponseLength(w.conn.requestHead.value.verb, ResponseOf(w.trace.fromOrigin)).value {
      case Fixed(_) => FixedTurnoverExact(cfg, w, e);
      case Chunked => ChunkedTurnoverExact(cfg, w, e);
      case UntilClose => UntilCloseNeverDone(cfg, w, e);
    }
  }

  lemma LastByteCarries(c: Conn, e: Event, t: Trace)
    requires Enabled(c, e) && LastByte(c, e)
    ensures var u := Carried(c, e, t);
            u.fromClient == t.fromClient && u.fromOrigin == t.fromOrigin && u.toOrigin == t.toOrigin
  {
  }

  /** A response that ends with the close of its connection is whole. */
  lemma ClosedIsWhole(cfg: Config, x: string, y: string, p: Play)
    requires OnScript(cfg, x, y, p) && p.world.conn.ctx.state == ReadHttpResponseContent && p.origin == ""
    ensures WholeRequestIn(x, p.world.trace) && WholeResponseIn(x, y, p.world.trace)
  {
    hide RequestIn, RequestOf, ResponseIn, ResponseOf, BodyOf, Inv, Streams, Framed, Conserved, RoutingInv, OriginStands,
      ForwardsViable, MayPass, ResponseLength, RequestLength, DownImage, UpImage, ChunkGrammar.IsBody, SendsRequest,
      SendsResponse, WellMade, FramedResponse, PendingDown;
    OnScriptFacts(cfg, x, y, p);
    RequestIsWhole(cfg, x, p, p.world.trace);
    WaitingForOrigin(cfg, x, y, p);
    ReadersWriteNothing(p.world.conn);
    RespondingFacts(cfg, p.world.conn, p.world.trace);
    assert p.world.trace.toClient + "" == p.world.trace.toClient;
  }

  lemma OwnAnswerIsWhole(cfg: Config, w: World, e: Event)
    requires WorldInv(cfg, w) && Live(w.conn) && Enabled(w.conn, e) && LastByte(w.conn, e)
    ensures w.conn.ctx.state == ReportError ==>
              IsPage(w.conn.modifiedResponse) && Carried(w.conn, e, w.trace).toClient == w.conn.modifiedResponse
    ensures w.conn.ctx.state == ReportConnectionEstablished ==> Carried(w.conn, e, w.trace).toClient == ESTABLISHED
  {
    hide Shape, RoutingInv, FramingInv, ForwardsViable, Enabled, LastByte, Carried, PendingDown, IsPage, UpTarget,
      DownTarget;
    AllForwarded(w.conn, e, w.trace);
    OwnStreams(w.conn, w.trace);
  }

  lemma OwnStreams(c: Conn, t: Trace)
    requires Inv(c) && Live(c) && Streams(c, t)
    ensures AnswersItself(c.ctx.state) ==> t.toClient + PendingDown(c) == c.modifiedResponse
    ensures c.ctx.state == ReportConnectionEstablished ==> c.modifiedResponse == ESTABLISHED
  {
    hide FindHeadEnd, UpImage, DownImage, HeadOf, ResponseIn, PendingUp, PendingDown;
  }

  /** An exchange that ends is answered, and if request and response are well made, not
      with a page. */
  lemma EndsAnswered(cfg: Config, x: string, y: string, p: Play, e: Event)
    requires OnScript(cfg, x, y, p) && Cooperative(p, e) && Ends(p.world.conn, Step(cfg, p.world.conn, e))
    ensures WellAnswered(x, y, p, e)
    ensures WellMade(cfg, x, y) ==> p.world.conn.ctx.state != ReportError
  {
    hide Inv, Streams, Framed, SendsRequest, SendsResponse, WellMade, Conserved, RoutingInv, ForwardsViable, OriginStands,
      Enabled, Step, IsPage, WholeRequestIn, WholeResponseIn, LastByte, Ends;
    var c, t := p.world.conn, p.world.trace;
    OnScriptFacts(cfg, x, y, p);
    ProceedsWell(cfg, x, y, p, e);
    StepGoesWell(cfg, p, e);
    if e.ClientRead? || e.OriginRead? {
      ReadsGoOn(cfg, p, e, x, y);
    } else if e.OriginReadFailed? {
      ClosedIsWhole(cfg, x, y, p);
    } else {
      PartIsNoEnd(cfg, c, e.n);
      OwnAnswerIsWhole(cfg, p.world, e);
      if Responds(c.ctx.state) {
        ResponseIsWhole(cfg, x, y, p, e);
      }
    }
  }

  // ------------------------------------------------------------------------ the theorem

  /** An environment: which event comes, given how many have come and how things stand. */
  type Environment = (nat, Play) -> Event

  /** It does its part in every exchange of this request and this response. */
  ghost predicate DoesItsPart(cfg: Config, x: string, y: string, environment: Environment) {
    forall n, p | OnScript(cfg, x, y, p) :: Cooperative(p, environment(n, p))
  }

  /** The run is what the environment makes of the play from its event `n` on. */
  ghost predicate PlayedBy(cfg: Config, environment: Environment, n: nat, p: Play, run: seq<Event>)
    decreases |run|
  {
    run != [] ==>
      && run[0] == environment(n, p) && Cooperative(p, run[0])
      && PlayedBy(cfg, environment, n + 1, Proceed(cfg, p, run[0]), run[1..])
  }

  ghost function Played(cfg: Config, p: Play, run: seq<Event>): Play
    decreases |run|
  {
    if run == [] then p
    else if !Cooperative(p, run[0]) then p
    else Played(cfg, Proceed(cfg, p, run[0]), run[1..])
  }

  /** Every exchange ends. Whatever pieces the client, the origin and the two sockets
      take, whichever endpoints fail, and whether or not a connection used again turns
      out closed: if all do their part, then after finitely many events, a run of the
      connection, one comes with which the request is answered. */
  lemma {:induction false} ExchangeEnds(cfg: Config, x: string, y: string, environment: Environment, n: nat, p: Play)
    returns (run: seq<Event>)
    requires OnScript(cfg, x, y, p) && DoesItsPart(cfg, x, y, environment)
    ensures PlayedBy(cfg, environment, n, p, run)
    ensures var q := Played(cfg, p, run);
            var e := environment(n + |run|, q);
            && OnScript(cfg, x, y, q) && Cooperative(q, e)
            && Ends(q.world.conn, Step(cfg, q.world.conn, e))
            && WellAnswered(x, y, q, e) && (WellMade(cfg, x, y) ==> q.world.conn.ctx.state != ReportError)
    ensures Possible(cfg, p.world.conn, run) && NoChunkedUpload(cfg, p.world.conn, run)
    ensures AfterWorld(cfg, p.world, run) == Played(cfg, p, run).world
    decreases Remaining(p).chances, Remaining(p).stage, Remaining(p).unread, Remaining(p).left
  {
    hide OnScript, Enabled, Step, Ends, WellAnswered, WellMade, Remaining, Proceed, Cooperative, AsksChunkedUpload, Recorded,
      DoesItsPart;
    var e := environment(n, p);
    ItsPart(cfg, x, y, environment, n, p);
    ProceedIsStep(cfg, x, y, p, e);
    ProceedsWell(cfg, x, y, p, e);
    if Ends(p.world.conn, Step(cfg, p.world.conn, e)) {
      run := [];
      EndsAnswered(cfg, x, y, p, e);
    } else {
      var more := ExchangeEnds(cfg, x, y, environment, n + 1, Proceed(cfg, p, e));
      run := [e] + more;
      assert run[1..] == more;
      RunCons(cfg, p.world, e, more);
    }
  }

  lemma ItsPart(cfg: Config, x: string, y: string, environment: Environment, n: nat, p: Play)
    requires OnScript(cfg, x, y, p) && DoesItsPart(cfg, x, y, environment)
    ensures Cooperative(p, environment(n, p))
  {
    hide OnScript, Cooperative;
  }

  lemma ProceedIsStep(cfg: Config, x: string, y: string, p: Play, e: Event)
    requires OnScript(cfg, x, y, p) && Cooperative(p, e)
    ensures Enabled(p.world.conn, e) && Proceed(cfg, p, e).world == NextWorld(cfg, p.world, e)
    ensures e.ClientRead? ==> !AsksChunkedUpload(cfg, p.world.conn, e.data)
  {
    hide OnScript, Enabled, Step, Recorded, AsksChunkedUpload;
    if e.ClientRead? {
      NoChunksToCome(cfg, x, y, p, e);
    }
  }

  /** A connection that expects a request is at the start of a play, whatever is to be
      sent: so a new connection is, and one that has just been turned over. */
  lemma PlayBegins(cfg: Config, w: World, x: string, y: string)
    requires WorldInv(cfg, w) && Live(w.conn) && w.conn.ctx.state == ReadHttpRequestHeader && w.conn.requestData == ""
    requires SendsRequest(cfg, x) && SendsResponse(x, y)
    ensures OnScript(cfg, x, y, Play(w, x, y))
  {
    hide Inv, Streams, Framed, SendsRequest, SendsResponse, WellMade, Conserved, RoutingInv, ForwardsViable, WorldInv,
      OriginStands;
    WorldFacts(cfg, w);
    StartIsBlank(w.conn, w.trace);
    assert "" + x == x && "" + y == y;
  }

  lemma StartIsBlank(c: Conn, t: Trace)
    requires Inv(c) && Live(c) && Streams(c, t) && c.ctx.state == ReadHttpRequestHeader && c.requestData == ""
    ensures t.fromClient == t.fromOrigin == "" && OriginStands(c) && c.waits == 1
  {
    hide FindHeadEnd, UpImage, DownImage;
  }

  /** An exchange that ends with the connection turned over leaves it at the start of
      the next. */
  lemma NextBegins(cfg: Config, x: string, y: string, p: Play, e: Event)
    requires OnScript(cfg, x, y, p) && Cooperative(p, e) && Ends(p.world.conn, Step(cfg, p.world.conn, e))
    requires Step(cfg, p.world.conn, e).ctx.state == ReadHttpRequestHeader && Live(Step(cfg, p.world.conn, e))
    ensures var w := NextWorld(cfg, p.world, e); WorldInv(cfg, w) && w.conn.requestData == ""
  {
    hide OnScript, Enabled, Step, Recorded, AsksChunkedUpload, WorldInv, Inv, Streams, InExchange;
    OnScriptFacts(cfg, x, y, p);
    ProceedIsStep(cfg, x, y, p, e);
    OnScriptIsGood(cfg, x, y, p);
    GoodStep(cfg, p.world, e);
    var w := NextWorld(cfg, p.world, e);
    WorldFacts(cfg, w);
    ReadingFacts(w.conn, w.trace);
    TurnoverForgets(p.world.conn, e, w.conn, p.world.trace);
  }

  lemma OnScriptIsGood(cfg: Config, x: string, y: string, p: Play)
    requires OnScript(cfg, x, y, p)
    ensures WorldInv(cfg, p.world)
  {
    hide WorldInv, InExchange, SendsRequest, SendsResponse;
  }

  lemma TurnoverForgets(c: Conn, e: Event, d: Conn, t: Trace)
    requires Enabled(c, e) && Ends(c, d) && Live(d) && d.ctx.state == ReadHttpRequestHeader
    ensures Recorded(c, e, d, t).fromClient == ""
  {
    hide Enabled, Carried, AnswerBegins;
  }

  /** The assumption can be met: some environment does its part, whatever is to be sent. */
  lemma EnvironmentExists(cfg: Config) returns (environment: Environment)
    ensures forall x, y :: DoesItsPart(cfg, x, y, environment)
  {
    hide OnScript, Cooperative;
    environment := (_: nat, p: Play) => if exists e :: Cooperative(p, e) then var e :| Cooperative(p, e); e else Connected;
    forall x, y, n: nat, p | OnScript(cfg, x, y, p) ensures Cooperative(p, environment(n, p)) {
      var e := CanProceed(cfg, x, y, p);
    }
  }

  /** So the first request of any new connection is answered. */
  lemma FirstExchangeEnds(cfg: Config, c: Conn, x: string, y: string, environment: Environment)
    returns (run: seq<Event>, q: Play, e: Event)
    requires Created(c) && SendsRequest(cfg, x) && SendsResponse(x, y) && DoesItsPart(cfg, x, y, environment)
    ensures GoodRun(cfg, c, run) && q.world == Outcome(cfg, c, run) && Cooperative(q, e)
    ensures PlayedBy(cfg, environment, 0, Play(FirstWorld(c), x, y), run) && e == environment(|run|, q)
    ensures Ends(q.world.conn, Step(cfg, q.world.conn, e)) && WellAnswered(x, y, q, e)
    ensures WellMade(cfg, x, y) ==> q.world.conn.ctx.state != ReportError
  {
    hide OnScript, Enabled, Step, Ends, WellAnswered, WellMade, Cooperative, AsksChunkedUpload, Recorded, DoesItsPart,
      SendsRequest, SendsResponse, WorldInv, Inv, Possible, NoChunkedUpload, AfterWorld, PlayedBy, Played, Created, Started;
    FirstWorldGood(cfg, c);
    StartIsFresh(c);
    PlayBegins(cfg, FirstWorld(c), x, y);
    run := ExchangeEnds(cfg, x, y, environment, 0, Play(FirstWorld(c), x, y));
    q := Played(cfg, Play(FirstWorld(c), x, y), run);
    e := environment(|run|, q);
  }

  lemma StartIsFresh(c: Conn)
    requires Created(c)
    ensures Live(Started(c)) && Started(c).ctx.state == ReadHttpRequestHeader && Started(c).requestData == ""
  {
  }
}
