/** Where a request is taken: over the connection of the one before, without resolving
    or connecting again, or to the endpoints found, one after the other in their order;
    and who is kept when an exchange is over. */
module ProxyReaching {
  import opened Text
  import opened ChunkChecker
  import opened HeaderMap
  import opened HeaderParser
  import opened HeadPrinter
  import opened ProxyContext
  import opened ProxyMachine
  import opened ProxyInvariants
  import opened ProxyStreams
  import opened ProxyRouting
  import opened ProxyConservation
  import opened ProxyFraming
  import opened ProxyExchange
  import opened ProxyRuns
  import opened ProxySession
  import opened ProxyService
  import opened HeadSegmentation
  import opened KeepAlive
  import opened ErrorAnswers
  import ChunkGrammar

  // ------------------------------------------------------- endpoints one by one

  function Failures(n: nat): seq<Event> { if n == 0 then [] else [ConnectFailed] + Failures(n - 1) }

  /** A connect to the first of these endpoints is pending, and nothing else. */
  ghost predicate Tries(c: Conn, endpoints: seq<Endpoint>) {
    && Inv(c) && Live(c) && c.ctx.state == ConnectToOriginServer
    && endpoints != [] && c.ops == NO_OPS.(connects := [endpoints]) && c.origin == Some(endpoints[0])
  }

  lemma TryingFails(cfg: Config, c: Conn, endpoints: seq<Endpoint>)
    requires Tries(c, endpoints)
    ensures Enabled(c, ConnectFailed) && c.requestHead.Some?
    ensures var d := Step(cfg, c, ConnectFailed);
            if |endpoints| == 1 then
              && d.ctx.state == ReportError && d.origin.None?
              && Tells(d.modifiedResponse, c.requestHead.value.verb == "HEAD", 502, "Bad Gateway",
                       "Failed to connect to origin server")
            else Tries(d, endpoints[1..]) && d.requestHead == c.requestHead && d.requestData == c.requestData
  {
    hide FindHeadEnd, OnClientData, OnOriginData, OnClientWritten, OnOriginWritten, OnConnect, OnError, Tells;
    CompletedIsQuiet(c, ConnectFailed);
    if |endpoints| == 1 {
      FailureAnswered(cfg, c, ConnectFailed);
    } else {
      ReachingGood(cfg, c, ConnectFailed);
    }
  }

  lemma {:induction false} FailuresInOrder(cfg: Config, c: Conn, endpoints: seq<Endpoint>, n: nat)
    requires Tries(c, endpoints) && n <= |endpoints|
    ensures c.requestHead.Some? && Possible(cfg, c, Failures(n))
    ensures var d := After(cfg, c, Failures(n));
            if n < |endpoints| then
              Tries(d, endpoints[n..]) && d.requestHead == c.requestHead && d.requestData == c.requestData
            else
              && d.ctx.state == ReportError && d.origin.None?
              && Tells(d.modifiedResponse, c.requestHead.value.verb == "HEAD", 502, "Bad Gateway",
                       "Failed to connect to origin server")
    decreases n
  {
    hide Tries, Tells, Step, Enabled;
    TryingFails(cfg, c, endpoints);
    TriesSome(c, endpoints);
    if n == 0 {
      assert endpoints[0..] == endpoints;
    } else {
      assert Failures(n)[0] == ConnectFailed && Failures(n)[1..] == Failures(n - 1);
      if |endpoints| > 1 {
        FailuresInOrder(cfg, Step(cfg, c, ConnectFailed), endpoints[1..], n - 1);
        if n < |endpoints| {
          assert endpoints[1..][n - 1..] == endpoints[n..];
        }
      }
    }
  }

  lemma TriesSome(c: Conn, endpoints: seq<Endpoint>)
    requires Tries(c, endpoints)
    ensures endpoints != []
  {
  }

  /** When the endpoints found do not include that of an open socket, they are tried in
      the order they were found in and none is left out: after `n` failures the connect
      pending and the socket are of the endpoint with index `n`, and if it succeeds the
      request is served there; after all have failed, and not before, the client is told
      so. */
  lemma EndpointsTriedInOrder(cfg: Config, c: Conn, endpoints: seq<Endpoint>, n: nat)
    requires Inv(c) && Live(c) && c.ctx.state == ResolveOriginServerAddress && Enabled(c, Resolved(endpoints))
    requires c.origin.Some? ==> c.origin.value !in endpoints
    requires n <= |endpoints|
    ensures var run := [Resolved(endpoints)] + Failures(n);
            && c.requestHead.Some? && Possible(cfg, c, run)
            && var d := After(cfg, c, run);
               if n < |endpoints| then
                 && Live(d) && d.ctx.state == ConnectToOriginServer
                 && d.ops == NO_OPS.(connects := [endpoints[n..]]) && d.origin == Some(endpoints[n])
                 && Enabled(d, Connected)
                 && var e := Step(cfg, d, Connected);
                    && Live(e) && e.origin == Some(endpoints[n])
                    && (if c.requestHead.value.verb == "CONNECT"
                        then e.ctx.state == ReportConnectionEstablished
                        else e.ctx.state == WriteHttpRequestHeader
                             && |e.ops.originWrites| == 1 && e.ops.originWrites[0].peer == Some(endpoints[n]))
               else
                 && d.ctx.state == ReportError && d.origin.None?
                 && Tells(d.modifiedResponse, c.requestHead.value.verb == "HEAD", 502, "Bad Gateway",
                          "Failed to connect to origin server")
  {
    hide Tells, Step, Inv, Enabled;
    FirstIsTried(cfg, c, endpoints);
    var d := Step(cfg, c, Resolved(endpoints));
    FailuresInOrder(cfg, d, endpoints, n);
    var run := [Resolved(endpoints)] + Failures(n);
    assert run[0] == Resolved(endpoints) && run[1..] == Failures(n);
    if n < |endpoints| {
      assert endpoints[n..][0] == endpoints[n];
      ConnectedServes(cfg, After(cfg, d, Failures(n)), endpoints[n..]);
    }
  }

  lemma FirstIsTried(cfg: Config, c: Conn, endpoints: seq<Endpoint>)
    requires Inv(c) && Live(c) && c.ctx.state == ResolveOriginServerAddress && Enabled(c, Resolved(endpoints))
    requires c.origin.Some? ==> c.origin.value !in endpoints
    ensures c.requestHead.Some?
    ensures var d := Step(cfg, c, Resolved(endpoints));
            Tries(d, endpoints) && d.requestHead == c.requestHead && d.requestData == c.requestData
  {
    hide FindHeadEnd, OnClientData, OnOriginData, OnClientWritten, OnOriginWritten, OnConnect, OnError;
    CompletedIsQuiet(c, Resolved(endpoints));
    ReachingGood(cfg, c, Resolved(endpoints));
  }

  lemma ConnectedServes(cfg: Config, c: Conn, endpoints: seq<Endpoint>)
    requires Tries(c, endpoints)
    ensures Enabled(c, Connected) && c.requestHead.Some?
    ensures var d := Step(cfg, c, Connected);
            && Live(d) && d.origin == Some(endpoints[0])
            && (if c.requestHead.value.verb == "CONNECT" then d.ctx.state == ReportConnectionEstablished
                else d.ctx.state == WriteHttpRequestHeader
                     && |d.ops.originWrites| == 1 && d.ops.originWrites[0].peer == Some(endpoints[0]))
  {
    hide FindHeadEnd, Stripped, RequestText, OnResolved, OnClientData, OnOriginData, OnClientWritten, OnOriginWritten,
      OnError;
    CompletedIsQuiet(c, Connected);
  }

  // ---------------------------------------------------------- the socket used again

  /** The head of a request is being written on the socket that was open, from its first
      byte, and nothing was resolved or connected for it. */
  ghost predicate WritesAtOnce(c: Conn, d: Conn, r: RequestHead) {
    && Live(d) && d.ctx.state == WriteHttpRequestHeader && d.origin == c.origin && d.ctx.reconnectOnError
    && d.requestHead == Some(Stripped(r))
    && d.ops == NO_OPS.(originWrites := [OriginWrite(ModifiedRequest, 0, |d.modifiedRequest|, c.origin)])
  }

  /** One resolution has been started, of the name the request asks for. */
  ghost predicate ResolvesOnce(d: Conn, r: RequestHead) {
    && Live(d) && d.ctx.state == ResolveOriginServerAddress && d.requestHead == Some(r)
    && d.ctx.originName == r.host && d.ctx.originPort == r.port
    && d.ops == NO_OPS.(resolves := [Query(r.host, r.port)])
  }

  /** Whatever pieces its head came in: a request that may pass is taken over the open
      socket at once exactly if that was opened for the same host and port and the
      request is no CONNECT; and otherwise its name is resolved once, with the socket
      left as it is, or closed for a CONNECT. */
  lemma RequestReusesIff(cfg: Config, c: Conn, data: string)
    requires Inv(c) && Live(c) && c.ctx.state == ReadHttpRequestHeader && Enabled(c, ClientRead(data))
    requires var x := c.requestData + data; RequestIn(x) && MayPass(cfg, RequestOf(x))
    ensures var d, r := Step(cfg, c, ClientRead(data)), RequestOf(c.requestData + data);
            && d.requestData == c.requestData + data
            && if r.verb != "CONNECT" && c.origin.Some? && r.host == c.ctx.originName && r.port == c.ctx.originPort
               then WritesAtOnce(c, d, r) && d.modifiedRequest == UpImage(d.requestData)
               else ResolvesOnce(d, r) && d.origin == if r.verb == "CONNECT" then None else c.origin
  {
    hide FindHeadEnd, ParsedRequest, JudgeRequest, MayPass, Obey, Step, Enabled, RequestText, Stripped, Inv;
    var x := c.requestData + data;
    var n := FindHeadEnd(x).value + 4;
    var r := RequestOf(x);
    RequestReadGathers(cfg, c, data);
    assert x[..n] + x[n..] == x;
    assert Gather(MAX_REQUEST_HEADER_LENGTH, c.requestData, data) == Complete(x[..n], x[n..]);
    PassedIffMayPass(cfg, r, c.req, |x| - n);
    var d := Step(cfg, c, ClientRead(data));
    var q := c.(requestData := x, requestHead := Some(r), upRead := d.upRead, upWrite := d.upWrite, waits := 0, ops := NO_OPS);
    NoFaultYet(c);
    ObeyReuses(q, JudgeRequest(cfg, r, c.req, |x| - n), r);
  }

  lemma NoFaultYet(c: Conn)
    requires Inv(c) && Live(c)
    ensures !c.fault && c.fired == 0
  {
    hide FindHeadEnd, Shape;
  }

  lemma ObeyReuses(c: Conn, j: Judgement<RequestContext>, r: RequestHead)
    requires c.requestHead == Some(r) && c.waits == 0 && c.ops == NO_OPS && FindHeadEnd(c.requestData).Some?
    requires j.Forward? || j.Tunnel?
    ensures var d := Obey(c, j);
            && d.requestData == c.requestData
            && if r.verb != "CONNECT" && c.origin.Some? && r.host == c.ctx.originName && r.port == c.ctx.originPort
               then WritesAtOnce(c, d, r)
                    && d.modifiedRequest == RequestText(Stripped(r)) + c.requestData[FindHeadEnd(c.requestData).value + 4..]
               else ResolvesOnce(d, r) && d.origin == if r.verb == "CONNECT" then None else c.origin
  {
    hide FindHeadEnd, RequestText, Stripped, OnConnect;
    var d := c.(req := j.context, ctx := c.ctx.(reconnectOnError := true));
    if r.verb != "CONNECT" {
      HeadIsWritten(d, r);
    }
  }

  lemma HeadIsWritten(c: Conn, r: RequestHead)
    requires c.requestHead == Some(r) && c.waits == 0 && c.ops == NO_OPS && FindHeadEnd(c.requestData).Some?
    requires r.verb != "CONNECT" && c.ctx.reconnectOnError
    ensures var d := OnConnect(c);
            && d.requestData == c.requestData && WritesAtOnce(c, d, r)
            && d.modifiedRequest == RequestText(Stripped(r)) + c.requestData[FindHeadEnd(c.requestData).value + 4..]
  {
    hide FindHeadEnd, RequestText, Stripped;
  }

  /** And when a name has been resolved: if the endpoint of the open socket comes first
      among those found, the head is written on that socket and no connect is started; if
      it comes later, the socket is closed and the write goes nowhere, so that it will be
      tried anew; and if it is not there, or no socket is open, the first is connected
      to. */
  lemma ResolvedReusesIff(cfg: Config, w: World, endpoints: seq<Endpoint>)
    requires RoutingInv(w) && Live(w.conn) && w.conn.ctx.state == ResolveOriginServerAddress
    requires Enabled(w.conn, Resolved(endpoints))
    ensures w.conn.requestHead.Some?
    ensures var c, d := w.conn, Step(cfg, w.conn, Resolved(endpoints));
            if c.origin == Some(endpoints[0]) then WritesAtOnce(c, d, c.requestHead.value)
            else if c.origin.Some? && c.origin.value in endpoints then
              WritesAtOnce(CloseOrigin(c), d, c.requestHead.value)
            else
              && Live(d) && d.ctx.state == ConnectToOriginServer && d.origin == Some(endpoints[0])
              && d.ops == NO_OPS.(connects := [endpoints])
  {
    hide FindHeadEnd, Stripped, RequestText, OnClientData, OnOriginData, OnClientWritten, OnOriginWritten, OnError,
      Reached;
    CompletedIsQuiet(w.conn, Resolved(endpoints));
  }

  // ------------------------------------------------------------- the end of an exchange

  lemma LastByteTurns(cfg: Config, c: Conn, e: Event)
    requires Inv(c) && Live(c) && Enabled(c, e) && LastByte(c, e)
    requires c.ctx.state in {WriteHttpResponseHeader, WriteHttpResponseContent} && ResponseDone(c.resp)
    ensures var d := Step(cfg, c, e);
            if c.req.keepAlive then
              && Live(d) && d.ctx.state == ReadHttpRequestHeader && d.requestData == ""
              && d.origin == (if c.resp.keepAlive then c.origin else None)
              && d.ctx.originName == c.ctx.originName && d.ctx.originPort == c.ctx.originPort
            else !Live(d) && !d.clientOpen
  {
    hide FindHeadEnd, ResponseDone, OnClientData, OnOriginData, OnOriginWritten, OnResolved, OnConnect, OnError;
    CompletedIsQuiet(c, e);
  }

  /** An exchange that is over leaves the client awaited or closed as the fields of its
      request ask, and the origin open or closed as those of its response say, under the
      name the request asked for. */
  lemma ExchangeLeaves(cfg: Config, w: World, e: Event)
    requires WorldInv(cfg, w) && Live(w.conn) && Enabled(w.conn, e) && LastByte(w.conn, e)
    requires w.conn.ctx.state in {WriteHttpResponseHeader, WriteHttpResponseContent}
    requires var d := Step(cfg, w.conn, e); !(Live(d) && d.ctx.state == ReadHttpResponseContent)
    ensures RequestIn(w.trace.fromClient) && ResponseIn(w.trace.fromOrigin)
    ensures var d, r, h := Step(cfg, w.conn, e), RequestOf(w.trace.fromClient), ResponseOf(w.trace.fromOrigin);
            if ClientStays(r) then
              && Live(d) && d.ctx.state == ReadHttpRequestHeader && d.requestData == ""
              && d.origin == (if OriginStays(h) then w.conn.origin else None)
              && d.ctx.originName == r.host && d.ctx.originPort == r.port
            else !Live(d) && !d.clientOpen
  {
    hide Inv, Streams, Framed, ResponseIn, ResponseOf, RequestIn, RequestOf, Step, Enabled, LastByte, ClientStays,
      OriginStays, Conserved, ForwardsViable, ResponseDone, RoutingInv, HeadOf, RequestRouted, FramedRequest,
      FramedResponse;
    var c, t := w.conn, w.trace;
    ServingFacts(cfg, c, t);
    RespondingFacts(cfg, c, t);
    RespondingIsRouted(w);
    ClientKeptAsSaid(cfg, c, t);
    OriginKeptAsSaid(c, t);
    AnswerGoesOnIff(cfg, c, e);
    LastByteTurnsIfDone(cfg, c, e);
    AskedIsSent(c, t);
  }

  lemma RespondingIsRouted(w: World)
    requires RoutingInv(w) && Live(w.conn) && Responds(w.conn.ctx.state)
    ensures RequestRouted(w.conn, w.trace)
  {
    hide Inv, Reached, RequestRouted;
  }

  lemma LastByteTurnsIfDone(cfg: Config, c: Conn, e: Event)
    requires Inv(c) && Live(c) && Enabled(c, e) && LastByte(c, e)
    requires c.ctx.state in {WriteHttpResponseHeader, WriteHttpResponseContent}
    ensures ResponseDone(c.resp) ==>
              var d := Step(cfg, c, e);
              if c.req.keepAlive then
                && Live(d) && d.ctx.state == ReadHttpRequestHeader && d.requestData == ""
                && d.origin == (if c.resp.keepAlive then c.origin else None)
                && d.ctx.originName == c.ctx.originName && d.ctx.originPort == c.ctx.originPort
              else !Live(d) && !d.clientOpen
  {
    hide Inv, Enabled, LastByte, ResponseDone, Step;
    if ResponseDone(c.resp) {
      LastByteTurns(cfg, c, e);
    }
  }

  /** The records say of client and origin what the fields of the messages say. */
  lemma ClientKeptAsSaid(cfg: Config, c: Conn, t: Trace)
    requires FramedRequest(cfg, c, t) && HeadOf(c, t) && RequestOf(c.requestData).verb != CONNECT
    ensures RequestIn(t.fromClient) && RequestOf(t.fromClient) == RequestOf(c.requestData)
    ensures c.req.keepAlive == ClientStays(RequestOf(t.fromClient))
  {
    hide RequestIn, RequestOf, MayPass, BodyOf, ClientKeepAlive, ClientStays, Timely, RequestLength;
    ExtendedRequest(c.requestData, t.fromClient);
    ClientStaysIff(RequestOf(t.fromClient));
  }

  lemma OriginKeptAsSaid(c: Conn, t: Trace)
    requires FramedResponse(c, t)
    ensures ResponseIn(t.fromOrigin) && c.resp.keepAlive == OriginStays(ResponseOf(t.fromOrigin))
  {
    hide ResponseIn, ResponseOf, BodyOf, ResponseLength, TimelyResponse, Lookup, Lower, SameLetters;
    var connection := Lookup(ResponseOf(t.fromOrigin).headers, "Connection");
    KeepWords(if connection.Some? then connection.value else "");
    NotBoth(if connection.Some? then connection.value else "");
  }

  /** The name under which the socket is remembered is that of the request. */
  lemma AskedIsSent(c: Conn, t: Trace)
    requires HeadOf(c, t) && RequestRouted(c, t)
    ensures RequestIn(c.requestData)
    ensures c.ctx.originName == RequestOf(c.requestData).host && c.ctx.originPort == RequestOf(c.requestData).port
  {
    hide RequestIn, RequestOf, SocketRouted;
  }

  // ---------------------------------------------------------------- the next request

  /** After an exchange whose response keeps its origin, the connection expects a request
      with the socket open to the endpoint of the first, under the name of the first. */
  lemma OriginIsKept(cfg: Config, c: Conn, x: string, y: string, p: Endpoint)
    requires Created(c) && WholeRequest(cfg, x) && WholeResponse(RequestOf(x).verb, y) && OriginStays(ResponseOf(y))
    ensures var run := RequestRun(x, p) + ResponseRun(y);
            && GoodRun(cfg, c, run)
            && var w, r := Outcome(cfg, c, run), RequestOf(x);
               && WorldInv(cfg, w) && Expects(w.conn, w.conn.ctx, Some(p))
               && w.conn.ctx.originName == r.host && w.conn.ctx.originPort == r.port
  {
    hide WorldInv, Step, Recorded, WholeRequest, WholeResponse, RequestRun, ResponseRun, Possible, NoChunkedUpload,
      AfterWorld, Created, Started, OriginKeepAlive, OriginStays, ResponseOf, RequestOf, Expects, Enabled, Measured,
      Carried, UpImage, DownImage, LastByte, Inv, ClientStays, ResponseIn, RequestIn;
    WholeIsRead(cfg, x);
    WholeResponseIsRead(RequestOf(x).verb, y);
    FirstWorldGood(cfg, c);
    StartedExpects(c);
    var w := FirstWorld(c);
    RequestGetsThrough(cfg, w, x, p);
    var v := AfterWorld(cfg, w, RequestRun(x, p));
    AnswerGetsBack(cfg, v, y);
    RunsJoin(cfg, w, RequestRun(x, p), ResponseRun(y));
    RunKeepsWorld(cfg, w, RequestRun(x, p) + ResponseRun(y));
    var u, e := NextWorld(cfg, v, OriginRead(y)), ClientWritten(|DownImage(y)|);
    var d := Step(cfg, u.conn, e);
    ForwardedOriginStays(RequestOf(x).verb, y);
    ExpectsMeans(d, Some(p));
    ExchangeLeaves(cfg, u, e);
  }

  lemma ForwardedOriginStays(verb: string, y: string)
    requires WholeResponse(verb, y)
    ensures ResponseIn(y) && OriginKeepAlive(ResponseOf(y)) == OriginStays(ResponseOf(y))
  {
    hide ResponseIn, ResponseOf, BodyOf, ResponseLength, Lookup, Lower, SameLetters, Feed, ChunkGrammar.IsBody;
    var connection := Lookup(ResponseOf(y).headers, "Connection");
    KeepWords(if connection.Some? then connection.value else "");
    NotBoth(if connection.Some? then connection.value else "");
  }

  lemma ExpectsMeans(c: Conn, origin: Option<Endpoint>)
    requires Expects(c, c.ctx, origin)
    ensures Inv(c) && Live(c) && c.ctx.state == ReadHttpRequestHeader && c.requestData == "" && c.origin == origin
    ensures c.ops.clientReads == 1
  {
    hide FindHeadEnd;
  }

  /** The next request, if it is for the same host and port, is at the same endpoint with
      two events: its head is read, and the origin takes what is written. No name is
      resolved and no connect started for it, and until the first byte is taken it could
      still be tried anew. */
  lemma NextRequestReuses(cfg: Config, c: Conn, x: string, y: string, p: Endpoint, z: string)
    requires Created(c) && WholeRequest(cfg, x) && WholeResponse(RequestOf(x).verb, y) && OriginStays(ResponseOf(y))
    requires HeadInOneRead(cfg, z) && RequestOf(z).host == RequestOf(x).host && RequestOf(z).port == RequestOf(x).port
    ensures var run := RequestRun(x, p) + ResponseRun(y) + ([ClientRead(z)] + []);
            && GoodRun(cfg, c, run)
            && var w := Outcome(cfg, c, run);
               && Live(w.conn) && w.conn.ctx.state == WriteHttpRequestHeader && w.conn.origin == Some(p)
               && w.conn.ctx.reconnectOnError && w.conn.ops.resolves == [] && w.conn.ops.connects == []
               && w.conn.ops.originWrites == [OriginWrite(ModifiedRequest, 0, |UpImage(z)|, Some(p))]
    ensures var run := RequestRun(x, p) + ResponseRun(y) + ([ClientRead(z)] + ([OriginWritten(|UpImage(z)|)] + []));
            && GoodRun(cfg, c, run)
            && var w := Outcome(cfg, c, run);
               && Live(w.conn) && w.trace.fromClient == z && w.trace.toOrigin == UpImage(z)
               && w.conn.origin == Some(p) && !w.conn.ctx.reconnectOnError && w.conn.ops.resolves == []
  {
    hide WorldInv, Step, Recorded, WholeRequest, WholeResponse, RequestRun, ResponseRun, Possible, NoChunkedUpload,
      AfterWorld, Created, Started, OriginStays, ResponseOf, RequestOf, Expects, Enabled, UpImage, Inv, RequestIn,
      HeadInOneRead;
    WholeIsRead(cfg, x);
    HeadIsRead(cfg, z);
    OriginIsKept(cfg, c, x, y, p);
    var w := Outcome(cfg, c, RequestRun(x, p) + ResponseRun(y));
    SameNameReuses(cfg, w, z, p);
    RunsJoin(cfg, FirstWorld(c), RequestRun(x, p) + ResponseRun(y), [ClientRead(z)] + []);
    RunsJoin(cfg, FirstWorld(c), RequestRun(x, p) + ResponseRun(y), [ClientRead(z)] + ([OriginWritten(|UpImage(z)|)] + []));
  }

  /** The same of any run after which a request is expected, with the socket open. */
  lemma SameNameReuses(cfg: Config, w: World, z: string, p: Endpoint)
    requires WorldInv(cfg, w) && Expects(w.conn, w.conn.ctx, Some(p)) && HeadInOneRead(cfg, z)
    requires RequestIn(z) && RequestOf(z).host == w.conn.ctx.originName && RequestOf(z).port == w.conn.ctx.originPort
    ensures var run := [ClientRead(z)] + [];
            && Possible(cfg, w.conn, run) && NoChunkedUpload(cfg, w.conn, run)
            && var d := AfterWorld(cfg, w, run).conn;
               && Live(d) && d.ctx.state == WriteHttpRequestHeader && d.origin == Some(p) && d.ctx.reconnectOnError
               && d.ops == NO_OPS.(originWrites := [OriginWrite(ModifiedRequest, 0, |UpImage(z)|, Some(p))])
    ensures var run := [ClientRead(z)] + ([OriginWritten(|UpImage(z)|)] + []);
            && Possible(cfg, w.conn, run) && NoChunkedUpload(cfg, w.conn, run)
            && var v := AfterWorld(cfg, w, run);
               && Live(v.conn) && v.trace.fromClient == z && v.trace.toOrigin == UpImage(z)
               && v.conn.origin == Some(p) && !v.conn.ctx.reconnectOnError && v.conn.ops.resolves == []
  {
    hide WorldInv, Step, Recorded, Possible, NoChunkedUpload, AfterWorld, RequestOf, Expects, Enabled, UpImage, Inv,
      RequestIn, HeadInOneRead, AsksChunkedUpload, Streams, MayPass, Stripped;
    HeadIsRead(cfg, z);
    HeadMayPass(cfg, z);
    ExpectsMeans(w.conn, Some(p));
    assert "" + z == z;
    ExpectedIsEnabled(w.conn, z);
    NoChunksIn(cfg, w.conn, z);
    RequestReusesIff(cfg, w.conn, z);
    GoodStep(cfg, w, ClientRead(z));
    var u, e := NextWorld(cfg, w, ClientRead(z)), OriginWritten(|UpImage(z)|);
    WorldFacts(cfg, u);
    BeforeMeans(u.conn, u.trace);
    ImageIsLong(z);
    HeadTaken(cfg, u.conn);
    GoodStep(cfg, u, e);
    var v := NextWorld(cfg, u, e);
    WorldFacts(cfg, v);
    BeforeMeans(v.conn, v.trace);
    RecordedKeepsClient(u.conn, e, v.conn, u.trace);
    EmptyRun(cfg, u);
    EmptyRun(cfg, v);
    RunCons(cfg, w, ClientRead(z), []);
    RunCons(cfg, u, e, []);
    RunCons(cfg, w, ClientRead(z), [e] + []);
  }

  lemma HeadMayPass(cfg: Config, z: string)
    requires HeadInOneRead(cfg, z)
    ensures RequestIn(z) && MayPass(cfg, RequestOf(z))
  {
    hide RequestIn, RequestOf, MayPass;
  }

  lemma ExpectedIsEnabled(c: Conn, z: string)
    requires c.ops.clientReads == 1 && 1 <= |z| <= BUFFER_LENGTH
    ensures Enabled(c, ClientRead(z))
  {
  }

  lemma NoChunksIn(cfg: Config, c: Conn, z: string)
    requires c.requestData == "" && RequestIn(z) && MayPass(cfg, RequestOf(z))
    ensures !AsksChunkedUpload(cfg, c, z)
  {
    hide FindHeadEnd, ParsedRequest, Authorized, Lower, Lookup, Stoull;
    assert "" + z == z;
  }

  lemma ImageIsLong(z: string)
    requires RequestIn(z)
    ensures UpImage(z) != ""
  {
    hide FindHeadEnd, ParsedRequest, Stripped, FieldsText;
  }

  /** When the whole head is taken, the flag that allows a retry is cleared, and the
      request goes on over the same socket. */
  lemma HeadTaken(cfg: Config, c: Conn)
    requires Inv(c) && Live(c) && c.ctx.state == WriteHttpRequestHeader && c.origin.Some? && 1 <= |c.modifiedRequest|
    requires c.ops.originWrites == [OriginWrite(ModifiedRequest, 0, |c.modifiedRequest|, c.origin)]
    ensures var e := OriginWritten(|c.modifiedRequest|);
            Enabled(c, e)
            && var d := Step(cfg, c, e);
               && Live(d) && d.ctx.state in {ReadHttpRequestContent, ReadHttpResponseHeader}
               && d.origin == c.origin && !d.ctx.reconnectOnError && d.ops.resolves == [] && d.ops.connects == []
  {
    hide FindHeadEnd, RequestDone, OnResolved, OnConnect, OnClientData, OnOriginData, OnClientWritten, OnError;
    CompletedIsQuiet(c, OriginWritten(|c.modifiedRequest|));
  }
}
