/** Uploads: how their content is counted, the longest that are counted right, and
    the ones that go wrong. */
module ProxyUploads {
  import opened Text
  import opened ChunkChecker
  import opened HeaderMap
  import opened HeaderGrammar
  import opened HeaderParser
  import opened HeadPrinter
  import opened HeadRoundTrips
  import opened ProxyContext
  import opened ProxyMachine
  import opened ProxyInvariants
  import opened ProxyStreams
  import opened ProxyRouting
  import opened ProxyConservation
  import opened ProxyFraming
  import opened ProxyExchange
  import opened ProxyRuns
  import opened ProxySession
  import opened ProxyService
  import AnswerPages
  import RequestUri

  // ------------------------------------------------------------- one content read

  /** A connection that awaits content of an upload of this length. */
  ghost predicate AwaitsContent(c: Conn, length: nat) {
    && Inv(c) && Live(c) && c.ctx.state == ReadHttpRequestContent
    && c.req.contentLength == Some(length) && c.req.hasRead < length
  }

  /** Every read that can come next is counted in full. */
  ghost predicate CountsAll(cfg: Config, c: Conn) {
    forall data: string | Enabled(c, ClientRead(data)) ::
      Step(cfg, c, ClientRead(data)).req.hasRead == c.req.hasRead + |data|
  }

  /** A content read adds to the counter, which is 64 bits wide, and is written on. */
  lemma ContentReadCounts(cfg: Config, c: Conn, data: string, length: nat)
    requires AwaitsContent(c, length) && Enabled(c, ClientRead(data))
    ensures var d := Step(cfg, c, ClientRead(data));
            && Live(d) && d.ctx.state == WriteHttpRequestContent && d.origin == c.origin
            && d.req == c.req.(hasRead := Wrap64(c.req.hasRead + |data|))
            && d.ops == NO_OPS.(originWrites := [OriginWrite(UpgoingWrite, 0, |data|, c.origin)])
  {
    hide FindHeadEnd, Wrap64, Serving, OnOriginData, OnClientWritten, OnOriginWritten, OnResolved, OnConnect, OnError;
    CompletedIsQuiet(c, ClientRead(data));
  }

  lemma AwaitingCanRead(c: Conn, length: nat, data: string)
    requires AwaitsContent(c, length)
    ensures Enabled(c, ClientRead(data)) <==> 1 <= |data| <= BUFFER_LENGTH
  {
    hide FindHeadEnd, Serving;
  }

  /** A read may wrap the counter exactly if there is no room for the longest one. */
  lemma CountsAllIff(cfg: Config, c: Conn, length: nat)
    requires AwaitsContent(c, length) && length < TWO_64
    ensures CountsAll(cfg, c) <==> c.req.hasRead + BUFFER_LENGTH < TWO_64
  {
    hide AwaitsContent, Step, Enabled, Wrap64;
    var longest := seq(BUFFER_LENGTH, i => 'a');
    AwaitingCanRead(c, length, longest);
    ContentReadCounts(cfg, c, longest, length);
    if c.req.hasRead + BUFFER_LENGTH < TWO_64 {
      forall data: string | Enabled(c, ClientRead(data))
        ensures Step(cfg, c, ClientRead(data)).req.hasRead == c.req.hasRead + |data|
      {
        AwaitingCanRead(c, length, data);
        ContentReadCounts(cfg, c, data, length);
        WrapSmall(c.req.hasRead + |data|);
      }
    } else {
      WrapLarge(c.req.hasRead + BUFFER_LENGTH);
    }
  }

  lemma WrapLarge(n: nat)
    requires TWO_64 <= n
    ensures Wrap64(n) != n
    ensures n < 2 * TWO_64 ==> Wrap64(n) == n - TWO_64
  {
  }

  lemma UploadCounted(cfg: Config, c: Conn, t: Trace)
    requires FramedRequest(cfg, c, t) && RequestOf(c.requestData).verb != CONNECT && c.ctx.state == ReadHttpRequestContent
    ensures c.req.hasRead == Wrap64(|BodyOf(t.fromClient)|)
  {
    hide RequestIn, RequestOf, BodyOf, Authorized, ClientKeepAlive, Wrap64;
  }

  lemma BodyOfMore(c: Conn, t: Trace, data: string)
    requires HeadOf(c, t)
    ensures BodyOf(t.fromClient + data) == BodyOf(t.fromClient) + data
  {
    hide FindHeadEnd, RequestOf, ParsedRequest;
    var x := t.fromClient[|c.requestData|..];
    assert t.fromClient == c.requestData + x;
    HeadEndIn(c.requestData, x);
    BodyGrows(t.fromClient, data);
  }

  /** With the counter short of the length, a write that ends leads to more content. */
  lemma UnfinishedReadsOn(cfg: Config, c: Conn, n: nat)
    requires Inv(c) && Live(c) && c.ctx.state == WriteHttpRequestContent
    requires c.ops == NO_OPS.(originWrites := [OriginWrite(UpgoingWrite, 0, n, c.origin)]) && c.origin.Some? && 1 <= n
    requires c.req.contentLength.Some? && c.req.hasRead < c.req.contentLength.value
    ensures Enabled(c, OriginWritten(n))
    ensures var e := Step(cfg, c, OriginWritten(n));
            Live(e) && e.ctx.state == ReadHttpRequestContent && e.req == c.req && e.origin == c.origin
  {
    hide FindHeadEnd, Serving, OnClientData, OnOriginData, OnClientWritten, OnResolved, OnConnect, OnError;
    CompletedIsQuiet(c, OriginWritten(n));
  }

  /** A read that wraps the counter leaves it short of the length. */
  lemma WrappedReadsOn(cfg: Config, c: Conn, data: string, length: nat)
    requires AwaitsContent(c, length) && c.origin.Some? && Enabled(c, ClientRead(data))
    requires length < TWO_64 <= c.req.hasRead + |data|
    ensures var d := Step(cfg, c, ClientRead(data));
            && d.req == c.req.(hasRead := c.req.hasRead + |data| - TWO_64)
            && Enabled(d, OriginWritten(|data|))
            && var e := Step(cfg, d, OriginWritten(|data|));
               Live(e) && e.ctx.state == ReadHttpRequestContent && e.req == d.req
  {
    hide Step, Enabled, AwaitsContent, Wrap64, Inv;
    AwaitingInv(c, length);
    AwaitingCanRead(c, length, data);
    ContentReadCounts(cfg, c, data, length);
    WrapLarge(c.req.hasRead + |data|);
    OnlyInHeadState(cfg, c, data);
    StepKeepsInv(cfg, c, ClientRead(data));
    UnfinishedReadsOn(cfg, Step(cfg, c, ClientRead(data)), |data|);
  }

  /** When a content read wraps the counter the body is all there, and yet the
      connection goes on to await content. */
  lemma WrappedUploadReadsOn(cfg: Config, w: World, data: string, length: nat)
    requires FramingInv(cfg, w) && AwaitsContent(w.conn, length) && w.conn.origin.Some?
    requires Enabled(w.conn, ClientRead(data)) && length < TWO_64 <= w.conn.req.hasRead + |data|
    ensures length <= |BodyOf(w.trace.fromClient + data)|
    ensures var d := Step(cfg, w.conn, ClientRead(data));
            && Enabled(d, OriginWritten(|data|))
            && var e := Step(cfg, d, OriginWritten(|data|));
               Live(e) && e.ctx.state == ReadHttpRequestContent
               && e.req == w.conn.req.(hasRead := w.conn.req.hasRead + |data| - TWO_64)
  {
    hide Wrap64, BodyOf, FramedRequest, FramedResponse, Framed, Streams, Step, Enabled, Inv, RequestOf;
    ServingFacts(cfg, w.conn, w.trace);
    UploadCounted(cfg, w.conn, w.trace);
    BodyOfMore(w.conn, w.trace, data);
    WrapIsNoMore(|BodyOf(w.trace.fromClient)|);
    WrappedReadsOn(cfg, w.conn, data, length);
  }

  lemma AwaitingInv(c: Conn, length: nat)
    requires AwaitsContent(c, length)
    ensures Inv(c) && Live(c) && c.ctx.state == ReadHttpRequestContent
    ensures c.req.contentLength == Some(length) && c.req.hasRead < length
  {
    hide Inv;
  }

  // ------------------------------------------------------------------------ over runs

  /** While content is awaited or written the origin socket is open. */
  ghost predicate UploadOpen(c: Conn) { Live(c) && HandlesContent(c) ==> c.origin.Some? }

  ghost predicate HandlesContent(c: Conn) { c.ctx.state in {ReadHttpRequestContent, WriteHttpRequestContent} }

  lemma OnConnectHandlesNone(c: Conn)
    requires !HandlesContent(c)
    ensures !HandlesContent(OnConnect(c))
  {
    hide FindHeadEnd, RequestText, Stripped;
  }

  lemma ReachingHandlesNone(c: Conn, endpoints: seq<Endpoint>)
    requires !HandlesContent(c) && endpoints != []
    ensures !HandlesContent(AsyncConnect(c)) && !HandlesContent(OnResolved(c, endpoints))
  {
    hide OnConnect;
    forall d: Conn | !HandlesContent(d) ensures !HandlesContent(OnConnect(d)) {
      OnConnectHandlesNone(d);
    }
  }

  lemma ObeyHandlesNone(c: Conn, j: Judgement<RequestContext>)
    requires !HandlesContent(c)
    ensures !HandlesContent(Obey(c, j))
  {
    hide AsyncConnect, ProblemPage, AuthPage;
    ReachingHandlesNone(c.(req := j.context), [Endpoint("", 0)]);
  }

  lemma HeadHandlesNone(cfg: Config, c: Conn, data: string)
    requires c.ctx.state == ReadHttpRequestHeader
    ensures !HandlesContent(OnRequestHeadData(cfg, c, data))
  {
    hide FindHeadEnd, ParsedRequest, JudgeRequest, Obey, ProblemPage;
    var d := c.(requestData := c.requestData + data);
    var p := FindHeadEnd(d.requestData);
    if p.Some? {
      var head := ParsedRequest(d.requestData[..p.value + 4]);
      if head.Some? {
        ObeyHandlesNone(d.(requestHead := head), JudgeRequest(cfg, head.value, d.req, |d.requestData| - (p.value + 4)));
      }
    }
  }

  lemma FailureHandlesNone(c: Conn)
    requires Quiet(c)
    ensures Live(OnError(c)) ==> !HandlesContent(OnError(c))
  {
    hide FindHeadEnd, ProblemPage, OnConnect;
    if c.ctx.state == WriteHttpRequestHeader {
      ReachingHandlesNone(CloseOrigin(c), [Endpoint("", 0)]);
    }
  }

  lemma ReadKeepsOpen(cfg: Config, c: Conn, e: Event)
    requires Inv(c) && Live(c) && UploadOpen(c) && Enabled(c, e) && c.ctx.state != TunnelTransfer
    requires e.ClientRead? || e.OriginRead?
    ensures UploadOpen(Step(cfg, c, e))
  {
    hide FindHeadEnd, Shape, OnRequestHeadData, OnResponseHeadData, Feed, Wrap64, OnClientWritten, OnOriginWritten,
      OnResolved, OnConnect, OnError;
    CompletedIsQuiet(c, e);
    WhoCompletes(c, e);
    var d := Completed(c, e).(waits := 0);
    if c.ctx.state == ReadHttpRequestHeader {
      HeadHandlesNone(cfg, d.(upWrite := d.upRead), e.data);
    } else if c.ctx.state == ReadHttpResponseHeader {
      ResponseHeadKeeps(d, e.data);
    }
  }

  lemma WriteKeepsOpen(cfg: Config, c: Conn, e: Event)
    requires Inv(c) && Live(c) && UploadOpen(c) && Enabled(c, e) && c.ctx.state != TunnelTransfer
    requires e.ClientWritten? || e.OriginWritten?
    ensures UploadOpen(Step(cfg, c, e))
  {
    hide FindHeadEnd, Serving, CheckerAlive, RequestDone, ResponseDone, OnClientData, OnOriginData, OnResolved, OnConnect,
      OnError;
    CompletedIsQuiet(c, e);
    WhoCompletes(c, e);
  }

  lemma OtherKeepsOpen(cfg: Config, c: Conn, e: Event)
    requires Inv(c) && Live(c) && UploadOpen(c) && Enabled(c, e) && c.ctx.state != TunnelTransfer
    requires !e.ClientRead? && !e.OriginRead? && !e.ClientWritten? && !e.OriginWritten?
    ensures UploadOpen(Step(cfg, c, e))
  {
    hide FindHeadEnd, Shape, OnClientData, OnOriginData, OnClientWritten, OnOriginWritten, OnResolved, OnConnect,
      OnError;
    if !e.TimerExpires? && !e.TimeoutRuns? {
      CompletedIsQuiet(c, e);
      WhoCompletes(c, e);
      var d := Completed(c, e).(waits := 0);
      match e {
        case Resolved(endpoints) => ReachingHandlesNone(d, endpoints);
        case Connected => OnConnectHandlesNone(d);
        case ConnectFailed =>
          FailureHandlesNone(CloseOrigin(d));
          if |c.ops.connects[0]| > 1 {
            ReachingHandlesNone(CloseOrigin(d), c.ops.connects[0][1..]);
          }
        case _ => FailureHandlesNone(d);
      }
    }
  }

  lemma TunnelKeepsOpen(cfg: Config, c: Conn, e: Event)
    requires Inv(c) && Live(c) && Enabled(c, e) && c.ctx.state == TunnelTransfer
    ensures Step(cfg, c, e).ctx.state == TunnelTransfer
  {
    hide FindHeadEnd, Serving;
  }

  lemma StepKeepsOpen(cfg: Config, c: Conn, e: Event)
    requires Inv(c) && UploadOpen(c) && Enabled(c, e)
    ensures UploadOpen(Step(cfg, c, e))
  {
    hide Inv, Enabled, Step;
    if !Live(c) {
      NothingAfterTheEnd(cfg, c, e);
    } else if c.ctx.state == TunnelTransfer {
      TunnelKeepsOpen(cfg, c, e);
    } else if e.ClientRead? || e.OriginRead? {
      ReadKeepsOpen(cfg, c, e);
    } else if e.ClientWritten? || e.OriginWritten? {
      WriteKeepsOpen(cfg, c, e);
    } else {
      OtherKeepsOpen(cfg, c, e);
    }
  }

  lemma {:induction false} RunKeepsOpen(cfg: Config, c: Conn, run: seq<Event>)
    requires Inv(c) && UploadOpen(c) && Possible(cfg, c, run) && NoChunkedUpload(cfg, c, run)
    ensures UploadOpen(After(cfg, c, run))
    decreases |run|
  {
    hide Inv, Enabled, Step, AsksChunkedUpload, UploadOpen;
    if run != [] {
      StepKeepsOpen(cfg, c, run[0]);
      StepKeepsInv(cfg, c, run[0]);
      RunKeepsOpen(cfg, Step(cfg, c, run[0]), run[1..]);
    }
  }

  /** A run from the start of a new connection after which content of an upload of this
      length is awaited. */
  ghost predicate Awaited(cfg: Config, c: Conn, run: seq<Event>, length: nat) {
    GoodRun(cfg, c, run) && AwaitsContent(Outcome(cfg, c, run).conn, length)
  }

  lemma AwaitedFacts(cfg: Config, c: Conn, run: seq<Event>, length: nat)
    requires Awaited(cfg, c, run, length)
    ensures var w := Outcome(cfg, c, run);
            WorldInv(cfg, w) && w.conn.origin.Some? && w.conn.req.hasRead < length < TWO_64
  {
    hide Step, Started, WorldInv, Outcome, Inv, AwaitsContent, UploadOpen, AsksChunkedUpload, After, Possible,
      NoChunkedUpload, Created;
    OutcomeIsGood(cfg, c, run);
    StartedInv(c);
    StartIsOpen(c);
    RunKeepsOpen(cfg, Started(c), run);
    AwaitingInv(Outcome(cfg, c, run).conn, length);
    OpenFacts(Outcome(cfg, c, run).conn);
    LengthFits(cfg, Outcome(cfg, c, run), length);
  }

  lemma StartIsOpen(c: Conn)
    requires Created(c)
    ensures UploadOpen(Started(c))
  {
  }

  lemma OpenFacts(c: Conn)
    requires UploadOpen(c) && Live(c) && c.ctx.state == ReadHttpRequestContent
    ensures c.origin.Some?
  {
  }

  /** A declared length is one that fits 64 bits. */
  lemma LengthFits(cfg: Config, w: World, length: nat)
    requires WorldInv(cfg, w) && AwaitsContent(w.conn, length)
    ensures length < TWO_64
  {
    hide Inv, Streams, Framed, Conserved, RoutingInv, ForwardsViable, FramedRequest, RequestOf, RequestLength;
    ServingFacts(cfg, w.conn, w.trace);
    MeasuredFits(cfg, w.conn, w.trace);
  }

  lemma MeasuredFits(cfg: Config, c: Conn, t: Trace)
    requires FramedRequest(cfg, c, t) && RequestOf(c.requestData).verb != CONNECT && c.req.contentLength.Some?
    ensures c.req.contentLength.value < TWO_64
  {
    hide RequestIn, RequestOf, Authorized, ClientKeepAlive, BodyOf, Lookup;
  }

  /** Byte by byte, and each written on, content is read up to any count below the
      length. */
  lemma {:induction false} ReadsUpTo(cfg: Config, w: World, length: nat, k: nat) returns (run: seq<Event>)
    requires WorldInv(cfg, w) && AwaitsContent(w.conn, length) && w.conn.origin.Some?
    requires w.conn.req.hasRead <= k < length < TWO_64
    ensures Possible(cfg, w.conn, run) && NoChunkedUpload(cfg, w.conn, run)
    ensures var d := AfterWorld(cfg, w, run).conn;
            AwaitsContent(d, length) && d.req.hasRead == k
    decreases k - w.conn.req.hasRead
  {
    hide WorldInv, AwaitsContent, Inv, Enabled, Step, Recorded, AsksChunkedUpload, Wrap64, Possible, NoChunkedUpload,
      AfterWorld;
    AwaitingInv(w.conn, length);
    if k == w.conn.req.hasRead {
      run := [];
      EmptyRun(cfg, w);
    } else {
      var v := OneByteRead(cfg, w, length);
      var more := ReadsUpTo(cfg, v, length, k);
      RunCons(cfg, NextWorld(cfg, w, ClientRead("a")), OriginWritten(1), more);
      RunCons(cfg, w, ClientRead("a"), [OriginWritten(1)] + more);
      run := [ClientRead("a")] + ([OriginWritten(1)] + more);
    }
  }

  lemma OneByteRead(cfg: Config, w: World, length: nat) returns (v: World)
    requires WorldInv(cfg, w) && AwaitsContent(w.conn, length) && w.conn.origin.Some?
    requires w.conn.req.hasRead + 1 < length < TWO_64
    ensures Enabled(w.conn, ClientRead("a")) && !AsksChunkedUpload(cfg, w.conn, "a")
    ensures var u := NextWorld(cfg, w, ClientRead("a"));
            Enabled(u.conn, OriginWritten(1)) && v == NextWorld(cfg, u, OriginWritten(1))
    ensures WorldInv(cfg, v) && AwaitsContent(v.conn, length) && v.conn.origin.Some?
    ensures v.conn.req.hasRead == w.conn.req.hasRead + 1
  {
    hide WorldInv, Inv, Enabled, Step, Recorded, AsksChunkedUpload, Wrap64;
    AwaitingInv(w.conn, length);
    AwaitingCanRead(w.conn, length, "a");
    ContentReadCounts(cfg, w.conn, "a", length);
    WrapSmall(w.conn.req.hasRead + 1);
    OnlyInHeadState(cfg, w.conn, "a");
    GoodStep(cfg, w, ClientRead("a"));
    var u := NextWorld(cfg, w, ClientRead("a"));
    UnfinishedReadsOn(cfg, u.conn, 1);
    GoodStep(cfg, u, OriginWritten(1));
    v := NextWorld(cfg, u, OriginWritten(1));
    WorldFacts(cfg, v);
  }

  /** An upload that is awaited once may come to any count below its length. */
  lemma AwaitedUpTo(cfg: Config, c: Conn, run: seq<Event>, length: nat, k: nat) returns (longer: seq<Event>)
    requires Awaited(cfg, c, run, length) && Outcome(cfg, c, run).conn.req.hasRead <= k < length
    ensures Awaited(cfg, c, longer, length) && Outcome(cfg, c, longer).conn.req.hasRead == k
  {
    hide WorldInv, AwaitsContent, Possible, NoChunkedUpload, AfterWorld, Created, Started;
    AwaitedFacts(cfg, c, run, length);
    var more := ReadsUpTo(cfg, Outcome(cfg, c, run), length, k);
    RunsJoin(cfg, FirstWorld(c), run, more);
    longer := run + more;
  }

  /** For an upload of a given length that a connection ever awaits, no content read in
      any of its runs is miscounted exactly if the length leaves room for one more read
      below 2^64. */
  lemma NoWrapIffCountable(cfg: Config, c: Conn, once: seq<Event>, length: nat)
    requires Awaited(cfg, c, once, length)
    ensures Countable(length) <==>
              forall run | Awaited(cfg, c, run, length) :: CountsAll(cfg, Outcome(cfg, c, run).conn)
  {
    hide CountsAll, AwaitsContent, WorldInv, GoodRun, Outcome;
    if Countable(length) {
      forall run | Awaited(cfg, c, run, length) ensures CountsAll(cfg, Outcome(cfg, c, run).conn) {
        AwaitedFacts(cfg, c, run, length);
        CountsAllIff(cfg, Outcome(cfg, c, run).conn, length);
      }
    } else {
      AwaitedFacts(cfg, c, once, length);
      var run := AwaitedUpTo(cfg, c, once, length, length - 1);
      AwaitedFacts(cfg, c, run, length);
      CountsAllIff(cfg, Outcome(cfg, c, run).conn, length);
    }
  }

  // --------------------------------------------------------------------- such uploads

  /** Four events after the start, content is awaited of any upload whose head comes in
      one read without all of its body. */
  lemma UploadIsAwaited(cfg: Config, c: Conn, x: string, p: Endpoint)
    requires Created(c) && HeadInOneRead(cfg, x) && !WholeLength(x)
    ensures RequestLength(RequestOf(x)).Some?
    ensures Awaited(cfg, c, RequestRun(x, p), RequestLength(RequestOf(x)).value)
    ensures Outcome(cfg, c, RequestRun(x, p)).conn.req.hasRead == |BodyOf(x)|
  {
    hide WorldInv, Possible, NoChunkedUpload, AfterWorld, Created, Started, HeadInOneRead, RequestOf, RequestIn, Inv,
      RequestLength, BodyOf, Measured, Expects;
    HeadIsRead(cfg, x);
    FirstWorldGood(cfg, c);
    StartedExpects(c);
    RequestGetsThrough(cfg, FirstWorld(c), x, p);
    var v := AfterWorld(cfg, FirstWorld(c), RequestRun(x, p));
    WorldFacts(cfg, v);
    MeasuredSoFar(v.conn.req, x);
  }

  lemma MeasuredSoFar(req: RequestContext, x: string)
    requires RequestIn(x) && Measured(req, RequestOf(x), x) && |x| <= BUFFER_LENGTH
    requires RequestLength(RequestOf(x)).Some? && !WholeLength(x)
    ensures req.contentLength == RequestLength(RequestOf(x)) && req.hasRead == |BodyOf(x)| < req.contentLength.value
  {
    hide RequestIn, RequestOf, ClientKeepAlive, BodyOf, Wrap64, RequestLength;
    BodyIsPart(x);
    WrapSmall(|BodyOf(x)|);
    NoUpload(RequestOf(x));
  }

  // ------------------------------------------------------------------- two of them

  /** A POST with one field and nothing else, as a client sends it. */
  function Post(field: Field): RequestHead { RequestHead("POST", "http", "a", 80, "/", "1.1", [field]) }

  function PostText(field: Field): string { ProxyRequestText(Post(field), false) }

  lemma PostIsGood(field: Field)
    requires CleanField(field) && NoLeadingOws([field])
    ensures GoodProxyRequest(Post(field), false)
  {
    hide CleanField, RequestUri.EndsInPort;
    NoPortInName();
  }

  lemma NoPortInName()
    ensures !RequestUri.EndsInPort("a")
  {
  }

  lemma PostLength(field: Field)
    ensures |PostText(field)| == 31 + |field.name| + |field.value|
  {
    AnswerPages.NoFields();
    AnswerPages.OneMoreField([], field);
    assert [] + [field] == [field];
    assert FieldsText([field]) == FieldLine(field) + CRLF;
    assert RequestUri.PortText(None) == "";
    assert AbsoluteTarget(Post(field), false) == "http://a/";
    assert LineText("POST", "http://a/", "1.1") == "POST http://a/ HTTP/1.1";
  }

  lemma PostReadsBack(field: Field)
    requires CleanField(field) && NoLeadingOws([field])
    ensures var x := PostText(field); RequestIn(x) && RequestOf(x) == Post(field) && BodyOf(x) == ""
  {
    hide ProxyRequestText, GoodProxyRequest, ParsedRequest, FindHeadEnd, CleanField, NoLeadingOws;
    var x := PostText(field);
    PostIsGood(field);
    ProxyRequestReadsBack(Post(field), false, "");
    assert x + "" == x;
    assert x[..|x|] == x;
  }

  /** An upload of this length of which nothing has come yet. */
  function LongPost(length: nat): string { PostText(Field("Content-Length", ToDecimal(length))) }

  function Power(n: nat): (r: nat)
    ensures 1 <= r
  {
    if n == 0 then 1 else 10 * Power(n - 1)
  }

  lemma {:induction false} DigitsNeeded(n: nat, k: nat)
    requires n < Power(k) && 1 <= k
    ensures |ToDecimal(n)| <= k
  {
    if 10 <= n {
      DigitsNeeded(n / 10, k - 1);
    }
  }

  lemma OneField(field: Field)
    ensures Lookup([field], field.name) == Some(field.value)
  {
    AnswerPages.SameNameReflexive(field.name);
  }

  lemma LongPostMayPass(cfg: Config, length: nat)
    requires !cfg.enableAuth && length < TWO_64
    ensures var r := Post(Field("Content-Length", ToDecimal(length)));
            MayPass(cfg, r) && Uploads(r) && RequestLength(r) == Some(length)
  {
    hide ToDecimal, Stoull, Decimal, Lookup;
    OneField(Field("Content-Length", ToDecimal(length)));
    StoullOfDigits(ToDecimal(length));
  }

  lemma LongPostIsRead(cfg: Config, length: nat)
    requires !cfg.enableAuth && 0 < length < TWO_64
    ensures var x := LongPost(length);
            && HeadInOneRead(cfg, x) && BodyOf(x) == "" && !WholeLength(x)
            && RequestLength(RequestOf(x)) == Some(length)
  {
    hide RequestIn, RequestOf, BodyOf, CleanField, ToDecimal, PostText, MayPass, RequestLength, Uploads;
    var field := Field("Content-Length", ToDecimal(length));
    AnswerPages.CountField(length);
    PostReadsBack(field);
    PostLength(field);
    TwentyDigits(length);
    LongPostMayPass(cfg, length);
  }

  lemma TwentyDigits(n: nat)
    requires n < TWO_64
    ensures |ToDecimal(n)| <= 20
  {
    hide ToDecimal;
    assert Power(5) == 100000;
    assert Power(10) == 100000 * Power(5);
    assert Power(15) == 100000 * Power(10);
    assert Power(20) == 100000 * Power(15);
    DigitsNeeded(n, 20);
  }

  /** With authentication off every length is that of an upload some run awaits, on any
      new connection. */
  lemma LongPostIsAwaited(cfg: Config, c: Conn, length: nat, p: Endpoint)
    requires Created(c) && !cfg.enableAuth && 0 < length < TWO_64
    ensures var run := RequestRun(LongPost(length), p);
            Awaited(cfg, c, run, length) && Outcome(cfg, c, run).conn.req.hasRead == 0
  {
    hide LongPost, HeadInOneRead, WholeLength, RequestRun, Awaited, Outcome, RequestIn, RequestOf, RequestLength,
      BodyOf;
    LongPostIsRead(cfg, length);
    UploadIsAwaited(cfg, c, LongPost(length), p);
  }

  /** Of an upload of 2^64 - 1 bytes all but one have been read and forwarded when 2048
      more come in one read, on any new connection without authentication. They are
      written on as well; but the counter says 2046, and though the body is all there
      the connection goes on to await content. */
  lemma UploadThatWraps(cfg: Config, c: Conn, data: string) returns (run: seq<Event>)
    requires Created(c) && !cfg.enableAuth && |data| == BUFFER_LENGTH
    ensures Awaited(cfg, c, run, TWO_64 - 1) && Outcome(cfg, c, run).conn.req.hasRead == TWO_64 - 2
    ensures var more := run + ([ClientRead(data)] + ([OriginWritten(BUFFER_LENGTH)] + []));
            && GoodRun(cfg, c, more)
            && var w := Outcome(cfg, c, more);
               && Live(w.conn) && w.conn.ctx.state == ReadHttpRequestContent && w.conn.req.hasRead == 2046
               && RequestIn(w.trace.fromClient) && RequestLength(RequestOf(w.trace.fromClient)) == Some(TWO_64 - 1)
               && TWO_64 - 1 <= |BodyOf(w.trace.fromClient)| && w.trace.toOrigin == UpImage(w.trace.fromClient)
  {
    hide WorldInv, AwaitsContent, Possible, NoChunkedUpload, AfterWorld, Created, Started, Enabled, Step, Recorded,
      AsksChunkedUpload, Inv, RequestIn, RequestOf, RequestLength, BodyOf, UpImage, RequestRun, Streams, LongPost;
    var length, p := TWO_64 - 1, Endpoint("", 0);
    LongPostIsAwaited(cfg, c, length, p);
    run := AwaitedUpTo(cfg, c, RequestRun(LongPost(length), p), length, length - 1);
    AwaitedFacts(cfg, c, run, length);
    var w := Outcome(cfg, c, run);
    AwaitingInv(w.conn, length);
    var v := LongReadWraps(cfg, w, data, length);
    var more := [ClientRead(data)] + ([OriginWritten(BUFFER_LENGTH)] + []);
    RunsJoin(cfg, FirstWorld(c), run, more);
  }

  /** The last two events of such a run. */
  lemma LongReadWraps(cfg: Config, w: World, data: string, length: nat) returns (v: World)
    requires WorldInv(cfg, w) && AwaitsContent(w.conn, length) && w.conn.origin.Some? && |data| == BUFFER_LENGTH
    requires length < TWO_64 <= w.conn.req.hasRead + |data|
    ensures var more := [ClientRead(data)] + ([OriginWritten(BUFFER_LENGTH)] + []);
            Possible(cfg, w.conn, more) && NoChunkedUpload(cfg, w.conn, more) && v == AfterWorld(cfg, w, more)
    ensures Live(v.conn) && v.conn.ctx.state == ReadHttpRequestContent
    ensures v.conn.req.hasRead == w.conn.req.hasRead + |data| - TWO_64
    ensures RequestIn(v.trace.fromClient) && RequestLength(RequestOf(v.trace.fromClient)) == Some(length)
    ensures length <= |BodyOf(v.trace.fromClient)| && v.trace.toOrigin == UpImage(v.trace.fromClient)
  {
    hide WorldInv, AwaitsContent, Possible, NoChunkedUpload, AfterWorld, Enabled, Step, Recorded,
      AsksChunkedUpload, Inv, RequestIn, RequestOf, RequestLength, BodyOf, UpImage, Streams, FramingInv;
    AwaitingInv(w.conn, length);
    AwaitingCanRead(w.conn, length, data);
    OnlyInHeadState(cfg, w.conn, data);
    WorldIsFramed(cfg, w);
    WrappedUploadReadsOn(cfg, w, data, length);
    GoodStep(cfg, w, ClientRead(data));
    var u, e := NextWorld(cfg, w, ClientRead(data)), OriginWritten(BUFFER_LENGTH);
    GoodStep(cfg, u, e);
    v := NextWorld(cfg, u, e);
    WorldFacts(cfg, v);
    BeforeMeans(v.conn, v.trace);
    ContentReadCounts(cfg, w.conn, data, length);
    ContentRecorded(w.conn, data, u.conn, w.trace);
    RecordedKeepsClient(u.conn, e, v.conn, u.trace);
    AwaitedLengthIs(cfg, v);
    EmptyRun(cfg, v);
    RunCons(cfg, u, e, []);
    RunCons(cfg, w, ClientRead(data), [e] + []);
  }

  lemma WorldIsFramed(cfg: Config, w: World)
    requires WorldInv(cfg, w)
    ensures FramingInv(cfg, w)
  {
    hide FramingInv, ConservedInv, RoutingInv, ForwardsViable;
  }

  lemma ContentRecorded(c: Conn, data: string, d: Conn, t: Trace)
    requires Enabled(c, ClientRead(data)) && Live(c) && d.ctx.state == WriteHttpRequestContent
    ensures Recorded(c, ClientRead(data), d, t).fromClient == t.fromClient + data
  {
  }

  /** The length on record is the one declared. */
  lemma AwaitedLengthIs(cfg: Config, w: World)
    requires WorldInv(cfg, w) && Live(w.conn) && w.conn.ctx.state == ReadHttpRequestContent
    ensures RequestIn(w.trace.fromClient) && w.conn.req.contentLength == RequestLength(RequestOf(w.trace.fromClient))
  {
    hide Inv, Streams, Framed, Conserved, RoutingInv, ForwardsViable, RequestOf, RequestIn, RequestLength, MayPass, BodyOf,
      ClientKeepAlive, Timely;
    ServingFacts(cfg, w.conn, w.trace);
    ExtendedRequest(w.conn.requestData, w.trace.fromClient);
  }

  /** Any upload in chunks whose head comes in the first read goes wrong with it. */
  lemma ChunkedUploadFaults(cfg: Config, c: Conn, x: string)
    requires Created(c) && 1 <= |x| <= BUFFER_LENGTH && RequestIn(x) && UploadsInChunks(cfg, RequestOf(x))
    ensures Enabled(Started(c), ClientRead(x)) && Step(cfg, Started(c), ClientRead(x)).fault
  {
    hide FindHeadEnd, ParsedRequest, UploadsInChunks, Step, Inv, Started, Created;
    StartedExpects(c);
    StartedInv(c);
    ExpectingReads(Started(c));
    StartIsEmpty(c);
    assert "" + x == x;
    FaultIffChunkedUpload(cfg, Started(c), ClientRead(x));
  }

  lemma StartIsEmpty(c: Conn)
    requires Created(c)
    ensures Started(c).requestData == "" && Started(c).ctx.state == ReadHttpRequestHeader
  {
  }

  /** Such an upload: a POST whose one field says so, to a proxy without
      authentication. */
  lemma ChunkedPostFaults(cfg: Config, c: Conn)
    requires Created(c) && !cfg.enableAuth
    ensures var e := ClientRead(PostText(Field("Transfer-Encoding", "chunked")));
            Enabled(Started(c), e) && Step(cfg, Started(c), e).fault
  {
    hide RequestIn, RequestOf, PostText, Step, Enabled, CleanField, IsToken, Created;
    var field := Field("Transfer-Encoding", "chunked");
    EncodingName();
    AnswerPages.ClearField("Transfer-Encoding", "chunked");
    PostReadsBack(field);
    PostLength(field);
    ChunkedPostAsks(cfg);
    ChunkedUploadFaults(cfg, c, PostText(field));
  }

  lemma EncodingName()
    ensures IsToken("Transfer-Encoding")
  {
  }

  lemma ChunkedPostAsks(cfg: Config)
    requires !cfg.enableAuth
    ensures UploadsInChunks(cfg, Post(Field("Transfer-Encoding", "chunked")))
  {
    hide Lookup;
    var field := Field("Transfer-Encoding", "chunked");
    OneField(field);
    assert |"Transfer-Encoding"| != |"Content-Length"|;
    OtherLength(field, "Content-Length");
    assert Lower("chunked") == "chunked";
  }

  lemma OtherLength(field: Field, name: string)
    requires |field.name| != |name|
    ensures Lookup([field], name).None?
  {
    hide Lower;
    assert |Lower(field.name)| != |Lower(name)|;
  }
}
