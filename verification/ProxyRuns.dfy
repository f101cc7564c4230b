/** Whole runs of a connection, from its start, and what holds in all of them. */
module ProxyRuns {
  import opened Text
  import opened HeadPrinter
  import opened ProxyContext
  import opened ProxyMachine
  import opened ProxyInvariants
  import opened ProxyStreams
  import opened ProxyRouting
  import opened ProxyConservation
  import opened ProxyFraming
  import opened ProxyExchange
  import ChunkGrammar

  /** A connection together with what its sockets carried, all invariants at once. */
  ghost predicate WorldInv(cfg: Config, w: World) {
    && ConservedInv(w) && RoutingInv(w) && FramingInv(cfg, w)
    && ForwardsViable(w.conn, w.trace) && w.trace.retries <= 1
  }

  ghost function AfterWorld(cfg: Config, w: World, run: seq<Event>): World
    requires Possible(cfg, w.conn, run)
    decreases |run|
  {
    if run == [] then w else AfterWorld(cfg, NextWorld(cfg, w, run[0]), run[1..])
  }

  function FirstWorld(c: Conn): World { World(Started(c), NO_TRACE) }

  lemma FirstWorldGood(cfg: Config, c: Conn)
    requires Created(c)
    ensures WorldInv(cfg, FirstWorld(c))
  {
    hide FindHeadEnd;
    StartedInv(c);
    NoHeadInNothing();
    assert UpImage("") == "";
  }

  lemma RetriesStayBounded(cfg: Config, w: World, e: Event)
    requires WorldInv(cfg, w) && Enabled(w.conn, e) && Inv(Step(cfg, w.conn, e))
    requires RoutingInv(NextWorld(cfg, w, e))
    ensures NextWorld(cfg, w, e).trace.retries <= 1
  {
    hide Step, Recorded, Inv, Conserved, Framed, Streams, Reached, ForwardsViable, Carried;
    var d := Step(cfg, w.conn, e);
    StepLivesOrLoses(cfg, w.conn, e);
    RoutingMeans(NextWorld(cfg, w, e));
    if Live(d) {
      RoutedMeans(d, Recorded(w.conn, e, d, w.trace));
    } else {
      if TakesRetry(w.conn, e) {
        RetryLives(cfg, w.conn, e);
      }
      LosingKeepsRetries(w.conn, e, d, w.trace);
    }
  }

  lemma RoutingMeans(w: World)
    requires RoutingInv(w)
    ensures Inv(w.conn) && (Live(w.conn) ==> Routed(w.conn, w.trace))
  {
    hide Inv, Routed;
  }

  lemma RetryLives(cfg: Config, c: Conn, e: Event)
    requires Inv(c) && Enabled(c, e) && Inv(Step(cfg, c, e)) && TakesRetry(c, e)
    ensures Live(Step(cfg, c, e))
  {
    hide FindHeadEnd, OnError, Shape;
    CompletedIsQuiet(c, e);
    ErrorLoses(Completed(c, e).(waits := 0));
  }

  lemma LosingKeepsRetries(c: Conn, e: Event, d: Conn, t: Trace)
    requires Enabled(c, e) && OnlyLoses(c, e, d)
    ensures !TakesRetry(c, e) ==> Recorded(c, e, d, t).retries == t.retries
  {
    LosingRecords(c, e, d, t);
  }

  /** Every step of a connection keeps all of it. */
  lemma StepKeepsWorld(cfg: Config, w: World, e: Event)
    requires WorldInv(cfg, w) && Enabled(w.conn, e) && Inv(Step(cfg, w.conn, e))
    ensures WorldInv(cfg, NextWorld(cfg, w, e))
  {
    hide Step, Recorded, Inv, Framed, Streams, Reached, Routed, ForwardsViable, Enabled;
    StepConserves(cfg, w, e);
    StepKeepsRouting(cfg, w, e);
    StepKeepsFraming(cfg, w, e);
    RetriesStayBounded(cfg, w, e);
    StepForwardsViable(cfg, w, e);
  }

  lemma StepForwardsViable(cfg: Config, w: World, e: Event)
    requires WorldInv(cfg, w) && Enabled(w.conn, e) && Inv(Step(cfg, w.conn, e))
    requires FramingInv(cfg, NextWorld(cfg, w, e))
    ensures ForwardsViable(Step(cfg, w.conn, e), NextWorld(cfg, w, e).trace)
  {
    hide Step, Recorded, Inv, Framed, Streams, Reached, Routed, ForwardsViable, OnlyLoses, WritesInBounds, IsPage,
      Enabled;
    var d := Step(cfg, w.conn, e);
    StepLivesOrLoses(cfg, w.conn, e);
    if Live(d) {
      LiveForwardsViable(cfg, d, Recorded(w.conn, e, d, w.trace));
    } else {
      LosingForwardsViable(w.conn, e, d, w.trace);
    }
  }

  lemma {:induction false} RunKeepsWorld(cfg: Config, w: World, run: seq<Event>)
    requires WorldInv(cfg, w) && Possible(cfg, w.conn, run) && NoChunkedUpload(cfg, w.conn, run)
    ensures WorldInv(cfg, AfterWorld(cfg, w, run))
    ensures AfterWorld(cfg, w, run).conn == After(cfg, w.conn, run)
    decreases |run|
  {
    hide WorldInv, Step, Recorded, Inv, Enabled, AsksChunkedUpload;
    if run != [] {
      WorldIsInv(cfg, w);
      StepKeepsInv(cfg, w.conn, run[0]);
      StepKeepsWorld(cfg, w, run[0]);
      RunKeepsWorld(cfg, NextWorld(cfg, w, run[0]), run[1..]);
    }
  }

  lemma WorldIsInv(cfg: Config, w: World)
    requires WorldInv(cfg, w)
    ensures Inv(w.conn)
  {
    hide Inv;
  }

  // ------------------------------------------------------------------ the main results

  /** A run the connection can go through from its start, in which no upload is framed
      by chunks. */
  ghost predicate GoodRun(cfg: Config, c: Conn, run: seq<Event>) {
    Created(c) && Possible(cfg, Started(c), run) && NoChunkedUpload(cfg, Started(c), run)
  }

  /** Where such a run ends, and what it carried. */
  ghost function Outcome(cfg: Config, c: Conn, run: seq<Event>): World
    requires GoodRun(cfg, c, run)
  {
    AfterWorld(cfg, FirstWorld(c), run)
  }

  lemma OutcomeIsGood(cfg: Config, c: Conn, run: seq<Event>)
    requires GoodRun(cfg, c, run)
    ensures WorldInv(cfg, Outcome(cfg, c, run))
    ensures Outcome(cfg, c, run).conn == After(cfg, Started(c), run)
  {
    hide WorldInv, Step, Started, Created, NoChunkedUpload, Possible;
    FirstWorldGood(cfg, c);
    RunKeepsWorld(cfg, FirstWorld(c), run);
  }

  predicate AnswersItself(s: ConnectionState) { s == ReportError || s == ReportConnectionEstablished }

  /** What the origin has been sent in this exchange is a prefix of the rewritten
      request; what the client has been sent is a prefix of the rewritten response or
      of the proxy's own answer; in a tunnel each side has a prefix of what the other
      has sent since the tunnel began. */
  ghost predicate StreamsConserved(w: World) {
    var s, t := w.conn.ctx.state, w.trace;
    if s == TunnelTransfer then t.toOrigin <= t.fromClient && t.toClient <= t.fromOrigin
    else
      && t.toOrigin <= UpImage(t.fromClient)
      && (if Responds(s) then t.toClient <= DownImage(t.fromOrigin)
          else if AnswersItself(s) then t.toClient <= w.conn.modifiedResponse
          else t.toClient == "")
  }

  lemma ShorterPrefix(s: string, more: string, t: string)
    requires s + more <= t
    ensures s <= t
  {
    assert s == (s + more)[..|s|];
  }

  lemma ConservedMeans(w: World)
    requires Conserved(w.conn, w.trace)
    ensures StreamsConserved(w)
  {
    hide UpImage, DownImage, PendingUp, PendingDown, WritesInBounds, OnlyPage;
    ShorterPrefix(w.trace.toOrigin, PendingUp(w.conn), UpTarget(w.conn, w.trace));
    ShorterPrefix(w.trace.toClient, PendingDown(w.conn), DownTarget(w.conn, w.trace));
  }

  /** Conservation, after every run. */
  lemma StreamsAreConserved(cfg: Config, c: Conn, run: seq<Event>)
    requires GoodRun(cfg, c, run)
    ensures StreamsConserved(Outcome(cfg, c, run))
  {
    hide GoodRun, Outcome, StreamsConserved, StreamsInv, RoutingInv, FramingInv, ForwardsViable, Conserved;
    OutcomeIsGood(cfg, c, run);
    ConservedMeans(Outcome(cfg, c, run));
  }

  /** Routing. Over a whole connection, bytes of a request only ever reach endpoints
      that the resolver gave for the host and port of that request; and a CONNECT is
      acknowledged and relayed only over a socket connected for it. */
  lemma RequestsAreRouted(cfg: Config, c: Conn, run: seq<Event>)
    requires GoodRun(cfg, c, run)
    ensures var w := Outcome(cfg, c, run);
            && (forall r :: r in w.trace.reached ==> r in w.trace.found)
            && (Live(w.conn) && w.conn.ctx.state in {ReportConnectionEstablished, TunnelTransfer} ==> w.trace.connected)
  {
    hide GoodRun, Outcome, ConservedInv, FramingInv, ForwardsViable, Inv, RequestRouted;
    OutcomeIsGood(cfg, c, run);
  }

  /** Retries. A request is taken to a new connection at most once. */
  lemma RetriesAtMostOnce(cfg: Config, c: Conn, run: seq<Event>)
    requires GoodRun(cfg, c, run)
    ensures Outcome(cfg, c, run).trace.retries <= 1
  {
    hide GoodRun, Outcome, ConservedInv, FramingInv, ForwardsViable, RoutingInv;
    OutcomeIsGood(cfg, c, run);
  }

  /** A retry happens when the origin has nothing of the request yet, and what is sent
      then is what would have been sent before. */
  lemma RetrySendsTheSame(cfg: Config, w: World, e: Event)
    requires WorldInv(cfg, w) && Enabled(w.conn, e) && TakesRetry(w.conn, e) && Inv(Step(cfg, w.conn, e))
    ensures var d, u := Step(cfg, w.conn, e), NextWorld(cfg, w, e).trace;
            && w.trace.toOrigin == "" && w.trace.retries == 0 && u.retries == 1
            && w.conn.modifiedRequest == UpImage(w.trace.fromClient)
            && u.fromClient == w.trace.fromClient == d.requestData == w.conn.requestData && u.toOrigin == ""
            && d.ctx.state == ResolveOriginServerAddress && d.origin.None? && !d.ctx.reconnectOnError
  {
    hide FindHeadEnd, UpImage, RequestIn, RequestOf, Stripped, FramingInv, ForwardsViable, Conserved, Reached;
    RetryIsBefore(w.conn, w.trace);
  }

  /** Answers. A request has at most one, and once it is a page of the proxy's own, the
      client has been sent bytes of that page only. */
  lemma OneAnswerEach(cfg: Config, c: Conn, run: seq<Event>)
    requires GoodRun(cfg, c, run)
    ensures var w := Outcome(cfg, c, run);
            && w.trace.answers <= 1
            && (w.conn.ctx.state == ReportError ==>
                  w.trace.answers == 1 && IsPage(w.conn.modifiedResponse) && w.trace.toClient <= w.conn.modifiedResponse)
  {
    hide GoodRun, Outcome, StreamsInv, FramingInv, ForwardsViable, RoutingInv, Conserved, IsPage, StreamsConserved;
    OutcomeIsGood(cfg, c, run);
    var w := Outcome(cfg, c, run);
    ConservedMeans(w);
    ConservedAnswers(w);
  }

  lemma ConservedAnswers(w: World)
    requires Conserved(w.conn, w.trace)
    ensures w.trace.answers <= 1
    ensures w.conn.ctx.state == ReportError ==>
              && w.trace.answers == 1 && IsPage(w.conn.modifiedResponse)
              && (StreamsConserved(w) ==> w.trace.toClient <= w.conn.modifiedResponse)
  {
    hide UpTarget, DownTarget, PendingUp, PendingDown, WritesInBounds, IsPage, UpImage, DownImage;
  }

  /** After a page the connection only closes: in every run from there it reports the
      same page and starts nothing else. */
  lemma {:induction false} AfterPageOnlyCloses(cfg: Config, c: Conn, run: seq<Event>)
    requires Inv(c) && c.ctx.state == ReportError && OnlyPage(c) && Possible(cfg, c, run)
    ensures var d := After(cfg, c, run);
            && Inv(d) && d.ctx.state == ReportError && d.modifiedResponse == c.modifiedResponse && OnlyPage(d)
    decreases |run|
  {
    hide Inv, Step, OnlyPage, Enabled;
    if run != [] {
      PageStays(cfg, c, run[0]);
      NoUploadWhileReporting(cfg, c, run[0]);
      StepKeepsInv(cfg, c, run[0]);
      AfterPageOnlyCloses(cfg, Step(cfg, c, run[0]), run[1..]);
    }
  }

  lemma NoUploadWhileReporting(cfg: Config, c: Conn, e: Event)
    requires c.ctx.state == ReportError
    ensures e.ClientRead? ==> !AsksChunkedUpload(cfg, c, e.data)
  {
    if e.ClientRead? && AsksChunkedUpload(cfg, c, e.data) {
      OnlyInHead(cfg, c, e.data);
    }
  }

  /** Admission. A live connection that resolves, connects, writes to or reads from an
      origin does so for a request that may pass: a method, version and scheme the
      proxy serves, with the credentials it asks for. */
  lemma OnlyAdmittedRequestsPass(cfg: Config, c: Conn, run: seq<Event>)
    requires GoodRun(cfg, c, run)
    ensures var d := Outcome(cfg, c, run).conn;
            Live(d) && Passed(d.ctx.state) ==> RequestIn(d.requestData) && MayPass(cfg, RequestOf(d.requestData))
  {
    hide GoodRun, Outcome, ConservedInv, RoutingInv, ForwardsViable, RequestIn, RequestOf, MayPass, Measured, Timely,
      StreamsInv;
    OutcomeIsGood(cfg, c, run);
  }

  /** Chunks. Whatever has been forwarded of a chunked response's body, in any run,
      starts some chunked body. */
  lemma ForwardedChunksAreViable(cfg: Config, c: Conn, run: seq<Event>)
    requires GoodRun(cfg, c, run)
    ensures ForwardedViable(Outcome(cfg, c, run))
  {
    hide GoodRun, Outcome, ConservedInv, RoutingInv, FramingInv, ForwardedViable, ForwardsViable;
    OutcomeIsGood(cfg, c, run);
    ForwardsViableMeans(Outcome(cfg, c, run));
  }

  ghost predicate ForwardedViable(w: World) {
    Responds(w.conn.ctx.state) && w.conn.resp.checker.Some? ==>
      && ResponseIn(w.trace.fromOrigin)
      && var s, n := w.trace.toClient, |ResponseText(ResponseOf(w.trace.fromOrigin))|;
         |s| >= n ==> Viable(s[n..])
  }

  lemma ForwardsViableMeans(w: World)
    requires ForwardsViable(w.conn, w.trace)
    ensures ForwardedViable(w)
  {
    hide ResponseIn, ResponseOf, Viable, ResponseText, PendingDown;
    if Responds(w.conn.ctx.state) && w.conn.resp.checker.Some? {
      var s, n := w.trace.toClient, |ResponseText(ResponseOf(w.trace.fromOrigin))|;
      if |s| >= n {
        assert s[n..] <= (s + PendingDown(w.conn))[n..];
        PrefixIsViable(s[n..], (s + PendingDown(w.conn))[n..]);
      }
    }
  }

  /** Counting. When the response is awaited, the whole body of the request is written,
      and at most one read more than that. */
  lemma UploadsAreWhole(cfg: Config, c: Conn, run: seq<Event>)
    requires GoodRun(cfg, c, run)
    ensures var w := Outcome(cfg, c, run);
            Live(w.conn) && (w.conn.ctx.state == ReadHttpResponseHeader || Responds(w.conn.ctx.state)) ==>
              && RequestIn(w.conn.requestData) && RequestLength(RequestOf(w.conn.requestData)).Some?
              && w.trace.toOrigin == UpImage(w.trace.fromClient)
              && var length, n := RequestLength(RequestOf(w.conn.requestData)).value, |BodyOf(w.trace.fromClient)|;
                 && length <= n
                 && (Countable(length) ==> w.trace.fromClient == w.conn.requestData || n < length + BUFFER_LENGTH)
  {
    hide GoodRun, Outcome, ConservedInv, RoutingInv, ForwardsViable, FramingInv, RequestIn, RequestOf, BodyOf,
      RequestLength, UpImage;
    OutcomeIsGood(cfg, c, run);
    var w := Outcome(cfg, c, run);
    if Live(w.conn) && (w.conn.ctx.state == ReadHttpResponseHeader || Responds(w.conn.ctx.state)) {
      UploadIsWhole(cfg, w);
    }
  }

  /** And no more of a response is read than its framing asks for: in every run, while
      content is awaited some is missing. */
  lemma ResponsesReadNoFurther(cfg: Config, c: Conn, run: seq<Event>)
    requires GoodRun(cfg, c, run)
    ensures var w := Outcome(cfg, c, run);
            Live(w.conn) && w.conn.ctx.state == ReadHttpResponseContent ==>
              && ResponseIn(w.trace.fromOrigin) && w.conn.requestHead.Some?
              && var verb, h, body := w.conn.requestHead.value.verb, ResponseOf(w.trace.fromOrigin), BodyOf(w.trace.fromOrigin);
                 && !NoContent(verb, h) && ResponseLength(verb, h).Some?
                 && match ResponseLength(verb, h).value
                    case Fixed(n) => 0 < n && (Countable(n) ==> |body| < n)
                    case Chunked => !ChunkGrammar.IsBody(body)
                    case UntilClose => true
  {
    hide GoodRun, Outcome, ConservedInv, RoutingInv, ForwardsViable, FramingInv, ResponseIn, ResponseOf, BodyOf,
      ResponseLength, NoContent, ChunkGrammar.IsBody;
    OutcomeIsGood(cfg, c, run);
    var w := Outcome(cfg, c, run);
    if Live(w.conn) && w.conn.ctx.state == ReadHttpResponseContent {
      AwaitedContentIsMissing(cfg, w);
    }
  }
}
