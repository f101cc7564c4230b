/** What an exchange comes to: when a response is over, what has then been forwarded,
    and what a receiver makes of it. */
module ProxyExchange {
  import opened Text
  import opened ChunkChecker
  import opened HeaderMap
  import opened HeaderFields
  import opened HeaderParser
  import opened HeadPrinter
  import opened HeadRoundTrips
  import opened ProxyContext
  import opened ProxyMachine
  import opened ProxyInvariants
  import opened ProxyStreams
  import opened ProxyConservation
  import opened ProxyFraming
  import ChunkGrammar

  // -------------------------------------------------------------- chunked responses

  /** Some chunked body starts with these bytes. */
  ghost predicate Viable(s: string) { exists more: string :: ChunkGrammar.IsBody(s + more) }

  lemma PrefixIsViable(s: string, t: string)
    requires s <= t && Viable(t)
    ensures Viable(s)
  {
    var more: string :| ChunkGrammar.IsBody(t + more);
    assert t + more == s + (t[|s|..] + more);
  }

  lemma AcceptedIsViable(s: string)
    ensures !Feed(FRESH, s).IsFail() <==> Viable(s)
  {
    ChunkGrammar.AcceptedIffViable(s);
  }

  /** All of a chunked response that has been or is being forwarded after its head
      starts some chunked body. */
  ghost predicate ForwardsViable(c: Conn, t: Trace) {
    Responds(c.ctx.state) && c.resp.checker.Some? ==>
      && ResponseIn(t.fromOrigin)
      && var s, n := t.toClient + PendingDown(c), |ResponseText(ResponseOf(t.fromOrigin))|;
         |s| >= n ==> Viable(s[n..])
  }

  lemma DownImageIs(x: string)
    requires ResponseIn(x)
    ensures DownImage(x) == ResponseText(ResponseOf(x)) + BodyOf(x)
  {
    hide FindHeadEnd, ParsedResponse, ResponseText;
  }

  lemma RespondingFacts(cfg: Config, c: Conn, t: Trace)
    requires Inv(c) && Live(c) && Streams(c, t) && Framed(cfg, c, t) && Responds(c.ctx.state)
    ensures FramedResponse(c, t) && UpDone(c, t)
    ensures t.toClient + PendingDown(c) == DownImage(t.fromOrigin)
    ensures t.answers == 1
  {
    hide FindHeadEnd, FramedRequest, FramedResponse, UpDone, DownImage, PendingDown, ResponseIn;
    if c.ctx.state == ReadHttpResponseContent {
      ReadersWriteNothing(c);
      assert t.toClient + "" == t.toClient;
    }
  }

  /** A chunk checker is in use exactly for chunked responses. */
  lemma CheckerIsForChunks(c: Conn, t: Trace)
    requires FramedResponse(c, t)
    ensures var h := ResponseOf(t.fromOrigin);
            && ResponseLength(c.requestHead.value.verb, h).Some?
            && (c.resp.checker.Some? <==> ResponseLength(c.requestHead.value.verb, h) == Some(Chunked))
            && (c.resp.checker.Some? ==>
                  c.resp.contentLength.None? && c.resp.checker.value == Feed(FRESH, BodyOf(t.fromOrigin))
                  && !Feed(FRESH, BodyOf(t.fromOrigin)).IsFail())
  {
    hide ResponseIn, ResponseOf, ResponseLength, BodyOf, Feed, OriginKeepAlive, NoContent, TimelyResponse;
  }

  lemma LiveForwardsViable(cfg: Config, c: Conn, t: Trace)
    requires Inv(c) && Live(c) && Streams(c, t) && Framed(cfg, c, t)
    ensures ForwardsViable(c, t)
  {
    hide Inv, Streams, Framed, FramedResponse, ResponseIn, ResponseOf, ResponseText, BodyOf, PendingDown, DownImage,
      Viable;
    if Responds(c.ctx.state) && c.resp.checker.Some? {
      RespondingFacts(cfg, c, t);
      CheckerIsForChunks(c, t);
      HasResponse(c, t);
      DownImageIs(t.fromOrigin);
      AcceptedIsViable(BodyOf(t.fromOrigin));
      AfterHead(ResponseText(ResponseOf(t.fromOrigin)), BodyOf(t.fromOrigin));
    }
  }

  lemma AfterHead(a: string, b: string)
    ensures (a + b)[|a|..] == b
  {
  }

  lemma HasResponse(c: Conn, t: Trace)
    requires FramedResponse(c, t)
    ensures ResponseIn(t.fromOrigin) && c.requestHead.Some?
  {
    hide ResponseIn, ResponseMeasured, TimelyResponse;
  }

  lemma LosingForwardsViable(c: Conn, e: Event, d: Conn, t: Trace)
    requires Enabled(c, e) && OnlyLoses(c, e, d) && WritesInBounds(c) && ForwardsViable(c, t)
    ensures ForwardsViable(d, Recorded(c, e, d, t))
  {
    hide Carried, Recorded, PendingDown, ResponseIn, ResponseOf, ResponseText, Viable, Enabled, Completed,
      WritesInBounds;
    var u := Carried(c, e, t);
    LosingRecords(c, e, d, t);
    LosingDown(c, e, d, t);
    if Responds(d.ctx.state) && d.resp.checker.Some? {
      SameResponse(c, e, t);
      var s, s' := t.toClient + PendingDown(c), u.toClient + PendingDown(d);
      var n := |ResponseText(ResponseOf(t.fromOrigin))|;
      if |s'| >= n {
        assert s'[n..] <= s[n..];
        PrefixIsViable(s'[n..], s[n..]);
      }
    }
  }

  lemma SameResponse(c: Conn, e: Event, t: Trace)
    requires Enabled(c, e) && ResponseIn(t.fromOrigin)
    ensures var u := Carried(c, e, t);
            ResponseIn(u.fromOrigin) && ResponseOf(u.fromOrigin) == ResponseOf(t.fromOrigin)
  {
    hide ResponseIn, ResponseOf;
    if e.OriginRead? {
      ResponseStays(t.fromOrigin, e.data);
    }
  }

  // --------------------------------------------------------------- the end of an answer

  /** The step writes the last byte of what was being written to the client. */
  ghost predicate LastByte(c: Conn, e: Event)
    requires Enabled(c, e)
  {
    e.ClientWritten? && e.n == c.ops.clientWrites[0].size
  }

  /** What the exchange's response turns into once all that has come is written. */
  lemma AnswerGoesOnIff(cfg: Config, c: Conn, e: Event)
    requires Inv(c) && Live(c) && Enabled(c, e) && LastByte(c, e)
    requires c.ctx.state in {WriteHttpResponseHeader, WriteHttpResponseContent}
    ensures var d := Step(cfg, c, e);
            if !ResponseDone(c.resp) then Live(d) && d.ctx.state == ReadHttpResponseContent
            else if c.req.keepAlive then Live(d) && d.ctx.state == ReadHttpRequestHeader
            else !Live(d) && !d.clientOpen
  {
    hide FindHeadEnd, ResponseDone;
    CompletedIsQuiet(c, e);
  }

  lemma AllForwarded(c: Conn, e: Event, t: Trace)
    requires Inv(c) && Live(c) && Enabled(c, e) && LastByte(c, e)
    ensures Carried(c, e, t).toClient == t.toClient + PendingDown(c)
  {
  }

  /** For a chunked response, once all that has come is forwarded: the exchange is
      over exactly if the forwarded body is one whole chunked body. It is then turned
      over to the next request, or closed. */
  lemma ChunkedTurnoverExact(cfg: Config, w: World, e: Event)
    requires FramingInv(cfg, w) && Live(w.conn) && Enabled(w.conn, e) && LastByte(w.conn, e)
    requires w.conn.ctx.state in {WriteHttpResponseHeader, WriteHttpResponseContent}
    requires ResponseLength(w.conn.requestHead.value.verb, ResponseOf(w.trace.fromOrigin)) == Some(Chunked)
    ensures var d, body := Step(cfg, w.conn, e), BodyOf(w.trace.fromOrigin);
            && Carried(w.conn, e, w.trace).toClient == ResponseText(ResponseOf(w.trace.fromOrigin)) + body
            && Viable(body)
            && (ChunkGrammar.IsBody(body) <==> !(Live(d) && d.ctx.state == ReadHttpResponseContent))
            && (ChunkGrammar.IsBody(body) && w.conn.req.keepAlive ==> Live(d) && d.ctx.state == ReadHttpRequestHeader)
            && (ChunkGrammar.IsBody(body) && !w.conn.req.keepAlive ==> !Live(d) && !d.clientOpen)
  {
    hide Inv, Streams, Framed, FramedResponse, ResponseIn, ResponseOf, ResponseText, BodyOf, PendingDown, DownImage,
      Carried, Step, Enabled, Feed, ChunkGrammar.IsBody, ResponseLength, LastByte;
    var c, t := w.conn, w.trace;
    RespondingFacts(cfg, c, t);
    CheckerIsForChunks(c, t);
    HasResponse(c, t);
    DownImageIs(t.fromOrigin);
    AllForwarded(c, e, t);
    AnswerGoesOnIff(cfg, c, e);
    AcceptedIsViable(BodyOf(t.fromOrigin));
    ChunkGrammar.CompleteIffBody(BodyOf(t.fromOrigin));
  }

  lemma FixedDoneIff(resp: ResponseContext, verb: string, h: ResponseHead, body: string)
    requires ResponseMeasured(resp, verb, h, body) && ResponseLength(verb, h).value.Fixed?
    ensures ResponseDone(resp) <==> ResponseLength(verb, h).value.length <= Wrap64(|body|)
  {
    hide Lookup, OriginKeepAlive, Stoull, Feed, Wrap64, Lower;
  }

  lemma FixedBodyIsShort(s: ConnectionState, kind: Option<BodyLength>, body: string)
    requires kind.Some? && kind.value.Fixed? && Countable(kind.value.length)
    requires TimelyResponse(s, kind, body)
    ensures |body| < TWO_64
  {
  }

  lemma WrapIsNoMore(n: nat)
    ensures Wrap64(n) <= n
  {
  }

  /** For a response with a length, be it 0: once all that has come is forwarded, the
      exchange is over exactly if the counter, which is 64 bits wide, has reached the
      length. It is never over before that much has been forwarded after the head, and
      if the length leaves room for one more read it is over exactly then. */
  lemma FixedTurnoverExact(cfg: Config, w: World, e: Event)
    requires FramingInv(cfg, w) && Live(w.conn) && Enabled(w.conn, e) && LastByte(w.conn, e)
    requires w.conn.ctx.state in {WriteHttpResponseHeader, WriteHttpResponseContent}
    requires var kind := ResponseLength(w.conn.requestHead.value.verb, ResponseOf(w.trace.fromOrigin));
             kind.Some? && kind.value.Fixed?
    ensures var d, body := Step(cfg, w.conn, e), BodyOf(w.trace.fromOrigin);
            var length := ResponseLength(w.conn.requestHead.value.verb, ResponseOf(w.trace.fromOrigin)).value.length;
            var over := !(Live(d) && d.ctx.state == ReadHttpResponseContent);
            && Carried(w.conn, e, w.trace).toClient == ResponseText(ResponseOf(w.trace.fromOrigin)) + body
            && (over <==> length <= Wrap64(|body|))
            && (over ==> length <= |body|)
            && (Countable(length) ==> (over <==> length <= |body|))
            && (over && w.conn.req.keepAlive ==> Live(d) && d.ctx.state == ReadHttpRequestHeader)
            && (over && !w.conn.req.keepAlive ==> !Live(d) && !d.clientOpen)
  {
    hide Inv, Streams, Framed, ResponseIn, ResponseOf, ResponseText, BodyOf, PendingDown, DownImage, Carried, Step,
      Enabled, LastByte, ResponseLength, ResponseMeasured, TimelyResponse, ResponseDone, Wrap64;
    var c, t := w.conn, w.trace;
    RespondingFacts(cfg, c, t);
    HasResponse(c, t);
    var verb, h, body := c.requestHead.value.verb, ResponseOf(t.fromOrigin), BodyOf(t.fromOrigin);
    DownImageIs(t.fromOrigin);
    AllForwarded(c, e, t);
    AnswerGoesOnIff(cfg, c, e);
    FixedDoneIff(c.resp, verb, h, body);
    WrapIsNoMore(|body|);
    if Countable(ResponseLength(verb, h).value.length) {
      FixedBodyIsShort(c.ctx.state, ResponseLength(verb, h), body);
      WrapSmall(|body|);
    }
  }

  /** A response that has no content, to a HEAD or with status 204 or 304, is over with
      its head: whatever has come is forwarded and nothing more is read. */
  lemma NoContentEndsWithHead(cfg: Config, w: World, e: Event)
    requires FramingInv(cfg, w) && Live(w.conn) && Enabled(w.conn, e) && LastByte(w.conn, e)
    requires w.conn.ctx.state in {WriteHttpResponseHeader, WriteHttpResponseContent}
    requires NoContent(w.conn.requestHead.value.verb, ResponseOf(w.trace.fromOrigin))
    ensures var d := Step(cfg, w.conn, e);
            && Carried(w.conn, e, w.trace).toClient == DownImage(w.trace.fromOrigin)
            && (if w.conn.req.keepAlive then Live(d) && d.ctx.state == ReadHttpRequestHeader
                else !Live(d) && !d.clientOpen)
  {
    hide Inv, Streams, Framed, ResponseIn, ResponseOf, ResponseText, BodyOf, PendingDown, DownImage, Carried, Step,
      Enabled, LastByte, ResponseLength, NoContent;
    RespondingFacts(cfg, w.conn, w.trace);
    HasResponse(w.conn, w.trace);
    DownImageIs(w.trace.fromOrigin);
    NoContentHasNoLength(w.conn.requestHead.value.verb, ResponseOf(w.trace.fromOrigin));
    FixedTurnoverExact(cfg, w, e);
  }

  lemma NoContentHasNoLength(verb: string, h: ResponseHead)
    ensures NoContent(verb, h) ==> ResponseLength(verb, h) == Some(Fixed(0))
  {
  }

  /** A response that says neither length nor chunks is never over: it is read until
      the origin closes. */
  lemma UntilCloseNeverDone(cfg: Config, w: World, e: Event)
    requires FramingInv(cfg, w) && Live(w.conn) && Enabled(w.conn, e) && LastByte(w.conn, e)
    requires w.conn.ctx.state in {WriteHttpResponseHeader, WriteHttpResponseContent}
    requires ResponseLength(w.conn.requestHead.value.verb, ResponseOf(w.trace.fromOrigin)) == Some(UntilClose)
    ensures var d := Step(cfg, w.conn, e); Live(d) && d.ctx.state == ReadHttpResponseContent
  {
    hide Inv, Streams, Framed, ResponseIn, ResponseOf, BodyOf, Step, Enabled, LastByte, ResponseLength, TimelyResponse,
      PendingDown, DownImage;
    RespondingFacts(cfg, w.conn, w.trace);
    AnswerGoesOnIff(cfg, w.conn, e);
  }

  // ------------------------------------------------------------------ what receivers see

  /** A client that reads what has been forwarded finds the head of the response, but
      for white space before a value, and after it the body as the origin sent it. */
  lemma ClientReadsSameMessage(x: string)
    requires ResponseIn(x)
    ensures var h := ResponseOf(x);
            && ResponseIn(DownImage(x))
            && ResponseOf(DownImage(x)) == h.(headers := LeftTrimmed(h.headers))
            && BodyOf(DownImage(x)) == BodyOf(x)
    ensures ResponseOf(DownImage(x)) == ResponseOf(x) <==> NoLeadingOws(ResponseOf(x).headers)
  {
    hide FindHeadEnd, ParsedResponse, ResponseText, LeftTrimmed, NoLeadingOws;
    var h, body := ResponseOf(x), BodyOf(x);
    DownImageIs(x);
    ParsedResponseIsGood(x[..FindHeadEnd(x).value + 4]);
    ResponseReadsBack(h, body);
    ResponseReadsBack(h, "");
    AfterHead(ResponseText(h), body);
    BeforeBody(ResponseText(h), body);
    LeftTrimmedSameIff(h.headers);
  }

  lemma BeforeBody(a: string, b: string)
    ensures (a + b)[..|a|] == a && a + "" == a
  {
  }

  lemma UpImageIs(x: string)
    requires RequestIn(x)
    ensures UpImage(x) == RequestText(Stripped(RequestOf(x))) + BodyOf(x)
  {
    hide FindHeadEnd, ParsedRequest, RequestText, Stripped;
  }

  /** An origin that reads what has been sent finds a first line with the same method,
      path and version, the fields of the request in their order less the two that are
      the proxy's, and after them the body as the client sent it. */
  lemma OriginReadsSameMessage(x: string)
    requires RequestIn(x) && RequestOf(x).verb != CONNECT
    ensures var r, y := RequestOf(x), UpImage(x);
            var n := |OriginLine(r)| + 2;
            && n <= |y|
            && SplitRequestLine(y) == Some(RequestLine(r.verb, r.pathAndQuery, r.httpVersion, n))
            && Parsed(y[n..]) == Some(LeftTrimmed(Stripped(r).headers))
            && FindHeadEnd(y).Some? && BodyOf(y) == BodyOf(x)
    ensures var r := RequestOf(x);
            forall name :: Select(Stripped(r).headers, name)
              == if SameLetters("Proxy-Connection", name) || SameLetters("Proxy-Authorization", name) then []
                 else Select(r.headers, name)
  {
    hide FindHeadEnd, ParsedRequest, RequestText, Stripped, SplitRequestLine, Parsed, OriginLine, LeftTrimmed;
    UpImageIs(x);
    LineFits(Stripped(RequestOf(x)), BodyOf(x));
    SameOriginLine(RequestOf(x));
    RewritingPreservesMeaning(x[..FindHeadEnd(x).value + 4], BodyOf(x));
  }

  lemma LineFits(r: RequestHead, body: string)
    ensures |OriginLine(r)| + 2 <= |RequestText(r) + body|
  {
  }

  lemma SameOriginLine(r: RequestHead)
    ensures OriginLine(Stripped(r)) == OriginLine(r)
  {
  }

  /** While more of a response is awaited, some of it is missing; so a response without
      content is never read on. */
  lemma AwaitedContentIsMissing(cfg: Config, w: World)
    requires FramingInv(cfg, w) && Live(w.conn) && w.conn.ctx.state == ReadHttpResponseContent
    ensures ResponseIn(w.trace.fromOrigin) && w.conn.requestHead.Some?
    ensures var verb, h, body := w.conn.requestHead.value.verb, ResponseOf(w.trace.fromOrigin), BodyOf(w.trace.fromOrigin);
            && !NoContent(verb, h) && ResponseLength(verb, h).Some?
            && match ResponseLength(verb, h).value
               case Fixed(n) => 0 < n && (Countable(n) ==> |body| < n)
               case Chunked => !ChunkGrammar.IsBody(body)
               case UntilClose => true
  {
    hide Inv, Streams, Framed, ResponseIn, ResponseOf, BodyOf, DownImage, PendingDown, ResponseLength, NoContent,
      ResponseMeasured, Feed, ChunkGrammar.IsBody;
    var c, t := w.conn, w.trace;
    RespondingFacts(cfg, c, t);
    HasResponse(c, t);
    CheckerIsForChunks(c, t);
    NoContentHasNoLength(c.requestHead.value.verb, ResponseOf(t.fromOrigin));
    ChunkGrammar.CompleteIffBody(BodyOf(t.fromOrigin));
  }

  // ------------------------------------------------------------- more of the same

  /** A head that is complete early is the head of all. */
  lemma SameHeadEarly(y: string, x: string)
    requires y <= x && FindHeadEnd(y).Some?
    ensures FindHeadEnd(x) == FindHeadEnd(y) && FindHeadEnd(y).value + 4 <= |y|
    ensures y[..FindHeadEnd(y).value + 4] == x[..FindHeadEnd(x).value + 4]
  {
    hide FindHeadEnd;
    HeadEndOfPrefix(y, x);
  }

  lemma ExtendedRequest(y: string, x: string)
    requires RequestIn(y) && y <= x
    ensures RequestIn(x) && RequestOf(x) == RequestOf(y)
  {
    hide FindHeadEnd, ParsedRequest;
    SameHeadEarly(y, x);
  }

  lemma ExtendedResponse(y: string, x: string)
    requires ResponseIn(y) && y <= x
    ensures ResponseIn(x) && ResponseOf(x) == ResponseOf(y) && BodyOf(y) <= BodyOf(x)
  {
    hide FindHeadEnd, ParsedResponse;
    SameHeadEarly(y, x);
    assert BodyOf(y) == BodyOf(x)[..|BodyOf(y)|];
  }

  // --------------------------------------------------------------- uploads with a length

  lemma OnlyInHeadState(cfg: Config, c: Conn, data: string)
    requires c.ctx.state != ReadHttpRequestHeader
    ensures !AsksChunkedUpload(cfg, c, data)
  {
    if AsksChunkedUpload(cfg, c, data) {
      OnlyInHead(cfg, c, data);
    }
  }

  /** Reading the response begins only when the body's length has been written
      upstream, and not a read later than need be. */
  lemma UploadIsWhole(cfg: Config, w: World)
    requires FramingInv(cfg, w) && Live(w.conn)
    requires w.conn.ctx.state == ReadHttpResponseHeader || Responds(w.conn.ctx.state)
    ensures var x, y := w.trace.fromClient, w.conn.requestData;
            && RequestIn(y) && y <= x && RequestLength(RequestOf(y)).Some?
            && w.trace.toOrigin == UpImage(x)
            && var length := RequestLength(RequestOf(y)).value;
               length <= |BodyOf(x)| && (Countable(length) ==> x == y || |BodyOf(x)| < length + BUFFER_LENGTH)
  {
    hide FindHeadEnd, UpImage, BodyOf, RequestOf, RequestIn, FramedRequest, FramedResponse;
    ServingFacts(cfg, w.conn, w.trace);
    AwaitingMeansSent(w.conn, w.trace);
    AwaitedLength(cfg, w.conn, w.trace);
  }

  lemma AwaitingMeansSent(c: Conn, t: Trace)
    requires Inv(c) && Live(c) && Streams(c, t) && (c.ctx.state == ReadHttpResponseHeader || Responds(c.ctx.state))
    ensures UpDone(c, t)
  {
    hide UpDone, DownDone, Answering, FindHeadEnd;
  }

  lemma AwaitedLength(cfg: Config, c: Conn, t: Trace)
    requires FramedRequest(cfg, c, t) && RequestOf(c.requestData).verb != CONNECT
    requires c.ctx.state == ReadHttpResponseHeader || Responds(c.ctx.state)
    ensures RequestIn(c.requestData) && RequestLength(RequestOf(c.requestData)).Some?
    ensures var length, n := RequestLength(RequestOf(c.requestData)).value, |BodyOf(t.fromClient)|;
            length <= n && (Countable(length) ==> t.fromClient == c.requestData || n < length + BUFFER_LENGTH)
  {
    hide RequestIn, RequestOf, BodyOf, Measured, Authorized;
  }

  /** While content is awaited, some of it is missing, and each read brings the end
      nearer. */
  lemma ContentReadsProgress(cfg: Config, w: World, data: string)
    requires FramingInv(cfg, w) && Live(w.conn) && w.conn.ctx.state == ReadHttpRequestContent
    requires Enabled(w.conn, ClientRead(data)) && w.conn.req.contentLength.Some? && Countable(w.conn.req.contentLength.value)
    ensures var c, d := w.conn, Step(cfg, w.conn, ClientRead(data));
            && c.req.hasRead == |BodyOf(w.trace.fromClient)| < c.req.contentLength.value
            && d.ctx.state == WriteHttpRequestContent && Live(d)
            && d.req == c.req.(hasRead := c.req.hasRead + |data|)
            && d.req.contentLength.value - d.req.hasRead < c.req.contentLength.value - c.req.hasRead
  {
    hide FindHeadEnd, BodyOf, RequestOf, RequestIn, FramedRequest, FramedResponse, Wrap64, UpDone, Serving;
    var c, t := w.conn, w.trace;
    CompletedIsQuiet(c, ClientRead(data));
    ServingFacts(cfg, c, t);
    ContentCounted(cfg, c, t);
    WrapSmall(c.req.hasRead + |data|);
  }

  lemma ContentCounted(cfg: Config, c: Conn, t: Trace)
    requires FramedRequest(cfg, c, t) && RequestOf(c.requestData).verb != CONNECT
    requires c.ctx.state == ReadHttpRequestContent && c.req.contentLength.Some? && Countable(c.req.contentLength.value)
    ensures c.req.hasRead == |BodyOf(t.fromClient)| < c.req.contentLength.value
  {
    hide RequestIn, RequestOf, BodyOf, Authorized, ClientKeepAlive;
  }
}
