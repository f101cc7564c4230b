/** Which page answers what: the status, the words and the message that a client is
    told, for every way a request, its reaching the origin or its response can fail. */
module ErrorAnswers {
  import opened Text
  import opened HeaderMap
  import opened HeaderParser
  import opened ChunkChecker
  import opened ProxyContext
  import opened ProxyMachine
  import opened ProxyInvariants
  import opened ProxyStreams
  import opened ProxyFraming
  import opened KeepAlive
  import opened HeadSegmentation
  import AnswerPages

  /** A page of this status and these words, which shows the message unless it answers a
      HEAD. */
  ghost predicate Tells(page: string, toHead: bool, code: nat, description: string, message: string) {
    && ResponseIn(page) && ResponseOf(page).httpVersion == "1.1"
    && ResponseOf(page).statusCode == code && ResponseOf(page).statusDescription == description
    && if toHead then BodyOf(page) == "" else exists k :: At(BodyOf(page), k, message)
  }

  lemma ContentShows(code: string, description: string, message: string)
    ensures exists k :: At(PageContent(code, description, message), k, message)
  {
    var front := "<!DOCTYPE html><html><head><title>" + code + " " + description
                 + "</title></head><body bgcolor=\"white\"><center><h1>" + code + " " + description + "</h1>";
    var back := "<hr><center>azure http proxy server</center></body></html>";
    var content := PageContent(code, description, message);
    if message == "" {
      assert At(content, 0, message);
    } else {
      assert content == front + "<br/>" + message + "</center>" + back;
      assert content[|front| + 5..|front| + 5 + |message|] == message;
      assert At(content, |front| + 5, message);
    }
  }

  lemma PageTells(problem: Problem, toHead: bool)
    ensures var w := WordsOf(problem);
            AllDigits(w.code) && Tells(ProblemPage(problem, !toHead), toHead, Decimal(w.code), w.description, w.message)
  {
    hide ErrorPage, PageContent, ResponseIn, ResponseOf, BodyOf, Decimal, WordsOf, AnswerPages.StatusWords, At;
    var w := WordsOf(problem);
    AnswerPages.WordsAreGood(problem);
    AnswerPages.WordsAreWords("1.1", w.code, w.description);
    AnswerPages.ContentLength(w.code, w.description, w.message);
    AnswerPages.PageFramesItself(w.code, w.description, w.message, !toHead);
    ContentShows(w.code, w.description, w.message);
  }

  lemma Codes()
    ensures Decimal("400") == 400 && Decimal("405") == 405 && Decimal("411") == 411
    ensures Decimal("502") == 502 && Decimal("504") == 504 && Decimal("505") == 505
  {
    hide Decimal;
    AnswerPages.ThreeDigits("400");
    AnswerPages.ThreeDigits("405");
    AnswerPages.ThreeDigits("411");
    AnswerPages.ThreeDigits("502");
    AnswerPages.ThreeDigits("504");
    AnswerPages.ThreeDigits("505");
  }

  // ------------------------------------------------------------------ the request

  /** What a request is told that is neither let through nor an upload in chunks. */
  lemma RefusedRequest(cfg: Config, c: Conn, extra: nat)
    requires c.requestHead.Some? && !MayPass(cfg, c.requestHead.value) && !UploadsInChunks(cfg, c.requestHead.value)
    ensures var r := c.requestHead.value;
            var d := Obey(c, JudgeRequest(cfg, r, c.req, extra));
            var page, toHead := d.modifiedResponse, r.verb == "HEAD";
            && d.ctx.state == ReportError
            && if r.verb !in {"GET", "HEAD", "POST", "PUT", "DELETE", "CONNECT"} then
                 Tells(page, toHead, 405, "Method Not Allowed", "")
               else if r.httpVersion !in {"1.1", "1.0"} then
                 Tells(page, toHead, 505, "HTTP Version Not Supported", "")
               else if !Authorized(cfg, r) then
                 Tells(page, false, 407, "Proxy Authentication Required", "407 Proxy Authentication Required")
               else if r.scheme != "http" then
                 Tells(page, toHead, 400, "Bad Request", "Unsupported scheme")
               else if Lookup(r.headers, "Content-Length").Some? then
                 Tells(page, toHead, 400, "Bad Request", "Invalid Content-Length in request")
               else if Lookup(r.headers, "Transfer-Encoding").Some? then
                 Tells(page, toHead, 400, "Bad Request", "Unsupported Transfer-Encoding")
               else Tells(page, toHead, 411, "Length Required", "")
  {
    hide ProblemPage, AuthPage, Tells, Authorized, JudgeRequest, MayPass, UploadsInChunks, Lookup, Decimal, Obey;
    var r := c.requestHead.value;
    var j := JudgeRequest(cfg, r, c.req, extra);
    RefusalWrites(c, j);
    Codes();
    AuthTells();
    RefusedAs(cfg, r, c.req, extra);
    if j.Reject? {
      PageTells(j.problem, r.verb == "HEAD");
    }
  }

  lemma AuthTells()
    ensures Tells(AuthPage(), false, 407, "Proxy Authentication Required", "407 Proxy Authentication Required")
  {
    hide AuthPage, ResponseIn, ResponseOf, BodyOf, AUTH_CONTENT;
    AnswerPages.AuthPageIsMessage();
    AuthShows();
  }

  lemma AuthShows()
    ensures exists k :: At(AUTH_CONTENT, k, "407 Proxy Authentication Required")
  {
    var front, message := "<!DOCTYPE html><html><head><title>", "407 Proxy Authentication Required";
    var body := "<body bgcolor=\"white\"><center><h1>407 Proxy Authentication Required</h1></center>";
    var end := "<hr><center>azure http proxy server</center></body></html>";
    assert (front + message)[|front|..|front| + |message|] == message;
    MoreBehind(front + message, "</title></head>", |front|, message);
    MoreBehind(front + message + "</title></head>", body, |front|, message);
    MoreBehind(front + message + "</title></head>" + body, end, |front|, message);
  }

  lemma MoreBehind(s: string, more: string, k: nat, pattern: string)
    requires At(s, k, pattern)
    ensures At(s + more, k, pattern)
  {
    assert (s + more)[k..k + |pattern|] == s[k..k + |pattern|];
  }

  /** A refusal is its page and nothing else. */
  lemma RefusalWrites(c: Conn, j: Judgement<RequestContext>)
    ensures j.Reject? ==> Obey(c, j).ctx.state == ReportError
                          && Obey(c, j).modifiedResponse == ProblemPage(j.problem, WithContent(c))
    ensures j.RejectAuth? ==> Obey(c, j).ctx.state == ReportError && Obey(c, j).modifiedResponse == AuthPage()
  {
    hide ProblemPage, AuthPage;
  }

  lemma RefusedAs(cfg: Config, r: RequestHead, context: RequestContext, extra: nat)
    requires !MayPass(cfg, r) && !UploadsInChunks(cfg, r)
    ensures var j := JudgeRequest(cfg, r, context, extra);
            if r.verb !in {"GET", "HEAD", "POST", "PUT", "DELETE", "CONNECT"} then
              j.Reject? && j.problem == MethodNotAllowed
            else if r.httpVersion !in {"1.1", "1.0"} then j.Reject? && j.problem == VersionNotSupported
            else if !Authorized(cfg, r) then j.RejectAuth?
            else if r.scheme != "http" then j.Reject? && j.problem == UnsupportedScheme
            else if Lookup(r.headers, "Content-Length").Some? then j.Reject? && j.problem == BadRequestLength
            else if Lookup(r.headers, "Transfer-Encoding").Some? then j.Reject? && j.problem == UnsupportedRequestEncoding
            else j.Reject? && j.problem == LengthRequired
  {
    hide Authorized, ClientKeepAlive, Lookup, Stoull, Lower;
  }

  /** And what one is told whose head is too long or cannot be parsed. */
  lemma UnreadRequest(cfg: Config, c: Conn, data: string)
    requires Inv(c) && Live(c) && c.ctx.state == ReadHttpRequestHeader && Enabled(c, ClientRead(data))
    ensures var d, x := Step(cfg, c, ClientRead(data)), c.requestData + data;
            && (FindHeadEnd(x).None? && 10240 <= |x| ==>
                  d.ctx.state == ReportError
                  && Tells(d.modifiedResponse, false, 400, "Bad Request", "Request header too long"))
            && (FindHeadEnd(x).Some? && ParsedRequest(x[..FindHeadEnd(x).value + 4]).None? ==>
                  d.ctx.state == ReportError
                  && Tells(d.modifiedResponse, false, 400, "Bad Request", "Failed to parse the http request header"))
  {
    hide FindHeadEnd, ParsedRequest, Step, Enabled, ProblemPage, Tells, Inv, Decimal, Obey, JudgeRequest;
    Codes();
    RequestReadGathers(cfg, c, data);
    PageTells(RequestHeaderTooLong, false);
    PageTells(BadRequestHeader, false);
    var x := c.requestData + data;
    if FindHeadEnd(x).Some? {
      var n := FindHeadEnd(x).value + 4;
      assert x[..n] + x[n..] == x;
    }
  }

  // ----------------------------------------------------------------- the response

  /** What a client is told whose response is not forwarded. */
  lemma RefusedResponse(c: Conn, body: string)
    requires c.requestHead.Some? && c.responseHead.Some?
    requires JudgeResponse(c.requestHead.value.verb, c.responseHead.value, c.resp, body).Reject?
    ensures var verb, h := c.requestHead.value.verb, c.responseHead.value;
            var d := ObeyResponse(c, JudgeResponse(verb, h, c.resp, body));
            var page, toHead := d.modifiedResponse, verb == "HEAD";
            && d.ctx.state == ReportError
            && if h.httpVersion !in {"1.1", "1.0"} then
                 Tells(page, toHead, 502, "Bad Gateway", "HTTP version not supported")
               else if !(100 <= h.statusCode <= 700) then
                 Tells(page, toHead, 502, "Bad Gateway", "Unexpected status code")
               else if !Understood(h) then Tells(page, toHead, 502, "Bad Gateway", "")
               else if Lookup(h.headers, "Content-Length").Some? then
                 Tells(page, toHead, 502, "Bad Gateway", "Invalid Content-Length in response")
               else if Lookup(h.headers, "Transfer-Encoding").Some? then
                 if SameLetters(Lookup(h.headers, "Transfer-Encoding").value, "chunked")
                 then Tells(page, toHead, 502, "Bad Gateway", "Failed to check chunked response")
                 else Tells(page, toHead, 502, "Bad Gateway", "Unsupported Transfer-Encoding")
               else Tells(page, toHead, 502, "Bad Gateway", "Miss response length info")
  {
    hide ProblemPage, Tells, JudgeResponse, Understood, Lookup, Decimal, SameLetters;
    var verb, h := c.requestHead.value.verb, c.responseHead.value;
    var j := JudgeResponse(verb, h, c.resp, body);
    Codes();
    RefusedResponseAs(verb, h, c.resp, body);
    PageTells(j.problem, verb == "HEAD");
  }

  lemma RefusedResponseAs(verb: string, h: ResponseHead, context: ResponseContext, body: string)
    requires JudgeResponse(verb, h, context, body).Reject?
    ensures var j := JudgeResponse(verb, h, context, body);
            if h.httpVersion !in {"1.1", "1.0"} then j.problem == ResponseVersion
            else if !(100 <= h.statusCode <= 700) then j.problem == ResponseStatus
            else if !Understood(h) then j.problem == ResponseConnection
            else if Lookup(h.headers, "Content-Length").Some? then j.problem == BadResponseLength
            else if Lookup(h.headers, "Transfer-Encoding").Some? then
              j.problem == if SameLetters(Lookup(h.headers, "Transfer-Encoding").value, "chunked")
                           then BadResponseChunks else UnsupportedResponseEncoding
            else j.problem == MissingResponseLength
  {
    hide Lookup, Lower, Stoull, SameLetters, Feed, JudgeLength;
    var connection := Lookup(h.headers, "Connection");
    KeepWords(if connection.Some? then connection.value else "");
    var reset := ResponseContext(h.httpVersion == "1.1", None, 0, None);
    RefusedLengthAs(verb, h, reset, body);
    RefusedLengthAs(verb, h, reset.(keepAlive := false), body);
    RefusedLengthAs(verb, h, reset.(keepAlive := true), body);
  }

  lemma RefusedLengthAs(verb: string, h: ResponseHead, reset: ResponseContext, body: string)
    ensures var j := JudgeLength(verb, h, reset, body);
            j.Reject? ==>
              if Lookup(h.headers, "Content-Length").Some? then j.problem == BadResponseLength
              else if Lookup(h.headers, "Transfer-Encoding").Some? then
                j.problem == if SameLetters(Lookup(h.headers, "Transfer-Encoding").value, "chunked")
                             then BadResponseChunks else UnsupportedResponseEncoding
              else j.problem == MissingResponseLength
  {
    hide Lookup, Lower, Stoull, SameLetters, Feed;
    var encoding := Lookup(h.headers, "Transfer-Encoding");
    ChunkedWord(if encoding.Some? then encoding.value else "");
  }

  lemma ChunkedWord(value: string)
    ensures Lower(value) == "chunked" <==> SameLetters(value, "chunked")
  {
    hide Lower, SameLetters;
    forall c: char | c == '-' || 'a' <= c ensures c !in CAPITALS {
      SmallIsNoCapital(c);
    }
    LowerIsIff(value, "chunked");
  }

  lemma UnreadResponse(cfg: Config, c: Conn, data: string)
    requires Inv(c) && Live(c) && c.ctx.state == ReadHttpResponseHeader && Enabled(c, OriginRead(data))
    ensures c.requestHead.Some?
    ensures var d, y, toHead := Step(cfg, c, OriginRead(data)), c.responseData + data, c.requestHead.value.verb == "HEAD";
            && (FindHeadEnd(y).None? && 10240 <= |y| ==>
                  d.ctx.state == ReportError
                  && Tells(d.modifiedResponse, toHead, 502, "Bad Gateway", "Response header too long"))
            && (FindHeadEnd(y).Some? && ParsedResponse(y[..FindHeadEnd(y).value + 4]).None? ==>
                  d.ctx.state == ReportError
                  && Tells(d.modifiedResponse, toHead, 502, "Bad Gateway", "Failed to parse response header"))
  {
    hide FindHeadEnd, ParsedResponse, Step, Enabled, ProblemPage, Tells, Inv, Decimal, ObeyResponse, JudgeResponse;
    Codes();
    GatheringResponse(c);
    ResponseReadGathers(cfg, c, data);
    PageTells(ResponseHeaderTooLong, c.requestHead.value.verb == "HEAD");
    PageTells(BadResponseHeader, c.requestHead.value.verb == "HEAD");
    var y := c.responseData + data;
    if FindHeadEnd(y).Some? {
      var n := FindHeadEnd(y).value + 4;
      assert y[..n] + y[n..] == y;
    }
  }

  // --------------------------------------------------------------------- failures

  /** What a failed operation leads to: a page when the origin cannot be found or reached,
      a new resolution when a connection used again has closed before a byte was taken,
      and otherwise the end of both connections, with nothing started. */
  lemma FailureAnswered(cfg: Config, c: Conn, e: Event)
    requires Inv(c) && Live(c) && Enabled(c, e) && c.ctx.state != TunnelTransfer
    requires e.ClientReadFailed? || e.ClientWriteFailed? || e.OriginReadFailed? || e.OriginWriteFailed?
             || e.ResolveFailed? || (e.ConnectFailed? && |c.ops.connects[0]| == 1)
    ensures var d := Step(cfg, c, e);
            var toHead := c.requestHead.Some? && c.requestHead.value.verb == "HEAD";
            if e.ResolveFailed? then
              d.ctx.state == ReportError
              && Tells(d.modifiedResponse, toHead, 504, "Gateway Timeout", "Failed to resolve the hostname")
            else if e.ConnectFailed? then
              d.ctx.state == ReportError && d.origin.None?
              && Tells(d.modifiedResponse, toHead, 502, "Bad Gateway", "Failed to connect to origin server")
            else if e.OriginWriteFailed? && c.ctx.state == WriteHttpRequestHeader && c.ctx.reconnectOnError then
              c.requestHead.Some? && d.origin.None? && Live(d)
              && d.ops == NO_OPS.(resolves := [Query(c.requestHead.value.host, c.requestHead.value.port)])
            else !Live(d) && d.origin.None? && !d.clientOpen && d.ops == NO_OPS
  {
    hide Inv, Enabled, Step, ProblemPage, Tells, Decimal, WordsOf;
    Codes();
    NoWayTells(c.requestHead.Some? && c.requestHead.value.verb == "HEAD");
    if e.ResolveFailed? || e.ConnectFailed? {
      NoWayReported(cfg, c, e);
    } else if e.OriginWriteFailed? && c.ctx.state == WriteHttpRequestHeader && c.ctx.reconnectOnError {
      StaleIsRetried(cfg, c);
    } else {
      OtherFailureEnds(cfg, c, e);
    }
  }

  lemma NoWayTells(toHead: bool)
    ensures Tells(ProblemPage(ResolveFailure, !toHead), toHead, 504, "Gateway Timeout", "Failed to resolve the hostname")
    ensures Tells(ProblemPage(ConnectFailure, !toHead), toHead, 502, "Bad Gateway", "Failed to connect to origin server")
  {
    hide ProblemPage, Tells, Decimal;
    Codes();
    PageTells(ResolveFailure, toHead);
    PageTells(ConnectFailure, toHead);
  }

  lemma NoWayReported(cfg: Config, c: Conn, e: Event)
    requires Inv(c) && Live(c) && Enabled(c, e) && c.ctx.state != TunnelTransfer
    requires e.ResolveFailed? || (e.ConnectFailed? && |c.ops.connects[0]| == 1)
    ensures var d := Step(cfg, c, e);
            && d.ctx.state == ReportError
            && (e.ConnectFailed? ==> d.origin.None?)
            && d.modifiedResponse == ProblemPage(if e.ResolveFailed? then ResolveFailure else ConnectFailure, WithContent(c))
  {
    hide FindHeadEnd, ProblemPage, OnClientData, OnOriginData, OnClientWritten, OnOriginWritten, OnResolved, OnConnect,
      AsyncConnect, Shape;
    CompletedIsQuiet(c, e);
    WhoCompletes(c, e);
  }

  lemma StaleIsRetried(cfg: Config, c: Conn)
    requires Inv(c) && Live(c) && Enabled(c, OriginWriteFailed) && c.ctx.state == WriteHttpRequestHeader
    requires c.ctx.reconnectOnError
    ensures var d := Step(cfg, c, OriginWriteFailed);
            && c.requestHead.Some? && d.origin.None? && Live(d)
            && d.ops == NO_OPS.(resolves := [Query(c.requestHead.value.host, c.requestHead.value.port)])
  {
    hide FindHeadEnd, OnClientData, OnOriginData, OnClientWritten, OnOriginWritten, OnResolved, OnConnect;
    CompletedIsQuiet(c, OriginWriteFailed);
  }

  lemma OtherFailureEnds(cfg: Config, c: Conn, e: Event)
    requires Inv(c) && Live(c) && Enabled(c, e) && c.ctx.state != TunnelTransfer
    requires e.ClientReadFailed? || e.ClientWriteFailed? || e.OriginReadFailed? || e.OriginWriteFailed?
    requires !(e.OriginWriteFailed? && c.ctx.state == WriteHttpRequestHeader && c.ctx.reconnectOnError)
    ensures var d := Step(cfg, c, e); !Live(d) && d.origin.None? && !d.clientOpen && d.ops == NO_OPS
  {
    hide FindHeadEnd, OnClientData, OnOriginData, OnClientWritten, OnOriginWritten, OnResolved, OnConnect, AsyncConnect,
      Report, Shape;
    CompletedIsQuiet(c, e);
    WhoCompletes(c, e);
  }
}
