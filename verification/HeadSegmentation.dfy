/** Gathering a message head read by read: how the bytes are cut into reads does not
    matter as long as the head ends within the limit. */
module HeadSegmentation {
  import opened Text
  import opened HeaderParser
  import opened HeadPrinter
  import opened ProxyContext
  import opened ProxyMachine
  import opened ProxyInvariants

  /** What the bytes gathered so far amount to. */
  datatype Gathering = Waiting(text: string) | TooLong(text: string) | Complete(head: string, rest: string)

  function Gather(limit: nat, text: string, data: string): Gathering {
    var all := text + data;
    var p := FindHeadEnd(all);
    if p.Some? then Complete(all[..p.value + 4], all[p.value + 4..])
    else if |all| < limit then Waiting(all)
    else TooLong(all)
  }

  /** Reads are gathered until the head is complete or too long. */
  function GatherAll(limit: nat, text: string, pieces: seq<string>): Gathering
    decreases |pieces|
  {
    if pieces == [] then Waiting(text)
    else
      var g := Gather(limit, text, pieces[0]);
      if g.Waiting? then GatherAll(limit, g.text, pieces[1..]) else g
  }

  predicate AreReads(pieces: seq<string>) { forall i :: 0 <= i < |pieces| ==> 1 <= |pieces[i]| <= BUFFER_LENGTH }

  function Flat(pieces: seq<string>): string {
    if pieces == [] then "" else pieces[0] + Flat(pieces[1..])
  }

  lemma Regroup(a: string, pieces: seq<string>)
    requires pieces != []
    ensures a + Flat(pieces) == a + pieces[0] + Flat(pieces[1..])
  {
  }

  /** Waiting means that nothing was missed, that the limit has room, and that there
      have been no more reads than bytes. */
  lemma {:induction false} WaitingIsShort(limit: nat, text: string, pieces: seq<string>)
    requires AreReads(pieces) && GatherAll(limit, text, pieces).Waiting? && |text| < limit
    ensures GatherAll(limit, text, pieces).text == text + Flat(pieces)
    ensures |text| + |pieces| <= |text + Flat(pieces)| < limit
    decreases |pieces|
  {
    hide FindHeadEnd;
    if pieces == [] {
      assert text + Flat(pieces) == text;
    } else {
      Regroup(text, pieces);
      WaitingIsShort(limit, text + pieces[0], pieces[1..]);
    }
  }

  /** A complete head is the head of all that was sent, wherever the reads end. */
  lemma {:induction false} CompleteIsPrefix(limit: nat, text: string, pieces: seq<string>)
    requires GatherAll(limit, text, pieces).Complete? && FindHeadEnd(text).None?
    ensures var x, g := text + Flat(pieces), GatherAll(limit, text, pieces);
            && FindHeadEnd(x).Some? && g.head == x[..FindHeadEnd(x).value + 4]
            && g.rest <= x[FindHeadEnd(x).value + 4..]
    decreases |pieces|
  {
    hide FindHeadEnd;
    Regroup(text, pieces);
    var all := text + pieces[0];
    if FindHeadEnd(all).Some? {
      HeadEndOfPrefix(all, all + Flat(pieces[1..]));
    } else {
      CompleteIsPrefix(limit, all, pieces[1..]);
    }
  }

  lemma {:induction false} WithinLimitCompletes(limit: nat, text: string, pieces: seq<string>)
    requires FindHeadEnd(text).None? && FindHeadEnd(text + Flat(pieces)).Some?
    requires FindHeadEnd(text + Flat(pieces)).value + 4 <= limit
    ensures GatherAll(limit, text, pieces).Complete?
    decreases |pieces|
  {
    hide FindHeadEnd;
    assert text + "" == text;
    if pieces != [] {
      Regroup(text, pieces);
      var all := text + pieces[0];
      HeadEndOfPrefix(all, all + Flat(pieces[1..]));
      if FindHeadEnd(all).None? {
        WithinLimitCompletes(limit, all, pieces[1..]);
      }
    }
  }

  /** Cut into reads as long as they come. */
  function Cut(s: string): (pieces: seq<string>)
    ensures AreReads(pieces) && Flat(pieces) == s
    decreases |s|
  {
    if s == "" then []
    else if |s| <= BUFFER_LENGTH then [s]
    else
      assert s == s[..BUFFER_LENGTH] + s[BUFFER_LENGTH..];
      [s[..BUFFER_LENGTH]] + Cut(s[BUFFER_LENGTH..])
  }

  lemma {:induction false} FlatConcat(a: seq<string>, b: seq<string>)
    ensures Flat(a + b) == Flat(a) + Flat(b)
    decreases |a|
  {
    if a == [] {
      assert a + b == b;
    } else {
      assert (a + b)[1..] == a[1..] + b;
      FlatConcat(a[1..], b);
    }
  }

  lemma {:induction false} NoHeadIsTooLong(limit: nat, text: string, pieces: seq<string>, more: seq<string>)
    requires FindHeadEnd(text + Flat(pieces)).None? && |text| < limit <= |text + Flat(pieces)|
    ensures GatherAll(limit, text, pieces + more).TooLong?
    decreases |pieces|
  {
    hide FindHeadEnd;
    assert text + "" == text;
    if pieces != [] {
      Regroup(text, pieces);
      assert (pieces + more)[0] == pieces[0] && (pieces + more)[1..] == pieces[1..] + more;
      var all := text + pieces[0];
      HeadEndOfPrefix(all, all + Flat(pieces[1..]));
      if |all| < limit {
        NoHeadIsTooLong(limit, all, pieces[1..], more);
      }
    }
  }

  /** The reads matter exactly if the head does not end within the limit: then some
      cut is refused as too long. */
  lemma CutNeverMattersIff(limit: nat, x: string)
    requires FindHeadEnd(x).Some? && 0 < limit
    ensures FindHeadEnd(x).value + 4 <= limit <==>
              forall pieces | AreReads(pieces) && Flat(pieces) == x :: GatherAll(limit, "", pieces).Complete?
    ensures forall pieces | AreReads(pieces) && Flat(pieces) == x && GatherAll(limit, "", pieces).Complete? ::
              GatherAll(limit, "", pieces).head == x[..FindHeadEnd(x).value + 4]
  {
    hide FindHeadEnd, GatherAll, AreReads;
    NoHeadInNothing();
    assert "" + x == x;
    forall pieces | AreReads(pieces) && Flat(pieces) == x && GatherAll(limit, "", pieces).Complete?
      ensures GatherAll(limit, "", pieces).head == x[..FindHeadEnd(x).value + 4]
    {
      CompleteIsPrefix(limit, "", pieces);
    }
    if FindHeadEnd(x).value + 4 <= limit {
      forall pieces | AreReads(pieces) && Flat(pieces) == x ensures GatherAll(limit, "", pieces).Complete? {
        WithinLimitCompletes(limit, "", pieces);
      }
    } else {
      var pieces := LateHeadCanBeRefused(limit, x);
    }
  }

  lemma LateHeadCanBeRefused(limit: nat, x: string) returns (pieces: seq<string>)
    requires FindHeadEnd(x).Some? && 0 < limit < FindHeadEnd(x).value + 4
    ensures AreReads(pieces) && Flat(pieces) == x && GatherAll(limit, "", pieces).TooLong?
  {
    hide FindHeadEnd, GatherAll, Flat;
    var front, back := x[..limit], x[limit..];
    HeadEndOfPrefix(front, x);
    assert front + back == x && "" + front == front;
    FlatConcat(Cut(front), Cut(back));
    NoHeadIsTooLong(limit, "", Cut(front), Cut(back));
    pieces := Cut(front) + Cut(back);
  }

  /** The read that completes the head. */
  lemma {:induction false} CompletesAt(limit: nat, text: string, pieces: seq<string>) returns (k: nat)
    requires GatherAll(limit, text, pieces).Complete?
    ensures k < |pieces| && GatherAll(limit, text, pieces[..k]).Waiting?
    ensures Gather(limit, GatherAll(limit, text, pieces[..k]).text, pieces[k]) == GatherAll(limit, text, pieces)
    decreases |pieces|
  {
    hide FindHeadEnd, Gather;
    var g := Gather(limit, text, pieces[0]);
    if g.Waiting? {
      k := CompletesAt(limit, g.text, pieces[1..]);
      k := k + 1;
      assert pieces[..k][0] == pieces[0] && pieces[..k][1..] == pieces[1..][..k - 1];
    } else {
      k := 0;
      assert pieces[..0] == [];
    }
  }

  /** The read at which the text is too long. */
  lemma {:induction false} RefusedAt(limit: nat, text: string, pieces: seq<string>) returns (k: nat)
    requires GatherAll(limit, text, pieces).TooLong?
    ensures k < |pieces| && GatherAll(limit, text, pieces[..k]).Waiting?
    ensures Gather(limit, GatherAll(limit, text, pieces[..k]).text, pieces[k]).TooLong?
    decreases |pieces|
  {
    hide FindHeadEnd, Gather;
    var g := Gather(limit, text, pieces[0]);
    if g.Waiting? {
      k := RefusedAt(limit, g.text, pieces[1..]);
      k := k + 1;
      assert pieces[..k][0] == pieces[0] && pieces[..k][1..] == pieces[1..][..k - 1];
    } else {
      k := 0;
      assert pieces[..0] == [];
    }
  }

  // ------------------------------------------------------------------- the connection

  function ClientReads(pieces: seq<string>): (run: seq<Event>)
    ensures |run| == |pieces|
    ensures forall i :: 0 <= i < |run| ==> run[i] == ClientRead(pieces[i])
  {
    seq(|pieces|, i requires 0 <= i < |pieces| => ClientRead(pieces[i]))
  }

  function OriginReads(pieces: seq<string>): (run: seq<Event>)
    ensures |run| == |pieces|
    ensures forall i :: 0 <= i < |run| ==> run[i] == OriginRead(pieces[i])
  {
    seq(|pieces|, i requires 0 <= i < |pieces| => OriginRead(pieces[i]))
  }

  /** A connection that has gathered more of a request head, and nothing else. */
  ghost predicate GathersRequest(c: Conn, d: Conn, text: string) {
    d == c.(requestData := text, upRead := d.upRead, upWrite := d.upWrite)
  }

  /** The head of the request `x` has been handed on: parsed, judged and obeyed, or
      refused because it does not parse. */
  ghost predicate RequestHanded(cfg: Config, c: Conn, d: Conn, x: string) {
    && FindHeadEnd(x).Some? && |x| < 10240 + 2048
    && var n := FindHeadEnd(x).value + 4;
       var head := ParsedRequest(x[..n]);
       var q := c.(requestData := x, requestHead := head, upRead := d.upRead, upWrite := d.upWrite, waits := 0, ops := NO_OPS);
       d == match head
            case None => Report(q, BadRequestHeader)
            case Some(r) => Obey(q, JudgeRequest(cfg, r, c.req, |x| - n))
  }

  lemma GatheringRequest(c: Conn)
    requires Inv(c) && Live(c) && c.ctx.state == ReadHttpRequestHeader
    ensures c.requestHead.None? && FindHeadEnd(c.requestData).None? && |c.requestData| < MAX_REQUEST_HEADER_LENGTH
    ensures c.ops == NO_OPS.(clientReads := 1)
  {
    hide FindHeadEnd;
  }

  /** What one read does to a connection that gathers a request head: it goes on, gives
      up, or hands the head on. */
  lemma RequestReadGathers(cfg: Config, c: Conn, data: string)
    requires Inv(c) && Live(c) && c.ctx.state == ReadHttpRequestHeader && Enabled(c, ClientRead(data))
    ensures var d, g := Step(cfg, c, ClientRead(data)), Gather(MAX_REQUEST_HEADER_LENGTH, c.requestData, data);
            match g
            case Waiting(text) => Inv(d) && GathersRequest(c, d, text)
            case TooLong(text) =>
              && d.ctx.state == ReportError && d.modifiedResponse == ProblemPage(RequestHeaderTooLong, true)
              && d.requestData == text && |text| < MAX_REQUEST_HEADER_LENGTH + BUFFER_LENGTH
            case Complete(head, rest) => RequestHanded(cfg, c, d, head + rest)
  {
    hide FindHeadEnd, Obey, JudgeRequest, ParsedRequest, ProblemPage, Shape, OnOriginData, OnClientWritten,
      OnOriginWritten, OnResolved, OnConnect, OnError;
    CompletedIsQuiet(c, ClientRead(data));
    GatheringRequest(c);
    var d := Completed(c, ClientRead(data)).(waits := 0);
    var all := c.requestData + data;
    var p := FindHeadEnd(all);
    if p.None? {
      StepKeepsInv(cfg, c, ClientRead(data));
    } else {
      assert all == all[..p.value + 4] + all[p.value + 4..];
      var head := ParsedRequest(all[..p.value + 4]);
      var e := d.(upWrite := d.upRead, requestData := all, requestHead := head);
      BuffersStay(e);
      if head.Some? {
        ObeyKeepsBuffers(e, JudgeRequest(cfg, head.value, e.req, |all| - (p.value + 4)));
      }
    }
  }

  lemma BuffersStay(c: Conn)
    ensures Report(c, BadRequestHeader).upRead == c.upRead && Report(c, BadRequestHeader).upWrite == c.upWrite
    ensures Report(c, BadResponseHeader).downRead == c.downRead
  {
    hide ProblemPage;
  }

  lemma OnConnectKeepsBuffers(c: Conn)
    requires Quiet(c)
    ensures OnConnect(c).upRead == c.upRead && OnConnect(c).upWrite == c.upWrite
  {
    hide FindHeadEnd, RequestText, Stripped;
  }

  lemma AsyncConnectKeepsBuffers(c: Conn)
    requires Quiet(c)
    ensures AsyncConnect(c).upRead == c.upRead && AsyncConnect(c).upWrite == c.upWrite
  {
    hide OnConnect;
    var d := c.(ctx := c.ctx.(reconnectOnError := false));
    if d.requestHead.Some? {
      var e := if d.requestHead.value.verb == CONNECT then CloseOrigin(d) else d;
      OnConnectKeepsBuffers(e.(ctx := e.ctx.(reconnectOnError := true)));
    }
  }

  lemma ObeyKeepsBuffers(c: Conn, j: Judgement<RequestContext>)
    requires Quiet(c)
    ensures Obey(c, j).upRead == c.upRead && Obey(c, j).upWrite == c.upWrite
  {
    hide AsyncConnect, AuthPage, ProblemPage;
    AsyncConnectKeepsBuffers(c.(req := j.context));
  }

  lemma GatheringOn(cfg: Config, c: Conn, d: Conn, text: string, e: Conn)
    requires GathersRequest(c, d, text)
    ensures forall more :: GathersRequest(d, e, more) ==> GathersRequest(c, e, more)
    ensures forall x :: RequestHanded(cfg, d, e, x) ==> RequestHanded(cfg, c, e, x)
  {
    hide FindHeadEnd, ParsedRequest, Obey, JudgeRequest, Report;
  }

  /** As long as the head is not complete, any cut of the same bytes leaves the
      connection gathering them. */
  lemma {:induction false} RequestHeadGathers(cfg: Config, c: Conn, pieces: seq<string>)
    requires Inv(c) && Live(c) && c.ctx.state == ReadHttpRequestHeader && AreReads(pieces)
    requires GatherAll(MAX_REQUEST_HEADER_LENGTH, c.requestData, pieces).Waiting?
    ensures Possible(cfg, c, ClientReads(pieces))
    ensures var d := After(cfg, c, ClientReads(pieces));
            Inv(d) && GathersRequest(c, d, GatherAll(MAX_REQUEST_HEADER_LENGTH, c.requestData, pieces).text)
    decreases |pieces|
  {
    hide Inv, Step, Gather, RequestHanded;
    if pieces != [] {
      GatheringRequest(c);
      RequestReadGathers(cfg, c, pieces[0]);
      assert ClientReads(pieces)[1..] == ClientReads(pieces[1..]);
      var d := Step(cfg, c, ClientRead(pieces[0]));
      RequestHeadGathers(cfg, d, pieces[1..]);
      GatheringOn(cfg, c, d, d.requestData, After(cfg, c, ClientReads(pieces)));
    }
  }

  /** The read that completes a head within the limit hands it on, the same head for
      every cut of the bytes into reads, and the reads before it only gather. No cut
      leads to the page for a head that is too long. */
  lemma RequestHeadOfAnyCut(cfg: Config, c: Conn, pieces: seq<string>) returns (k: nat)
    requires Inv(c) && Live(c) && c.ctx.state == ReadHttpRequestHeader && AreReads(pieces)
    requires var x := c.requestData + Flat(pieces);
             FindHeadEnd(x).Some? && FindHeadEnd(x).value + 4 <= 10240
    ensures k < |pieces|
    ensures var front := ClientReads(pieces[..k]);
            && Possible(cfg, c, front) && Inv(After(cfg, c, front))
            && GathersRequest(c, After(cfg, c, front), c.requestData + Flat(pieces[..k]))
    ensures var run := ClientReads(pieces[..k + 1]);
            Possible(cfg, c, run) && RequestHanded(cfg, c, After(cfg, c, run), c.requestData + Flat(pieces[..k + 1]))
    ensures var x, y := c.requestData + Flat(pieces), c.requestData + Flat(pieces[..k + 1]);
            y <= x && FindHeadEnd(y) == FindHeadEnd(x) && y[..FindHeadEnd(y).value + 4] == x[..FindHeadEnd(x).value + 4]
  {
    hide FindHeadEnd, GatherAll, Flat, Step, Inv, RequestHanded, Enabled, Possible, After;
    GatheringRequest(c);
    WithinLimitCompletes(MAX_REQUEST_HEADER_LENGTH, c.requestData, pieces);
    k := CompletesAt(MAX_REQUEST_HEADER_LENGTH, c.requestData, pieces);
    WaitingIsShort(MAX_REQUEST_HEADER_LENGTH, c.requestData, pieces[..k]);
    RequestHeadGathers(cfg, c, pieces[..k]);
    FlatFront(c.requestData, pieces, k);
    var d := After(cfg, c, ClientReads(pieces[..k]));
    var y := c.requestData + Flat(pieces[..k + 1]);
    assert y == d.requestData + pieces[k];
    ReadingIsEnabled(d, pieces[k]);
    RequestReadGathers(cfg, d, pieces[k]);
    HeadAndRest(MAX_REQUEST_HEADER_LENGTH, d.requestData, pieces[k]);
    GatheringOn(cfg, c, d, d.requestData, Step(cfg, d, ClientRead(pieces[k])));
    assert ClientReads(pieces[..k + 1]) == ClientReads(pieces[..k]) + [ClientRead(pieces[k])];
    OneMoreEvent(cfg, c, ClientReads(pieces[..k]), ClientRead(pieces[k]));
    HeadEndOfPrefix(y, c.requestData + Flat(pieces));
  }

  lemma ReadingIsEnabled(c: Conn, data: string)
    requires Inv(c) && Live(c) && 1 <= |data| <= BUFFER_LENGTH
    ensures c.ctx.state == ReadHttpRequestHeader ==> Enabled(c, ClientRead(data))
    ensures c.ctx.state == ReadHttpResponseHeader ==> Enabled(c, OriginRead(data))
  {
    hide FindHeadEnd;
  }

  lemma HeadAndRest(limit: nat, text: string, data: string)
    requires Gather(limit, text, data).Complete?
    ensures var g := Gather(limit, text, data); g.head + g.rest == text + data && FindHeadEnd(text + data).Some?
  {
    hide FindHeadEnd;
    var all := text + data;
    assert all == all[..FindHeadEnd(all).value + 4] + all[FindHeadEnd(all).value + 4..];
  }

  lemma FlatSnoc(pieces: seq<string>, k: nat)
    requires k < |pieces|
    ensures Flat(pieces[..k + 1]) == Flat(pieces[..k]) + pieces[k]
  {
    hide Flat;
    assert pieces[..k + 1] == pieces[..k] + [pieces[k]];
    FlatConcat(pieces[..k], [pieces[k]]);
    FlatOne(pieces[k]);
  }

  lemma FlatSplit(pieces: seq<string>, k: nat)
    requires k <= |pieces|
    ensures Flat(pieces) == Flat(pieces[..k]) + Flat(pieces[k..])
  {
    hide Flat;
    assert pieces == pieces[..k] + pieces[k..];
    FlatConcat(pieces[..k], pieces[k..]);
  }

  lemma Appended(a: string, b: string, c: string)
    ensures a + (b + c) == a + b + c && a + b <= a + (b + c)
  {
  }

  lemma FlatFront(text: string, pieces: seq<string>, k: nat)
    requires k < |pieces|
    ensures text + Flat(pieces[..k + 1]) == text + Flat(pieces[..k]) + pieces[k]
    ensures text + Flat(pieces[..k + 1]) <= text + Flat(pieces)
  {
    hide Flat;
    FlatSnoc(pieces, k);
    Appended(text, Flat(pieces[..k]), pieces[k]);
    FlatSplit(pieces, k + 1);
    Appended(text, Flat(pieces[..k + 1]), Flat(pieces[k + 1..]));
  }

  lemma FlatOne(piece: string)
    ensures Flat([piece]) == piece
  {
    assert [piece][1..] == [];
  }

  lemma {:induction false} OneMoreEvent(cfg: Config, c: Conn, run: seq<Event>, e: Event)
    requires Possible(cfg, c, run) && Enabled(After(cfg, c, run), e)
    ensures Possible(cfg, c, run + [e]) && After(cfg, c, run + [e]) == Step(cfg, After(cfg, c, run), e)
    decreases |run|
  {
    hide Enabled, Step;
    if run == [] {
      assert run + [e] == [e] && [e][1..] == [];
    } else {
      assert (run + [e])[0] == run[0] && (run + [e])[1..] == run[1..] + [e];
      OneMoreEvent(cfg, Step(cfg, c, run[0]), run[1..], e);
    }
  }

  /** A head that ends beyond the limit is refused under some cut. */
  lemma LateRequestHeadIsRefused(cfg: Config, c: Conn, x: string) returns (pieces: seq<string>)
    requires Inv(c) && Live(c) && c.ctx.state == ReadHttpRequestHeader && c.requestData == ""
    requires FindHeadEnd(x).Some? && 10240 < FindHeadEnd(x).value + 4
    ensures AreReads(pieces) && pieces != [] && Flat(pieces) <= x && Possible(cfg, c, ClientReads(pieces))
    ensures var d := After(cfg, c, ClientReads(pieces));
            d.ctx.state == ReportError && d.modifiedResponse == ProblemPage(RequestHeaderTooLong, true)
  {
    hide FindHeadEnd, GatherAll, Flat, Step, Inv, Enabled, Possible, After, ProblemPage, RequestHanded;
    var all := LateHeadCanBeRefused(MAX_REQUEST_HEADER_LENGTH, x);
    var k := RefusedAt(MAX_REQUEST_HEADER_LENGTH, "", all);
    WaitingIsShort(MAX_REQUEST_HEADER_LENGTH, "", all[..k]);
    RequestHeadGathers(cfg, c, all[..k]);
    FlatFront("", all, k);
    assert "" + x == x && "" + Flat(all[..k + 1]) == Flat(all[..k + 1]);
    var d := After(cfg, c, ClientReads(all[..k]));
    ReadingIsEnabled(d, all[k]);
    RequestReadGathers(cfg, d, all[k]);
    pieces := all[..k + 1];
    assert ClientReads(pieces) == ClientReads(all[..k]) + [ClientRead(all[k])];
    OneMoreEvent(cfg, c, ClientReads(all[..k]), ClientRead(all[k]));
  }

  // The same for responses.

  ghost predicate GathersResponse(c: Conn, d: Conn, text: string) {
    d == c.(responseData := text, downRead := d.downRead)
  }

  /** The head of the response `y` has been handed on. */
  ghost predicate ResponseHanded(c: Conn, d: Conn, y: string) {
    && FindHeadEnd(y).Some? && |y| < 10240 + 2048 && c.requestHead.Some?
    && var n := FindHeadEnd(y).value + 4;
       var head := ParsedResponse(y[..n]);
       var q := c.(responseData := y, responseHead := head, downRead := d.downRead, waits := 0, ops := NO_OPS);
       d == match head
            case None => Report(q, BadResponseHeader)
            case Some(h) => ObeyResponse(q, JudgeResponse(c.requestHead.value.verb, h, c.resp, y[n..]))
  }

  lemma GatheringResponse(c: Conn)
    requires Inv(c) && Live(c) && c.ctx.state == ReadHttpResponseHeader
    ensures c.requestHead.Some? && FindHeadEnd(c.responseData).None? && |c.responseData| < MAX_RESPONSE_HEADER_LENGTH
    ensures c.ops == NO_OPS.(originReads := 1)
  {
    hide FindHeadEnd;
  }

  /** What one read does to a connection that gathers a response head. */
  lemma ResponseReadGathers(cfg: Config, c: Conn, data: string)
    requires Inv(c) && Live(c) && c.ctx.state == ReadHttpResponseHeader && Enabled(c, OriginRead(data))
    ensures var d, g := Step(cfg, c, OriginRead(data)), Gather(MAX_RESPONSE_HEADER_LENGTH, c.responseData, data);
            match g
            case Waiting(text) => Inv(d) && GathersResponse(c, d, text)
            case TooLong(text) =>
              && d.ctx.state == ReportError && d.modifiedResponse == ProblemPage(ResponseHeaderTooLong, WithContent(c))
              && d.responseData == text && |text| < MAX_RESPONSE_HEADER_LENGTH + BUFFER_LENGTH
            case Complete(head, rest) => ResponseHanded(c, d, head + rest)
  {
    hide FindHeadEnd, JudgeResponse, ParsedResponse, ProblemPage, Shape, ObeyResponse, OnClientData, OnClientWritten,
      OnOriginWritten, OnResolved, OnConnect, OnError;
    CompletedIsQuiet(c, OriginRead(data));
    GatheringResponse(c);
    var d := Completed(c, OriginRead(data)).(waits := 0);
    var all := c.responseData + data;
    var p := FindHeadEnd(all);
    if p.None? {
      StepKeepsInv(cfg, c, OriginRead(data));
    } else {
      assert all == all[..p.value + 4] + all[p.value + 4..];
      var head := ParsedResponse(all[..p.value + 4]);
      var e := d.(responseData := all, responseHead := head);
      BuffersStay(e);
      if head.Some? {
        ObeyResponseKeepsBuffers(e, JudgeResponse(e.requestHead.value.verb, head.value, e.resp, all[p.value + 4..]));
      }
    }
  }

  lemma ObeyResponseKeepsBuffers(c: Conn, j: Judgement<ResponseContext>)
    requires Quiet(c)
    ensures ObeyResponse(c, j).downRead == c.downRead
  {
    hide FindHeadEnd, ResponseText, ProblemPage;
  }

  lemma GatheringBackOn(c: Conn, d: Conn, text: string, e: Conn)
    requires GathersResponse(c, d, text)
    ensures forall more :: GathersResponse(d, e, more) ==> GathersResponse(c, e, more)
    ensures forall y :: ResponseHanded(d, e, y) ==> ResponseHanded(c, e, y)
  {
    hide FindHeadEnd, ParsedResponse, ObeyResponse, JudgeResponse, Report;
  }

  lemma {:induction false} ResponseHeadGathers(cfg: Config, c: Conn, pieces: seq<string>)
    requires Inv(c) && Live(c) && c.ctx.state == ReadHttpResponseHeader && AreReads(pieces)
    requires GatherAll(MAX_RESPONSE_HEADER_LENGTH, c.responseData, pieces).Waiting?
    ensures Possible(cfg, c, OriginReads(pieces))
    ensures var d := After(cfg, c, OriginReads(pieces));
            Inv(d) && GathersResponse(c, d, GatherAll(MAX_RESPONSE_HEADER_LENGTH, c.responseData, pieces).text)
    decreases |pieces|
  {
    hide Inv, Step, Gather, ResponseHanded;
    if pieces != [] {
      GatheringResponse(c);
      ResponseReadGathers(cfg, c, pieces[0]);
      assert OriginReads(pieces)[1..] == OriginReads(pieces[1..]);
      var d := Step(cfg, c, OriginRead(pieces[0]));
      ResponseHeadGathers(cfg, d, pieces[1..]);
      GatheringBackOn(c, d, d.responseData, After(cfg, c, OriginReads(pieces)));
    }
  }

  /** The read that completes the head of a response within the limit hands it on, the
      same head for every cut. */
  lemma ResponseHeadOfAnyCut(cfg: Config, c: Conn, pieces: seq<string>) returns (k: nat)
    requires Inv(c) && Live(c) && c.ctx.state == ReadHttpResponseHeader && AreReads(pieces)
    requires var y := c.responseData + Flat(pieces);
             FindHeadEnd(y).Some? && FindHeadEnd(y).value + 4 <= 10240
    ensures k < |pieces|
    ensures var front := OriginReads(pieces[..k]);
            && Possible(cfg, c, front) && Inv(After(cfg, c, front))
            && GathersResponse(c, After(cfg, c, front), c.responseData + Flat(pieces[..k]))
    ensures var run := OriginReads(pieces[..k + 1]);
            Possible(cfg, c, run) && ResponseHanded(c, After(cfg, c, run), c.responseData + Flat(pieces[..k + 1]))
    ensures var x, y := c.responseData + Flat(pieces), c.responseData + Flat(pieces[..k + 1]);
            y <= x && FindHeadEnd(y) == FindHeadEnd(x) && y[..FindHeadEnd(y).value + 4] == x[..FindHeadEnd(x).value + 4]
  {
    hide FindHeadEnd, GatherAll, Flat, Step, Inv, ResponseHanded, Enabled, Possible, After;
    GatheringResponse(c);
    WithinLimitCompletes(MAX_RESPONSE_HEADER_LENGTH, c.responseData, pieces);
    k := CompletesAt(MAX_RESPONSE_HEADER_LENGTH, c.responseData, pieces);
    WaitingIsShort(MAX_RESPONSE_HEADER_LENGTH, c.responseData, pieces[..k]);
    ResponseHeadGathers(cfg, c, pieces[..k]);
    FlatFront(c.responseData, pieces, k);
    var d := After(cfg, c, OriginReads(pieces[..k]));
    var y := c.responseData + Flat(pieces[..k + 1]);
    assert y == d.responseData + pieces[k];
    ReadingIsEnabled(d, pieces[k]);
    ResponseReadGathers(cfg, d, pieces[k]);
    HeadAndRest(MAX_RESPONSE_HEADER_LENGTH, d.responseData, pieces[k]);
    GatheringBackOn(c, d, d.responseData, Step(cfg, d, OriginRead(pieces[k])));
    assert OriginReads(pieces[..k + 1]) == OriginReads(pieces[..k]) + [OriginRead(pieces[k])];
    OneMoreEvent(cfg, c, OriginReads(pieces[..k]), OriginRead(pieces[k]));
    HeadEndOfPrefix(y, c.responseData + Flat(pieces));
  }

  lemma LateResponseHeadIsRefused(cfg: Config, c: Conn, y: string) returns (pieces: seq<string>)
    requires Inv(c) && Live(c) && c.ctx.state == ReadHttpResponseHeader && c.responseData == ""
    requires FindHeadEnd(y).Some? && 10240 < FindHeadEnd(y).value + 4
    ensures AreReads(pieces) && pieces != [] && Flat(pieces) <= y && Possible(cfg, c, OriginReads(pieces))
    ensures var d := After(cfg, c, OriginReads(pieces));
            d.ctx.state == ReportError && d.modifiedResponse == ProblemPage(ResponseHeaderTooLong, WithContent(c))
  {
    hide FindHeadEnd, GatherAll, Flat, Step, Inv, Enabled, Possible, After, ProblemPage, ResponseHanded;
    var all := LateHeadCanBeRefused(MAX_RESPONSE_HEADER_LENGTH, y);
    var k := RefusedAt(MAX_RESPONSE_HEADER_LENGTH, "", all);
    WaitingIsShort(MAX_RESPONSE_HEADER_LENGTH, "", all[..k]);
    ResponseHeadGathers(cfg, c, all[..k]);
    FlatFront("", all, k);
    assert "" + y == y && "" + Flat(all[..k + 1]) == Flat(all[..k + 1]);
    var d := After(cfg, c, OriginReads(all[..k]));
    ReadingIsEnabled(d, all[k]);
    ResponseReadGathers(cfg, d, all[k]);
    pieces := all[..k + 1];
    assert OriginReads(pieces) == OriginReads(all[..k]) + [OriginRead(all[k])];
    OneMoreEvent(cfg, c, OriginReads(all[..k]), OriginRead(all[k]));
  }
}
