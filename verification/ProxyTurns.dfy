/** Many requests on one connection, each answered before the next. */
module ProxyTurns {
  import opened Text
  import opened HeaderParser
  import opened ProxyContext
  import opened ProxyMachine
  import opened ProxyInvariants
  import opened ProxyStreams
  import opened ProxyRouting
  import opened ProxyConservation
  import opened ProxyFraming
  import opened ProxyExchange
  import opened ProxyRuns
  import opened ProxyService
  import opened ProxyProgress

  datatype Exchange = Exchange(request: string, response: string)

  /** A request and a response that are well made and leave the client connection
      open. */
  ghost predicate Keeps(cfg: Config, x: Exchange) {
    && SendsRequest(cfg, x.request) && SendsResponse(x.request, x.response) && WellMade(cfg, x.request, x.response)
    && RequestOf(x.request).verb != CONNECT && ClientKeepAlive(RequestOf(x.request))
    && ResponseLength(RequestOf(x.request).verb, ResponseOf(x.response)) != Some(UntilClose)
  }

  /** A connection that expects a request and has nothing of it. */
  ghost predicate Ready(cfg: Config, w: World) {
    WorldInv(cfg, w) && Live(w.conn) && w.conn.ctx.state == ReadHttpRequestHeader && w.conn.requestData == ""
  }

  // ------------------------------------------------------------------ one exchange

  /** What ends such an exchange is the last byte of the response. */
  lemma EndIsLastByte(cfg: Config, x: Exchange, p: Play, e: Event)
    requires OnScript(cfg, x.request, x.response, p) && Keeps(cfg, x) && Cooperative(p, e)
    requires Ends(p.world.conn, Step(cfg, p.world.conn, e))
    ensures Enabled(p.world.conn, e) && LastByte(p.world.conn, e)
    ensures p.world.conn.ctx.state in {WriteHttpResponseHeader, WriteHttpResponseContent}
  {
    hide Inv, Streams, Framed, SendsRequest, SendsResponse, WellMade, Conserved, RoutingInv, ForwardsViable, OriginStands,
      Enabled, Step, LastByte, Ends, RequestIn, RequestOf, ResponseIn, ResponseOf, ResponseLength, FramedRequest,
      FramedResponse, ClientKeepAlive, MayPass, WellAnswered;
    var c := p.world.conn;
    OnScriptFacts(cfg, x.request, x.response, p);
    ProceedsWell(cfg, x.request, x.response, p, e);
    StepGoesWell(cfg, p, e);
    EndsAnswered(cfg, x.request, x.response, p, e);
    if e.ClientRead? || e.OriginRead? {
      ReadsGoOn(cfg, p, e, x.request, x.response);
    } else if e.OriginReadFailed? {
      WaitingForOrigin(cfg, x.request, x.response, p);
    } else {
      PartIsNoEnd(cfg, c, e.n);
      if c.ctx.state == ReportConnectionEstablished {
        ServedIsSent(cfg, p.world, x.request);
        ServingFacts(cfg, c, p.world.trace);
      }
    }
  }

  /** And it turns the connection over. */
  lemma EndTurnsOver(cfg: Config, x: Exchange, p: Play, e: Event)
    requires OnScript(cfg, x.request, x.response, p) && Keeps(cfg, x) && Cooperative(p, e)
    requires Ends(p.world.conn, Step(cfg, p.world.conn, e))
    ensures Responds(p.world.conn.ctx.state)
    ensures var d := Step(cfg, p.world.conn, e); Live(d) && d.ctx.state == ReadHttpRequestHeader
  {
    hide Inv, Streams, Framed, SendsRequest, SendsResponse, WellMade, Conserved, RoutingInv, ForwardsViable, OriginStands,
      Enabled, Step, LastByte, RequestIn, RequestOf, ResponseIn, ResponseOf, ResponseLength, FramedResponse,
      ClientKeepAlive, MayPass, BodyOf, Timely, Carried, Wrap64, DownImage;
    var w := p.world;
    EndIsLastByte(cfg, x, p, e);
    OnScriptFacts(cfg, x.request, x.response, p);
    ServedIsSent(cfg, w, x.request);
    ServingFacts(cfg, w.conn, w.trace);
    RespondingFacts(cfg, w.conn, w.trace);
    HasResponse(w.conn, w.trace);
    CheckerIsForChunks(w.conn, w.trace);
    ExtendedResponse(w.trace.fromOrigin, x.response);
    match ResponseLength(w.conn.requestHead.value.verb, ResponseOf(w.trace.fromOrigin)).value {
      case Fixed(_) => FixedTurnoverExact(cfg, w, e);
      case Chunked => ChunkedTurnoverExact(cfg, w, e);
      case UntilClose =>
    }
  }

  /** The piece of a run that is played for this exchange, up to and with the event that
      ends it, carries the whole request and the whole response. */
  ghost predicate AnsweredBy(cfg: Config, environment: Environment, w: World, x: Exchange, piece: seq<Event>) {
    && piece != []
    && var run, e, p := piece[..|piece| - 1], piece[|piece| - 1], Play(w, x.request, x.response);
       var q := Played(cfg, p, run);
       && PlayedBy(cfg, environment, 0, p, run) && e == environment(|run|, q) && Cooperative(q, e)
       && Responds(q.world.conn.ctx.state) && WellAnswered(x.request, x.response, q, e)
  }

  lemma OneAnswered(cfg: Config, environment: Environment, w: World, x: Exchange) returns (piece: seq<Event>)
    requires Ready(cfg, w) && Keeps(cfg, x) && DoesItsPart(cfg, x.request, x.response, environment)
    ensures Possible(cfg, w.conn, piece) && NoChunkedUpload(cfg, w.conn, piece)
    ensures AnsweredBy(cfg, environment, w, x, piece) && Ready(cfg, AfterWorld(cfg, w, piece))
  {
    hide OnScript, Enabled, Step, Ends, WellAnswered, Cooperative, AsksChunkedUpload, Recorded, DoesItsPart, SendsRequest,
      SendsResponse, WellMade, WorldInv, Inv, Possible, NoChunkedUpload, AfterWorld, PlayedBy, Played, RequestOf,
      RequestIn, ResponseOf, ResponseIn, ResponseLength, ClientKeepAlive;
    var p := Play(w, x.request, x.response);
    PlayBegins(cfg, w, x.request, x.response);
    var run := ExchangeEnds(cfg, x.request, x.response, environment, 0, p);
    var q := Played(cfg, p, run);
    var e := environment(|run|, q);
    EndTurnsOver(cfg, x, q, e);
    NextBegins(cfg, x.request, x.response, q, e);
    ProceedIsStep(cfg, x.request, x.response, q, e);
    EmptyRun(cfg, NextWorld(cfg, q.world, e));
    RunCons(cfg, q.world, e, []);
    RunsJoin(cfg, w, run, [e] + []);
    piece := run + ([e] + []);
    assert piece[..|piece| - 1] == run;
  }

  // ----------------------------------------------------------------- one after another

  function Joined(pieces: seq<seq<Event>>): seq<Event> { if pieces == [] then [] else pieces[0] + Joined(pieces[1..]) }

  /** The pieces answer the exchanges one after another, each from where the one before
      has left the connection. */
  ghost predicate AnsweredInTurn(cfg: Config, environment: Environment, w: World, script: seq<Exchange>,
                                 pieces: seq<seq<Event>>)
    decreases |script|
  {
    && |pieces| == |script|
    && (script != [] ==>
          && AnsweredBy(cfg, environment, w, script[0], pieces[0]) && Possible(cfg, w.conn, pieces[0])
          && AnsweredInTurn(cfg, environment, AfterWorld(cfg, w, pieces[0]), script[1..], pieces[1..]))
  }

  ghost predicate KeepsOn(cfg: Config, environment: Environment, script: seq<Exchange>) {
    forall x | x in script :: Keeps(cfg, x) && DoesItsPart(cfg, x.request, x.response, environment)
  }

  lemma {:induction false} AllAnswered(cfg: Config, environment: Environment, w: World, script: seq<Exchange>)
    returns (pieces: seq<seq<Event>>)
    requires Ready(cfg, w) && KeepsOn(cfg, environment, script)
    ensures Possible(cfg, w.conn, Joined(pieces)) && NoChunkedUpload(cfg, w.conn, Joined(pieces))
    ensures AnsweredInTurn(cfg, environment, w, script, pieces) && Ready(cfg, AfterWorld(cfg, w, Joined(pieces)))
    decreases |script|
  {
    hide Ready, Keeps, DoesItsPart, AnsweredBy, Possible, NoChunkedUpload, AfterWorld;
    if script == [] {
      pieces := [];
      EmptyRun(cfg, w);
    } else {
      var piece := OneAnswered(cfg, environment, w, script[0]);
      var more := AllAnswered(cfg, environment, AfterWorld(cfg, w, piece), script[1..]);
      RunsJoin(cfg, w, piece, Joined(more));
      pieces := [piece] + more;
      assert pieces[1..] == more;
    }
  }

  /** On a new connection any number of requests are answered in turn: whatever pieces
      all that is sent comes in, whichever endpoints fail before the last, and whatever
      becomes of the origin connection in between. */
  lemma EveryRequestIsAnswered(cfg: Config, environment: Environment, c: Conn, script: seq<Exchange>)
    returns (pieces: seq<seq<Event>>)
    requires Created(c) && KeepsOn(cfg, environment, script)
    ensures GoodRun(cfg, c, Joined(pieces))
    ensures AnsweredInTurn(cfg, environment, FirstWorld(c), script, pieces)
    ensures Ready(cfg, Outcome(cfg, c, Joined(pieces)))
  {
    hide Created, Started, WorldInv, Possible, NoChunkedUpload, AfterWorld, KeepsOn, AnsweredInTurn, Inv;
    FirstWorldGood(cfg, c);
    StartIsFresh(c);
    pieces := AllAnswered(cfg, environment, FirstWorld(c), script);
  }
}
