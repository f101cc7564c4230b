/** http_proxy_server_connection as the program has it: one object whose handlers
    change its fields and buffers in place, proved to do what ProxyMachine says. */
module ProxyConnection {
  import opened Text
  import opened ChunkChecker
  import opened HeaderMap
  import opened HeaderParser
  import opened HeadPrinter
  import opened ProxyContext
  import opened ProxyInvariants
  import Authentication
  import KeepAlive
  import Spec = ProxyMachine

  class HttpProxyServerConnection {
    const cfg: Config

    const upgoingBufferRead: array<char>
    const upgoingBufferWrite: array<char>
    const downgoingBufferRead: array<char>
    const downgoingBufferWrite: array<char>

    var requestData: string
    var modifiedRequestData: string
    var responseData: string
    var modifiedResponseData: string
    var requestHeader: Option<RequestHead>
    var responseHeader: Option<ResponseHead>
    var connectionContext: ConnectionContext
    var readRequestContext: RequestContext
    var readResponseContext: ResponseContext

    // What the I/O service keeps for the connection.
    var proxyClientSocketOpen: bool
    var originServerSocketPeer: Option<Endpoint>
    var timerWaits: nat
    var timeoutsQueued: nat
    var outstanding: Ops

    ghost predicate Valid() {
      && upgoingBufferRead.Length == upgoingBufferWrite.Length == BUFFER_LENGTH
      && downgoingBufferRead.Length == downgoingBufferWrite.Length == BUFFER_LENGTH
      && upgoingBufferRead != upgoingBufferWrite && downgoingBufferRead != downgoingBufferWrite
      && upgoingBufferRead != downgoingBufferRead && upgoingBufferRead != downgoingBufferWrite
      && upgoingBufferWrite != downgoingBufferRead && upgoingBufferWrite != downgoingBufferWrite
    }

    /** The object as a value. */
    ghost function View(): Conn
      reads this, upgoingBufferRead, upgoingBufferWrite, downgoingBufferRead, downgoingBufferWrite
    {
      Conn(connectionContext, readRequestContext, readResponseContext, requestData, modifiedRequestData, responseData,
           modifiedResponseData, requestHeader, responseHeader, upgoingBufferRead[..], upgoingBufferWrite[..],
           downgoingBufferRead[..], downgoingBufferWrite[..], proxyClientSocketOpen, originServerSocketPeer,
           timerWaits, timeoutsQueued, outstanding, false)
    }

    constructor (cfg: Config)
      ensures Valid() && Spec.Created(View()) && this.cfg == cfg
      ensures fresh(upgoingBufferRead) && fresh(upgoingBufferWrite) && fresh(downgoingBufferRead) && fresh(downgoingBufferWrite)
    {
      this.cfg := cfg;
      upgoingBufferRead := new char[BUFFER_LENGTH];
      upgoingBufferWrite := new char[BUFFER_LENGTH];
      downgoingBufferRead := new char[BUFFER_LENGTH];
      downgoingBufferWrite := new char[BUFFER_LENGTH];
      requestData, modifiedRequestData, responseData, modifiedResponseData := "", "", "", "";
      requestHeader, responseHeader := None, None;
      connectionContext := ConnectionContext(ReadCipherData, false, "", 0, None);
      readRequestContext := RequestContext(false, None, 0, None);
      readResponseContext := ResponseContext(false, None, 0, None);
      proxyClientSocketOpen, originServerSocketPeer := true, None;
      timerWaits, timeoutsQueued, outstanding := 0, 0, NO_OPS;
    }

    // ------------------------------------------------------------------- the timer

    method SetTimer()
      requires !Spec.SetTimer(View()).fault
      modifies this
      ensures View() == Spec.SetTimer(old(View()))
    {
      if timerWaits != 0 {
        assert false;
      }
      timerWaits := 1;
    }

    method CancelTimer() returns (cancelled: bool)
      requires timerWaits <= 1
      modifies this
      ensures View() == old(View()).(waits := 0) && cancelled == (old(timerWaits) == 1)
    {
      var ret := timerWaits;
      timerWaits := 0;
      assert ret <= 1;
      cancelled := ret == 1;
    }

    // ---------------------------------------------------------- starting operations

    method Start()
      requires Spec.Created(View())
      modifies this
      ensures View() == Spec.Started(old(View()))
    {
      connectionContext := connectionContext.(state := ReadHttpRequestHeader);
      AsyncReadDataFromProxyClient();
    }

    method AsyncReadDataFromProxyClient()
      requires !Spec.AsyncReadClient(View()).fault
      modifies this
      ensures View() == Spec.AsyncReadClient(old(View()))
    {
      SetTimer();
      outstanding := outstanding.(clientReads := outstanding.clientReads + 1);
    }

    method AsyncReadDataFromOriginServer(setTimer: bool)
      requires setTimer ==> !Spec.AsyncReadOrigin(View()).fault
      modifies this
      ensures View() == if setTimer then Spec.AsyncReadOrigin(old(View())) else Spec.ReadOrigin(old(View()))
    {
      if setTimer {
        SetTimer();
      }
      outstanding := outstanding.(originReads := outstanding.originReads + 1);
    }

    method AsyncWriteDataToOriginServer(buffer: Buffer, offset: nat, size: nat)
      requires !Spec.AsyncWriteOrigin(View(), buffer, offset, size).fault
      modifies this
      ensures View() == Spec.AsyncWriteOrigin(old(View()), buffer, offset, size)
    {
      SetTimer();
      var write := OriginWrite(buffer, offset, size, originServerSocketPeer);
      outstanding := outstanding.(originWrites := outstanding.originWrites + [write]);
    }

    method AsyncWriteDataToProxyClient(buffer: Buffer, offset: nat, size: nat)
      requires !Spec.AsyncWriteClient(View(), buffer, offset, size).fault
      modifies this
      ensures View() == Spec.AsyncWriteClient(old(View()), buffer, offset, size)
    {
      SetTimer();
      outstanding := outstanding.(clientWrites := outstanding.clientWrites + [ClientWrite(buffer, offset, size)]);
    }

    method StartTunnelTransfer()
      requires !Spec.AsyncReadClient(View()).fault
      modifies this
      ensures View() == Spec.ReadOrigin(Spec.AsyncReadClient(Spec.InState(old(View()), TunnelTransfer)))
    {
      connectionContext := connectionContext.(state := TunnelTransfer);
      AsyncReadDataFromProxyClient();
      AsyncReadDataFromOriginServer(false);
    }

    // ----------------------------------------------------------------- error pages

    method ReportErrorPage(code: string, description: string, message: string)
      requires timerWaits == 0
      modifies this
      ensures View() == Spec.WritePage(old(View()), Spec.ErrorPage(code, description, message, Spec.WithContent(old(View()))))
    {
      var content := Spec.PageContent(code, description, message);
      var page := "HTTP/1.1 " + code;
      if description != "" {
        page := page + (" " + description);
      } else {
        assert page + "" == page;
      }
      page := page + CRLF + "Content-Type: text/html" + CRLF + "Server: AzureHttpProxy" + CRLF + "Content-Length: "
        + ToDecimal(|content|) + CRLF + "Proxy-Connection: close" + CRLF + CRLF;
      if requestHeader.None? || requestHeader.value.verb != "HEAD" {
        page := page + content;
      } else {
        assert page + "" == page;
      }
      modifiedResponseData := page;
      connectionContext := connectionContext.(state := ReportError);
      AsyncWriteDataToProxyClient(ModifiedResponse, 0, |modifiedResponseData|);
    }

    method ReportAuthenticationFailed()
      requires timerWaits == 0
      modifies this
      ensures View() == Spec.WritePage(old(View()), Spec.AuthPage())
    {
      hide FieldLine, ToDecimal, Spec.AUTH_CONTENT;
      var page := "HTTP/1.1 " + "407" + " " + "Proxy Authentication Required" + CRLF;
      page := page + FieldLine(Field("Server", "AzureHttpProxy")) + CRLF;
      page := page + FieldLine(Field("Proxy-Authenticate", "Basic realm=\"AzureHttpProxy\"")) + CRLF;
      page := page + FieldLine(Field("Content-Type", "text/html")) + CRLF;
      page := page + FieldLine(Field("Connection", "Close")) + CRLF;
      page := page + "Content-Length: " + ToDecimal(|Spec.AUTH_CONTENT|) + HEAD_END;
      modifiedResponseData := page + Spec.AUTH_CONTENT;
      connectionContext := connectionContext.(state := ReportError);
      AsyncWriteDataToProxyClient(ModifiedResponse, 0, |modifiedResponseData|);
    }

    // ------------------------------------------------------------- reaching the origin

    method AsyncWriteRequestHeaderToOriginServer()
      requires !Spec.AsyncWriteRequestHeader(View()).fault
      modifies this
      ensures View() == Spec.AsyncWriteRequestHeader(old(View()))
    {
      hide FindHeadEnd, Erase, RequestText;
      var contentBegin := FindHeadEnd(requestData).value + 4;
      var headers := new HeadersContainer.From(requestHeader.value.headers);
      var _ := headers.EraseHeader("Proxy-Connection");
      var _ := headers.EraseHeader("Proxy-Authorization");
      requestHeader := Some(requestHeader.value.(headers := headers.fields));
      var head := PrintRequest(requestHeader.value);
      modifiedRequestData := head + requestData[contentBegin..];
      connectionContext := connectionContext.(state := WriteHttpRequestHeader);
      AsyncWriteDataToOriginServer(ModifiedRequest, 0, |modifiedRequestData|);
    }

    method AsyncWriteResponseHeaderToProxyClient()
      requires !Spec.AsyncWriteResponseHeader(View()).fault
      modifies this
      ensures View() == Spec.AsyncWriteResponseHeader(old(View()))
    {
      hide FindHeadEnd, ResponseText;
      var contentBegin := FindHeadEnd(responseData).value + 4;
      var head := PrintResponse(responseHeader.value);
      modifiedResponseData := head + responseData[contentBegin..];
      connectionContext := connectionContext.(state := WriteHttpResponseHeader);
      AsyncWriteDataToProxyClient(ModifiedResponse, 0, |modifiedResponseData|);
    }

    method OnConnect()
      requires !Spec.OnConnect(View()).fault
      modifies this
      ensures View() == Spec.OnConnect(old(View()))
    {
      if requestHeader.value.verb == CONNECT {
        modifiedResponseData := Spec.ESTABLISHED;
        connectionContext := connectionContext.(state := ReportConnectionEstablished);
        AsyncWriteDataToProxyClient(ModifiedResponse, 0, |modifiedResponseData|);
      } else {
        AsyncWriteRequestHeaderToOriginServer();
      }
    }

    method AsyncConnectToOriginServer()
      requires !Spec.AsyncConnect(View()).fault
      modifies this
      ensures View() == Spec.AsyncConnect(old(View()))
    {
      hide Spec.OnConnect;
      connectionContext := connectionContext.(reconnectOnError := false);
      if originServerSocketPeer.Some? {
        if requestHeader.value.verb == CONNECT {
          originServerSocketPeer := None;
        }
      }
      if originServerSocketPeer.Some?
         && requestHeader.value.host == connectionContext.originName
         && requestHeader.value.port == connectionContext.originPort
      {
        connectionContext := connectionContext.(reconnectOnError := true);
        OnConnect();
      } else {
        connectionContext := connectionContext.(originName := requestHeader.value.host);
        connectionContext := connectionContext.(originPort := requestHeader.value.port);
        var query := Query(requestHeader.value.host, requestHeader.value.port);
        connectionContext := connectionContext.(state := ResolveOriginServerAddress);
        SetTimer();
        outstanding := outstanding.(resolves := outstanding.resolves + [query]);
      }
    }

    /** An open socket whose endpoint is not the first of those found is closed on the
        way to finding it. */
    method OnResolved(endpoints: seq<Endpoint>)
      requires !Spec.OnResolved(View(), endpoints).fault
      modifies this
      ensures View() == Spec.OnResolved(old(View()), endpoints)
    {
      hide Spec.OnConnect;
      if originServerSocketPeer.Some? {
        var i := 0;
        while i < |endpoints|
          invariant 0 <= i <= |endpoints|
          invariant forall k :: 0 <= k < i ==> connectionContext.originEndpoint != Some(endpoints[k])
          invariant View() == if i == 0 then old(View()) else Spec.CloseOrigin(old(View()))
        {
          if connectionContext.originEndpoint == Some(endpoints[i]) {
            connectionContext := connectionContext.(reconnectOnError := true);
            OnConnect();
            return;
          }
          originServerSocketPeer := None;
          i := i + 1;
        }
      }
      connectionContext := connectionContext.(originEndpoint := Some(endpoints[0]));
      connectionContext := connectionContext.(state := ConnectToOriginServer);
      SetTimer();
      originServerSocketPeer := Some(endpoints[0]);
      outstanding := outstanding.(connects := outstanding.connects + [endpoints]);
    }

    // ---------------------------------------------------------- data from the client

    /** Proxy-Connection decides whether the client stays, then Connection, then the
        version. */
    method DecideProxyClientKeepAlive(head: RequestHead) returns (keepAlive: bool)
      requires head.httpVersion == "1.1" || head.httpVersion == "1.0"
      ensures keepAlive == Spec.ClientKeepAlive(head)
      ensures var own, general := Lookup(head.headers, "Proxy-Connection"), Lookup(head.headers, "Connection");
              && (head.httpVersion == "1.1" && own.None? && general.None? ==> keepAlive)
              && (head.httpVersion == "1.1" && own.Some? ==> keepAlive == !SameLetters(own.value, "close"))
              && (head.httpVersion == "1.1" && own.None? && general.Some? ==>
                    keepAlive == !SameLetters(general.value, "close"))
              && (head.httpVersion == "1.0" && own.None? && general.None? ==> !keepAlive)
              && (head.httpVersion == "1.0" && own.Some? ==> keepAlive == SameLetters(own.value, "keep-alive"))
              && (head.httpVersion == "1.0" && own.None? && general.Some? ==>
                    keepAlive == SameLetters(general.value, "keep-alive"))
    {
      hide Lookup, Lower, SameLetters;
      KeepAlive.ClientStaysIff(head);
      var proxyConnectionValue := Lookup(head.headers, "Proxy-Connection");
      var connectionValue := Lookup(head.headers, "Connection");
      if proxyConnectionValue.Some? {
        var value := Lower(proxyConnectionValue.value);
        if head.httpVersion == "1.1" {
          keepAlive := true;
          if value == "close" {
            keepAlive := false;
          }
        } else {
          keepAlive := false;
          if value == "keep-alive" {
            keepAlive := true;
          }
        }
      } else {
        if head.httpVersion == "1.1" {
          keepAlive := true;
        } else {
          keepAlive := false;
        }
        if connectionValue.Some? {
          var value := Lower(connectionValue.value);
          if head.httpVersion == "1.1" && value == "close" {
            keepAlive := false;
          } else if head.httpVersion == "1.0" && value == "keep-alive" {
            keepAlive := true;
          }
        }
      }
    }

    /** The length of a POST or PUT. */
    method FrameUpload(headEnd: nat)
      requires requestHeader.Some? && headEnd <= |requestData| && timerWaits == 0
      requires var c := View();
               !Spec.Obey(c, Spec.JudgeUpload(c.requestHead.value, c.req, |c.requestData| - headEnd)).fault
      modifies this
      ensures var c := old(View());
              View() == Spec.Obey(c, Spec.JudgeUpload(c.requestHead.value, c.req, |c.requestData| - headEnd))
    {
      hide Lookup, Lower, Stoull, Spec.AsyncConnect, Spec.ErrorPage, Spec.WritePage;
      var contentLengthValue := Lookup(requestHeader.value.headers, "Content-Length");
      var transferEncodingValue := Lookup(requestHeader.value.headers, "Transfer-Encoding");
      if contentLengthValue.Some? {
        var length := Stoull(contentLengthValue.value);
        if length.None? {
          ReportErrorPage("400", "Bad Request", "Invalid Content-Length in request");
          return;
        }
        readRequestContext := readRequestContext.(contentLength := length);
        readRequestContext := readRequestContext.(hasRead := |requestData| - headEnd);
      } else if transferEncodingValue.Some? {
        ReportErrorPage("400", "Bad Request", "Unsupported Transfer-Encoding");
        return;
      } else {
        ReportErrorPage("411", "Length Required", "");
        return;
      }
      AsyncConnectToOriginServer();
    }

    /** What is decided for a request that is forwarded: whether its client stays, and
        how long its body is. */
    method FrameRequest(headEnd: nat)
      requires requestHeader.Some? && headEnd <= |requestData| && timerWaits == 0
      requires var r := requestHeader.value;
               && r.verb in Spec.FORWARDED_METHODS && (r.httpVersion == "1.1" || r.httpVersion == "1.0")
               && r.scheme == "http" && Spec.Authorized(cfg, r)
      requires var c := View();
               !Spec.Obey(c, Spec.JudgeRequest(cfg, c.requestHead.value, c.req, |c.requestData| - headEnd)).fault
      modifies this
      ensures var c := old(View());
              View() == Spec.Obey(c, Spec.JudgeRequest(cfg, c.requestHead.value, c.req, |c.requestData| - headEnd))
    {
      hide Lookup, Spec.JudgeUpload, Spec.ClientKeepAlive, Spec.Authorized, Spec.AsyncConnect, Spec.WritePage,
        Spec.ProblemPage, Spec.AuthPage;
      var head := requestHeader.value;
      var keepAlive := DecideProxyClientKeepAlive(head);
      readRequestContext := readRequestContext.(keepAlive := keepAlive);
      readRequestContext := readRequestContext.(contentLength := None, hasRead := 0, checker := None);
      if head.verb == "GET" || head.verb == "HEAD" || head.verb == "DELETE" {
        readRequestContext := readRequestContext.(contentLength := Some(0));
        AsyncConnectToOriginServer();
      } else {
        FrameUpload(headEnd);
      }
    }

    method AuthenticateClient(head: RequestHead) returns (authSuccess: bool)
      ensures authSuccess == Spec.Authorized(cfg, head)
    {
      hide Lookup, Authentication.Verdict;
      authSuccess := true;
      if cfg.enableAuth {
        var proxyAuthorizationValue := Lookup(head.headers, "Proxy-Authorization");
        authSuccess := false;
        if proxyAuthorizationValue.Some? {
          if Authentication.Verdict(cfg.users, proxyAuthorizationValue.value) == Authentication.Ok {
            authSuccess := true;
          }
        }
      }
    }

    /** The part of on_proxy_client_data_arrived that judges a parsed request head. */
    method OnRequestHeader(headEnd: nat)
      requires requestHeader.Some? && headEnd <= |requestData| && timerWaits == 0
      requires var c := View();
               !Spec.Obey(c, Spec.JudgeRequest(cfg, c.requestHead.value, c.req, |c.requestData| - headEnd)).fault
      modifies this
      ensures var c := old(View());
              View() == Spec.Obey(c, Spec.JudgeRequest(cfg, c.requestHead.value, c.req, |c.requestData| - headEnd))
    {
      hide Lookup, Spec.JudgeUpload, Spec.ClientKeepAlive, Spec.AsyncConnect, Spec.ErrorPage, Spec.AuthPage,
        Spec.Authorized, Spec.WritePage;
      var head := requestHeader.value;
      if head.verb != "GET" && head.verb != "HEAD" && head.verb != "POST" && head.verb != "PUT" && head.verb != "DELETE"
         && head.verb != CONNECT
      {
        ReportErrorPage("405", "Method Not Allowed", "");
        return;
      }
      if head.httpVersion != "1.1" && head.httpVersion != "1.0" {
        ReportErrorPage("505", "HTTP Version Not Supported", "");
        return;
      }
      var authSuccess := AuthenticateClient(head);
      if !authSuccess {
        ReportAuthenticationFailed();
        return;
      }
      if head.verb == CONNECT {
        AsyncConnectToOriginServer();
        return;
      }
      if head.scheme != "http" {
        ReportErrorPage("400", "Bad Request", "Unsupported scheme");
        return;
      }
      FrameRequest(headEnd);
    }

    method OnRequestHeaderData(n: nat)
      requires Valid() && n <= BUFFER_LENGTH && timerWaits == 0
      requires !Spec.OnRequestHeadData(cfg, View(), View().upWrite[..n]).fault
      modifies this
      ensures View() == Spec.OnRequestHeadData(cfg, old(View()), old(View()).upWrite[..n])
    {
      hide FindHeadEnd, ParsedRequest, Spec.JudgeRequest, Spec.Obey, Spec.ErrorPage, Spec.WritePage;
      assert upgoingBufferWrite[..n] == upgoingBufferWrite[..][..n];
      requestData := requestData + upgoingBufferWrite[..n];
      var doubleCrlfPos := FindHeadEnd(requestData);
      if doubleCrlfPos.None? {
        if |requestData| < MAX_REQUEST_HEADER_LENGTH {
          AsyncReadDataFromProxyClient();
        } else {
          ReportErrorPage("400", "Bad Request", "Request header too long");
        }
        return;
      }
      var headEnd := doubleCrlfPos.value + 4;
      requestHeader := ParseRequestHeader(requestData[..headEnd]);
      if requestHeader.None? {
        ReportErrorPage("400", "Bad Request", "Failed to parse the http request header");
        return;
      }
      OnRequestHeader(headEnd);
    }

    /** Content with a length is counted; content in chunks is checked. */
    method OnRequestContentData(n: nat)
      requires Valid() && n <= BUFFER_LENGTH && timerWaits == 0
      requires !Spec.OnRequestContent(View(), n).fault
      modifies this
      ensures View() == Spec.OnRequestContent(old(View()), n)
    {
      hide Feed, Wrap64;
      if readRequestContext.contentLength.Some? {
        readRequestContext := readRequestContext.(hasRead := Wrap64(readRequestContext.hasRead + n));
      } else {
        assert readRequestContext.checker.Some?;
        assert upgoingBufferWrite[..n] == upgoingBufferWrite[..][..n];
        var checker := new HttpChunkChecker.From(readRequestContext.checker.value);
        var good := checker.Check(upgoingBufferWrite[..n]);
        var checked := checker.Value();
        readRequestContext := readRequestContext.(checker := Some(checked));
        if !good {
          return;
        }
      }
      connectionContext := connectionContext.(state := WriteHttpRequestContent);
      AsyncWriteDataToOriginServer(UpgoingWrite, 0, n);
    }

    method OnProxyClientDataArrived(n: nat)
      requires Valid() && n <= BUFFER_LENGTH && timerWaits == 0
      requires !Spec.OnClientData(cfg, View(), n).fault
      modifies this, upgoingBufferWrite
      ensures View() == Spec.OnClientData(cfg, old(View()), n)
    {
      hide Spec.OnRequestHeadData, Spec.OnRequestContent;
      forall i | 0 <= i < BUFFER_LENGTH {
        upgoingBufferWrite[i] := upgoingBufferRead[i];
      }
      assert upgoingBufferWrite[..] == upgoingBufferRead[..];
      assert View() == old(View()).(upWrite := old(View()).upRead);
      if connectionContext.state == ReadHttpRequestHeader {
        OnRequestHeaderData(n);
      } else if connectionContext.state == ReadHttpRequestContent {
        OnRequestContentData(n);
      } else if connectionContext.state == TunnelTransfer {
        AsyncWriteDataToOriginServer(UpgoingWrite, 0, n);
      }
    }

    // ---------------------------------------------------------- data from the origin

    /** A new checker for a response body, fed with what came with the head. */
    method CheckFirstChunks(body: string) returns (good: bool)
      modifies this
      ensures View() == old(View()).(resp := old(readResponseContext).(checker := Some(Feed(FRESH, body))))
      ensures good == !Feed(FRESH, body).IsFail()
    {
      var checker := new HttpChunkChecker();
      good := checker.Check(body);
      var checked := checker.Value();
      readResponseContext := readResponseContext.(checker := Some(checked));
    }

    /** How the body of a response is framed that names an encoding. */
    method FrameEncodedResponse(headEnd: nat)
      requires requestHeader.Some? && responseHeader.Some? && headEnd <= |responseData| && timerWaits == 0
      requires requestHeader.value.verb != "HEAD" && responseHeader.value.statusCode !in {204, 304}
      requires Lookup(responseHeader.value.headers, "Content-Length").None?
      requires Lookup(responseHeader.value.headers, "Transfer-Encoding").Some?
      requires var c := View();
               !Spec.ObeyResponse(c, Spec.JudgeLength(c.requestHead.value.verb, c.responseHead.value, c.resp,
                                                      c.responseData[headEnd..])).fault
      modifies this
      ensures var c := old(View());
              View() == Spec.ObeyResponse(c, Spec.JudgeLength(c.requestHead.value.verb, c.responseHead.value, c.resp,
                                                              c.responseData[headEnd..]))
    {
      hide Lookup, Lower, Stoull, Feed, Spec.AsyncWriteResponseHeader, Spec.ErrorPage, Spec.WritePage;
      var transferEncodingValue := Lookup(responseHeader.value.headers, "Transfer-Encoding");
      if Lower(transferEncodingValue.value) == "chunked" {
        var good := CheckFirstChunks(responseData[headEnd..]);
        if !good {
          ReportErrorPage("502", "Bad Gateway", "Failed to check chunked response");
          return;
        }
      } else {
        ReportErrorPage("502", "Bad Gateway", "Unsupported Transfer-Encoding");
        return;
      }
      AsyncWriteResponseHeaderToProxyClient();
    }

    /** How the body of a response is framed that does not state its length. */
    method FrameResponseByEncoding(headEnd: nat)
      requires requestHeader.Some? && responseHeader.Some? && headEnd <= |responseData| && timerWaits == 0
      requires requestHeader.value.verb != "HEAD" && responseHeader.value.statusCode !in {204, 304}
      requires Lookup(responseHeader.value.headers, "Content-Length").None?
      requires var c := View();
               !Spec.ObeyResponse(c, Spec.JudgeLength(c.requestHead.value.verb, c.responseHead.value, c.resp,
                                                      c.responseData[headEnd..])).fault
      modifies this
      ensures var c := old(View());
              View() == Spec.ObeyResponse(c, Spec.JudgeLength(c.requestHead.value.verb, c.responseHead.value, c.resp,
                                                              c.responseData[headEnd..]))
    {
      hide Lookup, Lower, Stoull, Feed, Spec.AsyncWriteResponseHeader, Spec.ErrorPage, Spec.WritePage;
      var transferEncodingValue := Lookup(responseHeader.value.headers, "Transfer-Encoding");
      if transferEncodingValue.Some? {
        FrameEncodedResponse(headEnd);
      } else if readResponseContext.keepAlive {
        ReportErrorPage("502", "Bad Gateway", "Miss response length info");
      } else {
        AsyncWriteResponseHeaderToProxyClient();
      }
    }

    /** How the body of a response is framed that may have one. */
    method FrameResponseContent(headEnd: nat)
      requires requestHeader.Some? && responseHeader.Some? && headEnd <= |responseData| && timerWaits == 0
      requires requestHeader.value.verb != "HEAD" && responseHeader.value.statusCode !in {204, 304}
      requires var c := View();
               !Spec.ObeyResponse(c, Spec.JudgeLength(c.requestHead.value.verb, c.responseHead.value, c.resp,
                                                      c.responseData[headEnd..])).fault
      modifies this
      ensures var c := old(View());
              View() == Spec.ObeyResponse(c, Spec.JudgeLength(c.requestHead.value.verb, c.responseHead.value, c.resp,
                                                              c.responseData[headEnd..]))
    {
      hide Lookup, Lower, Stoull, Feed, Spec.AsyncWriteResponseHeader, Spec.ErrorPage, Spec.WritePage;
      var contentLengthValue := Lookup(responseHeader.value.headers, "Content-Length");
      if contentLengthValue.Some? {
        var length := Stoull(contentLengthValue.value);
        if length.None? {
          ReportErrorPage("502", "Bad Gateway", "Invalid Content-Length in response");
          return;
        }
        readResponseContext := readResponseContext.(contentLength := length, hasRead := |responseData| - headEnd);
        AsyncWriteResponseHeaderToProxyClient();
      } else {
        FrameResponseByEncoding(headEnd);
      }
    }

    /** How the body of a response is framed. */
    method FrameResponse(headEnd: nat)
      requires requestHeader.Some? && responseHeader.Some? && headEnd <= |responseData| && timerWaits == 0
      requires var c := View();
               !Spec.ObeyResponse(c, Spec.JudgeLength(c.requestHead.value.verb, c.responseHead.value, c.resp,
                                                      c.responseData[headEnd..])).fault
      modifies this
      ensures var c := old(View());
              View() == Spec.ObeyResponse(c, Spec.JudgeLength(c.requestHead.value.verb, c.responseHead.value, c.resp,
                                                              c.responseData[headEnd..]))
    {
      hide Lookup, Lower, Stoull, Feed, Spec.AsyncWriteResponseHeader, Spec.Report;
      if requestHeader.value.verb == "HEAD" {
        readResponseContext := readResponseContext.(contentLength := Some(0));
        AsyncWriteResponseHeaderToProxyClient();
      } else if responseHeader.value.statusCode == 204 || responseHeader.value.statusCode == 304 {
        readResponseContext := readResponseContext.(contentLength := Some(0));
        AsyncWriteResponseHeaderToProxyClient();
      } else {
        FrameResponseContent(headEnd);
      }
    }

    /** Resets the response's record and finds out whether the origin stays. */
    method ReadResponseConnection() returns (understood: bool)
      requires responseHeader.Some?
      modifies this
      ensures var r := old(responseHeader).value;
              var connection := Lookup(r.headers, "Connection");
              var reset := ResponseContext(r.httpVersion == "1.1", None, 0, None);
              && understood == (connection.None? || Lower(connection.value) in {"close", "keep-alive"})
              && View() == old(View()).(resp :=
                   if connection.None? || !understood then reset
                   else reset.(keepAlive := Lower(connection.value) == "keep-alive"))
    {
      hide Lookup, Lower;
      var head := responseHeader.value;
      readResponseContext := readResponseContext.(contentLength := None, hasRead := 0);
      readResponseContext := readResponseContext.(keepAlive := false, checker := None);
      var connectionValue := Lookup(head.headers, "Connection");
      if head.httpVersion == "1.1" {
        readResponseContext := readResponseContext.(keepAlive := true);
      } else {
        readResponseContext := readResponseContext.(keepAlive := false);
      }
      if connectionValue.Some? {
        var value := Lower(connectionValue.value);
        if value == "close" {
          readResponseContext := readResponseContext.(keepAlive := false);
        } else if value == "keep-alive" {
          readResponseContext := readResponseContext.(keepAlive := true);
        } else {
          return false;
        }
      }
      return true;
    }

    /** The part of on_origin_server_data_arrived that judges a parsed response head. */
    method OnResponseHeader(headEnd: nat)
      requires requestHeader.Some? && responseHeader.Some? && headEnd <= |responseData| && timerWaits == 0
      requires var c := View();
               !Spec.ObeyResponse(c, Spec.JudgeResponse(c.requestHead.value.verb, c.responseHead.value, c.resp,
                                                        c.responseData[headEnd..])).fault
      modifies this
      ensures var c := old(View());
              View() == Spec.ObeyResponse(c, Spec.JudgeResponse(c.requestHead.value.verb, c.responseHead.value, c.resp,
                                                                c.responseData[headEnd..]))
    {
      hide Lookup, Lower, Spec.JudgeLength, Spec.AsyncWriteResponseHeader, Spec.ErrorPage, Spec.WritePage;
      var head := responseHeader.value;
      if head.httpVersion != "1.1" && head.httpVersion != "1.0" {
        ReportErrorPage("502", "Bad Gateway", "HTTP version not supported");
        return;
      }
      if head.statusCode < 100 || head.statusCode > 700 {
        ReportErrorPage("502", "Bad Gateway", "Unexpected status code");
        return;
      }
      var understood := ReadResponseConnection();
      if !understood {
        ReportErrorPage("502", "Bad Gateway", "");
        return;
      }
      FrameResponse(headEnd);
    }

    /** What has been read of a response is appended to what was there. */
    method AppendResponseData(n: nat)
      requires Valid() && n <= BUFFER_LENGTH
      modifies this
      ensures View() == old(View()).(responseData := old(responseData) + old(View()).downRead[..n])
    {
      assert downgoingBufferRead[..n] == downgoingBufferRead[..][..n];
      responseData := responseData + downgoingBufferRead[..n];
    }

    method OnResponseHeaderData(n: nat)
      requires Valid() && n <= BUFFER_LENGTH && timerWaits == 0
      requires !Spec.OnResponseHeadData(View(), View().downRead[..n]).fault
      modifies this
      ensures View() == Spec.OnResponseHeadData(old(View()), old(View()).downRead[..n])
    {
      hide FindHeadEnd, ParsedResponse, Spec.JudgeResponse, Spec.ObeyResponse, Spec.ErrorPage, Spec.WritePage,
        Spec.AsyncReadOrigin;
      AppendResponseData(n);
      var doubleCrlfPos := FindHeadEnd(responseData);
      if doubleCrlfPos.None? {
        if |responseData| < MAX_RESPONSE_HEADER_LENGTH {
          AsyncReadDataFromOriginServer(true);
        } else {
          ReportErrorPage("502", "Bad Gateway", "Response header too long");
        }
        return;
      }
      var headEnd := doubleCrlfPos.value + 4;
      responseHeader := ParseResponseHeader(responseData[..headEnd]);
      if responseHeader.None? {
        ReportErrorPage("502", "Bad Gateway", "Failed to parse response header");
        return;
      }
      OnResponseHeader(headEnd);
    }

    method CopyDowngoingBuffer()
      requires Valid()
      modifies downgoingBufferWrite
      ensures View() == old(View()).(downWrite := old(View()).downRead)
    {
      forall i | 0 <= i < BUFFER_LENGTH {
        downgoingBufferWrite[i] := downgoingBufferRead[i];
      }
      assert downgoingBufferWrite[..] == downgoingBufferRead[..];
    }

    method OnResponseContentData(n: nat)
      requires Valid() && n <= BUFFER_LENGTH && timerWaits == 0
      requires !Spec.OnResponseContent(View(), n).fault
      modifies this, downgoingBufferWrite
      ensures View() == Spec.OnResponseContent(old(View()), n)
    {
      hide Feed, Wrap64;
      if readResponseContext.contentLength.Some? {
        readResponseContext := readResponseContext.(hasRead := Wrap64(readResponseContext.hasRead + n));
      } else if readResponseContext.checker.Some? {
        assert downgoingBufferRead[..n] == downgoingBufferRead[..][..n];
        var checker := new HttpChunkChecker.From(readResponseContext.checker.value);
        var good := checker.Check(downgoingBufferRead[..n]);
        var checked := checker.Value();
        readResponseContext := readResponseContext.(checker := Some(checked));
        if !good {
          return;
        }
      }
      connectionContext := connectionContext.(state := WriteHttpResponseContent);
      CopyDowngoingBuffer();
      AsyncWriteDataToProxyClient(DowngoingWrite, 0, n);
    }

    method OnOriginServerDataArrived(n: nat)
      requires Valid() && n <= BUFFER_LENGTH && timerWaits == 0
      requires !Spec.OnOriginData(View(), n).fault
      modifies this, downgoingBufferWrite
      ensures View() == Spec.OnOriginData(old(View()), n)
    {
      hide Spec.OnResponseHeadData, Spec.OnResponseContent;
      if connectionContext.state == ReadHttpResponseHeader {
        OnResponseHeaderData(n);
      } else if connectionContext.state == ReadHttpResponseContent {
        OnResponseContentData(n);
      } else if connectionContext.state == TunnelTransfer {
        CopyDowngoingBuffer();
        AsyncWriteDataToProxyClient(DowngoingWrite, 0, n);
      }
    }

    // ---------------------------------------------------------------- what was written

    method ForgetLengths()
      modifies this
      ensures View() == old(View()).(req := old(readRequestContext).(contentLength := None, checker := None),
                                     resp := old(readResponseContext).(contentLength := None, checker := None))
    {
      readRequestContext := readRequestContext.(contentLength := None, checker := None);
      readResponseContext := readResponseContext.(contentLength := None, checker := None);
    }

    method ForgetMessages()
      modifies this
      ensures View() == old(View()).(requestData := "", responseData := "", requestHead := None, responseHead := None)
    {
      requestData, responseData, requestHeader, responseHeader := "", "", None, None;
    }

    /** What is reset between two requests. */
    method ForgetExchange()
      modifies this
      ensures View() == Spec.Turnover(old(View()))
    {
      ForgetMessages();
      ForgetLengths();
      connectionContext := connectionContext.(state := ReadHttpRequestHeader);
    }

    method OnResponseDataWritten()
      requires !Spec.OnResponseWritten(View()).fault && timerWaits == 0
      modifies this
      ensures View() == Spec.OnResponseWritten(old(View()))
    {
      hide Spec.Turnover;
      if (readResponseContext.contentLength.Some?
          && readResponseContext.hasRead >= readResponseContext.contentLength.value)
         || (readResponseContext.checker.Some? && readResponseContext.checker.value.IsComplete())
      {
        if !readResponseContext.keepAlive {
          originServerSocketPeer := None;
        }
        if readRequestContext.keepAlive {
          ForgetExchange();
          AsyncReadDataFromProxyClient();
        } else {
          proxyClientSocketOpen := false;
        }
      } else {
        connectionContext := connectionContext.(state := ReadHttpResponseContent);
        AsyncReadDataFromOriginServer(true);
      }
    }

    method CloseSockets()
      modifies this
      ensures View() == Spec.CloseBoth(old(View()))
    {
      if originServerSocketPeer.Some? {
        originServerSocketPeer := None;
      }
      if proxyClientSocketOpen {
        proxyClientSocketOpen := false;
      }
    }

    method OnProxyClientDataWritten()
      requires !Spec.OnClientWritten(View()).fault && timerWaits == 0
      modifies this
      ensures View() == Spec.OnClientWritten(old(View()))
    {
      hide Spec.OnResponseWritten;
      if connectionContext.state == TunnelTransfer {
        AsyncReadDataFromOriginServer(true);
      } else if connectionContext.state == WriteHttpResponseHeader || connectionContext.state == WriteHttpResponseContent {
        OnResponseDataWritten();
      } else if connectionContext.state == ReportConnectionEstablished {
        StartTunnelTransfer();
      } else if connectionContext.state == ReportError {
        CloseSockets();
      }
    }

    method OnRequestDataWritten()
      requires !Spec.OnRequestWritten(View()).fault && timerWaits == 0
      modifies this
      ensures View() == Spec.OnRequestWritten(old(View()))
    {
      var done;
      if readRequestContext.contentLength.Some? {
        done := !(readRequestContext.hasRead < readRequestContext.contentLength.value);
      } else {
        assert readRequestContext.checker.Some?;
        done := readRequestContext.checker.value.IsComplete();
      }
      if !done {
        connectionContext := connectionContext.(state := ReadHttpRequestContent);
        AsyncReadDataFromProxyClient();
      } else {
        connectionContext := connectionContext.(state := ReadHttpResponseHeader);
        AsyncReadDataFromOriginServer(true);
      }
    }

    method OnOriginServerDataWritten()
      requires !Spec.OnOriginWritten(View()).fault && timerWaits == 0
      modifies this
      ensures View() == Spec.OnOriginWritten(old(View()))
    {
      hide Spec.OnRequestWritten;
      if connectionContext.state == TunnelTransfer {
        AsyncReadDataFromProxyClient();
      } else if connectionContext.state == WriteHttpRequestHeader || connectionContext.state == WriteHttpRequestContent {
        OnRequestDataWritten();
      }
    }

    // ----------------------------------------------------------------------- failures

    method OnError()
      requires !Spec.OnError(View()).fault && timerWaits == 0
      modifies this
      ensures View() == Spec.OnError(old(View()))
    {
      hide Spec.AsyncConnect, Spec.ErrorPage, Spec.WritePage;
      if connectionContext.state == ResolveOriginServerAddress {
        ReportErrorPage("504", "Gateway Timeout", "Failed to resolve the hostname");
      } else if connectionContext.state == ConnectToOriginServer {
        ReportErrorPage("502", "Bad Gateway", "Failed to connect to origin server");
      } else if connectionContext.state == WriteHttpRequestHeader && connectionContext.reconnectOnError {
        originServerSocketPeer := None;
        AsyncConnectToOriginServer();
      } else {
        CloseSockets();
      }
    }

    method OnTimeout()
      modifies this
      ensures View() == Spec.CloseBoth(old(View()))
    {
      CloseSockets();
    }

    // ------------------------------------------------------------- completion handlers

    method ProxyClientReadCompletes(data: string)
      requires Valid() && Spec.Enabled(View(), ClientRead(data)) && timerWaits <= 1
      requires !Spec.Step(cfg, View(), ClientRead(data)).fault
      modifies this, upgoingBufferRead, upgoingBufferWrite
      ensures View() == Spec.Step(cfg, old(View()), ClientRead(data))
    {
      hide Spec.OnClientData, Spec.OnOriginData, Spec.OnClientWritten, Spec.OnOriginWritten, Spec.OnResolved,
        Spec.OnConnect, Spec.OnError;
      outstanding := outstanding.(clientReads := outstanding.clientReads - 1);
      forall i | 0 <= i < |data| {
        upgoingBufferRead[i] := data[i];
      }
      assert upgoingBufferRead[..] == Spec.Filled(old(View()).upRead, data);
      assert View() == Spec.Completed(old(View()), ClientRead(data));
      var cancelled := CancelTimer();
      if cancelled {
        OnProxyClientDataArrived(|data|);
      }
    }

    method OriginServerReadCompletes(data: string)
      requires Valid() && Spec.Enabled(View(), OriginRead(data)) && timerWaits <= 1
      requires !Spec.Step(cfg, View(), OriginRead(data)).fault
      modifies this, downgoingBufferRead, downgoingBufferWrite
      ensures View() == Spec.Step(cfg, old(View()), OriginRead(data))
    {
      hide Spec.OnClientData, Spec.OnOriginData, Spec.OnClientWritten, Spec.OnOriginWritten, Spec.OnResolved,
        Spec.OnConnect, Spec.OnError;
      outstanding := outstanding.(originReads := outstanding.originReads - 1);
      forall i | 0 <= i < |data| {
        downgoingBufferRead[i] := data[i];
      }
      assert downgoingBufferRead[..] == Spec.Filled(old(View()).downRead, data);
      assert View() == Spec.Completed(old(View()), OriginRead(data));
      var cancelled := CancelTimer();
      if cancelled {
        OnOriginServerDataArrived(|data|);
      }
    }

    method ProxyClientWriteCompletes(n: nat)
      requires Spec.Enabled(View(), ClientWritten(n)) && timerWaits <= 1
      requires !Spec.Step(cfg, View(), ClientWritten(n)).fault
      modifies this
      ensures View() == Spec.Step(cfg, old(View()), ClientWritten(n))
    {
      hide Spec.OnClientData, Spec.OnOriginData, Spec.OnClientWritten, Spec.OnOriginWritten, Spec.OnResolved,
        Spec.OnConnect, Spec.OnError;
      var write := outstanding.clientWrites[0];
      outstanding := outstanding.(clientWrites := outstanding.clientWrites[1..]);
      var cancelled := CancelTimer();
      if cancelled {
        if n < write.size {
          AsyncWriteDataToProxyClient(write.buffer, write.offset + n, write.size - n);
        } else {
          OnProxyClientDataWritten();
        }
      }
    }

    method OriginServerWriteCompletes(n: nat)
      requires Spec.Enabled(View(), OriginWritten(n)) && timerWaits <= 1
      requires !Spec.Step(cfg, View(), OriginWritten(n)).fault
      modifies this
      ensures View() == Spec.Step(cfg, old(View()), OriginWritten(n))
    {
      hide Spec.OnClientData, Spec.OnOriginData, Spec.OnClientWritten, Spec.OnOriginWritten, Spec.OnResolved,
        Spec.OnConnect, Spec.OnError;
      var write := outstanding.originWrites[0];
      outstanding := outstanding.(originWrites := outstanding.originWrites[1..]);
      var cancelled := CancelTimer();
      if cancelled {
        connectionContext := connectionContext.(reconnectOnError := false);
        ContinueOriginServerWrite(write, n);
      }
    }

    method ContinueOriginServerWrite(write: OriginWrite, n: nat)
      requires timerWaits == 0 && 1 <= n <= write.size
      requires n < write.size ==>
                 !Spec.AsyncWriteOrigin(View(), write.buffer, write.offset + n, write.size - n).fault
      requires n == write.size ==> !Spec.OnOriginWritten(View()).fault
      modifies this
      ensures View() == if n < write.size
                        then Spec.AsyncWriteOrigin(old(View()), write.buffer, write.offset + n, write.size - n)
                        else Spec.OnOriginWritten(old(View()))
    {
      hide Spec.OnOriginWritten;
      if n < write.size {
        AsyncWriteDataToOriginServer(write.buffer, write.offset + n, write.size - n);
      } else {
        OnOriginServerDataWritten();
      }
    }

    method ResolveCompletes(endpoints: seq<Endpoint>)
      requires Spec.Enabled(View(), Resolved(endpoints)) && timerWaits <= 1
      requires !Spec.Step(cfg, View(), Resolved(endpoints)).fault
      modifies this
      ensures View() == Spec.Step(cfg, old(View()), Resolved(endpoints))
    {
      hide Spec.OnClientData, Spec.OnOriginData, Spec.OnClientWritten, Spec.OnOriginWritten, Spec.OnResolved,
        Spec.OnConnect, Spec.OnError;
      outstanding := outstanding.(resolves := outstanding.resolves[1..]);
      var cancelled := CancelTimer();
      if cancelled {
        OnResolved(endpoints);
      }
    }

    method ConnectCompletes()
      requires Spec.Enabled(View(), Connected) && timerWaits <= 1
      requires !Spec.Step(cfg, View(), Connected).fault
      modifies this
      ensures View() == Spec.Step(cfg, old(View()), Connected)
    {
      hide Spec.OnClientData, Spec.OnOriginData, Spec.OnClientWritten, Spec.OnOriginWritten, Spec.OnResolved,
        Spec.OnConnect, Spec.OnError;
      outstanding := outstanding.(connects := outstanding.connects[1..]);
      var cancelled := CancelTimer();
      if cancelled {
        OnConnect();
      }
    }

    method ConnectFails()
      requires Spec.Enabled(View(), ConnectFailed) && timerWaits <= 1
      requires !Spec.Step(cfg, View(), ConnectFailed).fault
      modifies this
      ensures View() == Spec.Step(cfg, old(View()), ConnectFailed)
    {
      hide Spec.OnClientData, Spec.OnOriginData, Spec.OnClientWritten, Spec.OnOriginWritten, Spec.OnResolved,
        Spec.OnConnect, Spec.OnError;
      var endpoints := outstanding.connects[0];
      outstanding := outstanding.(connects := outstanding.connects[1..]);
      var cancelled := CancelTimer();
      if cancelled {
        originServerSocketPeer := None;
        if |endpoints| > 1 {
          OnResolved(endpoints[1..]);
        } else {
          OnError();
        }
      }
    }

    method OperationFails(e: Event)
      requires e in {ClientReadFailed, OriginReadFailed, ClientWriteFailed, OriginWriteFailed, ResolveFailed}
      requires Spec.Enabled(View(), e) && timerWaits <= 1
      requires !Spec.Step(cfg, View(), e).fault
      modifies this
      ensures View() == Spec.Step(cfg, old(View()), e)
    {
      hide Spec.OnClientData, Spec.OnOriginData, Spec.OnClientWritten, Spec.OnOriginWritten, Spec.OnResolved,
        Spec.OnConnect, Spec.OnError;
      match e {
        case ClientReadFailed => outstanding := outstanding.(clientReads := outstanding.clientReads - 1);
        case OriginReadFailed => outstanding := outstanding.(originReads := outstanding.originReads - 1);
        case ClientWriteFailed => outstanding := outstanding.(clientWrites := outstanding.clientWrites[1..]);
        case OriginWriteFailed => outstanding := outstanding.(originWrites := outstanding.originWrites[1..]);
        case ResolveFailed => outstanding := outstanding.(resolves := outstanding.resolves[1..]);
        case _ =>
      }
      var cancelled := CancelTimer();
      if cancelled {
        OnError();
      }
    }

    method TimerFires(e: Event)
      requires e == TimerExpires || e == TimeoutRuns
      requires Spec.Enabled(View(), e)
      requires !Spec.Step(cfg, View(), e).fault
      modifies this
      ensures View() == Spec.Step(cfg, old(View()), e)
    {
      if e == TimerExpires {
        timeoutsQueued := timeoutsQueued + timerWaits;
        timerWaits := 0;
      } else {
        timeoutsQueued := timeoutsQueued - 1;
        OnTimeout();
      }
    }

    /** One turn of the I/O service. */
    method Dispatch(e: Event)
      requires Valid() && Inv(View()) && Spec.Enabled(View(), e)
      requires !(Live(View()) && e.ClientRead? && AsksChunkedUpload(cfg, View(), e.data))
      modifies this, upgoingBufferRead, upgoingBufferWrite, downgoingBufferRead, downgoingBufferWrite
      ensures View() == Spec.Step(cfg, old(View()), e) && Inv(View())
    {
      hide Spec.Handle, Shape, Spec.Step, Spec.Enabled, AsksChunkedUpload;
      StepKeepsInv(cfg, View(), e);
      match e {
        case ClientRead(data) => ProxyClientReadCompletes(data);
        case OriginRead(data) => OriginServerReadCompletes(data);
        case ClientWritten(n) => ProxyClientWriteCompletes(n);
        case OriginWritten(n) => OriginServerWriteCompletes(n);
        case Resolved(endpoints) => ResolveCompletes(endpoints);
        case Connected => ConnectCompletes();
        case ConnectFailed => ConnectFails();
        case TimerExpires => TimerFires(e);
        case TimeoutRuns => TimerFires(e);
        case _ => OperationFails(e);
      }
    }

    /** The connection served through a whole run. */
    method Serve(run: seq<Event>)
      requires Valid() && Inv(View()) && Possible(cfg, View(), run) && NoChunkedUpload(cfg, View(), run)
      modifies this, upgoingBufferRead, upgoingBufferWrite, downgoingBufferRead, downgoingBufferWrite
      ensures View() == After(cfg, old(View()), run) && Inv(View())
    {
      hide Spec.Step, Spec.Enabled, Inv, AsksChunkedUpload;
      var i := 0;
      while i < |run|
        invariant 0 <= i <= |run| && Inv(View())
        invariant Possible(cfg, View(), run[i..]) && NoChunkedUpload(cfg, View(), run[i..])
        invariant After(cfg, View(), run[i..]) == After(cfg, old(View()), run)
      {
        assert run[i..][1..] == run[i + 1..];
        Dispatch(run[i]);
        i := i + 1;
      }
    }
  }
}
