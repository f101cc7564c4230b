/** Who stays after an exchange: what the fields of a request say of the client's
    connection, and those of a response of the origin's (section 6.3 of RFC 7230 and
    the Proxy-Connection field of older clients). */
module KeepAlive {
  import opened Text
  import opened HeaderMap
  import opened HeaderParser
  import opened ProxyContext
  import opened ProxyMachine

  /** Proxy-Connection decides if it is there, and otherwise Connection. HTTP/1.1 stays
      unless that field says close; HTTP/1.0 goes unless it says keep-alive. */
  predicate ClientStays(r: RequestHead) {
    var own, general := Lookup(r.headers, "Proxy-Connection"), Lookup(r.headers, "Connection");
    var deciding := if own.Some? then own else general;
    if r.httpVersion == "1.1" then !(deciding.Some? && SameLetters(deciding.value, "close"))
    else deciding.Some? && SameLetters(deciding.value, "keep-alive")
  }

  /** Connection decides if it is there, and otherwise the version. */
  predicate OriginStays(h: ResponseHead) {
    var connection := Lookup(h.headers, "Connection");
    if connection.Some? then SameLetters(connection.value, "keep-alive") else h.httpVersion == "1.1"
  }

  /** What a Connection field of a response may say. */
  predicate Understood(h: ResponseHead) {
    var connection := Lookup(h.headers, "Connection");
    connection.Some? ==> SameLetters(connection.value, "close") || SameLetters(connection.value, "keep-alive")
  }

  lemma KeepWords(value: string)
    ensures Lower(value) == "close" <==> SameLetters(value, "close")
    ensures Lower(value) == "keep-alive" <==> SameLetters(value, "keep-alive")
  {
    NoCapitals();
    LowerIsIff(value, "close");
    LowerIsIff(value, "keep-alive");
  }

  lemma NoCapitals()
    ensures forall i :: 0 <= i < |"close"| ==> "close"[i] !in CAPITALS
    ensures forall i :: 0 <= i < |"keep-alive"| ==> "keep-alive"[i] !in CAPITALS
  {
    forall c: char | c == '-' || 'a' <= c ensures c !in CAPITALS {
      SmallIsNoCapital(c);
    }
  }

  lemma SmallIsNoCapital(c: char)
    requires c == '-' || 'a' <= c
    ensures c !in CAPITALS
  {
  }

  lemma ClientStaysIff(r: RequestHead)
    ensures ClientKeepAlive(r) <==> ClientStays(r)
  {
    hide Lookup, Lower, SameLetters;
    var own, general := Lookup(r.headers, "Proxy-Connection"), Lookup(r.headers, "Connection");
    KeepWords(if own.Some? then own.value else if general.Some? then general.value else "");
  }

  /** A request that is forwarded has its client kept exactly as its fields ask. */
  lemma ForwardedStays(cfg: Config, r: RequestHead, context: RequestContext, extra: nat)
    ensures var j := JudgeRequest(cfg, r, context, extra);
            j.Forward? ==> (j.context.keepAlive <==> ClientStays(r))
  {
    hide ClientKeepAlive, ClientStays, Authorized, Lookup, Stoull, Lower;
    ClientStaysIff(r);
  }

  /** A response that is forwarded has its origin kept exactly as its fields say, and one
      with another word for that is not forwarded. */
  lemma AnswerStays(verb: string, h: ResponseHead, context: ResponseContext, body: string)
    ensures var j := JudgeResponse(verb, h, context, body);
            j.Forward? ==> Understood(h) && (j.context.keepAlive <==> OriginStays(h))
  {
    hide Lookup, Lower, SameLetters, JudgeLength;
    var connection := Lookup(h.headers, "Connection");
    KeepWords(if connection.Some? then connection.value else "");
    var reset := ResponseContext(h.httpVersion == "1.1", None, 0, None);
    LengthKeepsWord(verb, h, reset, body);
    LengthKeepsWord(verb, h, reset.(keepAlive := false), body);
    LengthKeepsWord(verb, h, reset.(keepAlive := true), body);
    NotBoth(if connection.Some? then connection.value else "");
  }

  lemma LengthKeepsWord(verb: string, h: ResponseHead, reset: ResponseContext, body: string)
    ensures JudgeLength(verb, h, reset, body).context.keepAlive == reset.keepAlive
  {
    hide Lookup, Lower, Stoull;
  }

  lemma NotBoth(value: string)
    ensures !(SameLetters(value, "close") && SameLetters(value, "keep-alive"))
  {
    assert |"close"| != |"keep-alive"|;
  }
}
