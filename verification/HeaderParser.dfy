/** Parsing whole message heads (http_header_parser). */
module HeaderParser {
  import opened Text
  import opened HeaderMap
  import opened HeaderFields
  import opened RequestUri

  datatype RequestHead = RequestHead(
    verb: string, scheme: string, host: string, port: nat,
    pathAndQuery: string, httpVersion: string, headers: Fields)

  datatype ResponseHead = ResponseHead(
    httpVersion: string, statusCode: nat, statusDescription: string, headers: Fields)

  const SPACE_OR_CR: set<char> := {' ', '\r'}
  const ONLY_CR: set<char> := {'\r'}
  const HTTP_SLASH: string := "HTTP/"
  const CONNECT: string := "CONNECT"
  const DEFAULT_PORT: nat := 80

  datatype RequestLine = RequestLine(verb: string, target: string, version: string, headersAt: nat)

  /** The three words of a request line and where the header section starts. */
  function SplitRequestLine(s: string): (r: Option<RequestLine>)
    ensures r.Some? ==> r.value.headersAt <= |s|
  {
    var i := Scan(s, 0, SPACE_OR_CR);
    if i == 0 || i == |s| || s[i] != ' ' then None
    else
      var j := Scan(s, i + 1, SPACE_OR_CR);
      if j == i + 1 || j == |s| || s[j] != ' ' then None
      else
        var k := Scan(s, j + 1, ONLY_CR);
        if k == |s| || k - (j + 1) < 6 || s[j + 1..j + 6] != HTTP_SLASH then None
        else if k + 1 == |s| || s[k + 1] != '\n' then None
        else Some(RequestLine(s[..i], s[i + 1..j], s[j + 6..k], k + 2))
  }

  /** Scheme, host, port and path of a target; ports are 16-bit. */
  datatype Target = Target(scheme: string, host: string, port: nat, path: string)

  function PortOf(digits: string): Option<nat> {
    match Stoull(digits)
    case None => None
    case Some(n) => Some(Wrap16(n))
  }

  function SplitTarget(verb: string, target: string): Option<Target> {
    if verb == CONNECT then
      match SplitAuthority(target)
      case None => None
      case Some((host, digits)) =>
        if PortOf(digits).None? then None else Some(Target("", host, PortOf(digits).value, ""))
    else
      match SplitAbsolute(target)
      case None => None
      case Some(m) =>
        if m.port.None? then Some(Target(m.scheme, m.host, DEFAULT_PORT, m.path))
        else if PortOf(m.port.value).None? then None
        else Some(Target(m.scheme, m.host, PortOf(m.port.value).value, m.path))
  }

  function ParsedRequest(s: string): Option<RequestHead> {
    match SplitRequestLine(s)
    case None => None
    case Some(line) =>
      match SplitTarget(line.verb, line.target)
      case None => None
      case Some(t) =>
        match Parsed(s[line.headersAt..])
        case None => None
        case Some(h) => Some(RequestHead(line.verb, t.scheme, t.host, t.port, t.path, line.version, h))
  }

  datatype StatusLine = StatusLine(version: string, code: nat, description: string, headersAt: nat)

  datatype StatusAt = StatusAt(code: nat, next: nat)

  datatype DescriptionAt = DescriptionAt(description: string, headersAt: nat)

  function SplitStatusLine(s: string): (r: Option<StatusLine>)
    ensures r.Some? ==> r.value.headersAt <= |s|
  {
    var i := Scan(s, 0, SPACE_OR_CR);
    if i < 6 || i == |s| || s[i] != ' ' || s[..5] != HTTP_SLASH then None
    else
      match SplitStatus(s, i + 1)
      case None => None
      case Some(StatusAt(code, j)) =>
        match SplitDescription(s, j)
        case None => None
        case Some(DescriptionAt(description, headersAt)) => Some(StatusLine(s[5..i], code, description, headersAt))
  }

  /** The status code, kept in 32 bits, and where it ends. */
  function SplitStatus(s: string, start: nat): (r: Option<StatusAt>)
    requires start <= |s|
    ensures r.Some? ==> start < r.value.next < |s|
  {
    var j := Scan(s, start, SPACE_OR_CR);
    if j == start || j == |s| then None
    else
      match Stoull(s[start..j])
      case None => None
      case Some(n) => Some(StatusAt(Wrap32(n), j))
  }

  /** The description, if a space announces one, and the end of the line. The program
      looks past the CR even at the very end of its input, where there is no LF. */
  function SplitDescription(s: string, j: nat): (r: Option<DescriptionAt>)
    requires j < |s|
    ensures r.Some? ==> r.value.headersAt <= |s|
  {
    var k := if s[j] == ' ' then Scan(s, j + 1, ONLY_CR) else j;
    var description := if s[j] == ' ' then s[j + 1..k] else "";
    if k == |s| || k + 1 == |s| || s[k + 1] != '\n' then None else Some(DescriptionAt(description, k + 2))
  }

  function ParsedResponse(s: string): Option<ResponseHead> {
    match SplitStatusLine(s)
    case None => None
    case Some(line) =>
      match Parsed(s[line.headersAt..])
      case None => None
      case Some(h) => Some(ResponseHead(line.version, line.code, line.description, h))
  }

  // -------------------------------------------------------------------- the parsers

  /** One of the parser's scanning loops. */
  method SkipUntil(s: string, start: nat, stops: set<char>) returns (iter: nat)
    requires start <= |s|
    ensures iter == Scan(s, start, stops)
  {
    iter := start;
    while iter != |s| && s[iter] !in stops
      invariant start <= iter <= |s|
      invariant Scan(s, iter, stops) == Scan(s, start, stops)
      decreases |s| - iter
    {
      iter := iter + 1;
    }
  }

  method ParseRequestLine(s: string) returns (r: Option<RequestLine>)
    ensures r == SplitRequestLine(s)
  {
    hide Scan;
    var iter := SkipUntil(s, 0, SPACE_OR_CR);
    if iter == 0 || iter == |s| || s[iter] != ' ' {
      return None;
    }
    var verb := s[..iter];
    iter := iter + 1;
    var tmp := iter;
    iter := SkipUntil(s, tmp, SPACE_OR_CR);
    if iter == tmp || iter == |s| || s[iter] != ' ' {
      return None;
    }
    var target := s[tmp..iter];
    iter := iter + 1;
    tmp := iter;
    iter := SkipUntil(s, tmp, ONLY_CR);
    if iter == |s| || iter - tmp < 6 || s[tmp..tmp + 5] != HTTP_SLASH {
      return None;
    }
    var version := s[tmp + 5..iter];
    iter := iter + 1;
    if iter == |s| || s[iter] != '\n' {
      return None;
    }
    iter := iter + 1;
    return Some(RequestLine(verb, target, version, iter));
  }

  method ParseTarget(verb: string, target: string) returns (r: Option<Target>)
    ensures r == SplitTarget(verb, target)
  {
    var scheme, host, port, path := "", "", DEFAULT_PORT, "";
    if verb == CONNECT {
      var m := SplitAuthority(target);
      if m.None? {
        return None;
      }
      host := m.value.0;
      var n := Stoull(m.value.1);
      if n.None? {
        return None;
      }
      port := Wrap16(n.value);
    } else {
      var m := SplitAbsolute(target);
      if m.None? {
        return None;
      }
      scheme, host := m.value.scheme, m.value.host;
      if m.value.port.Some? {
        var n := Stoull(m.value.port.value);
        if n.None? {
          return None;
        }
        port := Wrap16(n.value);
      }
      path := m.value.path;
    }
    return Some(Target(scheme, host, port, path));
  }

  /** The target is looked at only once the line is known to be whole; the program
      looks at it in between, with the same outcome. */
  method ParseRequestHeader(s: string) returns (r: Option<RequestHead>)
    ensures r == ParsedRequest(s)
  {
    var line := ParseRequestLine(s);
    if line.None? {
      return None;
    }
    var target := ParseTarget(line.value.verb, line.value.target);
    if target.None? {
      return None;
    }
    var headers := ParseHeaders(s[line.value.headersAt..]);
    if headers.None? {
      return None;
    }
    var t := target.value;
    return Some(RequestHead(line.value.verb, t.scheme, t.host, t.port, t.path, line.value.version, headers.value));
  }

  method ParseStatusLine(s: string) returns (r: Option<StatusLine>)
    ensures r == SplitStatusLine(s)
  {
    var iter := SkipUntil(s, 0, SPACE_OR_CR);
    if iter < 6 || iter == |s| || s[iter] != ' ' || s[..5] != HTTP_SLASH {
      return None;
    }
    var version := s[5..iter];
    iter := iter + 1;
    var status := ParseStatus(s, iter);
    if status.None? {
      return None;
    }
    var rest := ParseDescription(s, status.value.next);
    if rest.None? {
      return None;
    }
    return Some(StatusLine(version, status.value.code, rest.value.description, rest.value.headersAt));
  }

  method ParseStatus(s: string, start: nat) returns (r: Option<StatusAt>)
    requires start <= |s|
    ensures r == SplitStatus(s, start)
  {
    var iter := SkipUntil(s, start, SPACE_OR_CR);
    if start == iter || iter == |s| {
      return None;
    }
    var n := Stoull(s[start..iter]);
    if n.None? {
      return None;
    }
    return Some(StatusAt(Wrap32(n.value), iter));
  }

  method ParseDescription(s: string, start: nat) returns (r: Option<DescriptionAt>)
    requires start < |s|
    ensures r == SplitDescription(s, start)
  {
    var iter, description := start, "";
    if s[iter] == ' ' {
      iter := iter + 1;
      var tmp := iter;
      iter := SkipUntil(s, tmp, ONLY_CR);
      if iter == |s| {
        return None;
      }
      description := s[tmp..iter];
    }
    iter := iter + 1;
    if iter == |s| || s[iter] != '\n' {
      return None;
    }
    iter := iter + 1;
    return Some(DescriptionAt(description, iter));
  }

  method ParseResponseHeader(s: string) returns (r: Option<ResponseHead>)
    ensures r == ParsedResponse(s)
  {
    var line := ParseStatusLine(s);
    if line.None? {
      return None;
    }
    var headers := ParseHeaders(s[line.value.headersAt..]);
    if headers.None? {
      return None;
    }
    return Some(ResponseHead(line.value.version, line.value.code, line.value.description, headers.value));
  }
}
