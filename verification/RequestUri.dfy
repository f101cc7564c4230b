/** How the two regular expressions of parse_request_header split a request target
    (section 5.3 of RFC 7230), and a scan that does the same. */
module RequestUri {
  import opened Text

  // ------------------------------------------------ what the expressions can match

  /** A way to match `(.+?)://(.+?)(:(\d+))?(/.*)` against a whole target. */
  datatype Absolute = Absolute(scheme: string, host: string, port: Option<string>, path: string)

  function PortText(port: Option<string>): string {
    if port.None? then "" else ":" + port.value
  }

  predicate AbsoluteMatch(uri: string, m: Absolute) {
    && m.scheme != "" && m.host != ""
    && (m.port.Some? ==> m.port.value != "" && AllDigits(m.port.value))
    && m.path != "" && m.path[0] == '/'
    && uri == m.scheme + "://" + m.host + PortText(m.port) + m.path
  }

  /** The order in which a backtracking matcher tries: the lazy groups shortest
      first, then the optional port before no port, its digits longest first. */
  predicate TriedBefore(m: Absolute, n: Absolute) {
    || |m.scheme| < |n.scheme|
    || (|m.scheme| == |n.scheme| && |m.host| < |n.host|)
    || (|m.scheme| == |n.scheme| && |m.host| == |n.host| && |PortText(m.port)| > |PortText(n.port)|)
  }

  /** The match the expression finds: the one tried before every other. */
  ghost predicate AbsoluteFinds(uri: string, m: Absolute) {
    AbsoluteMatch(uri, m) && forall n :: AbsoluteMatch(uri, n) && n != m ==> TriedBefore(m, n)
  }

  /** A way to match `(.+?):(\d+)` against a whole target. */
  predicate AuthorityMatch(uri: string, host: string, digits: string) {
    host != "" && digits != "" && AllDigits(digits) && uri == host + ":" + digits
  }

  // --------------------------------------------------------------------- the scan

  /** A host can end where a slash, or a colon, digits and a slash, follow. */
  predicate HostEnds(r: string, h: nat) {
    h < |r| && (r[h] == '/' || (r[h] == ':' && PortEnd(r, h) > h + 1 && PortEnd(r, h) < |r| && r[PortEnd(r, h)] == '/'))
  }

  function PortEnd(r: string, h: nat): (e: nat)
    requires h < |r|
    ensures h < e <= |r|
  {
    h + 1 + DigitRun(r[h + 1..])
  }

  function HostEnd(r: string, h: nat): (e: Option<nat>)
    requires h <= |r|
    ensures e.Some? ==> h <= e.value && HostEnds(r, e.value)
    ensures e.Some? ==> forall k :: h <= k < e.value ==> !HostEnds(r, k)
    ensures e.None? ==> forall k :: h <= k ==> !HostEnds(r, k)
    decreases |r| - h
  {
    if h == |r| then None else if HostEnds(r, h) then Some(h) else HostEnd(r, h + 1)
  }

  function SplitAfterScheme(scheme: string, r: string): Option<Absolute> {
    if r == "" then None
    else match HostEnd(r, 1)
      case None => None
      case Some(h) =>
        if r[h] == '/' then Some(Absolute(scheme, r[..h], None, r[h..]))
        else Some(Absolute(scheme, r[..h], Some(r[h + 1..PortEnd(r, h)]), r[PortEnd(r, h)..]))
  }

  /** Scheme up to the first "://" that leaves it nonempty; then the host up to the
      first place it can end. */
  function SplitAbsolute(uri: string): Option<Absolute> {
    if uri == "" then None
    else match FindFrom(uri, "://", 1)
      case None => None
      case Some(i) => SplitAfterScheme(uri[..i], uri[i + 3..])
  }

  function LastColon(uri: string, n: nat): (r: Option<nat>)
    requires n <= |uri|
    ensures r.Some? ==> r.value < n && uri[r.value] == ':' && forall k :: r.value < k < n ==> uri[k] != ':'
    ensures r.None? ==> forall k :: 0 <= k < n ==> uri[k] != ':'
  {
    if n == 0 then None else if uri[n - 1] == ':' then Some(n - 1) else LastColon(uri, n - 1)
  }

  /** Host and port digits around the last colon. */
  function SplitAuthority(uri: string): Option<(string, string)> {
    match LastColon(uri, |uri|)
    case None => None
    case Some(k) =>
      var host, digits := uri[..k], uri[k + 1..];
      if host != "" && digits != "" && AllDigits(digits) then Some((host, digits)) else None
  }

  // ----------------------------------------------------------------------- proofs

  lemma {:induction false} DigitRunIs(s: string, n: nat)
    requires n <= |s| && (forall i :: 0 <= i < n ==> IsDigit(s[i])) && (n < |s| ==> !IsDigit(s[n]))
    ensures DigitRun(s) == n
    decreases n
  {
    if n > 0 {
      DigitRunIs(s[1..], n - 1);
    }
  }

  lemma PortEndIs(host: string, digits: string, path: string)
    requires AllDigits(digits) && path != "" && path[0] == '/'
    ensures PortEnd(host + (":" + digits) + path, |host|) == |host| + 1 + |digits|
  {
    var r := host + (":" + digits) + path;
    var after := r[|host| + 1..];
    assert after == digits + path;
    DigitRunIs(after, |digits|);
  }

  lemma HostEndsAt(m: Absolute)
    requires m.port.Some? ==> m.port.value != "" && AllDigits(m.port.value)
    requires m.path != "" && m.path[0] == '/'
    ensures var r := m.host + PortText(m.port) + m.path;
            && HostEnds(r, |m.host|)
            && (r[|m.host|] == '/' <==> m.port.None?)
            && (m.port.Some? ==> PortEnd(r, |m.host|) == |m.host| + 1 + |m.port.value|)
  {
    if m.port.Some? {
      PortEndIs(m.host, m.port.value, m.path);
      var r := m.host + (":" + m.port.value) + m.path;
      assert r[|m.host|] == ':';
      assert r[|m.host| + 1 + |m.port.value|] == m.path[0];
    } else {
      var r := m.host + "" + m.path;
      assert r[|m.host|] == m.path[0];
    }
  }

  lemma AfterSeparator(scheme: string, r: string)
    ensures At(scheme + "://" + r, |scheme|, "://") && (scheme + "://" + r)[|scheme| + 3..] == r
    ensures (scheme + "://" + r)[..|scheme|] == scheme
  {
  }

  lemma MatchText(m: Absolute)
    ensures m.scheme + "://" + m.host + PortText(m.port) + m.path
         == m.scheme + "://" + (m.host + PortText(m.port) + m.path)
  {
  }

  /** Where a match puts the end of the host, a host can end. */
  lemma MatchEndsHost(uri: string, m: Absolute)
    requires AbsoluteMatch(uri, m)
    ensures |m.scheme| + 3 <= |uri| && At(uri, |m.scheme|, "://") && uri[..|m.scheme|] == m.scheme
    ensures var r := uri[|m.scheme| + 3..];
            && r == m.host + PortText(m.port) + m.path
            && HostEnds(r, |m.host|)
            && (r[|m.host|] == '/' <==> m.port.None?)
            && (m.port.Some? ==> PortEnd(r, |m.host|) == |m.host| + 1 + |m.port.value|)
  {
    MatchText(m);
    AfterSeparator(m.scheme, m.host + PortText(m.port) + m.path);
    HostEndsAt(m);
  }

  lemma CutHost(r: string, h: nat)
    requires HostEnds(r, h)
    ensures r[h] == '/' ==> r == r[..h] + "" + r[h..]
    ensures r[h] != '/' ==> r == r[..h] + (":" + r[h + 1..PortEnd(r, h)]) + r[PortEnd(r, h)..]
    ensures r[h] != '/' ==> AllDigits(r[h + 1..PortEnd(r, h)])
  {
    if r[h] != '/' {
      var e := PortEnd(r, h);
      assert forall j :: h + 1 <= j < e ==> r[j] == r[h + 1..][j - h - 1];
    }
  }

  /** A host end gives a match, the only one with that scheme and host. */
  lemma HostEndMatches(uri: string, i: nat, h: nat)
    requires 1 <= i && At(uri, i, "://") && 1 <= h && i + 3 < |uri|
    requires HostEnd(uri[i + 3..], 1) == Some(h)
    ensures SplitAfterScheme(uri[..i], uri[i + 3..]).Some?
    ensures var m := SplitAfterScheme(uri[..i], uri[i + 3..]).value;
            AbsoluteMatch(uri, m) && |m.scheme| == i && |m.host| == h
  {
    var r := uri[i + 3..];
    assert uri == uri[..i] + "://" + r by {
      assert uri[i..i + 3] == "://";
    }
    CutHost(r, h);
    MatchText(SplitAfterScheme(uri[..i], r).value);
  }

  lemma SameCuts(uri: string, m: Absolute, n: Absolute)
    requires AbsoluteMatch(uri, m) && AbsoluteMatch(uri, n) && |m.scheme| == |n.scheme| && |m.host| == |n.host|
    ensures m == n
  {
    hide HostEnds, PortEnd;
    MatchEndsHost(uri, m);
    MatchEndsHost(uri, n);
    var r, h := uri[|m.scheme| + 3..], |m.host|;
    assert m.scheme == uri[..|m.scheme|] == n.scheme;
    assert m.host == r[..h] == n.host;
    if m.port.Some? {
      var e := PortEnd(r, h);
      assert m.port.value == r[h + 1..e] == n.port.value;
      assert m.path == r[e..] == n.path;
    } else {
      assert m.path == r[h..] == n.path;
    }
  }

  lemma SlashEndsHost(r: string, k: nat)
    requires 1 <= k < |r| && r[k] == '/'
    ensures HostEnd(r, 1).Some? && HostEnd(r, 1).value <= k
  {
    assert HostEnds(r, k);
  }

  lemma SeparatorChars(uri: string, i: nat)
    requires At(uri, i, "://")
    ensures uri[i] == ':' && uri[i + 1] == '/' && uri[i + 2] == '/'
  {
    assert uri[i] == uri[i..i + 3][0] && uri[i + 1] == uri[i..i + 3][1] && uri[i + 2] == uri[i..i + 3][2];
  }

  /** If there is a match at all, the first "://" starts one. */
  lemma FirstSeparator(uri: string, n: Absolute)
    requires AbsoluteMatch(uri, n)
    ensures var f := FindFrom(uri, "://", 1);
            && f.Some? && f.value <= |n.scheme|
            && HostEnd(uri[f.value + 3..], 1).Some?
            && (f.value == |n.scheme| ==> HostEnd(uri[f.value + 3..], 1).value <= |n.host|)
  {
    MatchEndsHost(uri, n);
    var k := |n.scheme|;
    var f := FindFrom(uri, "://", 1);
    assert At(uri, k, "://");
    var i := f.value;
    var r := uri[i + 3..];
    if i < k {
      SeparatorChars(uri, i);
      SeparatorChars(uri, k);
      assert k >= i + 3;
      assert r[k + 1 - (i + 3)] == '/';
      SlashEndsHost(r, k + 1 - (i + 3));
    }
  }

  // --------------------------------------------------------------------- theorems

  /** The scan finds the match a backtracking matcher finds, and fails when there is
      no match. */
  lemma SplitAbsoluteIsRegex(uri: string, m: Absolute)
    ensures SplitAbsolute(uri) == Some(m) <==> AbsoluteFinds(uri, m)
    ensures SplitAbsolute(uri).None? <==> forall n :: !AbsoluteMatch(uri, n)
  {
    if SplitAbsolute(uri).Some? {
      ScanFinds(uri);
      var s := SplitAbsolute(uri).value;
      assert AbsoluteFinds(uri, m) && m != s ==> TriedBefore(m, s);
    }
    forall n | AbsoluteMatch(uri, n) ensures SplitAbsolute(uri).Some? {
      FirstSeparator(uri, n);
    }
  }

  lemma ScanFinds(uri: string)
    requires SplitAbsolute(uri).Some?
    ensures AbsoluteFinds(uri, SplitAbsolute(uri).value)
  {
    var i := FindFrom(uri, "://", 1).value;
    var h := HostEnd(uri[i + 3..], 1).value;
    HostEndMatches(uri, i, h);
    var s := SplitAbsolute(uri).value;
    forall n | AbsoluteMatch(uri, n) && n != s ensures TriedBefore(s, n) {
      FirstSeparator(uri, n);
      if |n.scheme| == i && |n.host| == h {
        SameCuts(uri, s, n);
      }
    }
  }

  /** The target of a CONNECT matches in at most one way: around its last colon. */
  lemma SplitAuthorityIsRegex(uri: string, host: string, digits: string)
    ensures SplitAuthority(uri) == Some((host, digits)) <==> AuthorityMatch(uri, host, digits)
  {
    if AuthorityMatch(uri, host, digits) {
      var k := |host|;
      assert uri[k] == ':';
      assert forall j :: k < j < |uri| ==> uri[j] == digits[j - k - 1];
      assert LastColon(uri, |uri|) == Some(k) by {
        var c := LastColon(uri, |uri|);
        assert c.Some? && c.value >= k;
        assert c.value > k ==> IsDigit(uri[c.value]);
      }
      assert uri[..k] == host && uri[k + 1..] == digits;
    }
    if SplitAuthority(uri) == Some((host, digits)) {
      assert uri == host + ":" + digits;
    }
  }

  /** A host that reads as a host and a port. */
  predicate EndsInPort(host: string) {
    exists k :: 1 <= k < |host| - 1 && host[k] == ':' && AllDigits(host[k + 1..])
  }

  /** A host without a slash comes back whole, with its port if one is written; if none
      is written, exactly when the host does not itself end in a colon and digits. */
  lemma RenderedAbsoluteSplits(scheme: string, host: string, port: Option<string>, path: string)
    requires scheme != "" && Without(scheme, ':')
    requires host != "" && Without(host, '/')
    requires port.Some? ==> port.value != "" && AllDigits(port.value)
    requires path != "" && path[0] == '/'
    ensures SplitAbsolute(scheme + "://" + host + PortText(port) + path) == Some(Absolute(scheme, host, port, path))
        <==> port.Some? || !EndsInPort(host)
  {
    hide SplitAbsolute, EndsInPort, HostEnds;
    if port.None? && EndsInPort(host) {
      PortTakesOver(scheme, host, path);
    } else {
      NothingTakesOver(scheme, host, port, path);
    }
  }

  /** Digits at the end of a host are found as the port. */
  lemma PortTakesOver(scheme: string, host: string, path: string)
    requires scheme != "" && path != "" && path[0] == '/' && EndsInPort(host)
    ensures SplitAbsolute(scheme + "://" + host + PortText(None) + path) != Some(Absolute(scheme, host, None, path))
  {
    hide SplitAbsolute;
    var k :| 1 <= k < |host| - 1 && host[k] == ':' && AllDigits(host[k + 1..]);
    var n := Absolute(scheme, host[..k], Some(host[k + 1..]), path);
    var uri := scheme + "://" + host + PortText(None) + path;
    assert host == host[..k] + (":" + host[k + 1..]);
    assert uri == scheme + "://" + host[..k] + (":" + host[k + 1..]) + path;
    var s := FoundFirst(uri, n);
  }

  lemma NothingTakesOver(scheme: string, host: string, port: Option<string>, path: string)
    requires scheme != "" && Without(scheme, ':')
    requires host != "" && Without(host, '/')
    requires port.Some? ==> port.value != "" && AllDigits(port.value)
    requires path != "" && path[0] == '/' && (port.Some? || !EndsInPort(host))
    ensures SplitAbsolute(scheme + "://" + host + PortText(port) + path) == Some(Absolute(scheme, host, port, path))
  {
    hide SplitAbsolute, EndsInPort, HostEnds;
    var m := Absolute(scheme, host, port, path);
    var uri := scheme + "://" + host + PortText(port) + path;
    var s := FoundFirst(uri, m);
    MatchText(m);
    MatchEndsHost(uri, s);
    if |s.scheme| < |scheme| {
      NoSeparatorInScheme(scheme, host + PortText(port) + path, |s.scheme|);
    }
    AfterSeparator(scheme, host + PortText(port) + path);
    if |s.host| < |host| {
      EarlierHostEnd(host, port, path, |s.host|);
    }
    SameCuts(uri, s, m);
  }

  lemma NoSeparatorInScheme(scheme: string, r: string, k: nat)
    requires Without(scheme, ':') && k < |scheme|
    ensures !At(scheme + "://" + r, k, "://")
  {
    var uri := scheme + "://" + r;
    assert uri[k] == scheme[k] != ':';
    if At(uri, k, "://") {
      SeparatorChars(uri, k);
    }
  }

  lemma FoundFirst(uri: string, m: Absolute) returns (s: Absolute)
    requires AbsoluteMatch(uri, m)
    ensures SplitAbsolute(uri) == Some(s) && AbsoluteMatch(uri, s)
    ensures |s.scheme| < |m.scheme| || (|s.scheme| == |m.scheme| && |s.host| <= |m.host|)
  {
    hide HostEnds, PortEnd;
    FirstSeparator(uri, m);
    ScanFinds(uri);
    s := SplitAbsolute(uri).value;
  }

  /** A place before its end where a host can end is that of a port. */
  lemma EarlierHostEnd(host: string, port: Option<string>, path: string, h: nat)
    requires Without(host, '/') && 1 <= h < |host| && path != "" && path[0] == '/'
    requires HostEnds(host + PortText(port) + path, h)
    ensures port.None? && EndsInPort(host)
  {
    var r := host + PortText(port) + path;
    assert forall j :: 0 <= j < |host| ==> r[j] == host[j] != '/';
    var e := PortEnd(r, h);
    var run := r[h + 1..];
    assert forall j :: 0 <= j < e - (h + 1) ==> IsDigit(run[j]);
    assert r[|host|] == (if port.Some? then ':' else '/');
    assert run[|host| - h - 1] == r[|host|];
    assert host[h] == ':' && AllDigits(host[h + 1..]);
  }
}
