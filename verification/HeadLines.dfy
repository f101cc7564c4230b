/** What the first line of a head must look like to be read (sections 3.1.1 and 3.1.2
    of RFC 7230, and the leniencies of the program), character by character. */
module HeadLines {
  import opened Text
  import opened RequestUri
  import opened HeaderParser

  /** Neither a space nor a CR from `i` up to `j`. */
  predicate InWord(s: string, i: nat, j: nat)
    requires i <= j <= |s|
  {
    forall q :: i <= q < j ==> s[q] != ' ' && s[q] != '\r'
  }

  predicate NoCr(s: string, i: nat, j: nat)
    requires i <= j <= |s|
  {
    forall q :: i <= q < j ==> s[q] != '\r'
  }

  lemma WordScan(s: string, i: nat, j: nat)
    requires i <= j < |s|
    ensures Scan(s, i, SPACE_OR_CR) == j <==> InWord(s, i, j) && (s[j] == ' ' || s[j] == '\r')
  {
    if InWord(s, i, j) && (s[j] == ' ' || s[j] == '\r') {
      ScanIs(s, i, SPACE_OR_CR, j);
    }
  }

  lemma LineScan(s: string, i: nat, j: nat)
    requires i <= j < |s|
    ensures Scan(s, i, ONLY_CR) == j <==> NoCr(s, i, j) && s[j] == '\r'
  {
    if NoCr(s, i, j) && s[j] == '\r' {
      ScanIs(s, i, ONLY_CR, j);
    }
  }

  /** A method up to a space at `i`, a target up to a space at `j`, "HTTP/" and a version
      up to CR LF at `k`. */
  predicate SaysRequestLine(s: string, l: RequestLine, i: nat, j: nat, k: nat) {
    && 0 < i && i + 1 < j && j + 6 < k && k + 1 < |s|
    && InWord(s, 0, i) && s[i] == ' ' && InWord(s, i + 1, j) && s[j] == ' '
    && s[j + 1..j + 6] == "HTTP/" && NoCr(s, j + 1, k) && s[k] == '\r' && s[k + 1] == '\n'
    && l == RequestLine(s[..i], s[i + 1..j], s[j + 6..k], k + 2)
  }

  lemma RequestLineRead(s: string, l: RequestLine) returns (i: nat, j: nat, k: nat)
    requires SplitRequestLine(s) == Some(l)
    ensures SaysRequestLine(s, l, i, j, k)
  {
    hide Scan, InWord, NoCr;
    i := Scan(s, 0, SPACE_OR_CR);
    j := Scan(s, i + 1, SPACE_OR_CR);
    k := Scan(s, j + 1, ONLY_CR);
    WordScan(s, 0, i);
    WordScan(s, i + 1, j);
    LineScan(s, j + 1, k);
  }

  lemma RequestLineSaid(s: string, l: RequestLine, i: nat, j: nat, k: nat)
    requires SaysRequestLine(s, l, i, j, k)
    ensures SplitRequestLine(s) == Some(l)
  {
    hide Scan, InWord, NoCr;
    WordScan(s, 0, i);
    WordScan(s, i + 1, j);
    LineScan(s, j + 1, k);
  }

  lemma RequestLineIff(s: string, l: RequestLine)
    ensures SplitRequestLine(s) == Some(l) <==> exists i, j, k :: SaysRequestLine(s, l, i, j, k)
  {
    hide SplitRequestLine, SaysRequestLine;
    if SplitRequestLine(s) == Some(l) {
      var i, j, k := RequestLineRead(s, l);
    }
    forall i: nat, j: nat, k: nat | SaysRequestLine(s, l, i, j, k) ensures SplitRequestLine(s) == Some(l) {
      RequestLineSaid(s, l, i, j, k);
    }
  }

  /** "HTTP/" and a version up to a space at `i`, a status up to `j`, and CR LF at `k`,
      with a description before it if there is a space at `j`. */
  predicate SaysStatusLine(s: string, l: StatusLine, i: nat, j: nat, k: nat) {
    && 6 <= i && i + 1 < j <= k && k + 1 < |s|
    && s[..5] == "HTTP/" && InWord(s, 0, i) && s[i] == ' ' && InWord(s, i + 1, j)
    && (if s[j] == ' ' then j < k && NoCr(s, j + 1, k) && s[k] == '\r' && l.description == s[j + 1..k]
        else s[j] == '\r' && j == k && l.description == "")
    && s[k + 1] == '\n'
    && Stoull(s[i + 1..j]).Some? && l.code == Stoull(s[i + 1..j]).value % 4294967296
    && l.version == s[5..i] && l.headersAt == k + 2
  }

  lemma StatusLineRead(s: string, l: StatusLine) returns (i: nat, j: nat, k: nat)
    requires SplitStatusLine(s) == Some(l)
    ensures SaysStatusLine(s, l, i, j, k)
  {
    hide Scan, InWord, NoCr, Stoull;
    i := Scan(s, 0, SPACE_OR_CR);
    j := Scan(s, i + 1, SPACE_OR_CR);
    k := if s[j] == ' ' then Scan(s, j + 1, ONLY_CR) else j;
    WordScan(s, 0, i);
    WordScan(s, i + 1, j);
    if s[j] == ' ' {
      LineScan(s, j + 1, k);
    }
  }

  lemma StatusLineSaid(s: string, l: StatusLine, i: nat, j: nat, k: nat)
    requires SaysStatusLine(s, l, i, j, k)
    ensures SplitStatusLine(s) == Some(l)
  {
    hide Scan, InWord, NoCr, Stoull;
    WordScan(s, 0, i);
    WordScan(s, i + 1, j);
    if s[j] == ' ' {
      LineScan(s, j + 1, k);
    }
  }

  lemma StatusLineIff(s: string, l: StatusLine)
    ensures SplitStatusLine(s) == Some(l) <==> exists i, j, k :: SaysStatusLine(s, l, i, j, k)
  {
    hide SplitStatusLine, SaysStatusLine;
    if SplitStatusLine(s) == Some(l) {
      var i, j, k := StatusLineRead(s, l);
    }
    forall i: nat, j: nat, k: nat | SaysStatusLine(s, l, i, j, k) ensures SplitStatusLine(s) == Some(l) {
      StatusLineSaid(s, l, i, j, k);
    }
  }

  /** A port in 16 bits, of digits whose value fits 64. */
  function PortSaid(digits: string): Option<nat>
    requires AllDigits(digits)
  {
    if Decimal(digits) < 18446744073709551616 then Some(Decimal(digits) % 65536) else None
  }

  lemma PortOfDigits(digits: string)
    requires digits != "" && AllDigits(digits)
    ensures PortOf(digits) == PortSaid(digits)
  {
    hide Stoull, Decimal;
    StoullOfDigits(digits);
  }

  /** What a target in absolute form asks for: the parts its pattern finds, and port 80
      if it names none. */
  lemma AbsoluteTargetIs(verb: string, target: string, m: Absolute)
    requires verb != "CONNECT" && AbsoluteFinds(target, m)
    ensures SplitTarget(verb, target) ==
              if m.port.None? then Some(Target(m.scheme, m.host, 80, m.path))
              else if PortSaid(m.port.value).None? then None
              else Some(Target(m.scheme, m.host, PortSaid(m.port.value).value, m.path))
  {
    hide SplitAbsolute, SplitAuthority, PortOf, PortSaid, AbsoluteFinds;
    SplitAbsoluteIsRegex(target, m);
    FoundMatches(target, m);
    if m.port.Some? {
      PortOfDigits(m.port.value);
    }
  }

  lemma FoundMatches(target: string, m: Absolute)
    requires AbsoluteFinds(target, m)
    ensures AbsoluteMatch(target, m)
  {
    hide AbsoluteMatch;
  }

  /** And one in authority form, which only a CONNECT has: host and port, no more. */
  lemma AuthorityTargetIs(target: string, host: string, digits: string)
    requires AuthorityMatch(target, host, digits)
    ensures SplitTarget("CONNECT", target) ==
              if PortSaid(digits).None? then None else Some(Target("", host, PortSaid(digits).value, ""))
  {
    hide SplitAbsolute, SplitAuthority, PortOf, PortSaid;
    SplitAuthorityIsRegex(target, host, digits);
    PortOfDigits(digits);
  }
}
