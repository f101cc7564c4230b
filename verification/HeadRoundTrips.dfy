/** What a reader of a printed head sees: responses and requests come back whole. */
module HeadRoundTrips {
  import opened Text
  import opened HeaderMap
  import opened HeaderFields
  import opened HeaderGrammar
  import opened RequestUri
  import opened HeaderParser
  import opened HeadPrinter

  // -------------------------------------------------------------------- responses

  ghost predicate GoodResponse(r: ResponseHead) {
    && r.httpVersion != "" && Without(r.httpVersion, ' ') && Without(r.httpVersion, '\r')
    && r.statusCode < TWO_32 && Without(r.statusDescription, '\r')
    && Sorted(r.headers) && Clean(r.headers)
  }

  lemma ParsedResponseIsGood(s: string)
    requires ParsedResponse(s).Some?
    ensures GoodResponse(ParsedResponse(s).value)
  {
    ParsedIsClean(s[SplitStatusLine(s).value.headersAt..]);
    StatusLineIsGood(s);
  }

  lemma StatusLineIsGood(s: string)
    requires SplitStatusLine(s).Some?
    ensures var l := SplitStatusLine(s).value;
            && l.version != "" && Without(l.version, ' ') && Without(l.version, '\r')
            && l.code < TWO_32 && Without(l.description, '\r')
  {
    var i := Scan(s, 0, SPACE_OR_CR);
    WithoutSlice(s, 5, i, ' ');
    WithoutSlice(s, 5, i, '\r');
    var j := SplitStatus(s, i + 1).value.next;
    if s[j] == ' ' {
      WithoutSlice(s, j + 1, Scan(s, j + 1, ONLY_CR), '\r');
    }
  }

  lemma StatusTextIsLine(r: ResponseHead)
    requires GoodResponse(r)
    ensures Without(StatusText(r), '\r')
  {
    var d := ToDecimal(r.statusCode);
    assert !IsDigit('\r');
    assert forall i :: 0 <= i < |d| ==> d[i] != '\r';
  }

  // Reading a printed status line, word by word.

  lemma ScanWord(before: string, word: string, c: char, after: string, stops: set<char>)
    requires c in stops && forall i :: 0 <= i < |word| ==> word[i] !in stops
    ensures Scan(before + word + [c] + after, |before|, stops) == |before| + |word|
  {
    var s := before + word + [c] + after;
    assert s[|before| + |word|] == c;
    assert forall i :: |before| <= i < |before| + |word| ==> s[i] == word[i - |before|];
    ScanIs(s, |before|, stops, |before| + |word|);
  }

  lemma StatusFromScan(s: string, start: nat, j: nat, code: nat)
    requires start < j < |s| && Scan(s, start, SPACE_OR_CR) == j
    requires Stoull(s[start..j]) == Some(code) && code < TWO_32
    ensures SplitStatus(s, start) == Some(StatusAt(code, j))
  {
  }

  lemma CutMiddle(a: string, b: string, c: string)
    ensures (a + b + c)[|a|..|a| + |b|] == b
  {
  }

  lemma DigitsAreNotStops(d: string)
    requires AllDigits(d)
    ensures forall i :: 0 <= i < |d| ==> d[i] !in SPACE_OR_CR
  {
    assert !IsDigit(' ') && !IsDigit('\r');
  }

  lemma StatusDigits(d: string)
    requires d != "" && AllDigits(d) && Decimal(d) < TWO_32
    ensures Stoull(d) == Some(Decimal(d))
  {
    StoullOfDigits(d);
  }

  lemma StatusReadsBack(s: string, front: string, d: string, c: char, after: string, code: nat)
    requires s == front + d + [c] + after && c in SPACE_OR_CR
    requires d != "" && (forall i :: 0 <= i < |d| ==> d[i] !in SPACE_OR_CR)
    requires Stoull(d) == Some(code) && code < TWO_32
    ensures SplitStatus(s, |front|) == Some(StatusAt(code, |front| + |d|))
  {
    hide *;
    ScanWord(front, d, c, after, SPACE_OR_CR);
    assert s == front + d + ([c] + after);
    CutMiddle(front, d, [c] + after);
    StatusFromScan(s, |front|, |front| + |d|, code);
  }

  lemma NoDescription(front: string, after: string)
    ensures var s := front + CRLF + after; SplitDescription(s, |front|) == Some(DescriptionAt("", |front| + 2))
  {
    var s := front + CRLF + after;
    assert s[|front|] == '\r' && s[|front| + 1] == '\n';
  }

  lemma DescriptionFrom(s: string, j: nat, k: nat)
    requires j < |s| && s[j] == ' ' && Scan(s, j + 1, ONLY_CR) == k && j < k && k + 1 < |s| && s[k + 1] == '\n'
    ensures SplitDescription(s, j) == Some(DescriptionAt(s[j + 1..k], k + 2))
  {
  }

  lemma SomeDescription(s: string, front: string, description: string, after: string)
    requires Without(description, '\r')
    requires s == (front + " ") + description + ['\r'] + ("\n" + after)
    ensures |front| < |s|
    ensures SplitDescription(s, |front|) == Some(DescriptionAt(description, |s| - |after|))
  {
    hide Scan, SplitDescription;
    ScanWord(front + " ", description, '\r', "\n" + after, ONLY_CR);
    var k := |front| + 1 + |description|;
    assert s[|front|] == ' ' && s[k + 1] == '\n';
    DescriptionFrom(s, |front|, k);
    assert s == (front + " ") + description + (['\r'] + ("\n" + after));
    CutMiddle(front + " ", description, ['\r'] + ("\n" + after));
  }

  lemma DescriptionReadsBack(s: string, front: string, description: string, after: string)
    requires Without(description, '\r')
    requires s == front + DescriptionText(description) + CRLF + after
    ensures |front| < |s|
    ensures SplitDescription(s, |front|) == Some(DescriptionAt(description, |s| - |after|))
  {
    hide SplitDescription;
    if description == "" {
      assert front + "" == front;
      NoDescription(front, after);
    } else {
      assert front + (" " + description) + CRLF + after == (front + " ") + description + ['\r'] + ("\n" + after);
      SomeDescription(s, front, description, after);
    }
  }

  lemma StatusLineFrom(s: string, i: nat, code: nat, j: nat, description: string, next: nat)
    requires 6 <= i < |s| && Scan(s, 0, SPACE_OR_CR) == i && s[i] == ' ' && s[..5] == HTTP_SLASH
    requires i + 1 < j < |s| && SplitStatus(s, i + 1) == Some(StatusAt(code, j))
    requires SplitDescription(s, j) == Some(DescriptionAt(description, next))
    ensures SplitStatusLine(s) == Some(StatusLine(s[5..i], code, description, next))
  {
    hide SplitStatus, SplitDescription;
  }

  lemma VersionReadsBack(version: string, tail: string)
    requires version != "" && Without(version, ' ') && Without(version, '\r')
    ensures var s, i := HTTP_SLASH + version + " " + tail, 5 + |version|;
            Scan(s, 0, SPACE_OR_CR) == i && s[i] == ' ' && s[..5] == HTTP_SLASH && s[5..i] == version
  {
    var word := HTTP_SLASH + version;
    ScanWord("", word, ' ', tail, SPACE_OR_CR);
    assert "" + word + [' '] + tail == HTTP_SLASH + version + " " + tail;
  }

  lemma StatusPieces(front: string, d: string, description: string, after: string) returns (c: char, rest: string)
    ensures c in SPACE_OR_CR
    ensures front + d + DescriptionText(description) + CRLF + after == front + d + [c] + rest
    ensures front + d + [c] + rest == front + (d + ([c] + rest))
  {
    hide DescriptionText;
    var more := DescriptionText(description) + (CRLF + after);
    MoreStarts(description, CRLF + after);
    c, rest := more[0], more[1..];
    assert more == [c] + rest;
    AssociateHead(front + d, DescriptionText(description), after);
    assert front + d + DescriptionText(description) + CRLF + after == front + d + more;
    assert front + d + more == front + d + [c] + rest;
  }

  lemma MoreStarts(description: string, after: string)
    requires after != "" && after[0] == '\r'
    ensures (DescriptionText(description) + after)[0] in SPACE_OR_CR
  {
  }

  /** The words of a status line, with the description's space where there is one. */
  lemma StatusWordsReadBack(s: string, version: string, d: string, code: nat, description: string, after: string)
    requires version != "" && Without(version, ' ') && Without(version, '\r')
    requires d != "" && (forall i :: 0 <= i < |d| ==> d[i] !in SPACE_OR_CR)
    requires Stoull(d) == Some(code) && code < TWO_32 && Without(description, '\r')
    requires s == HTTP_SLASH + version + " " + d + DescriptionText(description) + CRLF + after
    ensures SplitStatusLine(s) == Some(StatusLine(version, code, description, |s| - |after|))
  {
    hide Stoull, SplitStatus, SplitDescription, SplitStatusLine, Scan, DescriptionText;
    var front := HTTP_SLASH + version + " ";
    var c, rest := StatusPieces(front, d, description, after);
    VersionReadsBack(version, d + ([c] + rest));
    StatusReadsBack(s, front, d, c, rest, code);
    DescriptionReadsBack(s, front + d, description, after);
    StatusLineFrom(s, |front| - 1, code, |front| + |d|, description, |s| - |after|);
  }

  lemma StatusLineReadsBack(r: ResponseHead, after: string)
    requires GoodResponse(r)
    ensures SplitStatusLine(StatusText(r) + CRLF + after)
         == Some(StatusLine(r.httpVersion, r.statusCode, r.statusDescription, |StatusText(r)| + 2))
  {
    hide SplitStatusLine, Stoull;
    var d := ToDecimal(r.statusCode);
    DigitsAreNotStops(d);
    StatusDigits(d);
    StatusWordsReadBack(StatusText(r) + CRLF + after, r.httpVersion, d, r.statusCode, r.statusDescription, after);
  }

  /** A printed response head, read again with any body behind it, is the same head,
      but for white space at the front of field values; and its first blank line is
      its own end, so the reader sees the same body. */
  lemma ResponseReadsBack(r: ResponseHead, body: string)
    requires GoodResponse(r)
    ensures ParsedResponse(ResponseText(r) + body) == Some(r.(headers := LeftTrimmed(r.headers)))
    ensures FindHeadEnd(ResponseText(r) + body) == Some(|ResponseText(r)| - 4)
  {
    hide SplitStatusLine, Parsed, FindHeadEnd, FieldsText, StatusText;
    var line := StatusText(r);
    StatusTextIsLine(r);
    HeadReadsBack(line, r.headers, body);
    StatusLineReadsBack(r, FieldsText(r.headers) + CRLF + body);
  }

  /** For a head the parser returned, printing and parsing again is the identity
      exactly when no field value starts with white space. */
  lemma ResponseFixpointIff(s: string, body: string)
    requires ParsedResponse(s).Some?
    ensures var r := ParsedResponse(s).value;
            ParsedResponse(ResponseText(r) + body) == Some(r) <==> NoLeadingOws(r.headers)
  {
    var r := ParsedResponse(s).value;
    ParsedResponseIsGood(s);
    ResponseReadsBack(r, body);
    LeftTrimmedSameIff(r.headers);
  }

  const FOLDED_FIELD: string := "A:" + CRLF + " b" + CRLF + CRLF

  const FOLDED_HEAD: string := "HTTP/1.1 200\r\nA:\r\n b\r\n\r\n"

  lemma FoldedPieces()
    ensures FOLDED_HEAD == HTTP_SLASH + "1.1" + " " + "200" + "" + CRLF + FOLDED_FIELD
    ensures |FOLDED_HEAD| == 24 && |FOLDED_FIELD| == 10 && FOLDED_HEAD[14..] == FOLDED_FIELD
  {
  }

  lemma FoldedStatusLine()
    ensures SplitStatusLine(FOLDED_HEAD) == Some(StatusLine("1.1", 200, "", 14))
  {
    hide SplitStatusLine, Stoull, FOLDED_HEAD, FOLDED_FIELD;
    FoldedPieces();
    TwoHundred();
    StatusWordsReadBack(FOLDED_HEAD, "1.1", "200", 200, "", FOLDED_FIELD);
  }

  lemma TwoHundred()
    ensures Stoull("200") == Some(200) && forall i :: 0 <= i < |"200"| ==> "200"[i] !in SPACE_OR_CR
    ensures Without("1.1", ' ') && Without("1.1", '\r') && Without("", '\r')
  {
    hide Stoull;
    assert AllDigits("200");
    assert "200"[..2] == "20" && "20"[..1] == "2" && "2"[..0] == "";
    assert Decimal("2") == 2 && Decimal("20") == 20 && Decimal("200") == 200;
    StoullOfDigits("200");
  }

  lemma BlankLineHasCrs(s: string, q: nat)
    ensures At(s, q, HEAD_END) ==> q + 4 <= |s| && s[q] == '\r' && s[q + 2] == '\r'
  {
    if At(s, q, HEAD_END) {
      assert s[q] == s[q..q + 4][0] && s[q + 2] == s[q..q + 4][2];
    }
  }

  lemma FoldedHeadEnd()
    ensures FindHeadEnd(FOLDED_HEAD) == Some(20)
  {
    hide FindHeadEnd;
    var s := FOLDED_HEAD;
    assert s[20..24] == HEAD_END;
    forall q: nat | q < 20 ensures !At(s, q, HEAD_END) {
      BlankLineHasCrs(s, q);
    }
    HeadEndIs(s, 20);
  }

  lemma FoldedFieldIsRaw()
    ensures AllGood([RawField("A", "", [" b"])]) && RawsText([RawField("A", "", [" b"])]) == "A:" + CRLF + " b" + CRLF
    ensures Meanings([RawField("A", "", [" b"])]) == [Field("A", " b")]
  {
    var f := RawField("A", "", [" b"]);
    assert [f][..0] == [] && [" b"][..0] == [];
    assert FoldsText([" b"]) == " b" + CRLF;
    assert RawText(f) == "A:" + CRLF + " b" + CRLF;
    assert TrimLeft("") == "" && Joined([" b"]) == " b";
    assert "" + " b" == " b" && TrimRight(" b") == " b";
    assert Meaning(f) == Field("A", " b");
  }

  lemma FoldedFieldParses()
    ensures Parsed(FOLDED_FIELD) == Some([Field("A", " b")])
  {
    hide Parsed, RawsText, Meanings, AllGood;
    var fs := [RawField("A", "", [" b"])];
    FoldedFieldIsRaw();
    assert Without("", '\n');
    assert FOLDED_FIELD == RawsText(fs) + "\r" + "" + "\n" + "";
    SaidIsParsed(FOLDED_FIELD, fs);
    assert [Field("A", " b")][..0] == [];
  }

  /** The case is one the parser meets: of the head "HTTP/1.1 200" with a field A whose
      first line is empty and whose second is " b", the value keeps its white space, and
      printing the head and parsing it again gives another head. */
  lemma FoldAfterEmptyLineKeepsOws(body: string)
    ensures ParsedResponse(FOLDED_HEAD) == Some(ResponseHead("1.1", 200, "", [Field("A", " b")]))
    ensures FindHeadEnd(FOLDED_HEAD) == Some(|FOLDED_HEAD| - 4)
    ensures var r := ParsedResponse(FOLDED_HEAD).value;
            !NoLeadingOws(r.headers) && ParsedResponse(ResponseText(r) + body) != Some(r)
  {
    hide Parsed, SplitStatusLine, ResponseText, FOLDED_FIELD, FOLDED_HEAD, FindHeadEnd;
    FoldedPieces();
    FoldedFieldParses();
    FoldedStatusLine();
    FoldedHeadEnd();
    var h := [Field("A", " b")];
    assert h[0].value[0] == ' ';
    ResponseFixpointIff(FOLDED_HEAD, body);
  }

  // --------------------------------------------------------------------- requests

  ghost predicate Word(s: string) { s != "" && Without(s, ' ') && Without(s, '\r') }

  ghost predicate GoodRequest(r: RequestHead) {
    && Word(r.verb) && (r.verb != CONNECT ==> Word(r.pathAndQuery))
    && r.httpVersion != "" && Without(r.httpVersion, '\r')
    && r.port < TWO_16 && Sorted(r.headers) && Clean(r.headers)
  }

  lemma RequestLineIsGood(s: string)
    requires SplitRequestLine(s).Some?
    ensures var l := SplitRequestLine(s).value;
            Word(l.verb) && Word(l.target) && l.version != "" && Without(l.version, '\r')
  {
    var i := Scan(s, 0, SPACE_OR_CR);
    var j := Scan(s, i + 1, SPACE_OR_CR);
    var k := Scan(s, j + 1, ONLY_CR);
    WithoutSlice(s, 0, i, ' ');
    WithoutSlice(s, 0, i, '\r');
    WithoutSlice(s, i + 1, j, ' ');
    WithoutSlice(s, i + 1, j, '\r');
    WithoutSlice(s, j + 6, k, '\r');
    assert s[0..i] == s[..i];
  }

  lemma PathIsWord(target: string, m: Absolute)
    requires AbsoluteMatch(target, m) && Word(target)
    ensures Word(m.path)
  {
    var front := m.scheme + "://" + m.host + PortText(m.port);
    assert target == front + m.path;
    assert forall i :: 0 <= i < |m.path| ==> m.path[i] == target[|front| + i];
  }

  lemma TargetIsGood(verb: string, target: string)
    requires SplitTarget(verb, target).Some? && Word(target)
    ensures SplitTarget(verb, target).value.port < TWO_16
    ensures verb != CONNECT ==> Word(SplitTarget(verb, target).value.path)
  {
    hide SplitAbsolute, SplitAuthority, Word, AbsoluteMatch;
    if verb != CONNECT {
      var m := SplitAbsolute(target).value;
      ScanFinds(target);
      PathIsWord(target, m);
    }
  }

  lemma ParsedRequestIsGood(s: string)
    requires ParsedRequest(s).Some?
    ensures GoodRequest(ParsedRequest(s).value)
  {
    var line := SplitRequestLine(s).value;
    RequestLineIsGood(s);
    TargetIsGood(line.verb, line.target);
    ParsedIsClean(s[line.headersAt..]);
  }

  lemma EraseKeepsClean(h: Fields, gone: string)
    requires Sorted(h) && Clean(h)
    ensures Sorted(Erase(h, gone)) && Clean(Erase(h, gone))
  {
    EraseKeepsSorted(h, gone);
    forall i | 0 <= i < |Erase(h, gone)| ensures CleanField(Erase(h, gone)[i]) {
      var j := EraseKeepsFields(h, gone, i);
    }
  }

  lemma StrippedIsGood(r: RequestHead)
    requires GoodRequest(r)
    ensures GoodRequest(Stripped(r)) && Stripped(r).verb == r.verb && OriginLine(Stripped(r)) == OriginLine(r)
    ensures Stripped(r).pathAndQuery == r.pathAndQuery && Stripped(r).httpVersion == r.httpVersion
  {
    EraseKeepsClean(r.headers, PROXY_CONNECTION);
    EraseKeepsClean(Erase(r.headers, PROXY_CONNECTION), PROXY_AUTHORIZATION);
  }

  /** Rewriting a request head a second time changes nothing: a retried request is
      the request first tried. */
  lemma StrippedTwice(r: RequestHead)
    ensures Stripped(Stripped(r)) == Stripped(r)
  {
    var h := Erase(r.headers, PROXY_CONNECTION);
    EraseCommutes(h, PROXY_AUTHORIZATION, PROXY_CONNECTION);
    EraseTwice(r.headers, PROXY_CONNECTION);
    EraseTwice(h, PROXY_AUTHORIZATION);
  }

  lemma RequestLineFrom(s: string, i: nat, j: nat, k: nat)
    requires 0 < i && i + 1 < j && j + 7 <= k && k + 1 < |s|
    requires Scan(s, 0, SPACE_OR_CR) == i && s[i] == ' '
    requires Scan(s, i + 1, SPACE_OR_CR) == j && s[j] == ' '
    requires Scan(s, j + 1, ONLY_CR) == k && s[j + 1..j + 6] == HTTP_SLASH && s[k + 1] == '\n'
    ensures SplitRequestLine(s) == Some(RequestLine(s[..i], s[i + 1..j], s[j + 6..k], k + 2))
  {
  }

  function LineText(verb: string, target: string, version: string): string {
    verb + " " + target + " HTTP/" + version
  }

  lemma FirstWord(verb: string, target: string, version: string, after: string)
    requires Word(verb)
    ensures var s := LineText(verb, target, version) + CRLF + after;
            Scan(s, 0, SPACE_OR_CR) == |verb| && s[|verb|] == ' ' && s[..|verb|] == verb
  {
    var tail := target + " HTTP/" + version + CRLF + after;
    ScanWord("", verb, ' ', tail, SPACE_OR_CR);
    assert "" + verb + [' '] + tail == LineText(verb, target, version) + CRLF + after;
  }

  lemma SecondWord(verb: string, target: string, version: string, after: string)
    requires Word(target)
    ensures var s, i := LineText(verb, target, version) + CRLF + after, |verb|;
            var j := i + 1 + |target|;
            Scan(s, i + 1, SPACE_OR_CR) == j && s[j] == ' ' && s[i + 1..j] == target
  {
    var front, tail := verb + " ", "HTTP/" + version + CRLF + after;
    ScanWord(front, target, ' ', tail, SPACE_OR_CR);
    assert front + target + [' '] + tail == LineText(verb, target, version) + CRLF + after;
  }

  lemma ThirdWord(verb: string, target: string, version: string, after: string)
    requires Without(version, '\r')
    ensures var line := LineText(verb, target, version);
            var s, j := line + CRLF + after, |verb| + 1 + |target|;
            && Scan(s, j + 1, ONLY_CR) == |line| && s[|line| + 1] == '\n'
            && s[j + 1..j + 6] == HTTP_SLASH && s[j + 6..|line|] == version
  {
    var front, proto := verb + " " + target + " ", HTTP_SLASH + version;
    var s := LineText(verb, target, version) + CRLF + after;
    ScanWord(front, proto, '\r', "\n" + after, ONLY_CR);
    assert s == front + proto + ['\r'] + ("\n" + after);
    assert s == front + HTTP_SLASH + (version + CRLF + after);
    CutMiddle(front, HTTP_SLASH, version + CRLF + after);
    assert s == (front + HTTP_SLASH) + version + (CRLF + after);
    CutMiddle(front + HTTP_SLASH, version, CRLF + after);
  }

  lemma RequestLineReadsBack(verb: string, target: string, version: string, after: string)
    requires Word(verb) && Word(target) && version != "" && Without(version, '\r')
    ensures var line := LineText(verb, target, version);
            SplitRequestLine(line + CRLF + after) == Some(RequestLine(verb, target, version, |line| + 2))
  {
    hide SplitRequestLine, Scan;
    FirstWord(verb, target, version, after);
    SecondWord(verb, target, version, after);
    ThirdWord(verb, target, version, after);
    var line := LineText(verb, target, version);
    var i := |verb|;
    RequestLineFrom(line + CRLF + after, i, i + 1 + |target|, |line|);
  }

  /** The rewritten request means the same: the same words on its first line, the
      same body after its blank line, and the same fields but those for the proxy. */
  lemma RewritingPreservesMeaning(s: string, body: string)
    requires ParsedRequest(s).Some? && ParsedRequest(s).value.verb != CONNECT
    ensures var r := ParsedRequest(s).value;
            var t := RequestText(Stripped(r)) + body;
            var n := |OriginLine(r)| + 2;
            && SplitRequestLine(t) == Some(RequestLine(r.verb, r.pathAndQuery, r.httpVersion, n))
            && Parsed(t[n..]) == Some(LeftTrimmed(Stripped(r).headers))
            && FindHeadEnd(t).Some? && t[FindHeadEnd(t).value + 4..] == body
    ensures var r := ParsedRequest(s).value;
            forall name :: Select(Stripped(r).headers, name)
              == if SameLetters("Proxy-Connection", name) || SameLetters("Proxy-Authorization", name) then []
                 else Select(r.headers, name)
  {
    hide ParsedRequest, SplitRequestLine, Parsed, FindHeadEnd, Stripped, RequestText, OriginLine;
    var r := ParsedRequest(s).value;
    ParsedRequestIsGood(s);
    StrippedIsGood(r);
    RequestReadsBack(Stripped(r), body);
    forall name ensures Select(Stripped(r).headers, name)
      == if SameLetters("Proxy-Connection", name) || SameLetters("Proxy-Authorization", name) then []
         else Select(r.headers, name)
    {
      StrippedSelect(r, name);
    }
  }

  /** Stripping takes the two proxy fields and nothing else. */
  lemma StrippedSelect(r: RequestHead, name: string)
    ensures Select(Stripped(r).headers, name)
         == if SameLetters("Proxy-Connection", name) || SameLetters("Proxy-Authorization", name) then []
            else Select(r.headers, name)
  {
    hide SameName, SameLetters;
    SameNameIff("Proxy-Connection", name);
    SameNameIff("Proxy-Authorization", name);
    EraseSelect(r.headers, PROXY_CONNECTION, name);
    EraseSelect(Erase(r.headers, PROXY_CONNECTION), PROXY_AUTHORIZATION, name);
  }

  lemma OriginLineIsLine(r: RequestHead)
    requires GoodRequest(r) && r.verb != CONNECT
    ensures Without(OriginLine(r), '\r')
  {
    LineTextIsLine(r.verb, r.pathAndQuery, r.httpVersion);
  }

  lemma LineTextIsLine(verb: string, target: string, version: string)
    requires Without(verb, '\r') && Without(target, '\r') && Without(version, '\r')
    ensures Without(LineText(verb, target, version), '\r')
  {
  }

  lemma RequestReadsBack(r: RequestHead, body: string)
    requires GoodRequest(r) && r.verb != CONNECT
    ensures var t := RequestText(r) + body;
            var n := |OriginLine(r)| + 2;
            && SplitRequestLine(t) == Some(RequestLine(r.verb, r.pathAndQuery, r.httpVersion, n))
            && Parsed(t[n..]) == Some(LeftTrimmed(r.headers))
            && FindHeadEnd(t) == Some(|RequestText(r)| - 4) && t[|RequestText(r)|..] == body
  {
    hide SplitRequestLine, Parsed, FindHeadEnd, FieldsText;
    OriginLineIsLine(r);
    HeadReadsBack(OriginLine(r), r.headers, body);
    RequestLineReadsBack(r.verb, r.pathAndQuery, r.httpVersion, FieldsText(r.headers) + CRLF + body);
  }

  // ------------------------------------------------------- requests sent to a proxy

  /** The port as it is written, or not. */
  function WrittenPort(r: RequestHead, withPort: bool): Option<string> {
    if withPort then Some(ToDecimal(r.port)) else None
  }

  function AbsoluteTarget(r: RequestHead, withPort: bool): string {
    r.scheme + "://" + r.host + PortText(WrittenPort(r, withPort)) + r.pathAndQuery
  }

  function ProxyTarget(r: RequestHead, withPort: bool): string {
    if r.verb == CONNECT then r.host + ":" + ToDecimal(r.port) else AbsoluteTarget(r, withPort)
  }

  /** A request as a client sends it to a proxy. */
  function ProxyRequestText(r: RequestHead, withPort: bool): string {
    LineText(r.verb, ProxyTarget(r, withPort), r.httpVersion) + CRLF + FieldsText(r.headers) + CRLF
  }

  /** Only port 80 may go unwritten, and only after a host that does not read as a host
      and a port. */
  ghost predicate GoodProxyRequest(r: RequestHead, withPort: bool) {
    && GoodRequest(r) && Word(r.host)
    && (if r.verb == CONNECT then r.scheme == "" && r.pathAndQuery == ""
        else && Word(r.scheme) && Without(r.scheme, ':') && Without(r.host, '/') && r.pathAndQuery[0] == '/'
             && (withPort || (r.port == 80 && !EndsInPort(r.host))))
  }

  lemma DecimalIsWord(n: nat)
    ensures Word(ToDecimal(n))
  {
    assert !IsDigit(' ') && !IsDigit('\r');
    var d := ToDecimal(n);
    assert forall i :: 0 <= i < |d| ==> d[i] != ' ' && d[i] != '\r';
  }

  lemma PortReadsBack(port: nat)
    requires port < TWO_16
    ensures PortOf(ToDecimal(port)) == Some(port)
  {
    StoullOfDigits(ToDecimal(port));
  }

  lemma JoinWords(a: string, b: string)
    requires Without(a, ' ') && Without(a, '\r') && Without(b, ' ') && Without(b, '\r')
    ensures Without(a + b, ' ') && Without(a + b, '\r')
  {
  }

  lemma ProxyTargetIsWord(r: RequestHead, withPort: bool)
    requires GoodProxyRequest(r, withPort)
    ensures Word(ProxyTarget(r, withPort))
  {
    var d := ToDecimal(r.port);
    DecimalIsWord(r.port);
    JoinWords(":", d);
    if r.verb == CONNECT {
      JoinWords(r.host, ":");
      JoinWords(r.host + ":", d);
    } else {
      JoinWords(r.scheme, "://");
      JoinWords(r.scheme + "://", r.host);
      var port := PortText(WrittenPort(r, withPort));
      JoinWords(r.scheme + "://" + r.host, port);
      JoinWords(r.scheme + "://" + r.host + port, r.pathAndQuery);
    }
  }

  lemma ProxyTargetSplits(r: RequestHead, withPort: bool)
    requires GoodProxyRequest(r, withPort)
    ensures SplitTarget(r.verb, ProxyTarget(r, withPort)) == Some(Target(r.scheme, r.host, r.port, r.pathAndQuery))
  {
    var d := ToDecimal(r.port);
    PortReadsBack(r.port);
    if r.verb == CONNECT {
      SplitAuthorityIsRegex(ProxyTarget(r, withPort), r.host, d);
    } else {
      RenderedAbsoluteSplits(r.scheme, r.host, WrittenPort(r, withPort), r.pathAndQuery);
    }
  }

  /** A well-formed request rendered for a proxy, with its port or without, is read back
      part by part. */
  lemma ProxyRequestReadsBack(r: RequestHead, withPort: bool, rest: string)
    requires GoodProxyRequest(r, withPort)
    ensures ParsedRequest(ProxyRequestText(r, withPort) + rest) == Some(r.(headers := LeftTrimmed(r.headers)))
    ensures ParsedRequest(ProxyRequestText(r, withPort) + rest) == Some(r) <==> NoLeadingOws(r.headers)
    ensures FindHeadEnd(ProxyRequestText(r, withPort) + rest) == Some(|ProxyRequestText(r, withPort)| - 4)
  {
    hide SplitRequestLine, SplitTarget, ParsedRequest, Parsed, FindHeadEnd, FieldsText, LineText, ProxyTarget;
    var target := ProxyTarget(r, withPort);
    ProxyTargetIsWord(r, withPort);
    ProxyTargetSplits(r, withPort);
    var line := LineText(r.verb, target, r.httpVersion);
    LineTextIsLine(r.verb, target, r.httpVersion);
    HeadReadsBack(line, r.headers, rest);
    RequestLineReadsBack(r.verb, target, r.httpVersion, FieldsText(r.headers) + CRLF + rest);
    RequestFrom(ProxyRequestText(r, withPort) + rest, r, target, |line| + 2);
    LeftTrimmedSameIff(r.headers);
  }

  lemma RequestFrom(s: string, r: RequestHead, target: string, n: nat)
    requires n <= |s| && SplitRequestLine(s) == Some(RequestLine(r.verb, target, r.httpVersion, n))
    requires SplitTarget(r.verb, target) == Some(Target(r.scheme, r.host, r.port, r.pathAndQuery))
    requires Parsed(s[n..]) == Some(LeftTrimmed(r.headers))
    ensures ParsedRequest(s) == Some(r.(headers := LeftTrimmed(r.headers)))
  {
  }
}
