/** The answers the proxy writes itself are well-framed messages: a reader finds a
    status line, fields, and as much content as they announce. */
module AnswerPages {
  import opened Text
  import opened HeaderMap
  import opened HeaderFields
  import opened HeaderGrammar
  import opened HeaderParser
  import opened HeadPrinter
  import opened HeadRoundTrips
  import opened ProxyContext
  import opened ProxyMachine
  import opened ProxyStreams
  import opened ProxyFraming

  /** A response head with its fields in the order they are written. */
  function Written(version: string, code: string, description: string, fs: seq<Field>, body: string): string {
    HTTP_SLASH + version + " " + code + DescriptionText(description) + CRLF + FieldsText(fs) + CRLF + body
  }

  lemma {:induction false} FieldsAnyOrder(fs: seq<Field>, rest: string)
    requires Clean(fs)
    ensures Parsed(FieldsText(fs) + CRLF + rest) == Some(FromList(LeftTrimmed(fs)))
  {
    hide FieldsText, RawsText, Parsed, FromList, Clean, AllGood, Meanings;
    PrintedAsRaws(fs);
    BlankLine(FieldsText(fs), rest);
    assert Without("", '\n');
    SaidIsParsed(FieldsText(fs) + CRLF + rest, AsRaws(fs));
  }

  /** The words of a status line as the program writes them. */
  ghost predicate StatusWords(version: string, code: string, description: string) {
    && version != "" && Without(version, ' ') && Without(version, '\r')
    && code != "" && AllDigits(code) && Decimal(code) < TWO_32 && Without(description, '\r')
  }

  lemma DigitsAreClean(code: string)
    requires AllDigits(code)
    ensures Without(code, '\r')
  {
    assert !IsDigit('\r');
  }

  lemma JoinClean(a: string, b: string)
    requires Without(a, '\r') && Without(b, '\r')
    ensures Without(a + b, '\r')
  {
  }

  lemma WrittenLine(version: string, code: string, description: string)
    requires StatusWords(version, code, description)
    ensures Without(HTTP_SLASH + version + " " + code + DescriptionText(description), '\r')
    ensures Stoull(code) == Some(Decimal(code)) && forall i :: 0 <= i < |code| ==> code[i] !in SPACE_OR_CR
  {
    hide Without, Decimal, AllDigits, Stoull;
    DigitsAreNotStops(code);
    StatusDigits(code);
    DigitsAreClean(code);
    CleanConstants();
    JoinClean(" ", description);
    JoinClean(HTTP_SLASH, version);
    JoinClean(HTTP_SLASH + version, " ");
    JoinClean(HTTP_SLASH + version + " ", code);
    JoinClean(HTTP_SLASH + version + " " + code, DescriptionText(description));
  }

  lemma CleanConstants()
    ensures Without(HTTP_SLASH, '\r') && Without(" ", '\r') && Without("", '\r')
  {
  }

  /** Fields written in any order read back as their stable sort, and the head ends
      where its writer ended it. */
  lemma WrittenReadsBack(version: string, code: string, description: string, fs: seq<Field>, body: string)
    requires StatusWords(version, code, description) && Clean(fs)
    ensures var s := Written(version, code, description, fs, body);
            && ResponseIn(s) && BodyOf(s) == body
            && ResponseOf(s) == ResponseHead(version, Decimal(code), description, FromList(LeftTrimmed(fs)))
  {
    hide Parsed, FindHeadEnd, FieldsText, SplitStatusLine, StatusWords, Clean, FromList, LeftTrimmed, DescriptionText, Decimal,
      Stoull;
    WordsAreWords(version, code, description);
    var line := HTTP_SLASH + version + " " + code + DescriptionText(description);
    WrittenLine(version, code, description);
    PrintedHeadEnd(line, fs, body);
    HeadPieces(line, FieldsText(fs), body);
    HeadPieces(line, FieldsText(fs), "");
    var s, h := Written(version, code, description, fs, body), Written(version, code, description, fs, "");
    assert s[..|line| + |FieldsText(fs)| + 4] == h;
    FieldsAnyOrder(fs, "");
    StatusWordsReadBack(h, version, code, Decimal(code), description, FieldsText(fs) + CRLF + "");
  }

  lemma WordsAreWords(version: string, code: string, description: string)
    requires StatusWords(version, code, description)
    ensures version != "" && Without(version, ' ') && Without(version, '\r')
    ensures code != "" && AllDigits(code) && Decimal(code) < TWO_32 && Without(description, '\r')
  {
  }

  function PageFields(length: nat): seq<Field> {
    [Field("Content-Type", "text/html"), Field("Server", "AzureHttpProxy"),
     Field("Content-Length", ToDecimal(length)), Field("Proxy-Connection", "close")]
  }

  lemma ClearField(name: string, value: string)
    requires IsToken(name) && Without(value, '\r') && value != "" && !IsOws(value[0]) && !IsOws(value[|value| - 1])
    ensures CleanField(Field(name, value)) && TrimLeft(value) == value
  {
    assert TrimRight(value) == value;
  }

  lemma CountField(length: nat)
    ensures CleanField(Field("Content-Length", ToDecimal(length)))
    ensures !IsOws(ToDecimal(length)[0])
  {
    hide CleanField, ToDecimal;
    var n := ToDecimal(length);
    DigitsAreClean(n);
    assert IsDigit(n[|n| - 1]) && IsDigit(n[0]);
    TokenNames();
    ClearField("Content-Length", n);
  }

  lemma TokenNames()
    ensures IsToken("Content-Type") && IsToken("Server") && IsToken("Content-Length")
    ensures IsToken("Proxy-Connection") && IsToken("Proxy-Authenticate") && IsToken("Connection")
  {
    hide IsToken;
    ContentNames();
    ProxyNames();
  }

  lemma ContentNames()
    ensures IsToken("Content-Type") && IsToken("Content-Length") && IsToken("Connection")
  {
  }

  lemma ProxyNames()
    ensures IsToken("Proxy-Connection") && IsToken("Proxy-Authenticate") && IsToken("Server")
  {
  }

  lemma FixedFields()
    ensures CleanField(Field("Content-Type", "text/html")) && CleanField(Field("Server", "AzureHttpProxy"))
    ensures CleanField(Field("Proxy-Connection", "close")) && CleanField(Field("Connection", "Close"))
    ensures CleanField(Field("Proxy-Authenticate", "Basic realm=\"AzureHttpProxy\""))
  {
    hide CleanField, IsToken, TrimLeft;
    TokenNames();
    ClearField("Content-Type", "text/html");
    ClearField("Server", "AzureHttpProxy");
    ClearField("Proxy-Connection", "close");
    ClearField("Connection", "Close");
    ClearField("Proxy-Authenticate", "Basic realm=\"AzureHttpProxy\"");
  }

  lemma PageFieldsClean(length: nat)
    ensures Clean(PageFields(length)) && NoLeadingOws(PageFields(length))
  {
    hide CleanField, ToDecimal;
    FixedFields();
    CountField(length);
  }

  function AuthFields(length: nat): seq<Field> {
    [Field("Server", "AzureHttpProxy"), Field("Proxy-Authenticate", "Basic realm=\"AzureHttpProxy\""),
     Field("Content-Type", "text/html"), Field("Connection", "Close"), Field("Content-Length", ToDecimal(length))]
  }

  lemma AuthFieldsClean(length: nat)
    ensures Clean(AuthFields(length)) && NoLeadingOws(AuthFields(length))
  {
    hide CleanField, ToDecimal;
    FixedFields();
    CountField(length);
  }

  lemma OneMoreField(h: seq<Field>, f: Field)
    ensures FieldsText(h + [f]) == FieldsText(h) + FieldLine(f) + CRLF
  {
    assert (h + [f])[..|h|] == h;
  }

  lemma FourFields(a: Field, b: Field, c: Field, d: Field)
    ensures FieldsText([a, b, c, d]) == FieldLine(a) + CRLF + FieldLine(b) + CRLF + FieldLine(c) + CRLF + FieldLine(d) + CRLF
  {
    hide FieldLine, FieldsText;
    assert FieldsText([]) == "" by { NoFields(); }
    assert "" + FieldLine(a) == FieldLine(a);
    assert [] + [a] == [a] && [a] + [b] == [a, b] && [a, b] + [c] == [a, b, c] && [a, b, c] + [d] == [a, b, c, d];
    OneMoreField([], a);
    OneMoreField([a], b);
    OneMoreField([a, b], c);
    OneMoreField([a, b, c], d);
  }

  lemma NoFields()
    ensures FieldsText([]) == ""
  {
  }

  lemma FiveFields(a: Field, b: Field, c: Field, d: Field, e: Field)
    ensures FieldsText([a, b, c, d, e])
         == FieldLine(a) + CRLF + FieldLine(b) + CRLF + FieldLine(c) + CRLF + FieldLine(d) + CRLF + FieldLine(e) + CRLF
  {
    hide FieldLine, FieldsText;
    FourFields(a, b, c, d);
    assert [a, b, c, d] + [e] == [a, b, c, d, e];
    OneMoreField([a, b, c, d], e);
  }

  lemma Join(a: string, b: string, c: string)
    ensures a + (b + c) == a + b + c
  {
  }

  /** Lines written one after another are their text written at once. */
  lemma FourLines(front: string, a: string, b: string, c: string, n: string, d: string)
    ensures front + (a + CRLF + b + CRLF + (c + n) + CRLF + d + CRLF)
         == front + a + CRLF + b + CRLF + c + n + CRLF + d + CRLF
  {
    Join(front, a, CRLF);
    Join(front, a + CRLF, b);
    Join(front, a + CRLF + b, CRLF);
    Join(front, a + CRLF + b + CRLF, c + n);
    Join(front + a + CRLF + b + CRLF, c, n);
    Join(front, a + CRLF + b + CRLF + (c + n), CRLF);
    Join(front, a + CRLF + b + CRLF + (c + n) + CRLF, d);
    Join(front, a + CRLF + b + CRLF + (c + n) + CRLF + d, CRLF);
  }

  lemma PageLines(n: string)
    ensures FieldLine(Field("Content-Type", "text/html")) == "Content-Type: text/html"
    ensures FieldLine(Field("Server", "AzureHttpProxy")) == "Server: AzureHttpProxy"
    ensures FieldLine(Field("Content-Length", n)) == "Content-Length: " + n
    ensures FieldLine(Field("Proxy-Connection", "close")) == "Proxy-Connection: close"
    ensures HTTP_SLASH + "1.1" + " " == "HTTP/1.1 "
  {
    assert "Content-Length" + ": " == "Content-Length: ";
  }

  /** The program's text of an error page is a head with these fields and its content. */
  lemma PageIsWritten(code: string, description: string, message: string, withContent: bool)
    ensures var content := PageContent(code, description, message);
            ErrorPage(code, description, message, withContent)
              == Written("1.1", code, description, PageFields(|content|), if withContent then content else "")
  {
    hide PageContent, FieldsText, FieldLine, ToDecimal;
    var n := ToDecimal(|PageContent(code, description, message)|);
    var fs := PageFields(|PageContent(code, description, message)|);
    FourFields(fs[0], fs[1], fs[2], fs[3]);
    PageLines(n);
    FourLines(HTTP_SLASH + "1.1" + " " + code + DescriptionText(description) + CRLF, "Content-Type: text/html",
      "Server: AzureHttpProxy", "Content-Length: ", n, "Proxy-Connection: close");
  }

  /** The length a message announces. */
  function Announced(h: ResponseHead): Option<nat> {
    match Lookup(h.headers, "Content-Length")
    case None => None
    case Some(value) => Stoull(value)
  }

  lemma LookupSorted(fs: seq<Field>, name: string)
    ensures Lookup(FromList(fs), name) == Lookup(fs, name)
  {
    hide FromList, Lookup;
    FromListSorts(fs);
    LookupIsFirst(FromList(fs), name);
    LookupIsFirst(fs, name);
  }

  lemma OtherNames()
    ensures !SameName("Content-Type", "Content-Length") && !SameName("Server", "Content-Length")
    ensures !SameName("Proxy-Connection", "Content-Length") && !SameName("Connection", "Content-Length")
    ensures !SameName("Proxy-Authenticate", "Content-Length")
  {
    assert |"Content-Type"| != |"Content-Length"|;
  }

  lemma PageLength(length: nat)
    requires length < TWO_64
    ensures Lookup(PageFields(length), "Content-Length") == Some(ToDecimal(length))
    ensures Lookup(AuthFields(length), "Content-Length") == Some(ToDecimal(length))
    ensures Stoull(ToDecimal(length)) == Some(length)
  {
    hide SameName, ToDecimal, Stoull, Lower;
    OtherNames();
    StoullOfDigits(ToDecimal(length));
    assert SameName("Content-Length", "Content-Length") by { SameNameReflexive("Content-Length"); }
    var fs, gs := PageFields(length), AuthFields(length);
    assert Lookup(fs[2..], "Content-Length") == Some(fs[2].value);
    assert fs[1..][1..] == fs[2..];
    assert Lookup(gs[4..], "Content-Length") == Some(gs[4].value);
    assert gs[1..][1..] == gs[2..] && gs[2..][1..] == gs[3..] && gs[3..][1..] == gs[4..];
    assert Lookup(gs[3..], "Content-Length") == Lookup(gs[4..], "Content-Length");
    assert Lookup(gs[2..], "Content-Length") == Lookup(gs[3..], "Content-Length");
  }

  lemma SameNameReflexive(name: string)
    ensures SameName(name, name)
  {
  }

  /** An error page is a message whose content is as long as it says, or, in answer to
      a HEAD, the head of such a message. */
  lemma PageFramesItself(code: string, description: string, message: string, withContent: bool)
    requires StatusWords("1.1", code, description) && |PageContent(code, description, message)| < TWO_64
    ensures var page := ErrorPage(code, description, message, withContent);
            && ResponseIn(page) && ResponseOf(page).httpVersion == "1.1"
            && ResponseOf(page).statusCode == Decimal(code) && ResponseOf(page).statusDescription == description
            && Announced(ResponseOf(page)) == Some(|PageContent(code, description, message)|)
            && BodyOf(page) == (if withContent then PageContent(code, description, message) else "")
  {
    hide ErrorPage, PageContent, Written, ResponseIn, ResponseOf, BodyOf, StatusWords, Decimal, PageFields, Lookup,
      Stoull, FromList;
    var n := |PageContent(code, description, message)|;
    PageIsWritten(code, description, message, withContent);
    PageFieldsClean(n);
    WordsAreWords("1.1", code, description);
    WrittenReadsBack("1.1", code, description, PageFields(n),
                     if withContent then PageContent(code, description, message) else "");
    LeftTrimmedSameIff(PageFields(n));
    LookupSorted(PageFields(n), "Content-Length");
    PageLength(n);
  }

  lemma ContentLength(code: string, description: string, message: string)
    ensures |PageContent(code, description, message)| <= 2 * |code| + 2 * |description| + |message| + 400
  {
  }

  lemma ThreeDigits(code: string)
    requires |code| == 3 && AllDigits(code)
    ensures Decimal(code) == DigitValue(code[0]) * 100 + DigitValue(code[1]) * 10 + DigitValue(code[2])
  {
    assert code[..2][..1] == code[..1] && code[..1][..0] == "";
    assert Decimal(code[..1]) == DigitValue(code[0]);
    assert Decimal(code[..2]) == DigitValue(code[0]) * 10 + DigitValue(code[1]);
  }

  lemma CleanDescriptions()
    ensures Without("Bad Request", '\r') && Without("Method Not Allowed", '\r') && Without("Length Required", '\r')
    ensures Without("HTTP Version Not Supported", '\r') && Without("Gateway Timeout", '\r') && Without("Bad Gateway", '\r')
  {
  }

  lemma GoodVersion()
    ensures Without("1.1", ' ') && Without("1.1", '\r')
  {
  }

  lemma GoodCode(code: string)
    requires code in {"400", "405", "411", "502", "504", "505"}
    ensures |code| == 3 && AllDigits(code) && 400 <= Decimal(code) < 600
  {
    hide Decimal;
    ThreeDigits(code);
  }

  lemma WordsAreGood(problem: Problem)
    ensures var w := WordsOf(problem);
            && StatusWords("1.1", w.code, w.description) && 400 <= Decimal(w.code) < 600
            && |w.code| == 3 && |w.description| < 100 && |w.message| < 100
  {
    hide Decimal, AllDigits, Without;
    GoodVersion();
    CleanDescriptions();
    GoodCode(WordsOf(problem).code);
  }

  /** Each error page is one whole message: an error status, and content of the length
      announced, or none in answer to a HEAD. */
  lemma ErrorPagesAreMessages(problem: Problem, withContent: bool)
    ensures var page := ProblemPage(problem, withContent);
            && ResponseIn(page) && 400 <= ResponseOf(page).statusCode < 600
            && Announced(ResponseOf(page)).Some?
            && (if withContent then Announced(ResponseOf(page)) == Some(|BodyOf(page)|) else BodyOf(page) == "")
  {
    hide ErrorPage, PageContent, ResponseIn, ResponseOf, BodyOf, StatusWords, Decimal, WordsOf, Announced;
    var w := WordsOf(problem);
    WordsAreGood(problem);
    WordsAreWords("1.1", w.code, w.description);
    ContentLength(w.code, w.description, w.message);
    PageFramesItself(w.code, w.description, w.message, withContent);
  }

  lemma FiveLines(front: string, a: string, b: string, c: string, d: string, e: string, n: string)
    ensures front + (a + CRLF + b + CRLF + c + CRLF + d + CRLF + (e + n) + CRLF) + CRLF
         == front + a + CRLF + b + CRLF + c + CRLF + d + CRLF + e + n + HEAD_END
  {
    FourLines(front, a, b, c, "", d);
    assert c + "" == c;
    assert front + a + CRLF + b + CRLF + c + "" == front + a + CRLF + b + CRLF + c;
    var four := a + CRLF + b + CRLF + c + CRLF + d + CRLF;
    Join(front, four, e + n);
    Join(front + four, e, n);
    Join(front, four + (e + n), CRLF);
    Join(front + four + e + n, CRLF, CRLF);
    assert CRLF + CRLF == HEAD_END;
  }

  lemma CountLine(n: string)
    ensures FieldLine(Field("Content-Length", n)) == "Content-Length: " + n
    ensures HTTP_SLASH + "1.1" + " " == "HTTP/1.1 "
  {
    assert "Content-Length" + ": " == "Content-Length: ";
  }

  lemma AuthPageIsWritten()
    ensures AuthPage() == Written("1.1", "407", "Proxy Authentication Required", AuthFields(|AUTH_CONTENT|), AUTH_CONTENT)
  {
    hide FieldsText, FieldLine, ToDecimal, AUTH_CONTENT;
    var n := ToDecimal(|AUTH_CONTENT|);
    var fs := AuthFields(|AUTH_CONTENT|);
    FiveFields(fs[0], fs[1], fs[2], fs[3], fs[4]);
    CountLine(n);
    var line := HTTP_SLASH + "1.1" + " " + "407" + DescriptionText("Proxy Authentication Required");
    Join(HTTP_SLASH + "1.1" + " " + "407", " ", "Proxy Authentication Required");
    FiveLines(line + CRLF, FieldLine(fs[0]), FieldLine(fs[1]), FieldLine(fs[2]), FieldLine(fs[3]), "Content-Length: ", n);
  }

  /** So is the page that asks for credentials. */
  lemma AuthPageIsMessage()
    ensures var page := AuthPage();
            && ResponseIn(page) && ResponseOf(page).httpVersion == "1.1" && ResponseOf(page).statusCode == 407
            && ResponseOf(page).statusDescription == "Proxy Authentication Required"
            && Announced(ResponseOf(page)) == Some(|BodyOf(page)|) && BodyOf(page) == AUTH_CONTENT
  {
    hide AuthPage, Written, ResponseIn, ResponseOf, BodyOf, Decimal, AuthFields, Lookup, Stoull, FromList, Without;
    var n := |AUTH_CONTENT|;
    AuthPageIsWritten();
    AuthFieldsClean(n);
    ThreeDigits("407");
    GoodVersion();
    OtherWords();
    WrittenReadsBack("1.1", "407", "Proxy Authentication Required", AuthFields(n), AUTH_CONTENT);
    LeftTrimmedSameIff(AuthFields(n));
    LookupSorted(AuthFields(n), "Content-Length");
    PageLength(n);
  }

  /** The page that refuses a HEAD has content exactly if the version is served and the
      credentials are not good: then it is the 407 page, which is sent whole even here. */
  lemma PageToHeadIsBareIff(cfg: Config, c: Conn, extra: nat)
    requires c.requestHead.Some? && c.requestHead.value.verb == "HEAD" && !MayPass(cfg, c.requestHead.value)
    ensures var r := c.requestHead.value;
            var page := Obey(c, JudgeRequest(cfg, r, c.req, extra)).modifiedResponse;
            && ResponseIn(page)
            && (BodyOf(page) != "" <==> (r.httpVersion == "1.1" || r.httpVersion == "1.0") && !Authorized(cfg, r))
            && (BodyOf(page) != "" ==> page == AuthPage() && BodyOf(page) == AUTH_CONTENT)
  {
    hide ProblemPage, AuthPage, ResponseIn, ResponseOf, BodyOf, Announced, AUTH_CONTENT, Authorized, JudgeRequest,
      MayPass;
    var j := JudgeRequest(cfg, c.requestHead.value, c.req, extra);
    HeadIsRefused(cfg, c.requestHead.value, c.req, extra);
    AuthHasContent();
    AuthPageIsMessage();
    if j.Reject? {
      ErrorPagesAreMessages(j.problem, false);
    }
  }

  lemma HeadIsRefused(cfg: Config, r: RequestHead, context: RequestContext, extra: nat)
    requires r.verb == "HEAD" && !MayPass(cfg, r)
    ensures var j := JudgeRequest(cfg, r, context, extra);
            && (j.Reject? || j.RejectAuth?)
            && (j.RejectAuth? <==> (r.httpVersion == "1.1" || r.httpVersion == "1.0") && !Authorized(cfg, r))
  {
    hide Authorized, ClientKeepAlive, Lookup, Stoull;
  }

  lemma AuthHasContent()
    ensures AUTH_CONTENT != ""
  {
  }

  /** The acknowledgement of a CONNECT is a head and nothing else, so what follows it
      on the wire is the tunnel's. */
  lemma EstablishedIsHead()
    ensures ResponseIn(ESTABLISHED) && BodyOf(ESTABLISHED) == ""
    ensures ResponseOf(ESTABLISHED) == ResponseHead("1.1", 200, "Connection Established", [Field("Connection", "Close")])
  {
    hide FindHeadEnd, ResponseIn, ResponseOf, BodyOf, Decimal, FieldLine, CleanField, Without;
    var fs := [Field("Connection", "Close")];
    FixedFields();
    GoodVersion();
    OtherWords();
    ThreeDigits("200");
    EstablishedIsWritten();
    WrittenReadsBack("1.1", "200", "Connection Established", fs, "");
  }

  lemma OtherWords()
    ensures Without("Connection Established", '\r') && Without("Proxy Authentication Required", '\r')
  {
  }

  lemma EstablishedIsWritten()
    ensures ESTABLISHED == Written("1.1", "200", "Connection Established", [Field("Connection", "Close")], "")
  {
    hide FieldLine, FieldsText;
    var f := Field("Connection", "Close");
    NoFields();
    OneMoreField([], f);
    assert [] + [f] == [f] && "" + FieldLine(f) == FieldLine(f);
    CountLine("");
    var front := HTTP_SLASH + "1.1" + " " + "200";
    Join(front, " ", "Connection Established");
    var line := front + DescriptionText("Connection Established");
    Join(line + CRLF, FieldLine(f), CRLF);
    Join(line + CRLF + FieldLine(f), CRLF, CRLF);
    assert CRLF + CRLF == HEAD_END;
    assert ESTABLISHED + "" == ESTABLISHED;
  }
}
