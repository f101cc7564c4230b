/** Printing message heads, and what a reader of the printed head sees. */
module HeadPrinter {
  import opened Text
  import opened HeaderMap
  import opened HeaderFields
  import opened HeaderGrammar
  import opened HeaderParser

  function FieldLine(f: Field): string { f.name + ": " + f.value }

  /** The header lines, as the program's loop over the container writes them. */
  function FieldsText(h: Fields): string {
    if h == [] then "" else FieldsText(h[..|h| - 1]) + FieldLine(h[|h| - 1]) + CRLF
  }

  const PROXY_CONNECTION: string := "Proxy-Connection"
  const PROXY_AUTHORIZATION: string := "Proxy-Authorization"

  /** The request head without the fields meant for the proxy. */
  function Stripped(r: RequestHead): RequestHead {
    r.(headers := Erase(Erase(r.headers, PROXY_CONNECTION), PROXY_AUTHORIZATION))
  }

  function OriginLine(r: RequestHead): string { r.verb + " " + r.pathAndQuery + " HTTP/" + r.httpVersion }

  /** A request head in origin form. */
  function RequestText(r: RequestHead): string { OriginLine(r) + CRLF + FieldsText(r.headers) + CRLF }

  function DescriptionText(description: string): string {
    if description == "" then "" else " " + description
  }

  function StatusText(r: ResponseHead): string {
    HTTP_SLASH + r.httpVersion + " " + ToDecimal(r.statusCode) + DescriptionText(r.statusDescription)
  }

  function ResponseText(r: ResponseHead): string { StatusText(r) + CRLF + FieldsText(r.headers) + CRLF }

  method PrintFields(h: Fields) returns (s: string)
    ensures s == FieldsText(h)
  {
    s := "";
    for i := 0 to |h|
      invariant s == FieldsText(h[..i])
    {
      assert h[..i + 1][..i] == h[..i];
      s := s + (h[i].name + ": " + h[i].value) + CRLF;
    }
    assert h[..|h|] == h;
  }

  method PrintResponse(r: ResponseHead) returns (s: string)
    ensures s == ResponseText(r)
  {
    var code := ToDecimal(r.statusCode);
    s := HTTP_SLASH + r.httpVersion + " " + code;
    if r.statusDescription != "" {
      s := s + (" " + r.statusDescription);
    } else {
      assert s + "" == s;
    }
    var fields := PrintFields(r.headers);
    s := s + CRLF + fields + CRLF;
  }

  method PrintRequest(r: RequestHead) returns (s: string)
    ensures s == RequestText(r)
  {
    var fields := PrintFields(r.headers);
    s := r.verb + " " + r.pathAndQuery + " HTTP/" + r.httpVersion + CRLF + fields + CRLF;
  }

  // ------------------------------------------------- fields as the parser leaves them

  /** A token for a name; no CR in the value and no white space at its end. */
  predicate CleanField(f: Field) {
    IsToken(f.name) && Without(f.value, '\r') && TrimRight(f.value) == f.value
  }

  predicate Clean(h: Fields) { forall i :: 0 <= i < |h| ==> CleanField(h[i]) }

  lemma {:induction false} TrimRightFacts(s: string)
    ensures TrimRight(TrimRight(s)) == TrimRight(s)
    ensures Without(s, '\r') ==> Without(TrimRight(s), '\r')
    decreases |s|
  {
    if s != "" && IsOws(s[|s| - 1]) {
      TrimRightFacts(s[..|s| - 1]);
    }
  }

  ghost predicate CleanParse(p: Parse) {
    && Sorted(p.headers) && Clean(p.headers)
    && Without(p.value, '\r')
    && (forall i :: 0 <= i < |p.name| ==> IsTokenChar(p.name[i]))
    && (p.state in {FieldName, ValueLeftOws, FieldValue, FieldCr, FieldCrlf} ==> p.name != "")
  }

  lemma {:induction false} RunKeepsClean(p: Parse, s: string)
    requires CleanParse(p)
    ensures CleanParse(Run(p, s))
    decreases |s|
  {
    if s != "" && !p.Stopped() {
      NextKeepsClean(p, s[0]);
      RunKeepsClean(Next(p, s[0]), s[1..]);
    }
  }

  lemma NextKeepsClean(p: Parse, c: char)
    requires CleanParse(p)
    ensures CleanParse(Next(p, c))
  {
    hide Insert, Sorted, Clean, CleanField, TrimRight;
    if p.state == FieldCrlf && !IsOws(c) {
      FieldIsClean(p.name, p.value);
      InsertKeepsClean(p.headers, Field(p.name, TrimRight(p.value)));
    }
  }

  lemma FieldIsClean(name: string, value: string)
    requires IsToken(name) && Without(value, '\r')
    ensures CleanField(Field(name, TrimRight(value)))
  {
    TrimRightFacts(value);
  }

  lemma InsertKeepsClean(h: Fields, f: Field)
    requires Sorted(h) && Clean(h) && CleanField(f)
    ensures Sorted(Insert(h, f)) && Clean(Insert(h, f))
  {
    hide Insert, CleanField;
    InsertKeepsSorted(h, f);
    var k := InsertedAt(h, f);
  }

  /** What parse_headers returns is sorted and clean. */
  lemma ParsedIsClean(s: string)
    requires Parsed(s).Some?
    ensures Sorted(Parsed(s).value) && Clean(Parsed(s).value)
  {
    RunKeepsClean(START, s);
  }

  // ------------------------------------------------------------ reading fields again

  /** What a reader makes of printed fields: white space at the front is lost. */
  function LeftTrimmed(h: Fields): (r: Fields)
    ensures |r| == |h|
    ensures forall i :: 0 <= i < |h| ==> r[i] == Field(h[i].name, TrimLeft(h[i].value))
  {
    seq(|h|, i requires 0 <= i < |h| => Field(h[i].name, TrimLeft(h[i].value)))
  }

  predicate NoLeadingOws(h: Fields) {
    forall i :: 0 <= i < |h| ==> h[i].value == "" || !IsOws(h[i].value[0])
  }

  lemma LeftTrimmedSameIff(h: Fields)
    ensures LeftTrimmed(h) == h <==> NoLeadingOws(h)
  {
    forall i | 0 <= i < |h| ensures LeftTrimmed(h)[i] == h[i] <==> h[i].value == "" || !IsOws(h[i].value[0]) {
      var v := h[i].value;
      assert v != "" && IsOws(v[0]) ==> |TrimLeft(v)| < |v|;
    }
  }

  function AsRaw(f: Field): RawField { RawField(f.name, " " + f.value, []) }

  function AsRaws(h: Fields): (r: seq<RawField>)
    ensures |r| == |h|
    ensures forall i :: 0 <= i < |h| ==> r[i] == AsRaw(h[i])
  {
    seq(|h|, i requires 0 <= i < |h| => AsRaw(h[i]))
  }

  lemma {:induction false} TrimLeftOfTrimmed(v: string)
    requires TrimRight(v) == v
    ensures TrimRight(TrimLeft(v)) == TrimLeft(v)
    decreases |v|
  {
    if v != "" && IsOws(v[0]) {
      assert |v| > 1;
      assert v[1..][|v| - 2] == v[|v| - 1];
      TrimLeftOfTrimmed(v[1..]);
    }
  }

  lemma MeaningOfPrinted(f: Field)
    requires CleanField(f)
    ensures GoodRaw(AsRaw(f)) && RawText(AsRaw(f)) == FieldLine(f) + CRLF
    ensures Meaning(AsRaw(f)) == Field(f.name, TrimLeft(f.value))
  {
    assert (" " + f.value)[1..] == f.value;
    assert TrimLeft(" " + f.value) == TrimLeft(f.value);
    TrimLeftOfTrimmed(f.value);
    assert TrimLeft(f.value) + "" == TrimLeft(f.value);
  }

  lemma {:induction false} PrintedAsRaws(h: Fields)
    requires Clean(h)
    ensures AllGood(AsRaws(h)) && RawsText(AsRaws(h)) == FieldsText(h) && Meanings(AsRaws(h)) == LeftTrimmed(h)
    decreases |h|
  {
    hide RawText, Meaning, CleanField, GoodRaw, FieldLine, TrimLeft;
    if h != [] {
      var n := |h| - 1;
      PrintedAsRaws(h[..n]);
      MeaningOfPrinted(h[n]);
      assert AsRaws(h)[..n] == AsRaws(h[..n]);
      assert LeftTrimmed(h) == LeftTrimmed(h[..n]) + [Field(h[n].name, TrimLeft(h[n].value))];
      assert FieldsText(h[..n]) + (FieldLine(h[n]) + CRLF) == FieldsText(h[..n]) + FieldLine(h[n]) + CRLF;
    }
  }

  lemma {:induction false} SortedIsItsOwnSort(h: Fields)
    requires Sorted(h)
    ensures FromList(h) == h
  {
    ContainerIsStableSort(h, h);
  }

  lemma BlankLine(t: string, rest: string)
    ensures t + CRLF + rest == t + "\r" + "" + "\n" + rest
  {
  }

  /** Printed fields read back as themselves, but for white space at the front of
      their values, whatever follows the blank line. */
  lemma FieldsReadBack(h: Fields, rest: string)
    requires Sorted(h) && Clean(h)
    ensures Parsed(FieldsText(h) + CRLF + rest) == Some(LeftTrimmed(h))
  {
    hide FieldsText, RawsText, Parsed, FromList, Clean, AllGood, Meanings;
    PrintedAsRaws(h);
    BlankLine(FieldsText(h), rest);
    assert Without("", '\n');
    SaidIsParsed(FieldsText(h) + CRLF + rest, AsRaws(h));
    SortedIsItsOwnSort(LeftTrimmed(h));
  }

  // ------------------------------------------------------- where a printed head ends

  lemma {:induction false} FirstFieldText(f: Field, h: Fields)
    ensures FieldsText([f] + h) == FieldLine(f) + CRLF + FieldsText(h)
    decreases |h|
  {
    var all := [f] + h;
    if h == [] {
      assert all[..0] == [] && all[0] == f;
    } else {
      var n := |h| - 1;
      FirstFieldText(f, h[..n]);
      assert all[..n + 1] == [f] + h[..n];
      AssociateLine(FieldLine(f) + CRLF, FieldsText(h[..n]), FieldLine(h[n]));
    }
  }

  lemma AssociateLine(a: string, b: string, c: string)
    ensures a + b + c + CRLF == a + (b + c + CRLF)
  {
  }

  lemma AssociateHead(a: string, b: string, c: string)
    ensures a + b + CRLF + c == a + (b + CRLF + c)
  {
  }

  lemma LineIsClean(f: Field)
    requires CleanField(f)
    ensures Without(FieldLine(f), '\r') && FieldLine(f) != "" && FieldLine(f)[0] != '\r'
  {
    assert !IsTokenChar('\r');
    assert forall i :: 0 <= i < |f.name| ==> f.name[i] != '\r';
  }

  /** A first line, clean fields, a blank line: the head ends at that blank line. */
  lemma {:induction false} PrintedHeadEnd(line: string, h: Fields, body: string)
    requires Without(line, '\r') && Clean(h)
    ensures FindHeadEnd(line + CRLF + (FieldsText(h) + CRLF + body)) == Some(|line| + |FieldsText(h)|)
    decreases |h|
  {
    var t := FieldsText(h) + CRLF + body;
    if h == [] {
      assert t == CRLF + body;
      assert t[0..2] == CRLF;
      HeadEndAfterLine(line, t);
    } else {
      var f, h' := h[0], h[1..];
      assert h == [f] + h';
      FirstFieldText(f, h');
      var t' := FieldsText(h') + CRLF + body;
      AssociateHead(FieldLine(f) + CRLF, FieldsText(h'), body);
      assert t == FieldLine(f) + CRLF + t';
      LineIsClean(f);
      PrintedHeadEnd(FieldLine(f), h', body);
      assert t[0] == FieldLine(f)[0];
      CrlfStartsWithCr(t);
      HeadEndAfterLine(line, t);
    }
  }

  lemma HeadPieces(line: string, fields: string, body: string)
    ensures var t := line + CRLF + fields + CRLF + body;
            && t == line + CRLF + (fields + CRLF + body)
            && t[|line| + 2..] == fields + CRLF + body
            && t[|line| + |fields| + 4..] == body
  {
  }

  /** Any printed head: its fields read back, and it ends at its own blank line. */
  lemma HeadReadsBack(line: string, h: Fields, body: string)
    requires Without(line, '\r') && Sorted(h) && Clean(h)
    ensures var t := line + CRLF + FieldsText(h) + CRLF + body;
            && t == line + CRLF + (FieldsText(h) + CRLF + body)
            && Parsed(t[|line| + 2..]) == Some(LeftTrimmed(h))
            && FindHeadEnd(t) == Some(|line| + |FieldsText(h)|)
            && t[|line| + |FieldsText(h)| + 4..] == body
  {
    HeadPieces(line, FieldsText(h), body);
    FieldsReadBack(h, body);
    PrintedHeadEnd(line, h, body);
  }
}
