/** What parse_headers accepts and what it makes of it, line by line
    (sections 3.2 and 3.2.4 of RFC 7230, and the leniencies of the program). */
module HeaderGrammar {
  import opened Text
  import opened HeaderMap
  import opened HeaderFields

  /** A field as written: a name, the text after the colon, and folded lines. */
  datatype RawField = RawField(name: string, first: string, folds: seq<string>)

  predicate IsToken(s: string) { s != "" && forall i :: 0 <= i < |s| ==> IsTokenChar(s[i]) }

  predicate GoodFold(line: string) { line != "" && IsOws(line[0]) && Without(line, '\r') }

  predicate GoodRaw(f: RawField) {
    IsToken(f.name) && Without(f.first, '\r') && forall i :: 0 <= i < |f.folds| ==> GoodFold(f.folds[i])
  }

  predicate AllGood(fs: seq<RawField>) { forall i :: 0 <= i < |fs| ==> GoodRaw(fs[i]) }

  function FoldsText(folds: seq<string>): string {
    if folds == [] then "" else FoldsText(folds[..|folds| - 1]) + folds[|folds| - 1] + CRLF
  }

  function RawText(f: RawField): string { f.name + ":" + f.first + CRLF + FoldsText(f.folds) }

  function RawsText(fs: seq<RawField>): string {
    if fs == [] then "" else RawsText(fs[..|fs| - 1]) + RawText(fs[|fs| - 1])
  }

  function Joined(folds: seq<string>): string {
    if folds == [] then "" else Joined(folds[..|folds| - 1]) + folds[|folds| - 1]
  }

  /** The value of a field: its lines put together, without the white space around
      them. White space that opens a fold is kept, even after an empty first line. */
  function ValueOf(f: RawField): string { TrimRight(TrimLeft(f.first) + Joined(f.folds)) }

  /** Spaces and tabs are taken from the front of the first line and the end of all. */
  ghost predicate Trims(first: string, rest: string, v: string) {
    exists front: string, m: string, end: string ::
      && first == front + m && Blank(front) && Bare(m, true, false)
      && m + rest == v + end && Blank(end) && Bare(v, false, true)
  }

  lemma ValueIs(f: RawField, v: string)
    ensures ValueOf(f) == v <==> Trims(f.first, Joined(f.folds), v)
  {
    hide TrimLeft, TrimRight, Blank, Bare, Joined;
    if ValueOf(f) == v {
      var front := TrimLeftTakes(f.first);
      var end := TrimRightTakes(TrimLeft(f.first) + Joined(f.folds));
      assert f.first == front + TrimLeft(f.first);
    }
    if Trims(f.first, Joined(f.folds), v) {
      var front, m, end :|
        && f.first == front + m && Blank(front) && Bare(m, true, false)
        && m + Joined(f.folds) == v + end && Blank(end) && Bare(v, false, true);
      TrimLeftIs(f.first, front, m);
      TrimRightIs(m + Joined(f.folds), v, end);
    }
  }

  function Meaning(f: RawField): Field { Field(f.name, ValueOf(f)) }

  function Meanings(fs: seq<RawField>): seq<Field> {
    if fs == [] then [] else Meanings(fs[..|fs| - 1]) + [Meaning(fs[|fs| - 1])]
  }

  /** The lines at the front of `s` say `fs`: fields, then CR, anything but LF, LF. */
  ghost predicate Says(s: string, fs: seq<RawField>) {
    AllGood(fs) && exists junk: string, rest: string ::
      Without(junk, '\n') && s == RawsText(fs) + "\r" + junk + "\n" + rest
  }

  // ---------------------------------------------------------- a reading so far

  /** Whole fields, the field being read, and the text of delimiters after it. */
  datatype Reading = Reading(fields: seq<RawField>, name: string, text: string, folds: seq<string>, tail: string)

  /** Reading positions: in a name, after the colon on line `text`, ... */
  function Extend(r: Reading, p: Parse, c: char): Reading {
    match p.state
    case FieldNameStart => if c == '\r' then r.(tail := "\r") else r.(name := [c])
    case FieldName => if c == ':' then r else r.(name := r.name + [c])
    case ValueLeftOws => if c == '\r' then r.(tail := "\r") else r.(text := r.text + [c])
    case FieldValue =>
      if c == '\r' then r.(tail := "\r")
      else if r.folds == [] then r.(text := r.text + [c])
      else r.(folds := r.folds[..|r.folds| - 1] + [r.folds[|r.folds| - 1] + [c]])
    case FieldCr => r.(tail := CRLF)
    case FieldCrlf =>
      if IsOws(c) then r.(folds := r.folds + [[c]], tail := "")
      else
        var fields := r.fields + [RawField(r.name, r.text, r.folds)];
        if c == '\r' then Reading(fields, "", "", [], "\r") else Reading(fields, [c], "", [], "")
    case FieldCrlfCr => r.(tail := r.tail + [c])
    case Complete => r
    case Failed => r
  }

  /** The text of the field being read; its last line ends with `tail`. */
  function OpenText(r: Reading): string {
    r.name + ":" + if r.folds == [] then r.text + r.tail
                   else r.text + CRLF + FoldsText(r.folds[..|r.folds| - 1]) + r.folds[|r.folds| - 1] + r.tail
  }

  function ReadingText(r: Reading, p: Parse): string {
    RawsText(r.fields) + match p.state
                         case FieldNameStart => ""
                         case FieldName => r.name
                         case FieldCrlfCr => r.tail
                         case Complete => r.tail
                         case _ => OpenText(r)
  }

  ghost predicate InField(r: Reading, p: Parse) {
    && IsToken(r.name) && p.name == r.name && Without(r.text, '\r')
    && (forall i :: 0 <= i < |r.folds| ==> GoodFold(r.folds[i]))
    && p.value == TrimLeft(r.text) + Joined(r.folds)
  }

  ghost predicate Means(p: Parse, r: Reading) {
    && AllGood(r.fields) && p.headers == FromList(Meanings(r.fields))
    && match p.state
       case FieldNameStart => p.name == "" && p.value == "" && r == Reading([], "", "", [], "")
       case FieldName => IsToken(r.name) && p.name == r.name && p.value == "" && r.text == "" && r.folds == [] && r.tail == ""
       case ValueLeftOws => InField(r, p) && AllOws(r.text) && r.folds == [] && r.tail == ""
       case FieldValue => InField(r, p) && (r.folds == [] ==> TrimLeft(r.text) != "") && r.tail == ""
       case FieldCr => InField(r, p) && r.tail == "\r"
       case FieldCrlf => InField(r, p) && r.tail == CRLF
       case FieldCrlfCr => r.tail != "" && r.tail[0] == '\r' && Without(r.tail, '\n')
       case Complete => exists junk: string :: Without(junk, '\n') && r.tail == "\r" + junk + "\n"
       case Failed => false
  }

  // --------------------------------------------------------- trimming a longer line

  lemma {:induction false} TrimLeftSnoc(s: string, c: char)
    ensures TrimLeft(s + [c]) == if AllOws(s) && IsOws(c) then "" else TrimLeft(s) + [c]
    ensures AllOws(s) <==> TrimLeft(s) == ""
    decreases |s|
  {
    if s == "" {
      assert [c][1..] == "";
    } else {
      assert (s + [c])[1..] == s[1..] + [c];
      assert AllOws(s) <==> IsOws(s[0]) && AllOws(s[1..]);
      TrimLeftSnoc(s[1..], c);
      if !IsOws(s[0]) {
        assert TrimLeft(s) == s;
      }
    }
  }

  // ----------------------------------------------- one character, one step further

  lemma ExtendName(p: Parse, r: Reading, c: char)
    requires Means(p, r) && p.state in {FieldNameStart, FieldName} && Next(p, c).state != Failed
    ensures Means(Next(p, c), Extend(r, p, c))
    ensures ReadingText(Extend(r, p, c), Next(p, c)) == ReadingText(r, p) + [c]
  {
    hide FromList, Meanings, RawsText, TrimRight;
    if p.state == FieldName && c == ':' {
      assert !IsTokenChar(':');
      assert r.name + ":" + "" + "" == r.name + [':'];
      assert Joined(r.folds) == "" && TrimLeft("") == "";
    }
    var q, t := Next(p, c), Extend(r, p, c);
    assert ReadingText(t, q) == RawsText(r.fields) + (if p.state == FieldNameStart then [c] else r.name + [c]);
  }

  lemma LineGrows(r: Reading, p: Parse, c: char)
    requires p.state in {ValueLeftOws, FieldValue} && r.tail == ""
    requires p.state == ValueLeftOws ==> r.folds == []
    ensures ReadingText(Extend(r, p, c), Next(p, c)) == ReadingText(r, p) + [c]
  {
    hide RawsText, TrimLeft;
    var t := Extend(r, p, c);
    if r.folds != [] && c != '\r' {
      assert t.folds[..|r.folds| - 1] == r.folds[..|r.folds| - 1];
    }
    assert OpenText(t) == OpenText(r) + [c];
  }

  lemma WithoutSnoc(s: string, c: char, no: char)
    requires Without(s, no) && c != no
    ensures Without(s + [c], no)
  {
  }

  lemma ExtendLeftOws(p: Parse, r: Reading, c: char)
    requires Means(p, r) && p.state == ValueLeftOws
    ensures Means(Next(p, c), Extend(r, p, c))
    ensures ReadingText(Extend(r, p, c), Next(p, c)) == ReadingText(r, p) + [c]
  {
    hide FromList, Meanings, RawsText, TrimRight, ReadingText;
    LineGrows(r, p, c);
    TrimLeftSnoc(r.text, c);
    assert p.value == "" + "";
    if c != '\r' {
      WithoutSnoc(r.text, c, '\r');
      var t := Extend(r, p, c);
      assert TrimLeft(t.text) + Joined(t.folds) == TrimLeft(t.text);
      assert IsOws(c) ==> AllOws(t.text);
    }
  }

  lemma ExtendValue(p: Parse, r: Reading, c: char)
    requires Means(p, r) && p.state == FieldValue
    ensures Means(Next(p, c), Extend(r, p, c))
    ensures ReadingText(Extend(r, p, c), Next(p, c)) == ReadingText(r, p) + [c]
  {
    hide FromList, Meanings, RawsText, TrimRight, ReadingText;
    LineGrows(r, p, c);
    var t := Extend(r, p, c);
    if c != '\r' {
      if r.folds == [] {
        TrimLeftSnoc(r.text, c);
        WithoutSnoc(r.text, c, '\r');
        assert TrimLeft(t.text) + Joined(t.folds) == p.value + [c];
      } else {
        var n := |r.folds| - 1;
        WithoutSnoc(r.folds[n], c, '\r');
        assert t.folds[..n] == r.folds[..n];
        assert forall i :: 0 <= i < n ==> t.folds[i] == r.folds[i];
        assert Joined(t.folds) == Joined(r.folds) + [c];
        assert TrimLeft(t.text) + Joined(t.folds) == p.value + [c];
      }
    }
  }

  lemma ExtendCr(p: Parse, r: Reading, c: char)
    requires Means(p, r) && p.state == FieldCr && c == '\n'
    ensures Means(Next(p, c), Extend(r, p, c))
    ensures ReadingText(Extend(r, p, c), Next(p, c)) == ReadingText(r, p) + [c]
  {
    assert CRLF == "\r" + [c];
    assert OpenText(Extend(r, p, c)) == OpenText(r) + [c];
  }

  lemma ExtendFold(p: Parse, r: Reading, c: char)
    requires Means(p, r) && p.state == FieldCrlf && IsOws(c)
    ensures Means(Next(p, c), Extend(r, p, c))
    ensures ReadingText(Extend(r, p, c), Next(p, c)) == ReadingText(r, p) + [c]
  {
    hide FromList, Meanings, RawsText, TrimRight, TrimLeft;
    var t := Extend(r, p, c);
    var n := |r.folds|;
    assert t.folds[..n] == r.folds;
    assert Joined(t.folds) == Joined(r.folds) + [c];
    assert TrimLeft(t.text) + Joined(t.folds) == p.value + [c];
    if n == 0 {
      assert OpenText(t) == OpenText(r) + [c];
    } else {
      assert OpenText(t) == OpenText(r) + [c];
    }
  }

  lemma EndField(p: Parse, r: Reading, c: char)
    requires Means(p, r) && p.state == FieldCrlf && !IsOws(c) && Next(p, c).state != Failed
    ensures Means(Next(p, c), Extend(r, p, c))
    ensures ReadingText(Extend(r, p, c), Next(p, c)) == ReadingText(r, p) + [c]
  {
    hide TrimRight, TrimLeft, OpenText, RawText, Insert;
    var f := RawField(r.name, r.text, r.folds);
    var t := Extend(r, p, c);
    assert GoodRaw(f);
    assert t.fields[..|r.fields|] == r.fields;
    var ms := Meanings(t.fields);
    assert ms[..|ms| - 1] == Meanings(r.fields) && ms[|ms| - 1] == Meaning(f);
    assert Field(p.name, TrimRight(p.value)) == Meaning(f);
    OpenIsRaw(r);
  }

  lemma OpenIsRaw(r: Reading)
    requires r.tail == CRLF
    ensures OpenText(r) == RawText(RawField(r.name, r.text, r.folds))
  {
    if r.folds != [] {
      var n := |r.folds| - 1;
      assert FoldsText(r.folds) == FoldsText(r.folds[..n]) + r.folds[n] + CRLF;
    }
  }

  lemma ExtendEnd(p: Parse, r: Reading, c: char)
    requires Means(p, r) && p.state == FieldCrlfCr
    ensures Means(Next(p, c), Extend(r, p, c))
    ensures ReadingText(Extend(r, p, c), Next(p, c)) == ReadingText(r, p) + [c]
  {
    if c == '\n' {
      var junk := r.tail[1..];
      assert Without(junk, '\n') && r.tail + [c] == "\r" + junk + "\n";
    } else {
      WithoutSnoc(r.tail, c, '\n');
    }
  }

  lemma ExtendReading(p: Parse, r: Reading, c: char)
    requires Means(p, r) && p.state != Complete && Next(p, c).state != Failed
    ensures Means(Next(p, c), Extend(r, p, c))
    ensures ReadingText(Extend(r, p, c), Next(p, c)) == ReadingText(r, p) + [c]
  {
    hide Means, ReadingText, FromList, Meanings;
    match p.state {
      case FieldNameStart => ExtendName(p, r, c);
      case FieldName => ExtendName(p, r, c);
      case ValueLeftOws => ExtendLeftOws(p, r, c);
      case FieldValue => ExtendValue(p, r, c);
      case FieldCr => ExtendCr(p, r, c);
      case FieldCrlf => if IsOws(c) { ExtendFold(p, r, c); } else { EndField(p, r, c); }
      case FieldCrlfCr => ExtendEnd(p, r, c);
    }
  }

  lemma NothingRead()
    ensures Run(START, "") == START && Means(START, Reading([], "", "", [], ""))
    ensures ReadingText(Reading([], "", "", [], ""), START) == ""
  {
  }

  /** Every parse that has not failed stands for exactly the text it has read. */
  lemma {:induction false} ReadingOf(s: string) returns (r: Reading, rest: string)
    requires Run(START, s).state != Failed
    ensures Means(Run(START, s), r) && ReadingText(r, Run(START, s)) + rest == s
    ensures Run(START, s).state != Complete ==> rest == ""
    decreases |s|
  {
    hide Means, FromList, Meanings, ReadingText, Next, Extend, Run;
    if s == "" {
      NothingRead();
      r, rest := Reading([], "", "", [], ""), "";
    } else {
      var t, c := s[..|s| - 1], s[|s| - 1];
      assert s == t + [c];
      RunSnoc(START, t, c);
      r, rest := ReadingOf(t);
      var p := Run(START, t);
      if p.state == Complete {
        rest := rest + [c];
      } else {
        ExtendReading(p, r, c);
        r := Extend(r, p, c);
      }
    }
  }

  // -------------------------------------------------------- the grammar is accepted

  lemma {:induction false} RunToken(p: Parse, s: string)
    requires p.state == FieldName && forall i :: 0 <= i < |s| ==> IsTokenChar(s[i])
    ensures Run(p, s) == p.(name := p.name + s)
    decreases |s|
  {
    if s == "" {
      assert p.name + s == p.name;
    } else {
      RunToken(Next(p, s[0]), s[1..]);
      assert p.name + [s[0]] + s[1..] == p.name + s;
    }
  }

  lemma {:induction false} RunValue(p: Parse, s: string)
    requires p.state == FieldValue && Without(s, '\r')
    ensures Run(p, s) == p.(value := p.value + s)
    decreases |s|
  {
    if s == "" {
      assert p.value + s == p.value;
    } else {
      assert s[0] in s && Without(s[1..], '\r');
      RunValue(Next(p, s[0]), s[1..]);
      assert p.value + [s[0]] + s[1..] == p.value + s;
    }
  }

  lemma {:induction false} RunFirst(p: Parse, s: string)
    requires p.state == ValueLeftOws && p.value == "" && Without(s, '\r')
    ensures Run(p, s) == p.(value := TrimLeft(s), state := if TrimLeft(s) == "" then ValueLeftOws else FieldValue)
    decreases |s|
  {
    if s != "" {
      assert s[0] in s && Without(s[1..], '\r');
      if IsOws(s[0]) {
        RunFirst(p, s[1..]);
      } else {
        RunValue(Next(p, s[0]), s[1..]);
        assert "" + [s[0]] + s[1..] == s;
      }
    }
  }

  lemma RunCrlf(p: Parse)
    requires p.state in {ValueLeftOws, FieldValue}
    ensures Run(p, CRLF) == p.(state := FieldCrlf)
  {
    var q := p.(state := FieldCr);
    assert Next(p, '\r') == q && Next(q, '\n') == p.(state := FieldCrlf);
    assert CRLF[1..] == "\n" && "\n"[1..] == "";
    assert Run(q, "\n") == Run(Next(q, '\n'), "");
  }

  lemma RunFold(p: Parse, line: string)
    requires p.state == FieldCrlf && GoodFold(line)
    ensures Run(p, line + CRLF) == p.(value := p.value + line)
  {
    assert line[0] in line && Without(line[1..], '\r');
    RunValue(Next(p, line[0]), line[1..]);
    assert p.value + [line[0]] + line[1..] == p.value + line;
    RunConcat(p, line, CRLF);
    RunCrlf(Run(p, line));
  }

  lemma {:induction false} RunFolds(p: Parse, folds: seq<string>)
    requires p.state == FieldCrlf && forall i :: 0 <= i < |folds| ==> GoodFold(folds[i])
    ensures Run(p, FoldsText(folds)) == p.(value := p.value + Joined(folds))
    decreases |folds|
  {
    if folds == [] {
      assert p.value + "" == p.value;
    } else {
      var front, line := folds[..|folds| - 1], folds[|folds| - 1];
      RunFolds(p, front);
      RunConcat(p, FoldsText(front), line + CRLF);
      assert FoldsText(front) + (line + CRLF) == FoldsText(folds);
      RunFold(Run(p, FoldsText(front)), line);
      assert p.value + Joined(front) + line == p.value + Joined(folds);
    }
  }

  /** The container once the field waiting for its next line is put in. */
  function Flushed(p: Parse): Fields {
    if p.state == FieldNameStart then p.headers else Insert(p.headers, Field(p.name, TrimRight(p.value)))
  }

  ghost predicate BetweenFields(p: Parse) { p == START || p.state == FieldCrlf }

  lemma RunName(p: Parse, name: string)
    requires BetweenFields(p) && IsToken(name)
    ensures Run(p, name + ":") == Parse(ValueLeftOws, name, "", Flushed(p))
  {
    hide Insert, TrimRight;
    var c := name[0];
    assert IsTokenChar(c) && !IsOws(c) && c != '\r';
    var p1 := Parse(FieldName, [c], "", Flushed(p));
    assert Next(p, c) == p1;
    RunToken(p1, name[1..]);
    assert [c] + name[1..] == name;
    RunSnoc(p, name, ':');
    assert !IsTokenChar(':');
  }

  lemma RunLines(p: Parse, first: string, folds: seq<string>)
    requires p.state == ValueLeftOws && p.value == "" && Without(first, '\r')
    requires forall i :: 0 <= i < |folds| ==> GoodFold(folds[i])
    ensures Run(p, first + (CRLF + FoldsText(folds)))
         == p.(state := FieldCrlf, value := TrimLeft(first) + Joined(folds))
  {
    RunConcat(p, first, CRLF + FoldsText(folds));
    RunFirst(p, first);
    var q := Run(p, first);
    RunConcat(q, CRLF, FoldsText(folds));
    RunCrlf(q);
    RunFolds(Run(q, CRLF), folds);
  }

  lemma RunRaw(p: Parse, f: RawField)
    requires BetweenFields(p) && GoodRaw(f)
    ensures Run(p, RawText(f)) == Parse(FieldCrlf, f.name, TrimLeft(f.first) + Joined(f.folds), Flushed(p))
  {
    RunName(p, f.name);
    RunLines(Run(p, f.name + ":"), f.first, f.folds);
    RunConcat(p, f.name + ":", f.first + (CRLF + FoldsText(f.folds)));
    assert RawText(f) == f.name + ":" + (f.first + (CRLF + FoldsText(f.folds)));
  }

  lemma {:induction false} RunRaws(fs: seq<RawField>)
    requires AllGood(fs)
    ensures BetweenFields(Run(START, RawsText(fs))) && Flushed(Run(START, RawsText(fs))) == FromList(Meanings(fs))
    decreases |fs|
  {
    if fs != [] {
      var front, f := fs[..|fs| - 1], fs[|fs| - 1];
      RunRaws(front);
      var p := Run(START, RawsText(front));
      RunConcat(START, RawsText(front), RawText(f));
      RunRaw(p, f);
      var ms := Meanings(fs);
      assert ms[..|ms| - 1] == Meanings(front) && ms[|ms| - 1] == Meaning(f);
    }
  }

  lemma {:induction false} RunJunk(p: Parse, junk: string)
    requires p.state == FieldCrlfCr && Without(junk, '\n')
    ensures Run(p, junk) == p
    decreases |junk|
  {
    if junk != "" {
      assert junk[0] in junk && Without(junk[1..], '\n');
      RunJunk(p, junk[1..]);
    }
  }

  lemma RunEnd(p: Parse, junk: string, rest: string)
    requires BetweenFields(p) && Without(junk, '\n')
    ensures Run(p, "\r" + (junk + ("\n" + rest))).state == Complete
    ensures Run(p, "\r" + (junk + ("\n" + rest))).headers == Flushed(p)
  {
    var q := Next(p, '\r');
    assert q.state == FieldCrlfCr && q.headers == Flushed(p);
    var after := junk + ("\n" + rest);
    assert ("\r" + after)[1..] == after;
    RunConcat(q, junk, "\n" + rest);
    RunJunk(q, junk);
    assert ("\n" + rest)[1..] == rest;
  }

  lemma RunAll(fs: seq<RawField>, junk: string, rest: string)
    requires AllGood(fs) && Without(junk, '\n')
    ensures Parsed(RawsText(fs) + ("\r" + (junk + ("\n" + rest)))) == Some(FromList(Meanings(fs)))
  {
    RunRaws(fs);
    RunConcat(START, RawsText(fs), "\r" + (junk + ("\n" + rest)));
    RunEnd(Run(START, RawsText(fs)), junk, rest);
  }

  lemma EndTogether(t: string, junk: string, rest: string)
    ensures t + "\r" + junk + "\n" + rest == t + ("\r" + (junk + ("\n" + rest)))
  {
  }

  // ------------------------------------------------------------------- theorems

  /** Complete: text that says fields parses to their container. */
  lemma SaidIsParsed(s: string, fs: seq<RawField>)
    requires Says(s, fs)
    ensures Parsed(s) == Some(FromList(Meanings(fs)))
  {
    var junk: string, rest: string :| Without(junk, '\n') && s == RawsText(fs) + "\r" + junk + "\n" + rest;
    RunAll(fs, junk, rest);
    EndTogether(RawsText(fs), junk, rest);
  }

  lemma TailTogether(t: string, junk: string, rest: string)
    ensures t + ("\r" + junk + "\n") + rest == t + "\r" + junk + "\n" + rest
  {
  }

  /** Sound: text that parses says fields, and the parse is their stable sort. */
  lemma ParsedIsSaid(s: string) returns (fs: seq<RawField>)
    requires Parsed(s).Some?
    ensures Says(s, fs) && StableSort(Meanings(fs), Parsed(s).value)
  {
    hide Run, RawsText, FromList, Meanings, StableSort, Without;
    var r, rest := ReadingOf(s);
    fs := r.fields;
    var junk: string :| Without(junk, '\n') && r.tail == "\r" + junk + "\n";
    TailTogether(RawsText(fs), junk, rest);
    FromListSorts(Meanings(fs));
  }

  /** parse_headers is its grammar: it returns exactly the container of the fields
      the text says, and throws when the text says none. */
  lemma ParsedIff(s: string, h: Fields)
    ensures Parsed(s) == Some(h) <==> exists fs :: Says(s, fs) && StableSort(Meanings(fs), h)
  {
    if Parsed(s) == Some(h) {
      var fs := ParsedIsSaid(s);
    }
    if fs :| Says(s, fs) && StableSort(Meanings(fs), h) {
      SaidIsParsed(s, fs);
      ContainerIsStableSort(Meanings(fs), h);
    }
  }
}
