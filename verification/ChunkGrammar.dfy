/** What the chunk checker recognises, stated as a grammar (section 4.1 of
    RFC 7230, with chunk sizes taken modulo 2^32 and without trailers). */
module ChunkGrammar {
  import opened Text
  import opened ChunkChecker

  /** A chunk-size line: hexadecimal digits and an optional extension. */
  datatype SizeLine = SizeLine(digits: string, ext: string)

  datatype Chunk = Chunk(line: SizeLine, data: string)

  datatype Body = Body(chunks: seq<Chunk>, last: SizeLine)

  predicate AllHex(s: string) { forall i :: 0 <= i < |s| ==> IsXDigit(s[i]) }

  function Hex(s: string): nat
    requires AllHex(s)
  {
    if s == "" then 0 else Hex(s[..|s| - 1]) * 16 + HexDigit(s[|s| - 1])
  }

  predicate GoodExt(ext: string) {
    ext == "" || ((ext[0] == ';' || ext[0] == ' ') && Without(ext, '\r'))
  }

  predicate GoodLine(l: SizeLine) { l.digits != "" && AllHex(l.digits) && GoodExt(l.ext) }

  /** The size a line announces is its value as a 32-bit counter. */
  function Announced(l: SizeLine): nat
    requires GoodLine(l)
  {
    Wrap32(Hex(l.digits))
  }

  predicate GoodChunk(c: Chunk) {
    GoodLine(c.line) && Announced(c.line) != 0 && |c.data| == Announced(c.line)
  }

  predicate GoodBody(b: Body) {
    (forall i :: 0 <= i < |b.chunks| ==> GoodChunk(b.chunks[i]))
    && GoodLine(b.last) && Announced(b.last) == 0
  }

  function LineText(l: SizeLine): string { l.digits + l.ext }

  function ChunkText(c: Chunk): string { LineText(c.line) + CRLF + c.data + CRLF }

  function ChunksText(cs: seq<Chunk>): string {
    if cs == [] then "" else ChunksText(cs[..|cs| - 1]) + ChunkText(cs[|cs| - 1])
  }

  function BodyText(b: Body): string { ChunksText(b.chunks) + LineText(b.last) + CRLF + CRLF }

  /** The grammar's language. */
  ghost predicate IsBody(s: string) { exists b: Body :: GoodBody(b) && s == BodyText(b) }

  // ------------------------------------------------- a reading of the input so far

  /** What a checker that has not failed has read: whole chunks and the pieces of
      the one it is in. `crs` is the text of the delimiter read so far. */
  datatype Reading = Reading(chunks: seq<Chunk>, line: SizeLine, data: string, crs: string)

  function ReadingText(r: Reading): string {
    ChunksText(r.chunks) + LineText(r.line) + r.crs + r.data
  }

  const NOTHING: Reading := Reading([], SizeLine("", ""), "", "")

  /** One byte extends the reading. */
  function Extend(r: Reading, c: Checker, b: char): Reading {
    match c.state
    case ChunkSizeStart => r.(line := SizeLine([b], ""))
    case ChunkSize =>
      if IsXDigit(b) then r.(line := SizeLine(r.line.digits + [b], ""))
      else if b == '\r' then r.(crs := [b])
      else r.(line := SizeLine(r.line.digits, [b]))
    case ChunkExt =>
      if b == '\r' then r.(crs := [b]) else r.(line := SizeLine(r.line.digits, r.line.ext + [b]))
    case ChunkDataCr =>
      Reading(r.chunks + [Chunk(r.line, r.data[..if r.data == "" then 0 else |r.data| - 1])], SizeLine("", ""), "", "")
    case ChunkData =>
      r.(data := r.data + [b])
    case _ => r.(crs := r.crs + [b])
  }

  /** The reading a checker's fields stand for. */
  ghost predicate Means(c: Checker, r: Reading) {
    && (forall i :: 0 <= i < |r.chunks| ==> GoodChunk(r.chunks[i]))
    && match c.state
       case ChunkSizeStart => r.line == SizeLine("", "") && r.data == "" && r.crs == ""
       case ChunkSize => GoodLine(r.line) && r.line.ext == "" && InLine(c, r) && r.crs == ""
       case ChunkExt => GoodLine(r.line) && r.line.ext != "" && InLine(c, r) && r.crs == ""
       case ChunkSizeCr => GoodLine(r.line) && InLine(c, r) && r.crs == "\r"
       case ChunkData => GoodLine(r.line) && InData(c, r) && r.data == r.data[..c.hasRead]
       case ChunkDataCr =>
         GoodLine(r.line) && InData(c, r) && c.hasRead == c.size && r.data == r.data[..c.hasRead] + "\r"
       case ChunkLast => GoodLine(r.line) && InLine(c, r) && c.size == 0 && r.crs == CRLF
       case ChunkLastCr => GoodLine(r.line) && InLine(c, r) && c.size == 0 && r.crs == CRLF + "\r"
       case ChunkComplete => GoodLine(r.line) && InLine(c, r) && c.size == 0 && r.crs == CRLF + CRLF
       case ChunkCheckFailed => false
  }

  ghost predicate InLine(c: Checker, r: Reading)
    requires GoodLine(r.line)
  {
    c.size == Announced(r.line) && c.hasRead == 0 && r.data == ""
  }

  ghost predicate InData(c: Checker, r: Reading)
    requires GoodLine(r.line)
  {
    c.size == Announced(r.line) && 0 < c.size && c.hasRead <= c.size && c.hasRead <= |r.data| && r.crs == CRLF
  }

  lemma HexSnoc(digits: string, b: char)
    requires AllHex(digits) && IsXDigit(b)
    ensures AllHex(digits + [b]) && Hex(digits + [b]) == Hex(digits) * 16 + HexDigit(b)
    ensures Wrap32(Hex(digits + [b])) == Wrap32(Wrap32(Hex(digits)) * 16 + HexDigit(b))
  {
    assert (digits + [b])[..|digits|] == digits;
    WrapShift(Hex(digits), HexDigit(b));
  }

  lemma WrapShift(v: nat, d: nat)
    ensures Wrap32(v * 16 + d) == Wrap32(Wrap32(v) * 16 + d)
  {
  }

  lemma ExtendText(r: Reading, t: Reading, b: char)
    requires t.chunks == r.chunks
    requires LineText(t.line) + t.crs + t.data == LineText(r.line) + r.crs + r.data + [b]
    ensures ReadingText(t) == ReadingText(r) + [b]
  {
    calc {
      ReadingText(t);
      ChunksText(r.chunks) + (LineText(t.line) + t.crs + t.data);
      ChunksText(r.chunks) + (LineText(r.line) + r.crs + r.data + [b]);
      ReadingText(r) + [b];
    }
  }

  lemma ExtendDigits(c: Checker, r: Reading, b: char)
    requires Means(c, r) && c.state in {ChunkSizeStart, ChunkSize} && !Next(c, b).IsFail()
    ensures Means(Next(c, b), Extend(r, c, b))
    ensures ReadingText(Extend(r, c, b)) == ReadingText(r) + [b]
  {
    assert [b][..0] == "";
    if c.state == ChunkSize && IsXDigit(b) {
      HexSnoc(r.line.digits, b);
    } else if c.state == ChunkSizeStart {
      assert AllHex([b]) && Hex([b]) == HexDigit(b);
    }
    ExtendText(r, Extend(r, c, b), b);
  }

  lemma ExtendData(c: Checker, r: Reading, b: char)
    requires Means(c, r) && c.state == ChunkData && !Next(c, b).IsFail()
    ensures Means(Next(c, b), Extend(r, c, b))
    ensures ReadingText(Extend(r, c, b)) == ReadingText(r) + [b]
  {
    assert (r.data + [b])[..|r.data|] == r.data;
    assert r.data + [b] == (r.data + [b])[..|r.data| + 1];
    ExtendText(r, Extend(r, c, b), b);
  }

  lemma EndChunk(c: Checker, r: Reading)
    requires Means(c, r) && c.state == ChunkDataCr
    ensures Means(Next(c, '\n'), Extend(r, c, '\n'))
    ensures ReadingText(Extend(r, c, '\n')) == ReadingText(r) + ['\n']
  {
    var data := r.data[..c.hasRead];
    assert r.data[..|r.data| - 1] == data;
    var done := Chunk(r.line, data);
    var t := Extend(r, c, '\n');
    assert t.chunks[..|r.chunks|] == r.chunks;
    calc {
      ReadingText(t);
      ChunksText(r.chunks) + ChunkText(done);
      ChunksText(r.chunks) + (LineText(r.line) + CRLF + data + CRLF);
      ChunksText(r.chunks) + LineText(r.line) + CRLF + (data + "\r") + ['\n'];
      ReadingText(r) + ['\n'];
    }
  }

  lemma ExtendReading(c: Checker, r: Reading, b: char)
    requires Means(c, r) && !Next(c, b).IsFail()
    ensures Means(Next(c, b), Extend(r, c, b))
    ensures ReadingText(Extend(r, c, b)) == ReadingText(r) + [b]
  {
    hide ChunksText;
    match c.state {
      case ChunkSizeStart => ExtendDigits(c, r, b);
      case ChunkSize => ExtendDigits(c, r, b);
      case ChunkData => ExtendData(c, r, b);
      case ChunkDataCr => EndChunk(c, r);
      case _ => ExtendText(r, Extend(r, c, b), b);
    }
  }

  lemma Bounded(c: Checker, r: Reading)
    requires Means(c, r) && c.state != ChunkSizeStart
    ensures c.hasRead <= c.size < TWO_32
  {
    match c.state {
      case _ =>
    }
  }

  /** Every checker that has not failed stands for exactly the bytes it was fed. */
  lemma {:induction false} ReadingOf(s: string) returns (r: Reading)
    requires !Feed(FRESH, s).IsFail()
    ensures Means(Feed(FRESH, s), r) && ReadingText(r) == s
    decreases |s|
  {
    if s == "" {
      r := NOTHING;
    } else {
      var t, b := s[..|s| - 1], s[|s| - 1];
      assert s == t + [b];
      FeedSnoc(FRESH, t, b);
      r := ReadingOf(t);
      ExtendReading(Feed(FRESH, t), r, b);
      r := Extend(r, Feed(FRESH, t), b);
    }
  }

  // ---------------------------------------------------- the grammar is accepted

  lemma {:induction false} FeedDigits(c: Checker, digits: string, more: string)
    requires c.state == ChunkSize && AllHex(digits) && AllHex(more) && c.size == Wrap32(Hex(digits))
    ensures AllHex(digits + more) && Feed(c, more) == c.(size := Wrap32(Hex(digits + more)))
    decreases |more|
  {
    if more == "" {
      assert digits + more == digits;
    } else {
      HexSnoc(digits, more[0]);
      assert digits + more == digits + [more[0]] + more[1..];
      FeedDigits(Next(c, more[0]), digits + [more[0]], more[1..]);
    }
  }

  lemma {:induction false} FeedExt(c: Checker, ext: string)
    requires c.state == ChunkExt && Without(ext, '\r')
    ensures Feed(c, ext) == c
    decreases |ext|
  {
    if ext != "" {
      assert ext[0] in ext;
      FeedExt(c, ext[1..]);
    }
  }

  lemma {:induction false} FeedData(c: Checker, data: string)
    requires c.state == ChunkData && c.hasRead + |data| <= c.size < TWO_32
    ensures Feed(c, data) == c.(hasRead := c.hasRead + |data|)
    decreases |data|
  {
    if data != "" {
      FeedData(Next(c, data[0]), data[1..]);
    }
  }

  /** A size line and its CRLF lead into the data of a chunk, or to the last CRLF. */
  lemma FeedLine(c: Checker, l: SizeLine)
    requires c.state == ChunkSizeStart && GoodLine(l)
    ensures Feed(c, LineText(l) + CRLF)
         == Checker(if Announced(l) == 0 then ChunkLast else ChunkData, Announced(l), 0)
  {
    var d, rest := l.digits[0], l.digits[1..];
    assert l.digits == [d] + rest;
    assert [d][..0] == "" && Hex([d]) == HexDigit(d);
    var c1 := Next(c, d);
    assert [d][1..] == "";
    assert Feed(c, [d]) == c1;
    FeedDigits(c1, [d], rest);
    FeedConcat(c, [d], rest);
    var c2 := Feed(c, l.digits);
    assert c2 == Checker(ChunkSize, Announced(l), 0);
    FeedConcat(c, l.digits, l.ext);
    var c3 := Feed(c2, l.ext);
    if l.ext != "" {
      assert Without(l.ext[1..], '\r');
      FeedExt(Next(c2, l.ext[0]), l.ext[1..]);
    }
    FeedConcat(c, LineText(l), CRLF);
    FeedCrlf(c3);
  }

  lemma FeedCrlf(c: Checker)
    ensures Feed(c, CRLF) == Next(Next(c, '\r'), '\n')
  {
    assert CRLF[1..] == "\n" && "\n"[1..] == "";
    assert Feed(Next(c, '\r'), "\n") == Feed(Next(Next(c, '\r'), '\n'), "");
  }

  lemma FeedChunk(c: Checker, k: Chunk)
    requires c.state == ChunkSizeStart && GoodChunk(k)
    ensures Feed(c, ChunkText(k)).state == ChunkSizeStart
  {
    var line := LineText(k.line) + CRLF;
    FeedLine(c, k.line);
    FeedConcat(c, line, k.data);
    FeedData(Feed(c, line), k.data);
    FeedConcat(c, line + k.data, CRLF);
    FeedCrlf(Feed(c, line + k.data));
  }

  lemma {:induction false} FeedChunks(c: Checker, cs: seq<Chunk>)
    requires c.state == ChunkSizeStart && forall i :: 0 <= i < |cs| ==> GoodChunk(cs[i])
    ensures Feed(c, ChunksText(cs)).state == ChunkSizeStart
    decreases |cs|
  {
    if cs != [] {
      var front := cs[..|cs| - 1];
      FeedChunks(c, front);
      FeedConcat(c, ChunksText(front), ChunkText(cs[|cs| - 1]));
      FeedChunk(Feed(c, ChunksText(front)), cs[|cs| - 1]);
    }
  }

  lemma FeedBody(b: Body)
    requires GoodBody(b)
    ensures Feed(FRESH, BodyText(b)).IsComplete()
  {
    FeedChunks(FRESH, b.chunks);
    var front := ChunksText(b.chunks);
    var line := LineText(b.last) + CRLF;
    assert BodyText(b) == front + line + CRLF;
    FeedConcat(FRESH, front, line);
    FeedLine(Feed(FRESH, front), b.last);
    FeedConcat(FRESH, front + line, CRLF);
    FeedCrlf(Feed(FRESH, front + line));
  }

  // ------------------------------------------------------------------- theorems

  /** Sound and complete: the checker is complete exactly on the grammar's bodies. */
  lemma CompleteIffBody(s: string)
    ensures Feed(FRESH, s).IsComplete() <==> IsBody(s)
  {
    if Feed(FRESH, s).IsComplete() {
      var r := ReadingOf(s);
      var b := Body(r.chunks, r.line);
      assert GoodBody(b);
      assert BodyText(b) == ReadingText(r) == s;
    }
    if IsBody(s) {
      var b: Body :| GoodBody(b) && s == BodyText(b);
      FeedBody(b);
    }
  }

  /** No body continues another: where a body ends is never in doubt. */
  lemma NoBodyExtendsAnother(s: string, t: string)
    requires IsBody(s) && IsBody(s + t)
    ensures t == ""
  {
    CompleteIffBody(s);
    CompleteIffBody(s + t);
    FeedConcat(FRESH, s, t);
    if t != "" {
      FailIsForever(Next(Feed(FRESH, s), t[0]), t[1..]);
    }
  }

  lemma {:induction false} FirstChunk(k: Chunk, cs: seq<Chunk>)
    ensures ChunksText([k] + cs) == ChunkText(k) + ChunksText(cs)
    decreases |cs|
  {
    var all := [k] + cs;
    if cs == [] {
      assert all[..0] == [] && all[0] == k;
      assert ChunksText(all) == "" + ChunkText(k);
    } else {
      var front, end := cs[..|cs| - 1], ChunkText(cs[|cs| - 1]);
      FirstChunk(k, front);
      assert all[..|all| - 1] == [k] + front && all[|all| - 1] == cs[|cs| - 1];
      Associate(ChunkText(k), ChunksText(front), end);
    }
  }

  lemma Associate(a: string, b: string, c: string)
    ensures a + b + c == a + (b + c)
  {
  }

  lemma AssociateChunk(l: string, data: string, rest: string)
    ensures l + CRLF + data + CRLF + rest == l + CRLF + (data + CRLF + rest)
  {
  }

  /** Where a size line ends, and its digits within it, can be seen in the text. */
  lemma LineEndsOnce(l: SizeLine, t: string, m: SizeLine, u: string)
    requires GoodLine(l) && GoodLine(m)
    requires LineText(l) + CRLF + t == LineText(m) + CRLF + u
    ensures l == m && t == u
  {
    var s := LineText(l) + CRLF + t;
    LinePlaces(l, t);
    LinePlaces(m, u);
    assert |l.digits| == |m.digits|;
    assert |LineText(l)| == |LineText(m)|;
    var d, e := |l.digits|, |LineText(l)|;
    assert l.digits == s[..d] == m.digits;
    assert l.ext == s[d..e] == m.ext;
    assert t == s[e + 2..] == u;
  }

  lemma LinePlaces(l: SizeLine, t: string)
    requires GoodLine(l)
    ensures var s, d, e := LineText(l) + CRLF + t, |l.digits|, |LineText(l)|;
            && (forall i :: 0 <= i < d ==> IsXDigit(s[i])) && !IsXDigit(s[d])
            && (forall i :: d <= i < e ==> s[i] != '\r') && s[e] == '\r'
  {
    var s, d, e := LineText(l) + CRLF + t, |l.digits|, |LineText(l)|;
    assert forall i :: 0 <= i < d ==> s[i] == l.digits[i];
    assert forall i :: d <= i < e ==> s[i] == l.ext[i - d];
  }

  /** The text of a body determines its chunks. */
  lemma {:induction false} BodyReadsOneWay(b: Body, d: Body)
    requires GoodBody(b) && GoodBody(d) && BodyText(b) == BodyText(d)
    ensures b == d
    decreases |b.chunks| + |d.chunks|
  {
    hide LineText, ChunksText;
    var (l, t) := FirstLine(b);
    var (m, u) := FirstLine(d);
    LineEndsOnce(l, t, m, u);
    assert (b.chunks == []) == (Announced(l) == 0);
    assert (d.chunks == []) == (Announced(m) == 0);
    if b.chunks != [] {
      var n := Announced(l);
      var b', d' := Body(b.chunks[1..], b.last), Body(d.chunks[1..], d.last);
      assert t[..n] == b.chunks[0].data && u[..n] == d.chunks[0].data;
      assert t[n + 2..] == BodyText(b') && u[n + 2..] == BodyText(d');
      BodyReadsOneWay(b', d');
      assert b.chunks == [b.chunks[0]] + b'.chunks && d.chunks == [d.chunks[0]] + d'.chunks;
    }
  }

  lemma BodyTextFrom(b: Body)
    requires b.chunks != []
    ensures BodyText(b) == ChunkText(b.chunks[0]) + BodyText(Body(b.chunks[1..], b.last))
  {
    var k, cs, end := b.chunks[0], b.chunks[1..], LineText(b.last) + CRLF + CRLF;
    FirstChunk(k, cs);
    assert b.chunks == [k] + cs;
    assert BodyText(b) == ChunksText(b.chunks) + end;
    Associate(ChunkText(k), ChunksText(cs), end);
    assert BodyText(Body(cs, b.last)) == ChunksText(cs) + end;
  }

  /** A body split after its first size line. */
  function FirstLine(b: Body): (r: (SizeLine, string))
    requires GoodBody(b)
    ensures GoodLine(r.0) && BodyText(b) == LineText(r.0) + CRLF + r.1
    ensures b.chunks == [] ==> r.0 == b.last
    ensures b.chunks != [] ==>
      r.0 == b.chunks[0].line
      && r.1 == b.chunks[0].data + CRLF + BodyText(Body(b.chunks[1..], b.last))
  {
    if b.chunks == [] then (b.last, CRLF)
    else
      var k := b.chunks[0];
      var tail := Body(b.chunks[1..], b.last);
      var rest := BodyText(tail);
      BodyTextFrom(b);
      AssociateChunk(LineText(k.line), k.data, rest);
      (k.line, k.data + CRLF + rest)
  }

  /** A completion of what a checker that has not failed has read. */
  function Completion(c: Checker): string {
    var end := "0" + CRLF + CRLF;
    match c.state
    case ChunkSizeStart => end
    case ChunkSize => CRLF + AfterLine(c)
    case ChunkExt => CRLF + AfterLine(c)
    case ChunkSizeCr => "\n" + AfterLine(c)
    case ChunkData => AfterLine(c)
    case ChunkDataCr => "\n" + end
    case ChunkLast => CRLF
    case ChunkLastCr => "\n"
    case ChunkComplete => ""
    case ChunkCheckFailed => ""
  }

  function AfterLine(c: Checker): string {
    if c.size == 0 then CRLF
    else (if c.hasRead <= c.size then seq(c.size - c.hasRead, _ => 'x') else "") + CRLF + "0" + CRLF + CRLF
  }

  lemma FeedEnd(c: Checker)
    requires c.state == ChunkSizeStart
    ensures Feed(c, "0" + CRLF + CRLF).IsComplete()
  {
    var l := SizeLine("0", "");
    assert "0"[..0] == "" && Hex("0") == 0;
    assert LineText(l) == "0";
    FeedLine(c, l);
    FeedConcat(c, "0" + CRLF, CRLF);
    FeedCrlf(Feed(c, "0" + CRLF));
  }

  lemma FeedAfterLine(c: Checker)
    requires c.hasRead <= c.size < TWO_32
    requires c.state == (if c.size == 0 then ChunkLast else ChunkData)
    ensures Feed(c, AfterLine(c)).IsComplete()
  {
    if c.size == 0 {
      FeedCrlf(c);
    } else {
      var pad := seq(c.size - c.hasRead, _ => 'x');
      FeedData(c, pad);
      FeedConcat(c, pad, CRLF);
      FeedCrlf(Feed(c, pad));
      var end := "0" + CRLF + CRLF;
      FeedConcat(c, pad + CRLF, end);
      FeedEnd(Feed(c, pad + CRLF));
      assert AfterLine(c) == pad + CRLF + end;
    }
  }

  lemma FeedByteThen(c: Checker, b: char, s: string)
    ensures Feed(c, [b] + s) == Feed(Next(c, b), s)
  {
    assert ([b] + s)[1..] == s;
  }

  lemma CompletionCompletes(c: Checker)
    requires !c.IsFail() && (c.state != ChunkSizeStart ==> c.hasRead <= c.size < TWO_32)
    requires c.state in {ChunkData, ChunkDataCr} ==> 0 < c.size
    requires c.state in {ChunkLast, ChunkLastCr, ChunkComplete} ==> c.size == 0
    ensures Feed(c, Completion(c)).IsComplete()
  {
    match c.state {
      case ChunkSizeStart => FeedEnd(c);
      case ChunkSize => CompletionCompletesLine(c);
      case ChunkExt => CompletionCompletesLine(c);
      case ChunkSizeCr =>
        FeedByteThen(c, '\n', AfterLine(c));
        FeedAfterLine(Next(c, '\n'));
      case ChunkData => FeedAfterLine(c);
      case ChunkDataCr =>
        FeedByteThen(c, '\n', "0" + CRLF + CRLF);
        FeedEnd(Next(c, '\n'));
      case ChunkLast => FeedCrlf(c);
      case ChunkLastCr => FeedByteThen(c, '\n', "");
      case ChunkComplete =>
    }
  }

  lemma CompletionCompletesLine(c: Checker)
    requires c.state in {ChunkSize, ChunkExt} && c.hasRead <= c.size < TWO_32
    ensures Feed(c, CRLF + AfterLine(c)).IsComplete()
  {
    FeedCrlf(c);
    FeedConcat(c, CRLF, AfterLine(c));
    FeedAfterLine(Feed(c, CRLF));
  }

  /** Viable prefixes: the checker accepts the bytes so far exactly when they can
      still become a body, and the counters say how. */
  lemma AcceptedIffViable(s: string)
    ensures !Feed(FRESH, s).IsFail() <==> exists t: string :: IsBody(s + t)
    ensures !Feed(FRESH, s).IsFail() ==> IsBody(s + Completion(Feed(FRESH, s)))
  {
    var c := Feed(FRESH, s);
    if !c.IsFail() {
      var r := ReadingOf(s);
      if c.state != ChunkSizeStart {
        Bounded(c, r);
      }
      CompletionCompletes(c);
      FeedConcat(FRESH, s, Completion(c));
      CompleteIffBody(s + Completion(c));
    }
    if t: string :| IsBody(s + t) {
      CompleteIffBody(s + t);
      FeedConcat(FRESH, s, t);
      if c.IsFail() {
        FailIsForever(c, t);
      }
    }
  }
}
