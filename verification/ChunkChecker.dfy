/** The incremental checker of chunked message bodies (http_chunk_checker). */
module ChunkChecker {
  import opened Text

  datatype CheckState =
    | ChunkSizeStart
    | ChunkSize
    | ChunkExt
    | ChunkSizeCr
    | ChunkData
    | ChunkDataCr
    | ChunkLast
    | ChunkLastCr
    | ChunkComplete
    | ChunkCheckFailed

  /** The checker's three fields; the two sizes are 32-bit counters. */
  datatype Checker = Checker(state: CheckState, size: nat, hasRead: nat) {
    predicate IsComplete() { state == ChunkComplete }

    predicate IsFail() { state == ChunkCheckFailed }
  }

  const FRESH: Checker := Checker(ChunkSizeStart, 0, 0)

  predicate IsXDigit(c: char) { '0' <= c <= '9' || 'a' <= c <= 'f' || 'A' <= c <= 'F' }

  function HexDigit(c: char): (d: nat)
    requires IsXDigit(c)
    ensures d < 16
  {
    if 'a' <= c then c as int - 'a' as int + 10
    else if 'A' <= c then c as int - 'A' as int + 10
    else c as int - '0' as int
  }

  /** The sixteen digits, with the letters in either case, and their values. */
  lemma HexDigitIs(d: nat)
    requires d < 16
    ensures var small, capital := "0123456789abcdef"[d], "0123456789ABCDEF"[d];
            && IsXDigit(small) && HexDigit(small) == d
            && IsXDigit(capital) && HexDigit(capital) == d
  {
  }

  lemma XDigitIs(c: char)
    ensures IsXDigit(c) <==> c in "0123456789abcdefABCDEF"
  {
  }

  /** What one byte does to the checker. */
  function Next(c: Checker, b: char): Checker {
    match c.state
    case ChunkSizeStart =>
      if IsXDigit(b) then Checker(ChunkSize, HexDigit(b), 0)
      else c.(state := ChunkCheckFailed)
    case ChunkSize =>
      if IsXDigit(b) then c.(size := Wrap32(c.size * 16 + HexDigit(b)))
      else if b == ';' || b == ' ' then c.(state := ChunkExt)
      else if b == '\r' then c.(state := ChunkSizeCr)
      else c.(state := ChunkCheckFailed)
    case ChunkExt =>
      if b == '\r' then c.(state := ChunkSizeCr) else c
    case ChunkSizeCr =>
      if b == '\n' then c.(state := if c.size == 0 then ChunkLast else ChunkData)
      else c.(state := ChunkCheckFailed)
    case ChunkData =>
      if c.hasRead < c.size then c.(hasRead := Wrap32(c.hasRead + 1))
      else if b == '\r' then c.(state := ChunkDataCr)
      else c.(state := ChunkCheckFailed)
    case ChunkDataCr =>
      if b == '\n' then c.(state := ChunkSizeStart) else c.(state := ChunkCheckFailed)
    case ChunkLast =>
      if b == '\r' then c.(state := ChunkLastCr) else c.(state := ChunkCheckFailed)
    case ChunkLastCr =>
      if b == '\n' then c.(state := ChunkComplete) else c.(state := ChunkCheckFailed)
    case ChunkComplete => c.(state := ChunkCheckFailed)
    case ChunkCheckFailed => c
  }

  /** The checker after a run of bytes. A failed checker stays failed. */
  function Feed(c: Checker, s: string): Checker
    decreases |s|
  {
    if s == "" then c else Feed(Next(c, s[0]), s[1..])
  }

  /** Slicing never changes the verdict. */
  lemma {:induction false} FeedConcat(c: Checker, a: string, b: string)
    ensures Feed(c, a + b) == Feed(Feed(c, a), b)
    decreases |a|
  {
    if a == "" {
      assert a + b == b;
    } else {
      assert (a + b)[1..] == a[1..] + b;
      FeedConcat(Next(c, a[0]), a[1..], b);
    }
  }

  lemma FeedSnoc(c: Checker, a: string, b: char)
    ensures Feed(c, a + [b]) == Next(Feed(c, a), b)
  {
    FeedConcat(c, a, [b]);
    assert [b][1..] == "";
  }

  lemma {:induction false} FailIsForever(c: Checker, s: string)
    requires c.IsFail()
    ensures Feed(c, s) == c
    decreases |s|
  {
    if s != "" {
      FailIsForever(Next(c, s[0]), s[1..]);
    }
  }

  /** The checker as the program keeps it: three fields updated byte by byte. */
  class HttpChunkChecker {
    var state: CheckState
    var currentChunkSize: nat
    var currentChunkSizeHasRead: nat

    ghost function View(): Checker
      reads this
    {
      Checker(state, currentChunkSize, currentChunkSizeHasRead)
    }

    constructor ()
      ensures View() == FRESH
    {
      state := ChunkSizeStart;
      currentChunkSize, currentChunkSizeHasRead := 0, 0;
    }

    /** A copy of a checker held by value. */
    constructor From(c: Checker)
      ensures View() == c
    {
      state := c.state;
      currentChunkSize, currentChunkSizeHasRead := c.size, c.hasRead;
    }

    method Value() returns (c: Checker)
      ensures c == View()
    {
      c := Checker(state, currentChunkSize, currentChunkSizeHasRead);
    }

    method IsComplete() returns (r: bool)
      ensures r == View().IsComplete()
    {
      r := state == ChunkComplete;
    }

    method IsFail() returns (r: bool)
      ensures r == View().IsFail()
    {
      r := state == ChunkCheckFailed;
    }

    /** Reads a slice of the body. A failed checker must not be asked again. */
    method Check(slice: string) returns (ok: bool)
      requires !View().IsFail()
      modifies this
      ensures View() == Feed(old(View()), slice)
      ensures ok == !View().IsFail()
    {
      var i := 0;
      while i < |slice|
        invariant 0 <= i <= |slice|
        invariant !View().IsFail()
        invariant Feed(View(), slice[i..]) == Feed(old(View()), slice)
      {
        var b := slice[i];
        ghost var before := View();
        assert slice[i..][1..] == slice[i + 1..];
        var failed := false;
        match state {
          case ChunkSizeStart =>
            if IsXDigit(b) {
              currentChunkSize := HexDigit(b);
              currentChunkSizeHasRead := 0;
              state := ChunkSize;
            } else {
              failed := true;
            }
          case ChunkSize =>
            if IsXDigit(b) {
              currentChunkSize := Wrap32(currentChunkSize * 16 + HexDigit(b));
            } else if b == ';' || b == ' ' {
              state := ChunkExt;
            } else if b == '\r' {
              state := ChunkSizeCr;
            } else {
              failed := true;
            }
          case ChunkExt =>
            if b == '\r' {
              state := ChunkSizeCr;
            }
          case ChunkSizeCr =>
            if b == '\n' {
              if currentChunkSize == 0 {
                state := ChunkLast;
              } else {
                state := ChunkData;
              }
            } else {
              failed := true;
            }
          case ChunkData =>
            if currentChunkSizeHasRead < currentChunkSize {
              currentChunkSizeHasRead := Wrap32(currentChunkSizeHasRead + 1);
            } else if b == '\r' {
              state := ChunkDataCr;
            } else {
              failed := true;
            }
          case ChunkDataCr =>
            if b == '\n' {
              state := ChunkSizeStart;
            } else {
              failed := true;
            }
          case ChunkLast =>
            if b == '\r' {
              state := ChunkLastCr;
            } else {
              failed := true;
            }
          case ChunkLastCr =>
            if b == '\n' {
              state := ChunkComplete;
            } else {
              failed := true;
            }
          case ChunkComplete =>
            failed := true;
          case ChunkCheckFailed =>
            assert false;
        }
        if failed {
          state := ChunkCheckFailed;
          assert View() == Next(before, b);
          FailIsForever(View(), slice[i + 1..]);
          return false;
        }
        assert View() == Next(before, b);
        i := i + 1;
      }
      assert slice[i..] == "";
      ok := true;
    }
  }
}
