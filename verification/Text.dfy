/** Strings as the program sees them: searching, trimming, case folding and the
    C library's number conversions. */
module Text {

  datatype Option<+T> = None | Some(value: T)

  const CRLF: string := "\r\n"
  const HEAD_END: string := "\r\n\r\n"

  const TWO_16: nat := 0x1_0000
  const TWO_32: nat := 0x1_0000_0000
  const TWO_64: nat := 0x1_0000_0000_0000_0000

  // Unsigned integers of the three widths the program uses.

  function Wrap16(n: nat): (r: nat)
    ensures r < TWO_16 && (n < TWO_16 ==> r == n)
  {
    n % 0x1_0000
  }

  function Wrap32(n: nat): (r: nat)
    ensures r < TWO_32 && (n < TWO_32 ==> r == n)
  {
    n % 0x1_0000_0000
  }

  function Wrap64(n: nat): (r: nat)
    ensures r < TWO_64 && (n < TWO_64 ==> r == n)
  {
    n % 0x1_0000_0000_0000_0000
  }

  /** What does not fit is dropped at the top: a multiple of the width. */
  lemma WrapsModulo(n: nat, q: nat)
    ensures Wrap16(n + 65536 * q) == Wrap16(n)
    ensures Wrap32(n + 4294967296 * q) == Wrap32(n)
    ensures Wrap64(n + 18446744073709551616 * q) == Wrap64(n)
  {
  }

  // ---------------------------------------------------------------- searching

  predicate At(s: string, p: int, pattern: string) {
    0 <= p && p + |pattern| <= |s| && s[p..p + |pattern|] == pattern
  }

  /** `std::string::find` from position `p`: the first occurrence, if any. */
  function FindFrom(s: string, pattern: string, p: nat): (r: Option<nat>)
    requires p <= |s| && pattern != ""
    ensures r.Some? ==> p <= r.value && At(s, r.value, pattern)
    ensures r.Some? ==> forall q :: p <= q < r.value ==> !At(s, q, pattern)
    ensures r.None? ==> forall q :: p <= q ==> !At(s, q, pattern)
    decreases |s| - p
  {
    if At(s, p, pattern) then Some(p)
    else if p == |s| then None
    else FindFrom(s, pattern, p + 1)
  }

  /** The position of the blank line that ends a message head. */
  function FindHeadEnd(s: string): (r: Option<nat>)
    ensures r.Some? ==> At(s, r.value, HEAD_END) && forall q :: 0 <= q < r.value ==> !At(s, q, HEAD_END)
    ensures r.None? ==> forall q :: 0 <= q ==> !At(s, q, HEAD_END)
  {
    FindFrom(s, HEAD_END, 0)
  }

  /** The program's `for (; iter != end && *iter is not a stop; ++iter)` loops. */
  function Scan(s: string, i: nat, stops: set<char>): (r: nat)
    requires i <= |s|
    ensures i <= r <= |s|
    ensures forall j :: i <= j < r ==> s[j] !in stops
    ensures r < |s| ==> s[r] in stops
    decreases |s| - i
  {
    if i == |s| || s[i] in stops then i else Scan(s, i + 1, stops)
  }

  lemma {:induction false} ScanIs(s: string, i: nat, stops: set<char>, r: nat)
    requires i <= r <= |s|
    requires forall j :: i <= j < r ==> s[j] !in stops
    requires r < |s| ==> s[r] in stops
    ensures Scan(s, i, stops) == r
    decreases r - i
  {
    if i < r {
      ScanIs(s, i + 1, stops, r);
    }
  }

  predicate Without(s: string, c: char) { c !in s }

  lemma HeadEndIs(s: string, p: nat)
    requires At(s, p, HEAD_END)
    requires forall q :: 0 <= q < p ==> !At(s, q, HEAD_END)
    ensures FindHeadEnd(s) == Some(p)
  {
    var r := FindHeadEnd(s);
    assert r.Some?;
    assert At(s, r.value, HEAD_END);
  }

  /** Whether the blank line has been seen depends on the bytes received, not on
      how much follows it. */
  lemma HeadEndOfPrefix(s: string, t: string)
    requires s <= t
    ensures FindHeadEnd(s).Some? ==> FindHeadEnd(t) == FindHeadEnd(s)
    ensures FindHeadEnd(s).None? && FindHeadEnd(t).Some? ==> |s| < FindHeadEnd(t).value + 4
  {
    if FindHeadEnd(s).Some? {
      var p := FindHeadEnd(s).value;
      assert t[p..p + 4] == s[p..p + 4];
      forall q | 0 <= q < p ensures !At(t, q, HEAD_END) {
        assert !At(s, q, HEAD_END);
        assert t[q..q + 4] == s[q..q + 4];
      }
      HeadEndIs(t, p);
    } else if FindHeadEnd(t).Some? {
      var p := FindHeadEnd(t).value;
      if p + 4 <= |s| {
        assert s[p..p + 4] == t[p..p + 4];
        assert At(s, p, HEAD_END);
      }
    }
  }

  /** No blank line starts inside a line without CR, nor at the LF that ends it. */
  lemma NoHeadEndInLine(line: string, t: string, q: nat)
    requires Without(line, '\r') && q < |line| + 2
    ensures At(line + CRLF + t, q, HEAD_END) <==> q == |line| && At(t, 0, CRLF)
  {
    var s := line + CRLF + t;
    assert forall i :: 0 <= i < |line| ==> s[i] == line[i] != '\r';
    if At(s, q, HEAD_END) {
      assert s[q] == s[q..q + 4][0] == '\r';
      assert s[|line| + 1] == '\n';
      assert q == |line|;
      assert t[0] == s[q..q + 4][2] && t[1] == s[q..q + 4][3];
      assert t[0..2] == CRLF;
    }
    if q == |line| && At(t, 0, CRLF) {
      assert t[0..2] == CRLF;
      assert s[q..q + 4] == CRLF + t[0..2];
    }
  }

  lemma HeadEndShift(front: string, t: string, q: nat)
    ensures At(front + t, |front| + q, HEAD_END) <==> At(t, q, HEAD_END)
  {
    if q + 4 <= |t| {
      assert (front + t)[|front| + q..|front| + q + 4] == t[q..q + 4];
    }
  }

  lemma CrlfStartsWithCr(t: string)
    ensures At(t, 0, CRLF) ==> t[0] == '\r'
  {
    if At(t, 0, CRLF) {
      assert t[0] == t[0..2][0];
    }
  }

  lemma WithoutSlice(s: string, i: nat, j: nat, c: char)
    requires i <= j <= |s| && forall k :: i <= k < j ==> s[k] != c
    ensures Without(s[i..j], c)
  {
    assert forall k :: 0 <= k < |s[i..j]| ==> s[i..j][k] == s[i + k];
  }

  /** A head is a sequence of lines: the blank line is found by dropping the
      first line and looking in what is left. */
  lemma HeadEndAfterLine(line: string, t: string)
    requires Without(line, '\r')
    ensures At(t, 0, CRLF) ==> FindHeadEnd(line + CRLF + t) == Some(|line|)
    ensures !At(t, 0, CRLF) ==>
              FindHeadEnd(line + CRLF + t)
              == if FindHeadEnd(t).None? then None else Some(|line| + 2 + FindHeadEnd(t).value)
  {
    var front := line + CRLF;
    var s := front + t;
    forall q: nat | q < |front| ensures At(s, q, HEAD_END) <==> q == |line| && At(t, 0, CRLF) {
      NoHeadEndInLine(line, t, q);
    }
    forall q: nat | |front| <= q ensures At(s, q, HEAD_END) <==> At(t, q - |front|, HEAD_END) {
      HeadEndShift(front, t, q - |front|);
    }
    if At(t, 0, CRLF) {
      HeadEndIs(s, |line|);
    } else if FindHeadEnd(t).Some? {
      var p := FindHeadEnd(t).value;
      HeadEndShift(front, t, p);
      HeadEndIs(s, |front| + p);
    } else {
      assert FindHeadEnd(s).None?;
    }
  }

  // ---------------------------------------------------------------- characters

  predicate IsDigit(c: char) { '0' <= c <= '9' }

  predicate IsAlpha(c: char) { 'a' <= c <= 'z' || 'A' <= c <= 'Z' }

  predicate IsOws(c: char) { c == ' ' || c == '\t' }

  /** `std::tolower` in the C locale. */
  function ToLower(c: char): char {
    if 'A' <= c <= 'Z' then ((c as int) + 32) as char else c
  }

  function Lower(s: string): (r: string)
    ensures |r| == |s| && forall i :: 0 <= i < |s| ==> r[i] == ToLower(s[i])
  {
    if s == "" then "" else [ToLower(s[0])] + Lower(s[1..])
  }

  const CAPITALS: string := "ABCDEFGHIJKLMNOPQRSTUVWXYZ"
  const SMALL_LETTERS: string := "abcdefghijklmnopqrstuvwxyz"

  /** The same character, or the same letter of the alphabet. */
  predicate SameLetter(c: char, d: char) {
    || c == d
    || exists k :: 0 <= k < 26 && ((c == CAPITALS[k] && d == SMALL_LETTERS[k]) || (c == SMALL_LETTERS[k] && d == CAPITALS[k]))
  }

  /** Equal but for the case of letters. */
  predicate SameLetters(a: string, b: string) {
    |a| == |b| && forall i :: 0 <= i < |a| ==> SameLetter(a[i], b[i])
  }

  lemma LetterAt(k: nat)
    requires k < 26
    ensures CAPITALS[k] == (k + 65) as char && SMALL_LETTERS[k] == (k + 97) as char
  {
  }

  lemma SameWhenLowered(c: char, d: char)
    ensures ToLower(c) == ToLower(d) <==> SameLetter(c, d)
  {
    forall k: nat | k < 26 ensures CAPITALS[k] == (k + 65) as char && SMALL_LETTERS[k] == (k + 97) as char {
      LetterAt(k);
    }
    if ToLower(c) == ToLower(d) && c != d {
      var k := ToLower(c) as int - 97;
      assert 0 <= k < 26;
      assert c == CAPITALS[k] || d == CAPITALS[k];
    }
  }

  /** Folding makes texts equal exactly if they are equal but for the case of letters. */
  lemma LowerSameIff(a: string, b: string)
    ensures Lower(a) == Lower(b) <==> SameLetters(a, b)
  {
    hide SameLetter, ToLower;
    forall i | 0 <= i < |a| && i < |b| ensures ToLower(a[i]) == ToLower(b[i]) <==> SameLetter(a[i], b[i]) {
      SameWhenLowered(a[i], b[i]);
    }
    if SameLetters(a, b) {
      forall i | 0 <= i < |a| ensures Lower(a)[i] == Lower(b)[i] {
        assert SameLetter(a[i], b[i]);
      }
      assert Lower(a) == Lower(b);
    } else if Lower(a) == Lower(b) {
      forall i | 0 <= i < |a| ensures SameLetter(a[i], b[i]) {
        assert Lower(a)[i] == Lower(b)[i];
      }
    }
  }

  /** A text is folded to a word without capitals exactly if it is that word in any
      case. */
  lemma LowerIsIff(a: string, word: string)
    requires forall i :: 0 <= i < |word| ==> word[i] !in CAPITALS
    ensures Lower(a) == word <==> SameLetters(a, word)
  {
    forall i | 0 <= i < |word| ensures ToLower(word[i]) == word[i] {
      NoCapital(word[i]);
    }
    assert Lower(word) == word;
    LowerSameIff(a, word);
  }

  lemma NoCapital(c: char)
    requires c !in CAPITALS
    ensures ToLower(c) == c
  {
    if 'A' <= c <= 'Z' {
      LetterAt(c as int - 65);
    }
  }

  // ------------------------------------------------------------------ trimming

  predicate AllOws(s: string) { forall i :: 0 <= i < |s| ==> IsOws(s[i]) }

  function TrimLeft(s: string): (r: string)
    ensures r == "" || !IsOws(r[0])
    ensures |r| <= |s|
    decreases |s|
  {
    if s != "" && IsOws(s[0]) then TrimLeft(s[1..]) else s
  }

  function TrimRight(s: string): (r: string)
    ensures r == "" || !IsOws(r[|r| - 1])
    ensures |r| <= |s|
    decreases |s|
  {
    if s != "" && IsOws(s[|s| - 1]) then TrimRight(s[..|s| - 1]) else s
  }

  /** Spaces and tabs. */
  predicate Blank(s: string) { forall i :: 0 <= i < |s| ==> s[i] == ' ' || s[i] == '\t' }

  /** Neither begins nor ends with a space or a tab, as far as asked. */
  predicate Bare(s: string, left: bool, right: bool) {
    s != "" ==>
      && (left ==> s[0] != ' ' && s[0] != '\t')
      && (right ==> s[|s| - 1] != ' ' && s[|s| - 1] != '\t')
  }

  lemma {:induction false} TrimLeftIs(s: string, blank: string, t: string)
    requires s == blank + t && Blank(blank) && Bare(t, true, false)
    ensures TrimLeft(s) == t
    decreases |blank|
  {
    if blank == "" {
      assert s == t;
    } else {
      assert s[1..] == blank[1..] + t;
      TrimLeftIs(s[1..], blank[1..], t);
    }
  }

  lemma {:induction false} TrimLeftTakes(s: string) returns (blank: string)
    ensures s == blank + TrimLeft(s) && Blank(blank) && Bare(TrimLeft(s), true, false)
    decreases |s|
  {
    if s != "" && IsOws(s[0]) {
      var more := TrimLeftTakes(s[1..]);
      blank := [s[0]] + more;
      assert s == [s[0]] + s[1..];
    } else {
      blank := "";
    }
  }

  lemma {:induction false} TrimRightIs(s: string, t: string, blank: string)
    requires s == t + blank && Blank(blank) && Bare(t, false, true)
    ensures TrimRight(s) == t
    decreases |blank|
  {
    if blank == "" {
      assert s == t;
    } else {
      var n := |blank| - 1;
      assert s[..|s| - 1] == t + blank[..n];
      TrimRightIs(s[..|s| - 1], t, blank[..n]);
    }
  }

  lemma {:induction false} TrimRightCuts(s: string)
    ensures TrimRight(s) == s[..|TrimRight(s)|] && Blank(s[|TrimRight(s)|..])
    decreases |s|
  {
    var n := |s| - 1;
    if s != "" && IsOws(s[n]) {
      TrimRightCuts(s[..n]);
      var k := |TrimRight(s[..n])|;
      assert s[..n][..k] == s[..k];
      assert s[k..] == s[..n][k..] + [s[n]];
    }
  }

  lemma TrimRightTakes(s: string) returns (blank: string)
    ensures s == TrimRight(s) + blank && Blank(blank) && Bare(TrimRight(s), false, true)
  {
    TrimRightCuts(s);
    blank := s[|TrimRight(s)|..];
  }

  // ------------------------------------------------------------------- numbers

  predicate AllDigits(s: string) { forall i :: 0 <= i < |s| ==> IsDigit(s[i]) }

  function DigitValue(c: char): nat
    requires IsDigit(c)
  {
    c as int - '0' as int
  }

  function Decimal(s: string): nat
    requires AllDigits(s)
  {
    if s == "" then 0 else Decimal(s[..|s| - 1]) * 10 + DigitValue(s[|s| - 1])
  }

  /** `std::to_string` of an unsigned value. */
  function ToDecimal(n: nat): (s: string)
    ensures s != "" && AllDigits(s) && Decimal(s) == n
  {
    var last := [('0' as int + n % 10) as char];
    assert last[..|last| - 1] == "";
    assert Decimal(last) == n % 10;
    if n < 10 then last
    else
      var front := ToDecimal(n / 10);
      assert (front + last)[..|front + last| - 1] == front;
      front + last
  }

  function DigitRun(s: string): (r: nat)
    ensures r <= |s| && forall i :: 0 <= i < r ==> IsDigit(s[i])
    ensures r < |s| ==> !IsDigit(s[r])
  {
    if s != "" && IsDigit(s[0]) then 1 + DigitRun(s[1..]) else 0
  }

  predicate IsSpace(c: char) { c == ' ' || '\t' <= c <= '\r' }

  function SkipSpace(s: string): (r: string)
    ensures |r| <= |s| && r == s[|s| - |r|..]
  {
    if s != "" && IsSpace(s[0]) then
      var r := SkipSpace(s[1..]);
      assert s[1..][|s| - 1 - |r|..] == s[|s| - |r|..];
      r
    else s
  }

  /** A sign or none, and digits. */
  function SignedNumber(t: string): (r: Option<nat>)
    ensures r.Some? ==> r.value < TWO_64
  {
    var negative := t != "" && t[0] == '-';
    var u := if t != "" && (t[0] == '-' || t[0] == '+') then t[1..] else t;
    var digits := u[..DigitRun(u)];
    if digits == "" || Decimal(digits) >= TWO_64 then None
    else if negative then Some(Wrap64(TWO_64 - Decimal(digits)))
    else Some(Decimal(digits))
  }

  /** `std::stoul` and `std::stoull` in base 10 where both are 64 bits wide: white
      space and a sign are skipped, text after the digits is ignored, a minus sign
      negates modulo 2^64; no digits or a value that does not fit is an exception. */
  function Stoull(s: string): (r: Option<nat>)
    ensures r.Some? ==> r.value < TWO_64
  {
    SignedNumber(SkipSpace(s))
  }

  /** Space, tab, LF, VT, FF and CR. */
  const WHITE_SPACE: string := " \t\n\U{0b}\U{0c}\r"

  predicate AllWhite(s: string) { forall i :: 0 <= i < |s| ==> s[i] in WHITE_SPACE }

  lemma SpaceIsWhite(c: char)
    ensures IsSpace(c) <==> c in WHITE_SPACE
  {
  }

  lemma WhiteMore(c: char, s: string)
    requires IsSpace(c) && AllWhite(s)
    ensures AllWhite([c] + s)
  {
    SpaceIsWhite(c);
  }

  lemma WhiteLess(s: string)
    requires AllWhite(s) && s != ""
    ensures IsSpace(s[0]) && AllWhite(s[1..])
  {
    SpaceIsWhite(s[0]);
  }

  /** White space of the C locale, a sign or none, digits, and what is no digit. */
  ghost predicate SaysNumber(s: string, space: string, sign: string, digits: string, rest: string) {
    && s == space + sign + digits + rest
    && AllWhite(space)
    && (sign == "" || sign == "+" || sign == "-")
    && digits != "" && AllDigits(digits) && (rest != "" ==> !('0' <= rest[0] <= '9'))
  }

  /** The value of such a text, in 64 bits; a minus sign negates modulo 2^64. */
  function NumberSaid(sign: string, digits: string): Option<nat>
    requires AllDigits(digits)
  {
    var n := Decimal(digits);
    if n >= 18446744073709551616 then None
    else if sign == "-" && n > 0 then Some(18446744073709551616 - n)
    else Some(n)
  }

  lemma {:induction false} SkipSpaceIs(space: string, t: string)
    requires AllWhite(space)
    requires t != "" && !IsSpace(t[0])
    ensures SkipSpace(space + t) == t
    decreases |space|
  {
    hide AllWhite, IsSpace;
    if space == "" {
      assert space + t == t;
    } else {
      WhiteLess(space);
      assert (space + t)[1..] == space[1..] + t;
      SkipSpaceIs(space[1..], t);
    }
  }

  lemma {:induction false} DigitRunIs(digits: string, rest: string)
    requires AllDigits(digits) && (rest != "" ==> !('0' <= rest[0] <= '9'))
    ensures DigitRun(digits + rest) == |digits|
    decreases |digits|
  {
    if digits == "" {
      assert digits + rest == rest;
    } else {
      assert (digits + rest)[1..] == digits[1..] + rest;
      DigitRunIs(digits[1..], rest);
    }
  }

  lemma SignedNumberReads(sign: string, digits: string, rest: string)
    requires sign == "" || sign == "+" || sign == "-"
    requires digits != "" && AllDigits(digits) && (rest != "" ==> !('0' <= rest[0] <= '9'))
    ensures SignedNumber(sign + (digits + rest)) == NumberSaid(sign, digits)
  {
    hide Decimal, DigitRun;
    var u := digits + rest;
    var t := sign + u;
    DigitRunIs(digits, rest);
    assert u[..|digits|] == digits;
    if sign == "" {
      assert t == u;
    } else {
      assert t[1..] == u;
    }
  }

  /** A text that says a number is read as that number. */
  lemma StoullReads(s: string, space: string, sign: string, digits: string, rest: string)
    requires SaysNumber(s, space, sign, digits, rest)
    ensures Stoull(s) == NumberSaid(sign, digits)
  {
    hide AllWhite, SkipSpace, SignedNumber, NumberSaid;
    var t := sign + (digits + rest);
    assert s == space + t;
    SignedNumberReads(sign, digits, rest);
    SkipSpaceIs(space, t);
  }

  lemma SignedNumberSaid(t: string) returns (sign: string, digits: string, rest: string)
    requires SignedNumber(t).Some?
    ensures t == sign + (digits + rest) && (sign == "" || sign == "+" || sign == "-")
    ensures digits != "" && AllDigits(digits) && (rest != "" ==> !('0' <= rest[0] <= '9'))
  {
    hide Decimal, DigitRun;
    sign := if t != "" && (t[0] == '-' || t[0] == '+') then [t[0]] else "";
    var u := t[|sign|..];
    var n := DigitRun(u);
    digits, rest := u[..n], u[n..];
    assert u == digits + rest;
  }

  lemma {:induction false} SkipsWhite(s: string)
    ensures AllWhite(s[..|s| - |SkipSpace(s)|])
    decreases |s|
  {
    hide AllWhite, IsSpace;
    if s != "" && IsSpace(s[0]) {
      var n := |s| - |SkipSpace(s)|;
      SkipsWhite(s[1..]);
      WhiteMore(s[0], s[1..][..n - 1]);
      assert [s[0]] + s[1..][..n - 1] == s[..n];
    } else {
      NoWhite();
    }
  }

  lemma NoWhite()
    ensures AllWhite("")
  {
  }

  /** And only such texts are read as a number at all. */
  lemma StoullSaid(s: string) returns (space: string, sign: string, digits: string, rest: string)
    requires Stoull(s).Some?
    ensures SaysNumber(s, space, sign, digits, rest)
  {
    hide AllWhite, AllDigits, SkipSpace, SignedNumber;
    SkipsWhite(s);
    sign, digits, rest := SignedNumberSaid(SkipSpace(s));
    space := s[..|s| - |SkipSpace(s)|];
    assert s == space + (sign + (digits + rest));
  }

  lemma StoullOfDigits(s: string)
    requires s != "" && AllDigits(s)
    ensures Stoull(s) == if Decimal(s) < TWO_64 then Some(Decimal(s)) else None
  {
    hide Stoull, Decimal;
    assert "" + "" + s + "" == s;
    StoullReads(s, "", "", s, "");
  }
}
