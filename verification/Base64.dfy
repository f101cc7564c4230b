/** Base64 as the program codes it (section 4 of RFC 4648). Bytes are 0..255; the
    shifts and masks are written as division and remainder, and the two constant
    tables as the ranges they list. */
module Base64 {
  import opened Text

  type Byte = b: int | 0 <= b < 256
  type Bytes = seq<Byte>
  type Sextet = v: int | 0 <= v < 64

  /** base64_encode_table. */
  function EncodeEntry(v: Sextet): char {
    if v < 26 then (v + 65) as char
    else if v < 52 then (v + 71) as char
    else if v < 62 then (v - 4) as char
    else if v == 62 then '+'
    else '/'
  }

  /** base64_decode_table, with -1 also for the characters beyond its 128 entries,
      which the program rejects before it looks. */
  function DecodeEntry(c: char): (v: int)
    ensures -1 <= v < 64
  {
    if 'A' <= c <= 'Z' then c as int - 65
    else if 'a' <= c <= 'z' then c as int - 71
    else if '0' <= c <= '9' then c as int + 4
    else if c == '+' then 62
    else if c == '/' then 63
    else -1
  }

  /** The tables are inverse to one another, and neither knows the padding. */
  lemma TablesInverse(v: Sextet, c: char)
    ensures DecodeEntry(EncodeEntry(v)) == v && EncodeEntry(v) != '='
    ensures DecodeEntry(c) != -1 ==> EncodeEntry(DecodeEntry(c)) == c
    ensures DecodeEntry('=') == -1
  {
  }

  /** They are the alphabet of section 4 of RFC 4648. */
  lemma TableIsAlphabet(v: Sextet)
    ensures EncodeEntry(v) == (if v < 26 then "ABCDEFGHIJKLMNOPQRSTUVWXYZ"[v]
                               else if v < 52 then "abcdefghijklmnopqrstuvwxyz"[v - 26]
                               else if v < 62 then "0123456789"[v - 52]
                               else "+/"[v - 62])
  {
  }

  // ------------------------------------------------------------- specifications

  function Encoded(b: Bytes): (s: string)
    ensures |s| == (|b| + 2) / 3 * 4
  {
    if b == [] then ""
    else if |b| == 1 then
      [EncodeEntry(b[0] / 4), EncodeEntry(b[0] % 4 * 16), '=', '=']
    else if |b| == 2 then
      [EncodeEntry(b[0] / 4), EncodeEntry(b[0] % 4 * 16 + b[1] / 16), EncodeEntry(b[1] % 16 * 4), '=']
    else
      Quad(b[0], b[1], b[2]) + Encoded(b[3..])
  }

  function Quad(x: Byte, y: Byte, z: Byte): string {
    [EncodeEntry(x / 4), EncodeEntry(x % 4 * 16 + y / 16), EncodeEntry(y % 16 * 4 + z / 64), EncodeEntry(z % 64)]
  }

  /** Four characters carry the 24 bits of three bytes, most significant first. */
  lemma QuadCarries(x: Byte, y: Byte, z: Byte)
    ensures var q := Quad(x, y, z);
            && |q| == 4 && (forall i :: 0 <= i < 4 ==> DecodeEntry(q[i]) != -1)
            && ((DecodeEntry(q[0]) * 64 + DecodeEntry(q[1])) * 64 + DecodeEntry(q[2])) * 64 + DecodeEntry(q[3])
            == (x * 256 + y) * 256 + z
  {
    hide EncodeEntry, DecodeEntry;
    TablesInverse(x / 4, 'A');
    TablesInverse(x % 4 * 16 + y / 16, 'A');
    TablesInverse(y % 16 * 4 + z / 64, 'A');
    TablesInverse(z % 64, 'A');
  }

  /** One or two bytes at the end are carried as if zeros followed, and what only
      zeros need is padding. */
  lemma ShortCarries(x: Byte, y: Byte)
    ensures Encoded([x]) == Quad(x, 0, 0)[..2] + "=="
    ensures Encoded([x, y]) == Quad(x, y, 0)[..3] + "="
  {
    hide EncodeEntry;
  }

  /** The bytes a text stands for, or None where the program throws. */
  function Decoded(s: string): (r: Option<Bytes>)
    decreases |s|
  {
    if s == "" then Some([])
    else if |s| < 4 then None
    else
      var v0, v1, v2, v3 := DecodeEntry(s[0]), DecodeEntry(s[1]), DecodeEntry(s[2]), DecodeEntry(s[3]);
      if v0 == -1 || v1 == -1 then None
      else if |s| == 4 && s[2] == '=' && s[3] == '=' then Some([First(v0, v1)])
      else if v2 == -1 then None
      else if |s| == 4 && s[3] == '=' then Some([First(v0, v1), Second(v1, v2)])
      else if v3 == -1 then None
      else
        Before([First(v0, v1), Second(v1, v2), Third(v2, v3)], Decoded(s[4..]))
  }

  function Before(b: Bytes, rest: Option<Bytes>): Option<Bytes> {
    if rest.None? then None else Some(b + rest.value)
  }

  lemma AppendBefore(a: Bytes, b: Bytes, rest: Option<Bytes>)
    ensures Before(a + b, rest) == Before(a, Before(b, rest))
  {
    if rest.Some? {
      assert a + b + rest.value == a + (b + rest.value);
    }
  }

  function First(v0: Sextet, v1: Sextet): Byte { v0 * 4 + v1 / 16 }

  function Second(v1: Sextet, v2: Sextet): Byte { v1 % 16 * 16 + v2 / 4 }

  function Third(v2: Sextet, v3: Sextet): Byte { v2 % 4 * 64 + v3 }

  // ------------------------------------------------------------------ the loops

  lemma PushFour(s: string, a: char, b: char, c: char, d: char)
    ensures s + [a] + [b] + [c] + [d] == s + [a, b, c, d]
  {
  }

  lemma Associate(a: string, b: string, c: string)
    ensures a + b + c == a + (b + c)
  {
  }

  lemma EncodedEnd()
    ensures Encoded([]) == ""
  {
  }

  lemma EncodedLastByte(rest: Bytes)
    requires |rest| == 1
    ensures Encoded(rest) == [EncodeEntry(rest[0] / 4), EncodeEntry(rest[0] % 4 * 16), '=', '=']
  {
  }

  lemma EncodedLastTwo(rest: Bytes)
    requires |rest| == 2
    ensures Encoded(rest) == [EncodeEntry(rest[0] / 4), EncodeEntry(rest[0] % 4 * 16 + rest[1] / 16),
                              EncodeEntry(rest[1] % 16 * 4), '=']
  {
  }

  lemma EncodedGroup(rest: Bytes)
    requires |rest| >= 3
    ensures Encoded(rest) == Quad(rest[0], rest[1], rest[2]) + Encoded(rest[3..])
  {
    hide EncodeEntry, Quad;
  }

  method Encode(input: Bytes) returns (out: string)
    ensures out == Encoded(input)
  {
    hide EncodeEntry, Encoded;
    out := "";
    var i := 0;
    assert input[0..] == input;
    assert out + Encoded(input) == Encoded(input);
    while i != |input|
      invariant 0 <= i <= |input|
      invariant out + Encoded(input[i..]) == Encoded(input)
      decreases |input| - i
    {
      ghost var rest, before := input[i..], out;
      var byte0 := input[i];
      i := i + 1;
      if i == |input| {
        out := out + [EncodeEntry(byte0 / 4)] + [EncodeEntry(byte0 % 4 * 16)] + ['='] + ['='];
        PushFour(before, EncodeEntry(byte0 / 4), EncodeEntry(byte0 % 4 * 16), '=', '=');
        EncodedLastByte(rest);
        break;
      }
      var byte1 := input[i];
      i := i + 1;
      if i == |input| {
        out := out + [EncodeEntry(byte0 / 4)] + [EncodeEntry(byte0 % 4 * 16 + byte1 / 16)]
          + [EncodeEntry(byte1 % 16 * 4)] + ['='];
        PushFour(before, EncodeEntry(byte0 / 4), EncodeEntry(byte0 % 4 * 16 + byte1 / 16),
                 EncodeEntry(byte1 % 16 * 4), '=');
        EncodedLastTwo(rest);
        break;
      }
      var byte2 := input[i];
      i := i + 1;
      assert rest[3..] == input[i..];
      out := out + [EncodeEntry(byte0 / 4)] + [EncodeEntry(byte0 % 4 * 16 + byte1 / 16)]
        + [EncodeEntry(byte1 % 16 * 4 + byte2 / 64)] + [EncodeEntry(byte2 % 64)];
      PushFour(before, EncodeEntry(byte0 / 4), EncodeEntry(byte0 % 4 * 16 + byte1 / 16),
               EncodeEntry(byte1 % 16 * 4 + byte2 / 64), EncodeEntry(byte2 % 64));
      EncodedGroup(rest);
      Associate(before, Quad(byte0, byte1, byte2), Encoded(input[i..]));
    }
    EncodedEnd();
    assert out + "" == out;
  }

  method Decode(input: string) returns (out: Option<Bytes>)
    ensures out == Decoded(input)
  {
    var bytes: Bytes := [];
    var i := 0;
    assert input[0..] == input;
    assert Decoded(input).Some? ==> [] + Decoded(input).value == Decoded(input).value;
    while i != |input|
      invariant 0 <= i <= |input|
      invariant Decoded(input) == Before(bytes, Decoded(input[i..]))
      decreases |input| - i
    {
      ghost var rest, before := input[i..], bytes;
      if |input| < i + 4 {
        return None;
      }
      var char0, char1, char2, char3 := input[i], input[i + 1], input[i + 2], input[i + 3];
      i := i + 4;
      assert rest[4..] == input[i..];
      var v0 := DecodeEntry(char0);
      if char0 == '=' || v0 == -1 {
        return None;
      }
      var v1 := DecodeEntry(char1);
      if char1 == '=' || v1 == -1 {
        return None;
      }
      bytes := bytes + [First(v0, v1)];
      if i == |input| && char2 == '=' && char3 == '=' {
        assert input[i..] == "";
        break;
      }
      var v2 := DecodeEntry(char2);
      if v2 == -1 {
        return None;
      }
      bytes := bytes + [Second(v1, v2)];
      if i == |input| && char3 == '=' {
        assert bytes == before + [First(v0, v1), Second(v1, v2)];
        assert input[i..] == "";
        break;
      }
      var v3 := DecodeEntry(char3);
      if v3 == -1 {
        return None;
      }
      bytes := bytes + [Third(v2, v3)];
      assert bytes == before + [First(v0, v1), Second(v1, v2), Third(v2, v3)];
      AppendBefore(before, [First(v0, v1), Second(v1, v2), Third(v2, v3)], Decoded(input[i..]));
    }
    assert bytes + [] == bytes;
    out := Some(bytes);
  }

  // ------------------------------------------------------------------- theorems

  lemma {:induction false} DecodeEncode(b: Bytes)
    ensures Decoded(Encoded(b)) == Some(b)
    decreases |b|
  {
    hide EncodeEntry, DecodeEntry, First, Second, Third;
    if |b| == 1 {
      Sextets(b[0], 0, 0);
      assert b == [b[0]];
    } else if |b| == 2 {
      Sextets(b[0], b[1], 0);
      assert b == [b[0], b[1]];
    } else if |b| >= 3 {
      var s := Encoded(b);
      Sextets(b[0], b[1], b[2]);
      assert s[4..] == Encoded(b[3..]);
      DecodeEncode(b[3..]);
      assert b == [b[0], b[1], b[2]] + b[3..];
    }
  }

  /** Three bytes cut into four sextets and put together again. */
  lemma Sextets(x: Byte, y: Byte, z: Byte)
    ensures var v0, v1, v2, v3 := x / 4, x % 4 * 16 + y / 16, y % 16 * 4 + z / 64, z % 64;
            && DecodeEntry(EncodeEntry(v0)) == v0 && DecodeEntry(EncodeEntry(v1)) == v1
            && DecodeEntry(EncodeEntry(v2)) == v2 && DecodeEntry(EncodeEntry(v3)) == v3
            && EncodeEntry(v2) != '=' && EncodeEntry(v3) != '='
            && First(v0, v1) == x && Second(v1, v2) == y && Third(v2, v3) == z
  {
    var v1, v2 := x % 4 * 16 + y / 16, y % 16 * 4 + z / 64;
    assert v1 / 16 == x % 4 && v1 % 16 == y / 16;
    assert v2 / 4 == y % 16 && v2 % 4 == z / 64;
  }

  predicate InAlphabet(c: char) { DecodeEntry(c) != -1 }

  /** Whole groups of four, padded only at the very end. */
  predicate WellPadded(s: string) {
    && |s| % 4 == 0
    && exists pad :: 0 <= pad <= 2 && Padding(s, pad)
  }

  predicate Padding(s: string, pad: int) {
    0 <= pad <= 2 && pad <= |s|
    && (forall i :: 0 <= i < |s| - pad ==> InAlphabet(s[i]))
    && (forall i :: |s| - pad <= i < |s| ==> s[i] == '=')
  }

  lemma {:induction false} PaddingOfRest(s: string, pad: int)
    requires |s| > 4 && |s| % 4 == 0
    ensures Padding(s, pad) <==> Padding(s[4..], pad) && forall i :: 0 <= i < 4 ==> InAlphabet(s[i])
  {
    var t := s[4..];
    assert forall i :: 4 <= i < |s| ==> s[i] == t[i - 4];
  }

  lemma EmptyIsPadded()
    ensures WellPadded("")
  {
    assert Padding("", 0);
  }

  /** Decoding succeeds exactly on well padded text. */
  lemma {:induction false} DecodableIff(s: string)
    ensures Decoded(s).Some? <==> WellPadded(s)
    decreases |s|
  {
    hide First, Second, Third, DecodeEntry, Padding;
    if s == "" {
      EmptyIsPadded();
    } else if |s| < 4 {
    } else if |s| == 4 {
      DecodableGroup(s);
    } else {
      DecodableIff(s[4..]);
      DecodableLonger(s);
      LongerPadding(s);
    }
  }

  /** A longer text can be decoded when its first group is all characters of the
      alphabet and the rest can be decoded. */
  lemma DecodableLonger(s: string)
    requires |s| > 4
    ensures Decoded(s).Some? <==> Decoded(s[4..]).Some? && GroupInAlphabet(s)
  {
    hide First, Second, Third, DecodeEntry;
    var rest := Decoded(s[4..]);
    if GroupInAlphabet(s) {
      var v0, v1, v2, v3 := DecodeEntry(s[0]), DecodeEntry(s[1]), DecodeEntry(s[2]), DecodeEntry(s[3]);
      assert Decoded(s) == Before([First(v0, v1), Second(v1, v2), Third(v2, v3)], rest);
    }
  }

  predicate GroupInAlphabet(s: string)
    requires |s| >= 4
  {
    InAlphabet(s[0]) && InAlphabet(s[1]) && InAlphabet(s[2]) && InAlphabet(s[3])
  }

  lemma LongerPadding(s: string)
    requires |s| > 4
    ensures WellPadded(s) <==> WellPadded(s[4..]) && GroupInAlphabet(s)
  {
    hide Padding, InAlphabet;
    if WellPadded(s) {
      var pad :| 0 <= pad <= 2 && Padding(s, pad);
      PaddingOfRest(s, pad);
    }
    if WellPadded(s[4..]) && GroupInAlphabet(s) {
      var pad :| 0 <= pad <= 2 && Padding(s[4..], pad);
      PaddingOfRest(s, pad);
    }
  }

  lemma DecodableGroup(s: string)
    requires |s| == 4
    ensures Decoded(s).Some? <==> WellPadded(s)
  {
    hide First, Second, Third, DecodeEntry;
    TablesInverse(0, '=');
    assert s[4..] == "";
    assert Padding(s, 0) <==> InAlphabet(s[0]) && InAlphabet(s[1]) && InAlphabet(s[2]) && InAlphabet(s[3]);
    assert Padding(s, 1) <==> InAlphabet(s[0]) && InAlphabet(s[1]) && InAlphabet(s[2]) && s[3] == '=';
    assert Padding(s, 2) <==> InAlphabet(s[0]) && InAlphabet(s[1]) && s[2] == '=' && s[3] == '=';
  }

  /** The bits of the last character that stand for no byte are zero. */
  predicate CleanTail(s: string) {
    && (|s| >= 3 && s[|s| - 1] == '=' && s[|s| - 2] == '=' ==> DecodeEntry(s[|s| - 3]) % 16 == 0)
    && (|s| >= 2 && s[|s| - 1] == '=' && s[|s| - 2] != '=' ==> DecodeEntry(s[|s| - 2]) % 4 == 0)
  }

  lemma FirstQuad(s: string) returns (x: Byte, y: Byte, z: Byte)
    requires |s| >= 4 && Decoded(s).Some? && InAlphabet(s[2]) && InAlphabet(s[3])
    ensures Decoded(s[4..]).Some? && forall i :: 0 <= i < 4 ==> InAlphabet(s[i])
    ensures Decoded(s).value == [x, y, z] + Decoded(s[4..]).value && Quad(x, y, z) == s[..4]
  {
    var v0, v1, v2, v3 := DecodeEntry(s[0]), DecodeEntry(s[1]), DecodeEntry(s[2]), DecodeEntry(s[3]);
    DecodedFirst(s);
    x, y, z := First(v0, v1), Second(v1, v2), Third(v2, v3);
    QuadOfGroup(s[0], s[1], s[2], s[3]);
    assert s[..4] == [s[0], s[1], s[2], s[3]];
  }

  lemma DecodedFirst(s: string)
    requires |s| >= 4 && Decoded(s).Some? && InAlphabet(s[2]) && InAlphabet(s[3])
    ensures InAlphabet(s[0]) && InAlphabet(s[1]) && Decoded(s[4..]).Some?
    ensures var v0, v1, v2, v3 := DecodeEntry(s[0]), DecodeEntry(s[1]), DecodeEntry(s[2]), DecodeEntry(s[3]);
            Decoded(s).value == [First(v0, v1), Second(v1, v2), Third(v2, v3)] + Decoded(s[4..]).value
  {
    TablesInverse(0, '=');
    assert s[2] != '=' && s[3] != '=';
  }

  lemma EncodedFirst(x: Byte, y: Byte, z: Byte, rest: Bytes)
    ensures Encoded([x, y, z] + rest) == Quad(x, y, z) + Encoded(rest)
  {
    assert ([x, y, z] + rest)[3..] == rest;
  }

  lemma QuadOfGroup(a: char, b: char, c: char, d: char)
    requires InAlphabet(a) && InAlphabet(b) && InAlphabet(c) && InAlphabet(d)
    ensures var v0, v1, v2, v3 := DecodeEntry(a), DecodeEntry(b), DecodeEntry(c), DecodeEntry(d);
            Quad(First(v0, v1), Second(v1, v2), Third(v2, v3)) == [a, b, c, d]
  {
    var v0, v1, v2, v3 := DecodeEntry(a), DecodeEntry(b), DecodeEntry(c), DecodeEntry(d);
    TablesInverse(v0, a);
    TablesInverse(v1, b);
    TablesInverse(v2, c);
    TablesInverse(v3, d);
    Regroup(v0, v1, v2, v3);
  }

  lemma Regroup(v0: Sextet, v1: Sextet, v2: Sextet, v3: Sextet)
    ensures var x, y, z := First(v0, v1), Second(v1, v2), Third(v2, v3);
            x / 4 == v0 && x % 4 * 16 + y / 16 == v1 && y % 16 * 4 + z / 64 == v2 && z % 64 == v3
  {
    var x, y := First(v0, v1), Second(v1, v2);
    assert x % 4 == v1 / 16 && y / 16 == v1 % 16 && y % 16 == v2 / 4;
  }

  lemma LastGroupOfOne(s: string)
    requires |s| == 4 && s[2] == '=' && s[3] == '=' && Decoded(s).Some?
    ensures Encoded(Decoded(s).value) == s <==> DecodeEntry(s[1]) % 16 == 0
  {
    hide EncodeEntry, DecodeEntry;
    var v0, v1 := DecodeEntry(s[0]), DecodeEntry(s[1]);
    TablesInverse(v0, s[0]);
    TablesInverse(v1, s[1]);
    var x := First(v0, v1);
    Regroup(v0, v1, 0, 0);
    assert x % 4 * 16 == v1 / 16 * 16;
    EncodedSameIff(v1 / 16 * 16, v1);
    assert Encoded([x]) == [s[0], EncodeEntry(v1 / 16 * 16), '=', '='];
  }

  lemma LastGroupOfTwo(s: string)
    requires |s| == 4 && s[2] != '=' && s[3] == '=' && Decoded(s).Some?
    ensures Encoded(Decoded(s).value) == s <==> DecodeEntry(s[2]) % 4 == 0
  {
    hide EncodeEntry, DecodeEntry;
    var v0, v1, v2 := DecodeEntry(s[0]), DecodeEntry(s[1]), DecodeEntry(s[2]);
    TablesInverse(v0, s[0]);
    TablesInverse(v1, s[1]);
    TablesInverse(v2, s[2]);
    Regroup(v0, v1, v2, 0);
    var x, y := First(v0, v1), Second(v1, v2);
    assert y % 16 * 4 == v2 / 4 * 4;
    EncodedSameIff(v2 / 4 * 4, v2);
    assert Encoded([x, y]) == [s[0], s[1], EncodeEntry(v2 / 4 * 4), '='];
  }

  lemma LastGroup(s: string)
    requires |s| == 4 && s[3] == '=' && Decoded(s).Some?
    ensures Encoded(Decoded(s).value) == s <==> CleanTail(s)
  {
    hide Encoded, Decoded, DecodeEntry;
    if s[2] == '=' {
      LastGroupOfOne(s);
    } else {
      LastGroupOfTwo(s);
    }
  }

  /** Encoding gives the text back exactly when its unused bits are zero. */
  lemma {:induction false} EncodeDecodeIff(s: string)
    requires Decoded(s).Some?
    ensures Encoded(Decoded(s).value) == s <==> CleanTail(s)
    decreases |s|
  {
    if |s| == 4 && s[3] == '=' {
      LastGroup(s);
    } else if s != "" {
      LongerThanGroup(s);
      var x, y, z := FirstQuad(s);
      EncodedFirst(x, y, z, Decoded(s[4..]).value);
      EncodeDecodeIff(s[4..]);
      CleanTailOfRest(s);
      SameFront(s, 4, Encoded(Decoded(s[4..]).value));
    }
  }

  lemma LongerThanGroup(s: string)
    requires Decoded(s).Some? && s != "" && !(|s| == 4 && s[3] == '=')
    ensures |s| >= 4 && |s| % 4 == 0 && InAlphabet(s[2]) && InAlphabet(s[3])
  {
    DecodableIff(s);
  }

  lemma SameFront(s: string, n: nat, t: string)
    requires n <= |s|
    ensures s[..n] + t == s <==> t == s[n..]
  {
    assert s == s[..n] + s[n..];
    assert (s[..n] + t)[n..] == t;
  }

  lemma EncodedSameIff(v: Sextet, w: Sextet)
    ensures EncodeEntry(v) == EncodeEntry(w) <==> v == w
  {
    TablesInverse(v, 'A');
    TablesInverse(w, 'A');
  }

  lemma CleanTailOfRest(s: string)
    requires |s| >= 4 && |s| % 4 == 0 && forall i :: 0 <= i < 4 ==> InAlphabet(s[i])
    ensures CleanTail(s) <==> CleanTail(s[4..])
  {
    var t := s[4..];
    assert forall i :: 4 <= i < |s| ==> s[i] == t[i - 4];
  }
}
