/** Parsing the header section of a message (http_header_parser::parse_headers). */
module HeaderFields {
  import opened Text
  import opened HeaderMap

  predicate IsTokenChar(c: char) {
    IsAlpha(c) || IsDigit(c) || c in "!#$%&'`*+-.^_|~"
  }

  /** The characters of a token (section 3.2.6 of RFC 7230). */
  lemma TokenChars(c: char)
    ensures IsTokenChar(c) <==>
              c in "!#$%&'*+-.^_`|~" || c in "0123456789" || c in CAPITALS || c in SMALL_LETTERS
  {
  }

  datatype ParseState =
    | FieldNameStart
    | FieldName
    | ValueLeftOws
    | FieldValue
    | FieldCr
    | FieldCrlf
    | FieldCrlfCr
    | Complete
    | Failed

  /** The parser's local variables. */
  datatype Parse = Parse(state: ParseState, name: string, value: string, headers: Fields) {
    predicate Stopped() { state == Complete || state == Failed }
  }

  const START: Parse := Parse(FieldNameStart, "", "", [])

  /** What one character does. The start state is left on the first character. */
  function Next(p: Parse, c: char): Parse {
    match p.state
    case FieldNameStart =>
      if IsTokenChar(c) then p.(name := p.name + [c], state := FieldName)
      else if c == '\r' then p.(state := FieldCrlfCr)
      else p.(state := Failed)
    case FieldName =>
      if IsTokenChar(c) then p.(name := p.name + [c])
      else if c == ':' then p.(state := ValueLeftOws)
      else p.(state := Failed)
    case ValueLeftOws =>
      if IsOws(c) then p
      else if c == '\r' then p.(state := FieldCr)
      else p.(value := p.value + [c], state := FieldValue)
    case FieldValue =>
      if c == '\r' then p.(state := FieldCr) else p.(value := p.value + [c])
    case FieldCr =>
      if c == '\n' then p.(state := FieldCrlf) else p.(state := Failed)
    case FieldCrlf =>
      if IsOws(c) then p.(value := p.value + [c], state := FieldValue)
      else
        var q := Parse(p.state, "", "", Insert(p.headers, Field(p.name, TrimRight(p.value))));
        if c == '\r' then q.(state := FieldCrlfCr)
        else if IsTokenChar(c) then q.(name := [c], state := FieldName)
        else q.(state := Failed)
    case FieldCrlfCr =>
      if c == '\n' then p.(state := Complete) else p
    case Complete => p
    case Failed => p
  }

  function Run(p: Parse, s: string): Parse
    decreases |s|
  {
    if s == "" || p.Stopped() then p else Run(Next(p, s[0]), s[1..])
  }

  /** The headers at the front of a text, or None where the program throws. */
  function Parsed(s: string): Option<Fields> {
    var p := Run(START, s);
    if p.state == Complete then Some(p.headers) else None
  }

  lemma {:induction false} RunConcat(p: Parse, a: string, b: string)
    ensures Run(p, a + b) == Run(Run(p, a), b)
    decreases |a|
  {
    if a == "" {
      assert a + b == b;
    } else if !p.Stopped() {
      assert (a + b)[1..] == a[1..] + b;
      RunConcat(Next(p, a[0]), a[1..], b);
    }
  }

  lemma RunSnoc(p: Parse, a: string, c: char)
    ensures Run(p, a + [c]) == if Run(p, a).Stopped() then Run(p, a) else Next(Run(p, a), c)
  {
    RunConcat(p, a, [c]);
    assert [c][1..] == "";
  }

  method ParseHeaders(s: string) returns (r: Option<Fields>)
    ensures r == Parsed(s)
  {
    var headers := new HeadersContainer();
    var state := FieldNameStart;
    var name, value := "", "";
    var i := 0;
    assert s[0..] == s;
    while i < |s| && state != Complete && state != Failed
      invariant 0 <= i <= |s|
      invariant state == FieldNameStart ==> i == 0
      invariant fresh(headers) && Sorted(headers.fields)
      invariant Run(Parse(state, name, value, headers.fields), s[i..]) == Run(START, s)
    {
      var c := s[i];
      ghost var before := Parse(state, name, value, headers.fields);
      assert s[i..][1..] == s[i + 1..];
      match state {
        case FieldNameStart =>
          if IsTokenChar(c) {
            name := name + [c];
            state := FieldName;
          } else if i == 0 && c == '\r' {
            state := FieldCrlfCr;
          } else {
            state := Failed;
          }
        case FieldName =>
          if IsTokenChar(c) {
            name := name + [c];
          } else if c == ':' {
            state := ValueLeftOws;
          } else {
            state := Failed;
          }
        case ValueLeftOws =>
          if IsOws(c) {
          } else if c == '\r' {
            state := FieldCr;
          } else {
            value := value + [c];
            state := FieldValue;
          }
        case FieldValue =>
          if c == '\r' {
            state := FieldCr;
          } else {
            value := value + [c];
          }
        case FieldCr =>
          state := if c == '\n' then FieldCrlf else Failed;
        case FieldCrlf =>
          if IsOws(c) {
            value := value + [c];
            state := FieldValue;
          } else {
            ghost var whole := value;
            while value != "" && IsOws(value[|value| - 1])
              invariant TrimRight(value) == TrimRight(whole)
              decreases |value|
            {
              value := value[..|value| - 1];
            }
            assert value == TrimRight(whole);
            headers.InsertField(name, value);
            name, value := "", "";
            if c == '\r' {
              state := FieldCrlfCr;
            } else if IsTokenChar(c) {
              name := name + [c];
              state := FieldName;
            } else {
              state := Failed;
            }
          }
        case FieldCrlfCr =>
          if c == '\n' {
            state := Complete;
          }
        case Complete =>
          assert false;
        case Failed =>
          assert false;
      }
      assert Parse(state, name, value, headers.fields) == Next(before, c);
      i := i + 1;
    }
    if state != Complete {
      return None;
    }
    return Some(headers.fields);
  }
}
