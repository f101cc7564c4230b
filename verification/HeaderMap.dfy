/** The header container: a multimap ordered by field name without regard to case,
    equal names in the order they were inserted. */
module HeaderMap {
  import opened Text

  datatype Field = Field(name: string, value: string)

  type Fields = seq<Field>

  function FoldedLess(a: string, b: string): bool
    decreases |a|
  {
    if b == "" then false
    else if a == "" then true
    else ToLower(a[0]) < ToLower(b[0]) || (ToLower(a[0]) == ToLower(b[0]) && FoldedLess(a[1..], b[1..]))
  }

  /** The container's comparison: lexicographic on lower-cased characters. */
  predicate Less(a: string, b: string) { FoldedLess(a, b) }

  /** Names are equivalent when they differ in case only. */
  predicate SameName(a: string, b: string) { Lower(a) == Lower(b) }

  // ------------------------------------------------------------------- ordering

  /** The comparison orders names strictly, and exactly the names that differ in
      case only are unordered. */
  lemma {:induction false} LessTrichotomy(a: string, b: string)
    ensures Less(a, b) ==> !Less(b, a)
    ensures !Less(a, b) && !Less(b, a) <==> SameName(a, b)
    decreases |a|
  {
    if a != "" && b != "" {
      LessTrichotomy(a[1..], b[1..]);
      assert Lower(a) == [ToLower(a[0])] + Lower(a[1..]);
      assert Lower(b) == [ToLower(b[0])] + Lower(b[1..]);
      assert Lower(a)[1..] == Lower(a[1..]) && Lower(b)[1..] == Lower(b[1..]);
    }
  }

  lemma {:induction false} NotLessTransitive(a: string, b: string, c: string)
    requires !Less(b, a) && !Less(c, b)
    ensures !Less(c, a)
    decreases |a|
  {
    if a != "" && b != "" && c != "" && ToLower(a[0]) == ToLower(b[0]) == ToLower(c[0]) {
      NotLessTransitive(a[1..], b[1..], c[1..]);
    }
  }

  lemma {:induction false} SameNameSameOrder(a: string, b: string, c: string)
    requires SameName(a, b)
    ensures Less(a, c) == Less(b, c) && Less(c, a) == Less(c, b)
    decreases |a|
  {
    assert |a| == |Lower(a)| == |b|;
    if a != "" && c != "" {
      assert Lower(a)[0] == Lower(b)[0];
      assert Lower(a)[1..] == Lower(a[1..]) && Lower(b)[1..] == Lower(b[1..]);
      SameNameSameOrder(a[1..], b[1..], c[1..]);
    }
  }

  ghost predicate Sorted(h: Fields) {
    forall i, j :: 0 <= i < j < |h| ==> !Less(h[j].name, h[i].name)
  }

  /** Names are the same exactly if they are equal but for the case of letters. */
  lemma SameNameIff(a: string, b: string)
    ensures SameName(a, b) <==> SameLetters(a, b)
  {
    LowerSameIff(a, b);
  }

  /** The one letter comes before the other, capitals taken as small letters. */
  ghost predicate LetterBefore(c: char, d: char) {
    exists c', d' :: SameLetter(c, c') && SameLetter(d, d') && c' !in CAPITALS && d' !in CAPITALS && c' < d'
  }

  lemma LetterBeforeIff(c: char, d: char)
    ensures ToLower(c) < ToLower(d) <==> LetterBefore(c, d)
  {
    hide SameLetter;
    forall x: char ensures SameLetter(x, ToLower(x)) && ToLower(x) !in CAPITALS {
      LoweredIsSmall(x);
    }
    if LetterBefore(c, d) {
      var c', d' :| SameLetter(c, c') && SameLetter(d, d') && c' !in CAPITALS && d' !in CAPITALS && c' < d';
      SameWhenLowered(c, c');
      SameWhenLowered(d, d');
      NoCapital(c');
      NoCapital(d');
    }
  }

  lemma LoweredIsSmall(x: char)
    ensures SameLetter(x, ToLower(x)) && ToLower(x) !in CAPITALS
  {
    hide SameLetter;
    SameWhenLowered(x, ToLower(x));
  }

  /** At place `k` one name comes before the other: up to there they are the same, and
      the one ends there or has the earlier letter. */
  ghost predicate DiffersAt(a: string, b: string, k: nat) {
    k <= |a| && k < |b| && SameLetters(a[..k], b[..k]) && (k == |a| || LetterBefore(a[k], b[k]))
  }

  /** The order of names is that of a dictionary. */
  lemma {:induction false} LessIff(a: string, b: string)
    ensures Less(a, b) <==> exists k: nat :: DiffersAt(a, b, k)
    decreases |a|
  {
    hide SameLetter, LetterBefore;
    if b == "" {
    } else if a == "" {
      assert DiffersAt(a, b, 0);
    } else {
      LessIff(a[1..], b[1..]);
      LetterBeforeIff(a[0], b[0]);
      SameWhenLowered(a[0], b[0]);
      if Less(a, b) {
        if ToLower(a[0]) < ToLower(b[0]) {
          assert DiffersAt(a, b, 0);
        } else {
          var k: nat :| DiffersAt(a[1..], b[1..], k);
          DiffersFurther(a, b, k);
        }
      }
      if exists k: nat :: DiffersAt(a, b, k) {
        var k: nat :| DiffersAt(a, b, k);
        if k > 0 {
          assert SameLetter(a[..k][0], b[..k][0]);
          DiffersFurther(a, b, k - 1);
        }
      }
    }
  }

  lemma DiffersFurther(a: string, b: string, k: nat)
    requires a != "" && b != "" && SameLetter(a[0], b[0])
    ensures DiffersAt(a[1..], b[1..], k) <==> DiffersAt(a, b, k + 1)
  {
    hide SameLetter, LetterBefore;
    if k < |a| && k + 1 < |b| {
      var front, next := a[..k + 1], b[..k + 1];
      assert front[1..] == a[1..][..k] && next[1..] == b[1..][..k];
      assert SameLetters(front, next) <==> SameLetters(front[1..], next[1..]) by {
        if SameLetters(front[1..], next[1..]) {
          forall i | 0 <= i < k + 1 ensures SameLetter(front[i], next[i]) {
            if i > 0 {
              assert SameLetter(front[1..][i - 1], next[1..][i - 1]);
            }
          }
        }
      }
    }
  }

  // ------------------------------------------------------------------ operations

  /** Inserting puts a field after every field that does not come later. */
  function Insert(h: Fields, f: Field): Fields {
    if h == [] then [f]
    else if Less(f.name, h[0].name) then [f] + h
    else [h[0]] + Insert(h[1..], f)
  }

  function FromList(fs: seq<Field>): Fields {
    if fs == [] then [] else Insert(FromList(fs[..|fs| - 1]), fs[|fs| - 1])
  }

  /** The fields of a given name, in order. */
  function Select(h: Fields, name: string): Fields {
    if h == [] then []
    else (if SameName(h[0].name, name) then [h[0]] else []) + Select(h[1..], name)
  }

  /** `multimap::erase(name)`. */
  function Erase(h: Fields, name: string): Fields {
    if h == [] then []
    else (if SameName(h[0].name, name) then [] else [h[0]]) + Erase(h[1..], name)
  }

  /** `multimap::find`: the first field of that name. */
  function Lookup(h: Fields, name: string): Option<string> {
    if h == [] then None
    else if SameName(h[0].name, name) then Some(h[0].value)
    else Lookup(h[1..], name)
  }

  lemma {:induction false} LookupIsFirst(h: Fields, name: string)
    ensures Lookup(h, name) == if Select(h, name) == [] then None else Some(Select(h, name)[0].value)
    decreases |h|
  {
    if h != [] {
      LookupIsFirst(h[1..], name);
    }
  }

  /** A lookup finds the first field whose name is the one asked for, in any case. */
  lemma {:induction false} LookupFinds(h: Fields, name: string) returns (k: nat)
    ensures k <= |h| && forall i :: 0 <= i < k ==> !SameLetters(h[i].name, name)
    ensures if k < |h| then SameLetters(h[k].name, name) && Lookup(h, name) == Some(h[k].value)
            else Lookup(h, name).None?
    decreases |h|
  {
    hide SameName, SameLetters;
    if h == [] {
      k := 0;
    } else {
      SameNameIff(h[0].name, name);
      if SameName(h[0].name, name) {
        k := 0;
      } else {
        var m := LookupFinds(h[1..], name);
        k := m + 1;
      }
    }
  }

  /** The fields whose names are not the one given, in any case. */
  ghost function Others(h: Fields, name: string): Fields {
    if h == [] then []
    else (if SameLetters(h[0].name, name) then [] else [h[0]]) + Others(h[1..], name)
  }

  lemma {:induction false} EraseLeavesOthers(h: Fields, name: string)
    ensures Erase(h, name) == Others(h, name)
    decreases |h|
  {
    hide SameName, SameLetters;
    if h != [] {
      SameNameIff(h[0].name, name);
      EraseLeavesOthers(h[1..], name);
    }
  }

  lemma {:induction false} SelectConcat(a: Fields, b: Fields, name: string)
    ensures Select(a + b, name) == Select(a, name) + Select(b, name)
    decreases |a|
  {
    if a == [] {
      assert a + b == b;
    } else {
      assert (a + b)[1..] == a[1..] + b;
      SelectConcat(a[1..], b, name);
    }
  }

  lemma {:induction false} InsertedAt(h: Fields, f: Field) returns (k: nat)
    ensures k <= |h| && Insert(h, f) == h[..k] + [f] + h[k..]
    ensures forall i :: 0 <= i < k ==> !Less(f.name, h[i].name)
    ensures k < |h| ==> Less(f.name, h[k].name)
    decreases |h|
  {
    if h == [] || Less(f.name, h[0].name) {
      k := 0;
    } else {
      var m := InsertedAt(h[1..], f);
      k := m + 1;
      assert h[1..][..m] == h[1..k] && h[1..][m..] == h[k..];
      assert h[..k] == [h[0]] + h[1..k];
    }
  }

  /** Where a name goes in a sorted container separates the fields that do not come
      after it from those that do. */
  lemma InsertAt(h: Fields, f: Field, k: nat)
    requires Sorted(h) && k <= |h|
    requires forall i :: 0 <= i < k ==> !Less(f.name, h[i].name)
    requires k < |h| ==> Less(f.name, h[k].name)
    ensures Insert(h, f) == h[..k] + [f] + h[k..]
  {
    var m := InsertedAt(h, f);
    LaterStayLater(h, f, m);
    LaterStayLater(h, f, k);
  }

  lemma LaterStayLater(h: Fields, f: Field, k: nat)
    requires Sorted(h) && k <= |h| && (k < |h| ==> Less(f.name, h[k].name))
    ensures forall i :: k <= i < |h| ==> Less(f.name, h[i].name)
  {
    forall i | k <= i < |h| ensures Less(f.name, h[i].name) {
      if !Less(f.name, h[i].name) && k < i {
        NotLessTransitive(h[k].name, h[i].name, f.name);
      }
    }
  }

  lemma InsertKeepsSorted(h: Fields, f: Field)
    requires Sorted(h)
    ensures Sorted(Insert(h, f))
  {
    var k := InsertedAt(h, f);
    LaterStayLater(h, f, k);
    var r := Insert(h, f);
    forall i, j | 0 <= i < j < |r| ensures !Less(r[j].name, r[i].name) {
      LessTrichotomy(r[i].name, r[j].name);
    }
  }

  lemma InsertSelect(h: Fields, f: Field, name: string)
    requires Sorted(h)
    ensures Select(Insert(h, f), name) == Select(h, name) + (if SameName(f.name, name) then [f] else [])
  {
    hide Insert, Select, Less, SameName, Sorted;
    var k := InsertedAt(h, f);
    var a, b := h[..k], h[k..];
    assert h == a + b;
    SelectConcat(a + [f], b, name);
    SelectConcat(a, [f], name);
    SelectConcat(a, b, name);
    SelectOne(f, name);
    if SameName(f.name, name) {
      LaterStayLater(h, f, k);
      forall i | 0 <= i < |b| ensures !SameName(b[i].name, name) {
        NotSameAsLater(f.name, h[k + i].name, name);
      }
      SelectNone(b, name);
    }
  }

  lemma SelectOne(f: Field, name: string)
    ensures Select([f], name) == if SameName(f.name, name) then [f] else []
  {
    assert [f][1..] == [];
  }

  lemma NotSameAsLater(a: string, b: string, name: string)
    requires Less(a, b) && SameName(a, name)
    ensures !SameName(b, name)
  {
    LessTrichotomy(a, b);
  }

  lemma {:induction false} SelectNone(h: Fields, name: string)
    requires forall i :: 0 <= i < |h| ==> !SameName(h[i].name, name)
    ensures Select(h, name) == []
    decreases |h|
  {
    if h != [] {
      SelectNone(h[1..], name);
    }
  }

  // -------------------------------------------------- the container as a stable sort

  /** `h` holds the fields of `fs`, by name, equal names in their order in `fs`. */
  ghost predicate StableSort(fs: seq<Field>, h: Fields) {
    Sorted(h) && forall name :: Select(h, name) == Select(fs, name)
  }

  lemma {:induction false} FromListSorts(fs: seq<Field>)
    ensures StableSort(fs, FromList(fs))
    decreases |fs|
  {
    if fs != [] {
      var front, f := fs[..|fs| - 1], fs[|fs| - 1];
      FromListSorts(front);
      InsertKeepsSorted(FromList(front), f);
      forall name ensures Select(FromList(fs), name) == Select(fs, name) {
        InsertSelect(FromList(front), f, name);
        SelectConcat(front, [f], name);
        assert fs == front + [f];
        assert [f][1..] == [];
      }
    }
  }

  lemma {:induction false} SelectSome(h: Fields, name: string) returns (i: nat)
    requires Select(h, name) != []
    ensures i < |h| && SameName(h[i].name, name)
    decreases |h|
  {
    if SameName(h[0].name, name) {
      i := 0;
    } else {
      i := SelectSome(h[1..], name);
      i := i + 1;
    }
  }

  lemma FirstIsSame(g: Fields, h: Fields)
    requires Sorted(g) && Sorted(h) && forall name :: Select(g, name) == Select(h, name)
    requires g != []
    ensures h != [] && g[0] == h[0]
  {
    var a := g[0].name;
    assert Select(g, a) != [];
    var i := SelectSome(h, a);
    var b := h[0].name;
    assert Select(h, b) != [];
    var j := SelectSome(g, b);
    SameNameSameOrder(h[i].name, a, b);
    SameNameSameOrder(g[j].name, b, a);
    LessTrichotomy(a, b);
    assert SameName(a, b);
    assert Select(g, a)[0] == g[0] && Select(h, a)[0] == h[0];
  }

  /** There is one way to keep fields sorted by name and stable. */
  lemma {:induction false} SortedOneWay(g: Fields, h: Fields)
    requires Sorted(g) && Sorted(h) && forall name :: Select(g, name) == Select(h, name)
    ensures g == h
    decreases |g|
  {
    if g == [] {
      var name := if h == [] then "" else h[0].name;
      assert Select(g, name) == Select(h, name);
    } else {
      FirstIsSame(g, h);
      forall name ensures Select(g[1..], name) == Select(h[1..], name) {
        assert Select(g, name) == Select(h, name);
        var first := if SameName(g[0].name, name) then [g[0]] else [];
        assert Select(g, name)[|first|..] == Select(g[1..], name);
        assert Select(h, name)[|first|..] == Select(h[1..], name);
      }
      SortedOneWay(g[1..], h[1..]);
      assert g == [g[0]] + g[1..] && h == [h[0]] + h[1..];
    }
  }

  /** The container after inserting a list of fields is its stable sort, and
      nothing else is. */
  lemma ContainerIsStableSort(fs: seq<Field>, h: Fields)
    ensures StableSort(fs, h) <==> h == FromList(fs)
  {
    FromListSorts(fs);
    if StableSort(fs, h) {
      forall name ensures Select(h, name) == Select(FromList(fs), name) {
        assert Select(h, name) == Select(fs, name);
        assert Select(FromList(fs), name) == Select(fs, name);
      }
      SortedOneWay(h, FromList(fs));
    }
  }

  // -------------------------------------------------------------------- erasing

  lemma {:induction false} EraseSelect(h: Fields, gone: string, name: string)
    ensures Select(Erase(h, gone), name) == if SameName(gone, name) then [] else Select(h, name)
    decreases |h|
  {
    if h != [] {
      EraseSelect(h[1..], gone, name);
      var first := if SameName(h[0].name, gone) then [] else [h[0]];
      SelectConcat(first, Erase(h[1..], gone), name);
      if first != [] {
        assert first[1..] == [];
      }
    }
  }

  /** Erasing keeps a subsequence, so what holds of each field still holds. */
  lemma {:induction false} EraseKeepsFields(h: Fields, gone: string, i: nat) returns (j: nat)
    requires i < |Erase(h, gone)|
    ensures i <= j < |h| && Erase(h, gone)[i] == h[j] && !SameName(h[j].name, gone)
    decreases |h|
  {
    if SameName(h[0].name, gone) {
      j := EraseKeepsFields(h[1..], gone, i);
      j := j + 1;
    } else if i == 0 {
      j := 0;
    } else {
      j := EraseKeepsFields(h[1..], gone, i - 1);
      j := j + 1;
    }
  }

  lemma {:induction false} EraseKeepsSorted(h: Fields, gone: string)
    requires Sorted(h)
    ensures Sorted(Erase(h, gone))
    decreases |h|
  {
    if h != [] {
      assert Sorted(h[1..]);
      EraseKeepsSorted(h[1..], gone);
      var t := Erase(h[1..], gone);
      var r := Erase(h, gone);
      if !SameName(h[0].name, gone) {
        forall i, j | 0 <= i < j < |r| ensures !Less(r[j].name, r[i].name) {
          var k := EraseKeepsFields(h[1..], gone, j - 1);
          assert r[j] == h[k + 1];
          if i > 0 {
            assert r[i] == t[i - 1];
          }
        }
      }
    }
  }

  lemma {:induction false} EraseTwice(h: Fields, gone: string)
    ensures Erase(Erase(h, gone), gone) == Erase(h, gone)
    decreases |h|
  {
    if h != [] {
      EraseTwice(h[1..], gone);
      assert [] + Erase(h[1..], gone) == Erase(h[1..], gone);
      if !SameName(h[0].name, gone) {
        assert Erase(h, gone)[1..] == Erase(h[1..], gone);
      }
    }
  }

  lemma {:induction false} EraseCommutes(h: Fields, a: string, b: string)
    ensures Erase(Erase(h, a), b) == Erase(Erase(h, b), a)
    decreases |h|
  {
    if h != [] {
      EraseCommutes(h[1..], a, b);
      assert [] + Erase(h[1..], a) == Erase(h[1..], a) && [] + Erase(h[1..], b) == Erase(h[1..], b);
      if !SameName(h[0].name, a) {
        assert Erase(h, a)[1..] == Erase(h[1..], a);
      }
      if !SameName(h[0].name, b) {
        assert Erase(h, b)[1..] == Erase(h[1..], b);
      }
    }
  }

  // -------------------------------------------------------------- the container

  class HeadersContainer {
    var fields: Fields

    constructor ()
      ensures fields == []
    {
      fields := [];
    }

    constructor From(h: Fields)
      ensures fields == h
    {
      fields := h;
    }

    method InsertField(name: string, value: string)
      requires Sorted(fields)
      modifies this
      ensures fields == Insert(old(fields), Field(name, value)) && Sorted(fields)
    {
      var k := 0;
      while k < |fields| && !Less(name, fields[k].name)
        invariant 0 <= k <= |fields|
        invariant forall i :: 0 <= i < k ==> !Less(name, fields[i].name)
      {
        k := k + 1;
      }
      InsertAt(fields, Field(name, value), k);
      InsertKeepsSorted(fields, Field(name, value));
      fields := fields[..k] + [Field(name, value)] + fields[k..];
    }

    /** Removes every field of a name and says how many there were. */
    method EraseHeader(name: string) returns (count: nat)
      modifies this
      ensures fields == Erase(old(fields), name) == Others(old(fields), name)
      ensures |fields| + count == |old(fields)|
    {
      var kept: Fields := [];
      var i := 0;
      count := 0;
      assert fields[0..] == fields;
      while i < |fields|
        invariant 0 <= i <= |fields| && fields == old(fields)
        invariant kept + Erase(fields[i..], name) == Erase(fields, name)
        invariant |kept| + count == i
      {
        assert fields[i..][1..] == fields[i + 1..];
        if SameName(fields[i].name, name) {
          count := count + 1;
        } else {
          kept := kept + [fields[i]];
        }
        i := i + 1;
      }
      EraseLeavesOthers(fields, name);
      fields := kept;
    }

    method GetHeaderValue(name: string) returns (value: Option<string>)
      ensures value == Lookup(fields, name)
      ensures value.Some? <==> exists f :: f in fields && SameLetters(f.name, name)
      ensures value.Some? ==> exists k :: 0 <= k < |fields| && value == Some(fields[k].value)
                                          && SameLetters(fields[k].name, name)
                                          && forall i :: 0 <= i < k ==> !SameLetters(fields[i].name, name)
    {
      hide SameLetters, SameName;
      ghost var first := LookupFinds(fields, name);
      var i := 0;
      assert fields[0..] == fields;
      while i < |fields|
        invariant 0 <= i <= |fields|
        invariant Lookup(fields[i..], name) == Lookup(fields, name)
      {
        assert fields[i..][1..] == fields[i + 1..];
        if SameName(fields[i].name, name) {
          return Some(fields[i].value);
        }
        i := i + 1;
      }
      value := None;
    }
  }
}
