/**
  Character classes, decimal numerals and the handful of string operations the
  translators use (Go's strings/strconv/bytes helpers, restricted to ASCII).
*/
module Text {
  import opened Common

  /** ASCII decimal digit (the model's stand-in for unicode.IsDigit). */
  predicate IsDigit(c: char) {
    '0' <= c <= '9'
  }

  /** ASCII white space: the characters unicode.IsSpace accepts below 0x80 (tab, line feed, vertical tab, form feed, carriage return and space). */
  predicate IsSpace(c: char) {
    c == ' ' || '\t' <= c <= '\r'
  }

  predicate AllDigits(s: string) {
    forall i :: 0 <= i < |s| ==> IsDigit(s[i])
  }

  /** A non-empty run of decimal digits, without sign: what the model accepts as a numeral. */
  predicate IsDecimal(s: string) {
    |s| > 0 && AllDigits(s)
  }

  function DigitValue(c: char): nat
    requires IsDigit(c)
  {
    (c as int - '0' as int) as nat
  }

  function DigitChar(d: nat): (c: char)
    requires d < 10
    ensures IsDigit(c) && DigitValue(c) == d
  {
    ('0' as int + d) as char
  }

  /** The value of a digit string read in base 10. */
  function DecimalValue(s: string): nat
    requires AllDigits(s)
  {
    if |s| == 0 then 0 else 10 * DecimalValue(s[..|s| - 1]) + DigitValue(s[|s| - 1])
  }

  /** Decimal rendering of a natural number, as Go's %d prints it. */
  function NatToString(n: nat): (s: string)
    ensures IsDecimal(s) && DecimalValue(s) == n
    ensures s[0] == '0' ==> s == "0"
    ensures |s| == 1 <==> n < 10
  {
    if n < 10 then [DigitChar(n)]
    else
      var p := NatToString(n / 10);
      var s := p + [DigitChar(n % 10)];
      assert s[..|s| - 1] == p;
      s
  }

  lemma {:induction false} NatToStringInjective(a: nat, b: nat)
    requires NatToString(a) == NatToString(b)
    ensures a == b
  {
  }

  /** Go's %d for a signed int. */
  function IntToString(i: int): (s: string)
    ensures i >= 0 ==> s == NatToString(i)
    ensures i < 0 ==> s == "-" + NatToString(-i)
  {
    if i < 0 then "-" + NatToString(-i) else NatToString(i)
  }

  /** strconv-style parse of an unsigned decimal: None unless the string is a numeral. */
  function ParseDecimal(s: string): (r: Option<nat>)
    ensures r.Some? <==> IsDecimal(s)
    ensures r.Some? ==> r.value == DecimalValue(s)
  {
    if IsDecimal(s) then Some(DecimalValue(s)) else None
  }

  /** The largest value of Go's 64-bit int. */
  const MaxInt: nat := 0x7FFF_FFFF_FFFF_FFFF

  /** strconv.Atoi on a 64-bit platform: a numeral whose value fits in int, and a range error above it. */
  function Atoi(s: string): (r: Option<nat>)
    ensures r.Some? <==> IsDecimal(s) && DecimalValue(s) <= MaxInt
    ensures r.Some? ==> r.value == DecimalValue(s)
  {
    var v :- ParseDecimal(s);
    if v <= MaxInt then Some(v) else None
  }

  lemma {:induction false} ParseNatToString(n: nat)
    ensures ParseDecimal(NatToString(n)) == Some(n)
  {
  }

  predicate HasPrefix(s: string, p: string) {
    |p| <= |s| && s[..|p|] == p
  }

  predicate HasSuffix(s: string, p: string) {
    |p| <= |s| && s[|s| - |p|..] == p
  }

  /** pat occurs in s starting at index j. */
  predicate OccursAt(s: string, pat: string, j: int) {
    0 <= j && j + |pat| <= |s| && s[j..j + |pat|] == pat
  }

  function IndexFrom(s: string, pat: string, i: nat): (r: Option<nat>)
    requires i <= |s|
    decreases |s| - i
    ensures r.Some? ==> i <= r.value && OccursAt(s, pat, r.value)
    ensures r.Some? ==> forall j :: i <= j < r.value ==> !OccursAt(s, pat, j)
    ensures r.None? ==> forall j :: i <= j <= |s| ==> !OccursAt(s, pat, j)
  {
    if OccursAt(s, pat, i) then Some(i)
    else if i == |s| then None
    else IndexFrom(s, pat, i + 1)
  }

  /** strings.Index: the first occurrence of pat in s, if any. */
  function IndexOf(s: string, pat: string): (r: Option<nat>)
    ensures r.Some? ==> OccursAt(s, pat, r.value)
    ensures r.Some? ==> forall j :: 0 <= j < r.value ==> !OccursAt(s, pat, j)
    ensures r.None? ==> forall j :: 0 <= j <= |s| ==> !OccursAt(s, pat, j)
  {
    IndexFrom(s, pat, 0)
  }

  /** The text of s before the first occurrence of pat, or all of s when pat does not occur. */
  function BeforeFirst(s: string, pat: string): (r: string)
    ensures HasPrefix(s, r)
    ensures |pat| > 0 ==> forall j :: 0 <= j <= |r| ==> !OccursAt(r, pat, j)
    ensures r != s ==> OccursAt(s, pat, |r|)
  {
    match IndexOf(s, pat)
    case None => s
    case Some(i) =>
      var r := s[..i];
      assert forall j :: 0 <= j <= |r| && OccursAt(r, pat, j) ==> OccursAt(s, pat, j) by {
        forall j | 0 <= j <= |r| && OccursAt(r, pat, j) ensures OccursAt(s, pat, j) {
          assert s[j..j + |pat|] == r[j..j + |pat|];
        }
      }
      r
  }

  predicate AllSpace(s: string) {
    forall i :: 0 <= i < |s| ==> IsSpace(s[i])
  }

  /** The end of the run of white space that starts at i and stops at `end` at the latest. */
  function SpaceRunEnd(s: string, i: nat, end: nat): (r: nat)
    requires i <= end <= |s|
    ensures i <= r <= end && (r == end || !IsSpace(s[r]))
    decreases end - i
  {
    if i < end && IsSpace(s[i]) then SpaceRunEnd(s, i + 1, end) else i
  }

  /** The start of the run of white space that ends at j and starts at `start` at the earliest. */
  function SpaceRunStart(s: string, j: nat, start: nat): (r: nat)
    requires start <= j <= |s|
    ensures start <= r <= j && (r == start || !IsSpace(s[r - 1]))
  {
    if start < j && IsSpace(s[j - 1]) then SpaceRunStart(s, j - 1, start) else j
  }

  /** s[i..j] with the white space at both of its ends dropped. */
  function TrimWithin(s: string, i: nat, j: nat): (r: string)
    requires i <= j <= |s|
    ensures Trimmed(r) && |r| <= j - i
  {
    var a := SpaceRunEnd(s, i, j);
    s[a..SpaceRunStart(s, j, a)]
  }

  /** strings.TrimSpace / bytes.TrimSpace on ASCII text. */
  function TrimSpace(s: string): (r: string)
    ensures Trimmed(r) && |r| <= |s|
  {
    TrimWithin(s, 0, |s|)
  }

  /** Text with no white space at either end. */
  predicate Trimmed(s: string) {
    s == [] || (!IsSpace(s[0]) && !IsSpace(s[|s| - 1]))
  }

  lemma {:induction false} TrimSpaceOfTrimmed(s: string)
    requires Trimmed(s)
    ensures TrimSpace(s) == s
  {
    assert s[0..|s|] == s;
  }

  lemma {:induction false} SpaceRunEndAt(w: string, i: nat, n: nat, end: nat)
    requires i <= n <= end <= |w| && (forall k :: i <= k < n ==> IsSpace(w[k])) && (n == end || !IsSpace(w[n]))
    ensures SpaceRunEnd(w, i, end) == n
    decreases n - i
  {
    if i < n {
      SpaceRunEndAt(w, i + 1, n, end);
    }
  }

  lemma {:induction false} SpaceRunStartAt(w: string, j: nat, n: nat, start: nat)
    requires start <= n <= j <= |w| && (forall k :: n <= k < j ==> IsSpace(w[k])) && (n == start || !IsSpace(w[n - 1]))
    ensures SpaceRunStart(w, j, start) == n
    decreases j
  {
    if n < j {
      SpaceRunStartAt(w, j - 1, n, start);
    }
  }

  /** Trimming keeps exactly the characters between the outer runs of white space. */
  lemma {:induction false} TrimSpaceAround(pre: string, s: string, post: string)
    requires Trimmed(s) && AllSpace(pre) && AllSpace(post)
    ensures TrimSpace(pre + s + post) == s
  {
    var w := pre + s + post;
    var b := |pre| + |s|;
    if s == [] {
      SpaceRunEndAt(w, 0, |w|, |w|);
    } else {
      SpaceRunEndAt(w, 0, |pre|, |w|);
      SpaceRunStartAt(w, |w|, b, |pre|);
      assert w[|pre|..b] == s;
    }
  }

  /** Trimming a prefix looks at the same characters as trimming within the whole text. */
  lemma {:induction false} TrimWithinPrefix(s: string, c: nat)
    requires c <= |s|
    ensures TrimSpace(s[..c]) == TrimWithin(s, 0, c)
  {
    var p := s[..c];
    SpaceRunEndPrefix(s, c, 0);
    var a := SpaceRunEnd(s, 0, c);
    SpaceRunStartPrefix(s, c, c, a);
    assert p[a..SpaceRunStart(s, c, a)] == s[a..SpaceRunStart(s, c, a)];
  }

  lemma {:induction false} SpaceRunEndPrefix(s: string, c: nat, i: nat)
    requires i <= c <= |s|
    ensures SpaceRunEnd(s[..c], i, c) == SpaceRunEnd(s, i, c)
    decreases c - i
  {
    if i < c {
      assert s[..c][i] == s[i];
      SpaceRunEndPrefix(s, c, i + 1);
    }
  }

  lemma {:induction false} SpaceRunStartPrefix(s: string, c: nat, j: nat, start: nat)
    requires start <= j <= c <= |s|
    ensures SpaceRunStart(s[..c], j, start) == SpaceRunStart(s, j, start)
    decreases j
  {
    if start < j {
      assert s[..c][j - 1] == s[j - 1];
      SpaceRunStartPrefix(s, c, j - 1, start);
    }
  }

  predicate SpaceFree(s: string) {
    forall i :: 0 <= i < |s| ==> !IsSpace(s[i])
  }

  /** The longest prefix of s without white space. */
  function Word(s: string): (w: string)
    ensures HasPrefix(s, w) && SpaceFree(w)
    ensures |w| < |s| ==> IsSpace(s[|w|])
  {
    if s == [] || IsSpace(s[0]) then [] else [s[0]] + Word(s[1..])
  }

  /** strings.Fields: the maximal runs of non-space characters, in order. */
  function Fields(s: string): (fs: seq<string>)
    decreases |s|
    ensures forall k :: 0 <= k < |fs| ==> |fs[k]| > 0 && SpaceFree(fs[k])
  {
    if s == [] then []
    else if IsSpace(s[0]) then Fields(s[1..])
    else
      var w := Word(s);
      [w] + Fields(s[|w|..])
  }

  /** Fields joined by single spaces (the layout of a formatted VM command). */
  function JoinSpace(fs: seq<string>): string {
    if fs == [] then ""
    else if |fs| == 1 then fs[0]
    else fs[0] + " " + JoinSpace(fs[1..])
  }

  lemma {:induction false} WordOfJoin(f: string, rest: string)
    requires SpaceFree(f)
    requires rest == [] || IsSpace(rest[0])
    ensures Word(f + rest) == f
    decreases |f|
  {
    if f != [] {
      assert (f + rest)[1..] == f[1..] + rest;
      WordOfJoin(f[1..], rest);
    }
  }

  /** Splitting a space-joined list of non-empty space-free words gives the words back. */
  lemma {:induction false} FieldsOfJoin(fs: seq<string>)
    requires forall k :: 0 <= k < |fs| ==> |fs[k]| > 0 && SpaceFree(fs[k])
    ensures Fields(JoinSpace(fs)) == fs
    decreases |fs|
  {
    if |fs| == 1 {
      WordOfJoin(fs[0], []);
      assert fs[0] + [] == fs[0];
      assert JoinSpace(fs)[|fs[0]|..] == [];
    } else if |fs| > 1 {
      var s := JoinSpace(fs);
      var rest := " " + JoinSpace(fs[1..]);
      assert s == fs[0] + rest;
      WordOfJoin(fs[0], rest);
      assert s[|fs[0]|..] == rest;
      assert rest[1..] == JoinSpace(fs[1..]);
      FieldsOfJoin(fs[1..]);
    }
  }

  /**
    Splitting at the last separator: when neither suffix contains sep,
    p + [sep] + s determines both p and s. This is why "prefix.N" and
    "PREFIX_N" labels with different numbers or prefixes never coincide.
  */
  lemma {:induction false} SplitAtLastSeparator(p: string, s: string, q: string, t: string, sep: char)
    requires sep !in s && sep !in t
    requires p + [sep] + s == q + [sep] + t
    ensures p == q && s == t
  {
    var w := p + [sep] + s;
    assert w[|w| - |s| - 1] == sep && w[|w| - |t| - 1] == sep;
    assert |s| == |t|;
    assert s == w[|w| - |s|..] == t;
    assert p == w[..|p|] == q;
  }

  lemma {:induction false} NatToStringHasNo(n: nat, c: char)
    requires !IsDigit(c)
    ensures c !in NatToString(n)
  {
  }

  /** The first occurrence of a character is right after the longest prefix without it. */
  lemma {:induction false} IndexOfChar(p: string, c: char, q: string)
    requires c !in p
    ensures IndexOf(p + [c] + q, [c]) == Some(|p|)
  {
    var s := p + [c] + q;
    assert s[|p|..|p| + 1] == [c];
    assert OccursAt(s, [c], |p|);
    forall j | 0 <= j < |p| ensures !OccursAt(s, [c], j) {
      assert s[j..j + 1] == [p[j]] && p[j] in p;
    }
    var r := IndexOf(s, [c]);
    assert r.Some? && r.value <= |p|;
    assert r.value == |p|;
  }

  lemma {:induction false} IndexOfAbsent(s: string, c: char)
    requires c !in s
    ensures IndexOf(s, [c]) == None
  {
    forall j | 0 <= j < |s| ensures !OccursAt(s, [c], j) {
      assert s[j..j + 1] == [s[j]];
    }
  }
}
