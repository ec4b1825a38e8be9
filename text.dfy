/**
 * Character-level helpers shared by the PLY and NPY header parsers: line
 * ends, the C-locale character classes, decimal digit runs and their
 * values, and std::string::find.
 */
module Text {
  import opened Wrappers

  /** First index at or after pos holding a newline, or the end of s. */
  function LineEnd(s: string, pos: nat): (e: nat)
    requires pos <= |s|
    ensures pos <= e <= |s|
    ensures e == |s| || s[e] == '\n'
    ensures forall k :: pos <= k < e ==> s[k] != '\n'
    decreases |s| - pos
  {
    if pos == |s| || s[pos] == '\n' then pos else LineEnd(s, pos + 1)
  }

  /**
   * The characters from pos up to the next newline, and the index after
   * that newline (or the end of s when there is none).
   */
  function NextLine(s: string, pos: nat): (r: (string, nat))
    requires pos <= |s|
    ensures '\n' !in r.0
    ensures pos + |r.0| <= r.1 <= |s| && s[pos..pos + |r.0|] == r.0
    ensures (r.1 == pos + |r.0| + 1 && s[r.1 - 1] == '\n') || r.1 == |s| == pos + |r.0|
  {
    var e := LineEnd(s, pos);
    (s[pos..e], if e < |s| then e + 1 else e)
  }

  /** isspace in the C locale. */
  predicate IsSpace(c: char)
  {
    c == ' ' || c == '\t' || c == '\n' || c == '\r' || c == 11 as char || c == 12 as char
  }

  predicate IsDigit(c: char)
  {
    '0' <= c <= '9'
  }

  predicate AllDigits(d: string)
  {
    forall k :: 0 <= k < |d| ==> IsDigit(d[k])
  }

  function DigitValue(c: char): (v: nat)
    requires IsDigit(c)
    ensures v < 10
  {
    c as int - '0' as int
  }

  function DigitChar(v: nat): (c: char)
    requires v < 10
    ensures IsDigit(c) && DigitValue(c) == v
    ensures !IsSpace(c)
  {
    ('0' as int + v) as char
  }

  /** Length of the leading run of decimal digits of s. */
  function DigitsLength(s: string): (n: nat)
    ensures n <= |s|
    ensures AllDigits(s[..n])
    ensures n == |s| || !IsDigit(s[n])
  {
    if s == [] || !IsDigit(s[0]) then 0
    else
      var n := 1 + DigitsLength(s[1..]);
      assert s[..n] == [s[0]] + s[1..][..n - 1];
      n
  }

  /** Length of the leading run of C-locale white space of s. */
  function SpacesLength(s: string): (n: nat)
    ensures n <= |s|
    ensures forall k :: 0 <= k < n ==> IsSpace(s[k])
    ensures n == |s| || !IsSpace(s[n])
  {
    if s == [] || !IsSpace(s[0]) then 0 else 1 + SpacesLength(s[1..])
  }

  /** The value of a string of decimal digits, most significant first (0 for the empty string). */
  function DecimalValue(d: string): nat
    requires AllDigits(d)
    decreases |d|
  {
    if d == [] then 0 else 10 * DecimalValue(d[..|d| - 1]) + DigitValue(d[|d| - 1])
  }

  /** The value of the leading digits of s. */
  function LeadingValue(s: string): nat
  {
    DecimalValue(s[..DigitsLength(s)])
  }

  /** The shortest decimal rendering of n, as printf("%zu") writes it. */
  function Decimal(n: nat): (d: string)
    ensures |d| > 0 && AllDigits(d)
  {
    if n < 10 then [DigitChar(n)] else Decimal(n / 10) + [DigitChar(n % 10)]
  }

  /** Reading a rendered number gives the number back. */
  lemma {:induction false} DecimalValueOfDecimal(n: nat)
    ensures DecimalValue(Decimal(n)) == n
  {
    var d := Decimal(n);
    if n >= 10 {
      DecimalValueOfDecimal(n / 10);
      assert d[..|d| - 1] == Decimal(n / 10);
    }
  }

  /** A digit string followed by nothing or by a non-digit is exactly the leading run. */
  lemma {:induction false} DigitsLengthOf(d: string, rest: string)
    requires AllDigits(d)
    requires rest == [] || !IsDigit(rest[0])
    ensures DigitsLength(d + rest) == |d|
    decreases |d|
  {
    if d == [] {
      assert d + rest == rest;
    } else {
      assert (d + rest)[1..] == d[1..] + rest;
      DigitsLengthOf(d[1..], rest);
    }
  }

  /** pat occurs in s at j. */
  predicate MatchAt(s: string, pat: string, j: nat)
  {
    j + |pat| <= |s| && s[j..j + |pat|] == pat
  }

  /** std::string::find(pat) from index from on: the first occurrence, or None for npos. */
  function FindFrom(s: string, pat: string, from: nat): (r: Option<nat>)
    ensures r.Some? ==> from <= r.value && MatchAt(s, pat, r.value)
    ensures r.Some? ==> forall j :: from <= j < r.value ==> !MatchAt(s, pat, j)
    ensures r.None? ==> forall j :: from <= j ==> !MatchAt(s, pat, j)
    decreases |s| - from
  {
    if from + |pat| > |s| then None
    else if s[from..from + |pat|] == pat then Some(from)
    else FindFrom(s, pat, from + 1)
  }

  function Find(s: string, pat: string): (r: Option<nat>)
    ensures r.Some? ==> MatchAt(s, pat, r.value) && forall j :: 0 <= j < r.value ==> !MatchAt(s, pat, j)
    ensures r.None? ==> forall j: nat :: !MatchAt(s, pat, j)
  {
    FindFrom(s, pat, 0)
  }

  /** When nothing before |a| matches, find lands on the occurrence that follows a. */
  lemma FindAfter(a: string, pat: string, b: string)
    requires forall j :: 0 <= j < |a| ==> !MatchAt(a + pat + b, pat, j)
    ensures Find(a + pat + b, pat) == Some(|a|)
  {
    var s := a + pat + b;
    assert s[|a|..|a| + |pat|] == pat;
    assert MatchAt(s, pat, |a|);
  }

  /** The first occurrence of a character is where it first appears. */
  lemma FindChar(a: string, c: char, b: string)
    requires c !in a
    ensures Find(a + [c] + b, [c]) == Some(|a|)
  {
    var s := a + [c] + b;
    forall j | 0 <= j < |a|
      ensures !MatchAt(s, [c], j)
    {
      assert s[j] == a[j];
    }
    FindAfter(a, [c], b);
  }

  const IntMin: int := -0x8000_0000
  const IntMax: int := 0x7FFF_FFFF

  /** 2^64: the number of size_t values on a 64-bit target. */
  const SizeModulus: nat := 0x1_0000_0000_0000_0000

  /** static_cast<size_t> of an integer on a 64-bit target: the value modulo 2^64. */
  function SizeT(n: int): (r: nat)
    ensures r < SizeModulus
    ensures 0 <= n < SizeModulus ==> r == n
  {
    n % SizeModulus
  }
}
