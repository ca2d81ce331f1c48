/**
 * The string operations the harvester relies on, written out as Python defines
 * them: `str.splitlines()`, `"\n".join(...)`, decimal formatting with zero
 * padding, hexadecimal digests and the substring test `needle in hay`.
 */
module Text {

  /** The characters Python's `str.splitlines()` treats as line boundaries. */
  predicate IsLineBreak(c: char) {
    c == '\n' || c == '\r' || c == '\U{B}' || c == '\U{C}' || c == '\U{1C}' ||
    c == '\U{1D}' || c == '\U{1E}' || c == '\U{85}' || c == '\U{2028}' || c == '\U{2029}'
  }

  /** No line boundary inside `s`. */
  predicate NoBreak(s: string) {
    forall k :: 0 <= k < |s| ==> !IsLineBreak(s[k])
  }

  /** A line that survives a join and a split unchanged: non-empty, no boundary inside. */
  predicate IsLine(s: string) {
    s != [] && NoBreak(s)
  }

  /** The position of the first line boundary in `s`, or `|s|` when there is none. */
  function FirstBreak(s: string): (i: nat)
    ensures i <= |s|
    ensures i < |s| ==> IsLineBreak(s[i])
    ensures forall k :: 0 <= k < i ==> !IsLineBreak(s[k])
  {
    if s == [] || IsLineBreak(s[0]) then 0 else 1 + FirstBreak(s[1..])
  }

  /**
   * `s.splitlines()`: the lines of `s` without their boundaries. "\r\n" is a
   * single boundary, and a boundary at the very end opens no empty last line.
   */
  function SplitLines(s: string): (lines: seq<string>)
    ensures forall k :: 0 <= k < |lines| ==> NoBreak(lines[k])
    decreases |s|
  {
    if s == [] then []
    else
      var i := FirstBreak(s);
      if i == |s| then [s]
      else
        var width := if s[i] == '\r' && i + 1 < |s| && s[i + 1] == '\n' then 2 else 1;
        [s[..i]] + SplitLines(s[i + width..])
  }

  /** `"\n".join(lines)`. */
  function JoinLines(lines: seq<string>): string {
    if lines == [] then []
    else if |lines| == 1 then lines[0]
    else lines[0] + "\n" + JoinLines(lines[1..])
  }

  /** Splitting a joined sequence of lines gives back exactly those lines. */
  lemma {:induction false} SplitJoin(lines: seq<string>)
    requires forall k :: 0 <= k < |lines| ==> IsLine(lines[k])
    ensures SplitLines(JoinLines(lines)) == lines
  {
    if lines != [] {
      var a := lines[0];
      assert IsLine(a);
      if |lines| == 1 {
        assert FirstBreak(a) == |a|;
      } else {
        var rest := JoinLines(lines[1..]);
        var s := a + "\n" + rest;
        assert s[|a|] == '\n';
        assert FirstBreak(s) == |a|;
        assert s[..|a|] == a;
        assert s[|a| + 1..] == rest;
        SplitJoin(lines[1..]);
      }
    }
  }

  /** Every element of `s` occurs in `xs` exactly once and `xs` holds nothing else: one iteration order of `s`. */
  predicate Enumerates<T>(xs: seq<T>, s: set<T>) {
    (forall k :: 0 <= k < |xs| ==> xs[k] in s) &&
    (forall x :: x in s ==> x in xs) &&
    (forall i, j :: 0 <= i < j < |xs| ==> xs[i] != xs[j])
  }

  predicate IsHexDigit(c: char) {
    '0' <= c <= '9' || 'a' <= c <= 'f'
  }

  /** What `hashlib.sha256(...).hexdigest()` returns: 64 lower-case hexadecimal digits. */
  predicate IsHexDigest(s: string) {
    |s| == 64 && forall k :: 0 <= k < |s| ==> IsHexDigit(s[k])
  }

  predicate IsDigit(c: char) {
    '0' <= c <= '9'
  }

  predicate AllDigits(s: string) {
    forall k :: 0 <= k < |s| ==> IsDigit(s[k])
  }

  function DigitChar(d: nat): (c: char)
    requires d < 10
    ensures IsDigit(c) && c as int - '0' as int == d
  {
    ('0' as int + d) as char
  }

  function Pow10(k: nat): (p: nat)
    ensures p >= 1
  {
    if k == 0 then 1 else 10 * Pow10(k - 1)
  }

  /** `str(n)` for a natural number: its decimal digits, most significant first, no leading zero. */
  function Decimal(n: nat): (s: string)
    ensures 1 <= |s| && AllDigits(s)
    decreases n
  {
    if n < 10 then [DigitChar(n)] else Decimal(n / 10) + [DigitChar(n % 10)]
  }

  /** `int(s)` for a string of decimal digits (leading zeros allowed). */
  function ParseDecimal(s: string): nat
    requires AllDigits(s)
  {
    if s == [] then 0
    else ParseDecimal(s[..|s| - 1]) * 10 + (s[|s| - 1] as int - '0' as int)
  }

  function Zeros(k: nat): (z: string)
    ensures |z| == k && AllDigits(z)
  {
    if k == 0 then [] else Zeros(k - 1) + ['0']
  }

  /** The `0<width>d` format: left-pad `s` with zeros up to `width` characters, never truncating. */
  function ZeroPad(s: string, width: nat): (r: string)
    ensures |r| == if |s| >= width then |s| else width
  {
    if |s| >= width then s else Zeros(width - |s|) + s
  }

  /** Parsing the decimal form of `n` gives back `n`. */
  lemma {:induction false} ParseDecimalOfDecimal(n: nat)
    ensures ParseDecimal(Decimal(n)) == n
    decreases n
  {
    if n >= 10 {
      var s := Decimal(n);
      assert s[..|s| - 1] == Decimal(n / 10);
      ParseDecimalOfDecimal(n / 10);
    }
  }

  /** Leading zeros do not change the parsed value. */
  lemma {:induction false} ParseDecimalLeadingZeros(k: nat, s: string)
    requires AllDigits(s)
    ensures AllDigits(Zeros(k) + s) && ParseDecimal(Zeros(k) + s) == ParseDecimal(s)
    decreases |s|, k
  {
    var t := Zeros(k) + s;
    assert AllDigits(t) by {
      forall i | 0 <= i < |t| ensures IsDigit(t[i]) {
        if i < k { assert t[i] == Zeros(k)[i]; } else { assert t[i] == s[i - k]; }
      }
    }
    if s == [] {
      assert t == Zeros(k);
      if k > 0 {
        assert t[..|t| - 1] == Zeros(k - 1) + [];
        ParseDecimalLeadingZeros(k - 1, []);
      }
    } else {
      assert t[..|t| - 1] == Zeros(k) + s[..|s| - 1];
      ParseDecimalLeadingZeros(k, s[..|s| - 1]);
    }
  }

  /** The decimal form of `n` fits in `w` characters exactly when `n` is below 10^w. */
  lemma {:induction false} DecimalWidth(n: nat, w: nat)
    requires w >= 1
    ensures |Decimal(n)| <= w <==> n < Pow10(w)
    decreases n
  {
    if n < 10 {
      assert Pow10(w) == 10 * Pow10(w - 1);
    } else if w == 1 {
      assert |Decimal(n)| == |Decimal(n / 10)| + 1;
    } else {
      DecimalWidth(n / 10, w - 1);
      assert Pow10(w) == 10 * Pow10(w - 1);
      assert n / 10 < Pow10(w - 1) <==> n < 10 * Pow10(w - 1);
    }
  }

  /** Python's `needle in hay` for strings: `needle` occurs at some position of `hay`. */
  predicate Contains(hay: string, needle: string)
    decreases |hay|
  {
    (|needle| <= |hay| && hay[..|needle|] == needle) || (hay != [] && Contains(hay[1..], needle))
  }

  /** `needle` sits in `hay` starting at position `k`. */
  predicate OccursAt(hay: string, needle: string, k: int) {
    0 <= k && k + |needle| <= |hay| && hay[k..k + |needle|] == needle
  }

  /** `Contains` holds exactly when `needle` sits in `hay` at some position. */
  lemma {:induction false} ContainsAt(hay: string, needle: string)
    ensures Contains(hay, needle) <==> exists k :: OccursAt(hay, needle, k)
    decreases |hay|
  {
    if exists k :: OccursAt(hay, needle, k) {
      var k :| OccursAt(hay, needle, k);
      if k > 0 {
        assert OccursAt(hay[1..], needle, k - 1);
        ContainsAt(hay[1..], needle);
      }
    }
    if Contains(hay, needle) {
      if |needle| <= |hay| && hay[..|needle|] == needle {
        assert OccursAt(hay, needle, 0);
      } else {
        ContainsAt(hay[1..], needle);
        var k :| OccursAt(hay[1..], needle, k);
        assert OccursAt(hay, needle, k + 1);
      }
    }
  }
}
