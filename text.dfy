/**
 * String helpers the screener relies on: decimal digits (for `str(int)` and
 * the "Row N" tags), `", ".join`, whitespace stripping, ASCII `str.lower`, substring
 * tests, and the decimal subset of Python's `float(str)`.
 */
module Text {
  import opened Wrappers

  predicate IsDigit(c: char) { '0' <= c <= '9' }

  predicate AllDigits(s: string) { forall i :: 0 <= i < |s| ==> IsDigit(s[i]) }

  function DigitValue(c: char): nat
    requires IsDigit(c)
  {
    (c as int) - ('0' as int)
  }

  function DigitChar(d: nat): (c: char)
    requires d < 10
    ensures IsDigit(c) && DigitValue(c) == d
  {
    (('0' as int) + d) as char
  }

  /** The number a string of decimal digits denotes (most significant first). */
  function DigitsValue(s: string): nat
    requires AllDigits(s)
    decreases |s|
  {
    if s == [] then 0 else 10 * DigitsValue(s[..|s| - 1]) + DigitValue(s[|s| - 1])
  }

  /** Python's `str(n)` for a non-negative integer. */
  function NatToString(n: nat): (s: string)
    ensures |s| > 0 && AllDigits(s)
    decreases n
  {
    if n < 10 then [DigitChar(n)] else NatToString(n / 10) + [DigitChar(n % 10)]
  }

  /** Python's `str(i)` for any integer. */
  function IntToString(i: int): string
  {
    if i < 0 then "-" + NatToString(-i) else NatToString(i)
  }

  lemma {:induction false} NatToStringRoundTrip(n: nat)
    ensures DigitsValue(NatToString(n)) == n
  {
    if n >= 10 {
      var s := NatToString(n);
      assert s[..|s| - 1] == NatToString(n / 10);
      NatToStringRoundTrip(n / 10);
    }
  }

  /** Distinct numbers print differently, so a printed number identifies its value. */
  lemma NatToStringInjective(m: nat, n: nat)
    ensures NatToString(m) == NatToString(n) ==> m == n
  {
    NatToStringRoundTrip(m);
    NatToStringRoundTrip(n);
  }

  /** Python's `sep.join(parts)`. */
  function Join(parts: seq<string>, sep: string): string
    decreases |parts|
  {
    if parts == [] then ""
    else if |parts| == 1 then parts[0]
    else parts[0] + sep + Join(parts[1..], sep)
  }

  /**
   * The Unicode White_Space characters, which `constr(strip_whitespace=True)`
   * trims. Python's `str.isspace` also accepts U+001C to U+001F.
   */
  predicate IsSpace(c: char)
  {
    var k := c as int;
    k == 32 || 9 <= k <= 13 || k == 0x85 || k == 0xA0 || k == 0x1680
    || 0x2000 <= k <= 0x200A || k == 0x2028 || k == 0x2029 || k == 0x202F || k == 0x205F || k == 0x3000
  }

  predicate AllSpace(s: string) { forall i :: 0 <= i < |s| ==> IsSpace(s[i]) }

  /** A string that stripping leaves unchanged: it neither starts nor ends with whitespace. */
  predicate IsStripped(s: string)
  {
    s == [] || (!IsSpace(s[0]) && !IsSpace(s[|s| - 1]))
  }

  /** The index of the first character at or after `i` that is not whitespace, or `|s|`. */
  function FirstNonSpace(s: string, i: nat): (j: nat)
    requires i <= |s|
    ensures i <= j <= |s|
    ensures forall k :: i <= k < j ==> IsSpace(s[k])
    ensures j < |s| ==> !IsSpace(s[j])
    decreases |s| - i
  {
    if i < |s| && IsSpace(s[i]) then FirstNonSpace(s, i + 1) else i
  }

  /** The end of `s[lo..j]` once the whitespace at its end is cut. */
  function EndNonSpace(s: string, lo: nat, j: nat): (e: nat)
    requires lo <= j <= |s|
    ensures lo <= e <= j
    ensures forall k :: e <= k < j ==> IsSpace(s[k])
    ensures lo < e ==> !IsSpace(s[e - 1])
    decreases j
  {
    if lo < j && IsSpace(s[j - 1]) then EndNonSpace(s, lo, j - 1) else j
  }

  /** How many whitespace characters `s` starts with. */
  function LeadingSpaces(s: string): nat
  {
    FirstNonSpace(s, 0)
  }

  /**
   * `strip_whitespace`: the result is the slice of `s` that starts after its
   * leading whitespace, and everything cut from either end is whitespace.
   */
  function Strip(s: string): (r: string)
    ensures IsStripped(r)
    ensures LeadingSpaces(s) + |r| <= |s| && r == s[LeadingSpaces(s)..LeadingSpaces(s) + |r|]
    ensures forall k :: 0 <= k < LeadingSpaces(s) ==> IsSpace(s[k])
    ensures forall k :: LeadingSpaces(s) + |r| <= k < |s| ==> IsSpace(s[k])
  {
    var i := FirstNonSpace(s, 0);
    s[i..EndNonSpace(s, i, |s|)]
  }

  /** Removing whitespace cuts nothing from a string that has none at its ends. */
  lemma {:induction false} StripFixesStripped(s: string)
    requires IsStripped(s)
    ensures Strip(s) == s
  {
    if s != [] {
      assert FirstNonSpace(s, 0) == 0;
      assert EndNonSpace(s, 0, |s|) == |s|;
      assert s[0..|s|] == s;
    }
  }

  lemma StripIdempotent(s: string)
    ensures Strip(Strip(s)) == Strip(s)
  {
    StripFixesStripped(Strip(s));
  }

  /** Stripping yields the empty string exactly when the input is all whitespace. */
  lemma {:induction false} StripEmptyIffAllSpace(s: string)
    ensures Strip(s) == [] <==> AllSpace(s)
  {
    if AllSpace(s) {
      assert FirstNonSpace(s, 0) == |s|;
    }
  }


  /**
   * Python's `a < b` on strings: code points compared from the left, and a
   * proper prefix comes before the longer string.
   */
  predicate StrLess(a: string, b: string)
    decreases |a|
  {
    if a == [] then b != []
    else if b == [] then false
    else a[0] < b[0] || (a[0] == b[0] && StrLess(a[1..], b[1..]))
  }

  /** No string comes before itself. */
  lemma {:induction false} StrLessIrreflexive(a: string)
    ensures !StrLess(a, a)
    decreases |a|
  {
    if a != [] {
      StrLessIrreflexive(a[1..]);
    }
  }

  /** Of two different strings, one comes before the other. */
  lemma {:induction false} StrLessTotal(a: string, b: string)
    ensures a == b || StrLess(a, b) || StrLess(b, a)
    decreases |a|
  {
    if a != [] && b != [] && a[0] == b[0] {
      StrLessTotal(a[1..], b[1..]);
      if a[1..] == b[1..] {
        assert a == [a[0]] + a[1..] && b == [b[0]] + b[1..];
      }
    }
  }

  lemma {:induction false} StrLessTransitive(a: string, b: string, c: string)
    requires StrLess(a, b) && StrLess(b, c)
    ensures StrLess(a, c)
    decreases |a|
  {
    if a != [] && a[0] == b[0] && b[0] == c[0] {
      StrLessTransitive(a[1..], b[1..], c[1..]);
    }
  }

  /** "At least" in Python's string order is transitive. */
  lemma StrAtLeastTransitive(a: string, b: string, c: string)
    requires !StrLess(a, b) && !StrLess(b, c)
    ensures !StrLess(a, c)
  {
    if StrLess(a, c) {
      StrLessTotal(a, b);
      StrLessTotal(b, c);
      if StrLess(b, a) && StrLess(c, b) {
        StrLessTransitive(a, c, b);
      }
    }
  }

  /** Two strings are never each before the other. */
  lemma StrLessAsymmetric(a: string, b: string)
    ensures !(StrLess(a, b) && StrLess(b, a))
  {
    if StrLess(a, b) && StrLess(b, a) {
      StrLessTransitive(a, b, a);
      StrLessIrreflexive(a);
    }
  }

  /** ASCII `str.lower()`. */
  function ToLower(s: string): (r: string)
    ensures |r| == |s|
  {
    seq(|s|, i requires 0 <= i < |s| => if 'A' <= s[i] <= 'Z' then ((s[i] as int) + 32) as char else s[i])
  }

  predicate StartsWith(s: string, prefix: string)
  {
    |prefix| <= |s| && s[..|prefix|] == prefix
  }

  /** `sub` occurs in `s` starting at position `i`. */
  predicate OccursAt(s: string, sub: string, i: nat)
  {
    i + |sub| <= |s| && s[i..i + |sub|] == sub
  }

  /** Python's `sub in s`: `sub` occurs at some position of `s`. */
  predicate Contains(s: string, sub: string)
  {
    exists i: nat | i <= |s| :: OccursAt(s, sub, i)
  }

  /** A string lacking `sub`'s `k`-th character does not contain `sub`. */
  lemma MissingCharNotContained(s: string, sub: string, k: nat)
    requires k < |sub| && forall i :: 0 <= i < |s| ==> s[i] != sub[k]
    ensures !Contains(s, sub)
  {
    forall i: nat | i + |sub| <= |s| ensures !OccursAt(s, sub, i) {
      assert s[i..i + |sub|][k] == s[i + k];
    }
  }

  /** A string in which `sub`'s first character is never followed by its second does not contain `sub`. */
  lemma PairAbsentNotContained(s: string, sub: string)
    requires |sub| >= 2
    requires forall i :: 0 <= i < |s| - 1 && s[i] == sub[0] ==> s[i + 1] != sub[1]
    ensures !Contains(s, sub)
  {
    forall i: nat | i + |sub| <= |s| ensures !OccursAt(s, sub, i) {
      assert s[i..i + |sub|][0] == s[i] && s[i..i + |sub|][1] == s[i + 1];
    }
  }

  function Pow10(k: nat): (p: nat)
    ensures p >= 1
  {
    if k == 0 then 1 else 10 * Pow10(k - 1)
  }

  /** The length of the longest prefix of `s` made of digits. */
  function LeadingDigits(s: string): (n: nat)
    ensures n <= |s| && AllDigits(s[..n])
    ensures n < |s| ==> !IsDigit(s[n])
    decreases |s|
  {
    if s != [] && IsDigit(s[0]) then
      var m := LeadingDigits(s[1..]);
      assert s[..m + 1] == [s[0]] + s[1..][..m];
      m + 1
    else 0
  }

  /** An unsigned decimal: `digits`, `digits.`, `digits.digits` or `.digits`. */
  function ParseUnsigned(t: string): Option<real>
  {
    var n := LeadingDigits(t);
    var whole := DigitsValue(t[..n]) as real;
    if n == |t| then
      if n > 0 then Some(whole) else None
    else if t[n] == '.' && AllDigits(t[n + 1..]) && (n > 0 || n + 1 < |t|) then
      Some(whole + (DigitsValue(t[n + 1..]) as real) / (Pow10(|t| - n - 1) as real))
    else None
  }

  /**
   * The decimal subset of Python's `float(s)`: surrounding whitespace, an
   * optional sign, then an unsigned decimal. `None` stands for the
   * `ValueError` that `float` raises.
   */
  function ParseDecimal(s: string): Option<real>
  {
    var t := Strip(s);
    if |t| > 0 && (t[0] == '+' || t[0] == '-') then
      match ParseUnsigned(t[1..])
      case None => None
      case Some(v) => Some(if t[0] == '-' then -v else v)
    else ParseUnsigned(t)
  }

  lemma {:induction false} ParseUnsignedDigits(t: string)
    requires |t| > 0 && AllDigits(t)
    ensures ParseUnsigned(t) == Some(DigitsValue(t) as real)
  {
    assert LeadingDigits(t) == |t|;
    assert t[..|t|] == t;
  }

  /** `float(str(n))` gives back `n`. */
  lemma {:induction false} ParseDecimalNat(n: nat)
    ensures ParseDecimal(NatToString(n)) == Some(n as real)
  {
    var d := NatToString(n);
    NatToStringRoundTrip(n);
    ParseUnsignedDigits(d);
    assert IsDigit(d[0]) && IsDigit(d[|d| - 1]);
    assert IsStripped(d);
    StripFixesStripped(d);
  }

  /** `float(str(i))` gives back `i` for a negative integer. */
  lemma {:induction false} ParseDecimalNegative(i: int)
    requires i < 0
    ensures ParseDecimal(IntToString(i)) == Some(i as real)
  {
    var n: nat := -i;
    var d := NatToString(n);
    NatToStringRoundTrip(n);
    ParseUnsignedDigits(d);
    var t := IntToString(i);
    assert t == "-" + d;
    NegativeNumeralStripped(d);
    assert t[1..] == d;
    ParseDecimalMinus(t, n as real);
  }

  /** A stripped `-` followed by an unsigned decimal `v` parses as `-v`. */
  lemma ParseDecimalMinus(t: string, v: real)
    requires |t| > 0 && t[0] == '-' && Strip(t) == t
    requires ParseUnsigned(t[1..]) == Some(v)
    ensures ParseDecimal(t) == Some(-v)
  {
  }

  /** A minus sign followed by digits has no whitespace to strip. */
  lemma NegativeNumeralStripped(d: string)
    requires |d| > 0 && IsDigit(d[|d| - 1])
    ensures Strip("-" + d) == "-" + d
  {
    var t := "-" + d;
    assert t[0] == '-' && t[|t| - 1] == d[|d| - 1];
    assert IsStripped(t);
    StripFixesStripped(t);
  }

  /** `float(str(i))` gives back `i` for every integer. */
  lemma ParseDecimalRoundTrip(i: int)
    ensures ParseDecimal(IntToString(i)) == Some(i as real)
  {
    if i >= 0 {
      ParseDecimalNat(i);
    } else {
      ParseDecimalNegative(i);
    }
  }
}
