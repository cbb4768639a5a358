/**
 * The string operations the Vault API relies on, with Python's meaning:
 * `startswith`, `endswith`, `str.replace(pat, "")`, `<` on `str`
 * (code point by code point), and the zero-padded decimal formatting
 * used by `strftime` and by `f"{n:02d}"`.
 */
module Strings {

  /** Python's `s.startswith(prefix)`. */
  predicate StartsWith(s: string, prefix: string) {
    |prefix| <= |s| && s[..|prefix|] == prefix
  }

  /** Python's `s.endswith(suffix)`. */
  predicate EndsWith(s: string, suffix: string) {
    |suffix| <= |s| && s[|s| - |suffix|..] == suffix
  }

  lemma EndsWithConcat(t: string, suffix: string)
    ensures EndsWith(t + suffix, suffix)
  {
    assert (t + suffix)[|t|..] == suffix;
  }

  lemma EndsWithTransitive(s: string, t: string, suffix: string)
    requires EndsWith(s, t) && EndsWith(t, suffix)
    ensures EndsWith(s, suffix)
  {
    assert s[|s| - |suffix|..] == s[|s| - |t|..][|t| - |suffix|..];
  }

  /** A string made of two parts that do not start with `c` does not start with `c`. */
  lemma NotStartingWith(x: string, y: string, c: char)
    requires !StartsWith(x, [c]) && !StartsWith(y, [c])
    ensures !StartsWith(x + y, [c])
  {
    if |x| == 0 {
      assert x + y == y;
    } else {
      assert (x + y)[..1] == x[..1];
    }
  }

  // ---------------------------------------------------------------
  // Python's ordering of `str` values
  // ---------------------------------------------------------------

  /** `a < b` on Python strings: lexicographic by code point, a proper prefix first. */
  predicate Less(a: string, b: string)
    decreases |a|
  {
    if |a| == 0 then |b| > 0
    else if |b| == 0 then false
    else if a[0] != b[0] then a[0] < b[0]
    else Less(a[1..], b[1..])
  }

  predicate LessEq(a: string, b: string) {
    a == b || Less(a, b)
  }

  lemma {:induction false} LessIrreflexive(a: string)
    ensures !Less(a, a)
    decreases |a|
  {
    if |a| > 0 { LessIrreflexive(a[1..]); }
  }

  lemma {:induction false} LessTransitive(a: string, b: string, c: string)
    requires Less(a, b) && Less(b, c)
    ensures Less(a, c)
    decreases |a|
  {
    if |a| > 0 && a[0] == b[0] && b[0] == c[0] {
      LessTransitive(a[1..], b[1..], c[1..]);
    }
  }

  lemma {:induction false} LessTotal(a: string, b: string)
    ensures a == b || Less(a, b) || Less(b, a)
    decreases |a|
  {
    if |a| > 0 && |b| > 0 && a[0] == b[0] {
      LessTotal(a[1..], b[1..]);
      if a[1..] == b[1..] {
        assert a == [a[0]] + a[1..] && b == [b[0]] + b[1..];
      }
    }
  }

  lemma LessAsymmetric(a: string, b: string)
    requires Less(a, b)
    ensures !Less(b, a) && a != b
  {
    if Less(b, a) {
      LessTransitive(a, b, a);
      LessIrreflexive(a);
    }
    if a == b {
      LessIrreflexive(a);
    }
  }

  lemma LessEqTransitive(a: string, b: string, c: string)
    requires LessEq(a, b) && LessEq(b, c)
    ensures LessEq(a, c)
  {
    if a != b && b != c {
      LessTransitive(a, b, c);
    }
  }

  /** Two strings of equal length compare by their first differing character. */
  lemma {:induction false} LessAtFirstDifference(a: string, b: string, k: nat)
    requires |a| == |b| && k < |a|
    requires a[..k] == b[..k] && a[k] < b[k]
    ensures Less(a, b)
    decreases k
  {
    if k > 0 {
      assert a[0] == a[..k][0] == b[..k][0] == b[0];
      assert a[1..][..k - 1] == a[..k][1..] == b[..k][1..] == b[1..][..k - 1];
      LessAtFirstDifference(a[1..], b[1..], k - 1);
    }
  }

  // ---------------------------------------------------------------
  // str.replace(pat, "")
  // ---------------------------------------------------------------

  /**
   * Python's `s.replace(pat, "")`: every non-overlapping occurrence of `pat`,
   * scanning left to right, is removed; text produced by a removal is not
   * scanned again.
   */
  function RemoveAll(s: string, pat: string): string
    requires |pat| > 0
    decreases |s|
  {
    if |s| < |pat| then s
    else if s[..|pat|] == pat then RemoveAll(s[|pat|..], pat)
    else [s[0]] + RemoveAll(s[1..], pat)
  }

  /**
   * When the first character of `pat` does not occur in `t`, the only
   * occurrence of `pat` in `t + pat` is the trailing one, so removing all
   * occurrences gives back `t`.
   */
  lemma {:induction false} RemoveAllTrailing(t: string, pat: string)
    requires |pat| > 0 && pat[0] !in t
    ensures RemoveAll(t + pat, pat) == t
    decreases |t|
  {
    if |t| == 0 {
      assert t + pat == pat;
      assert pat[|pat|..] == [];
    } else {
      var s := t + pat;
      assert s[0] == t[0] != pat[0];
      assert s[..|pat|] != pat by { assert s[..|pat|][0] == s[0]; }
      assert s[1..] == t[1..] + pat;
      RemoveAllTrailing(t[1..], pat);
      assert t == [t[0]] + t[1..];
    }
  }

  // ---------------------------------------------------------------
  // Decimal digits
  // ---------------------------------------------------------------

  predicate IsDigit(c: char) {
    '0' <= c <= '9'
  }

  function DigitValue(c: char): int
    requires IsDigit(c)
  {
    c as int - '0' as int
  }

  function DigitChar(n: int): (c: char)
    requires 0 <= n < 10
    ensures IsDigit(c) && DigitValue(c) == n
  {
    ('0' as int + n) as char
  }

  /** `f"{n:02d}"` and `strftime`'s `%H`, `%m`, `%d`: two digits, zero-padded. */
  function Pad2(n: int): (s: string)
    requires 0 <= n < 100
  {
    [DigitChar(n / 10), DigitChar(n % 10)]
  }

  /** `strftime`'s `%Y` for a year of at most four digits: zero-padded to four. */
  function Pad4(n: int): (s: string)
    requires 0 <= n < 10000
  {
    Pad2(n / 100) + Pad2(n % 100)
  }

  /** Reading back a four-digit field gives the number that was written. */
  lemma Pad4Value(n: int)
    requires 0 <= n < 10000
    ensures |Pad4(n)| == 4 && IsDigit(Pad4(n)[0]) && IsDigit(Pad4(n)[1]) && IsDigit(Pad4(n)[2]) && IsDigit(Pad4(n)[3])
    ensures DigitValue(Pad4(n)[0]) * 1000 + DigitValue(Pad4(n)[1]) * 100 + DigitValue(Pad4(n)[2]) * 10
            + DigitValue(Pad4(n)[3]) == n
  {
    Pad2Value(n / 100);
    Pad2Value(n % 100);
  }

  /** Reading back a two-digit field gives the number that was written. */
  lemma Pad2Value(n: int)
    requires 0 <= n < 100
    ensures |Pad2(n)| == 2 && IsDigit(Pad2(n)[0]) && IsDigit(Pad2(n)[1])
    ensures DigitValue(Pad2(n)[0]) * 10 + DigitValue(Pad2(n)[1]) == n
  {
  }
}
