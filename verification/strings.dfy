/** Optional values, standing for Python's `None` next to a value. */
module Options {

  datatype Option<+T> = None | Some(value: T)
}

/** The few string operations the application relies on: `str.startswith`,
    the substring test `p in s`, and `str(n)` for integers. */
module Strings {

  /** Python's `s.startswith(p)`. */
  predicate StartsWith(s: string, p: string) {
    |p| <= |s| && s[..|p|] == p
  }

  /** `p` occurs in `s` at position `i`. */
  predicate OccursAt(s: string, p: string, i: int) {
    0 <= i && i + |p| <= |s| && s[i..i + |p|] == p
  }

  /** Python's substring test `p in s`. */
  predicate Contains(s: string, p: string) {
    exists i | 0 <= i <= |s| - |p| :: OccursAt(s, p, i)
  }

  lemma StartsWithConcat(p: string, x: string)
    ensures StartsWith(p + x, p)
    ensures (p + x)[|p|..] == x
  {
    assert (p + x)[..|p|] == p;
  }

  /** A string whose first character differs from the first character of `p`
      does not start with `p`. */
  lemma FirstCharRulesOut(s: string, p: string)
    requires |s| > 0 && |p| > 0 && s[0] != p[0]
    ensures !StartsWith(s, p)
  {
  }

  /** Whatever surrounds it, a pattern is contained in a text built around it. */
  lemma ContainsInside(a: string, p: string, z: string)
    ensures Contains(a + p + z, p)
  {
    var s := a + p + z;
    assert s[|a|..|a| + |p|] == p;
    assert OccursAt(s, p, |a|);
  }

  /** A text that lacks one of the characters of a pattern does not contain
      the pattern. */
  lemma AbsentCharRulesOut(s: string, p: string, j: nat)
    requires j < |p|
    requires forall k | 0 <= k < |s| :: s[k] != p[j]
    ensures !Contains(s, p)
  {
    forall i | 0 <= i <= |s| - |p|
      ensures !OccursAt(s, p, i)
    {
      assert s[i..i + |p|][j] == s[i + j];
    }
  }

  function DigitChar(d: nat): (c: char)
    requires d < 10
    ensures '0' <= c <= '9'
  {
    "0123456789"[d]
  }

  /** The decimal digits of a natural number, most significant first. */
  function Digits(n: nat): (r: string)
    ensures |r| > 0
    ensures forall k | 0 <= k < |r| :: '0' <= r[k] <= '9'
    decreases n
  {
    if n < 10 then [DigitChar(n)] else Digits(n / 10) + [DigitChar(n % 10)]
  }

  /** Python's `str(n)` for an integer. */
  function DecimalText(n: int): string {
    if n < 0 then "-" + Digits(-n) else Digits(n)
  }
}
