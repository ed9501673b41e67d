/**
 * The string operations the site's logic uses, on ASCII text:
 * `toLowerCase`, `includes`, `replace("$", "")` and reading a "D+.DD" price.
 */
module Text {
  import opened Optional

  /** ASCII lower-casing of one character; every other character is kept. */
  function LowerChar(c: char): char
  {
    if 'A' <= c <= 'Z' then (c as int + 32) as char else c
  }

  /** `s.toLowerCase()`: each character lower-cased, length and order kept. */
  function Lower(s: string): string
  {
    seq(|s|, i requires 0 <= i < |s| => LowerChar(s[i]))
  }

  /** The window of `s` that starts at `i` spells `needle`. */
  predicate MatchesAt(s: string, needle: string, i: int)
  {
    0 <= i && i + |needle| <= |s| && s[i..i + |needle|] == needle
  }

  /** `s.includes(needle)`: some window of `s` equals `needle`. */
  predicate Includes(s: string, needle: string)
  {
    exists i | 0 <= i <= |s| :: MatchesAt(s, needle, i)
  }

  /** Every string includes the empty string. */
  lemma IncludesEmpty(s: string)
    ensures Includes(s, "")
  {
    assert MatchesAt(s, "", 0);
  }

  /** Every string includes itself. */
  lemma IncludesSelf(s: string)
    ensures Includes(s, s)
  {
    assert MatchesAt(s, s, 0);
  }

  /** A match shown character by character at position `i`. */
  lemma IncludesAt(s: string, needle: string, i: nat)
    requires i + |needle| <= |s|
    requires forall k | 0 <= k < |needle| :: s[i + k] == needle[k]
    ensures Includes(s, needle)
  {
    assert MatchesAt(s, needle, i);
  }

  /**
   * The two-way containment test used for categories and preferences:
   * either string, lower-cased, includes the other, lower-cased.
   */
  predicate EitherIncludes(a: string, b: string)
  {
    Includes(Lower(a), Lower(b)) || Includes(Lower(b), Lower(a))
  }

  /**
   * No two adjacent characters of `s` lower-case to the characters of
   * `needle` at `j` and `j + 1`.
   */
  predicate PairAbsent(s: string, needle: string, j: nat)
  {
    j + 1 < |needle|
    && forall i | 0 <= i < |s| - 1 :: !(LowerChar(s[i]) == needle[j] && LowerChar(s[i + 1]) == needle[j + 1])
  }

  /**
   * A pair absent from two strings is absent from their concatenation when
   * it does not straddle the seam.
   */
  lemma PairAbsentAppend(a: string, b: string, needle: string, j: nat)
    requires PairAbsent(a, needle, j) && PairAbsent(b, needle, j)
    requires |a| == 0 || |b| == 0 || !(LowerChar(a[|a| - 1]) == needle[j] && LowerChar(b[0]) == needle[j + 1])
    ensures PairAbsent(a + b, needle, j)
  {
    var s := a + b;
    forall i | 0 <= i < |s| - 1
      ensures !(LowerChar(s[i]) == needle[j] && LowerChar(s[i + 1]) == needle[j + 1])
    {
      if i + 1 < |a| {
        assert s[i] == a[i] && s[i + 1] == a[i + 1];
      } else if i + 1 == |a| {
        assert s[i] == a[|a| - 1] && s[i + 1] == b[0];
      } else {
        assert s[i] == b[i - |a|] && s[i + 1] == b[i - |a| + 1];
      }
    }
  }

  /** `s` is shorter than `needle`, or the pair at `j` never occurs in it. */
  predicate PairExcludes(s: string, needle: string, j: nat)
  {
    |s| < |needle| || PairAbsent(s, needle, j)
  }

  /**
   * A case-insensitive search for `needle` fails when `s` is too short, or
   * when two adjacent characters of the needle never occur together in `s`.
   */
  lemma NotIncludesByPair(s: string, needle: string, j: nat)
    requires PairExcludes(s, needle, j)
    ensures !Includes(Lower(s), needle)
  {
    forall i | 0 <= i <= |s| ensures !MatchesAt(Lower(s), needle, i) {
      if i + |needle| <= |s| {
        var w := Lower(s)[i..i + |needle|];
        assert w[j] != needle[j] || w[j + 1] != needle[j + 1];
      }
    }
  }

  /**
   * Neither string contains the other, ignoring case, when each misses a
   * pair of adjacent characters of the other.
   */
  lemma NotEitherIncludesByPairs(a: string, b: string, j: nat, k: nat)
    requires PairExcludes(a, Lower(b), j) && PairExcludes(b, Lower(a), k)
    ensures !EitherIncludes(a, b)
  {
    NotIncludesByPair(a, Lower(b), j);
    NotIncludesByPair(b, Lower(a), k);
  }

  /** The position of the first occurrence of `c` in `s`. */
  function FirstIndex(s: string, c: char): (k: nat)
    requires c in s
    ensures k < |s| && s[k] == c && c !in s[..k]
  {
    if s[0] == c then 0
    else
      var k := FirstIndex(s[1..], c) + 1;
      assert s[..k] == [s[0]] + s[1..][..k - 1];
      k
  }

  /**
   * `s.replace(c, "")` with a one-character pattern: the first occurrence of
   * `c` is cut out and everything else is kept in order; without `c`, `s` is
   * returned unchanged.
   */
  function RemoveFirst(s: string, c: char): string
  {
    if c in s then
      var k := FirstIndex(s, c);
      s[..k] + s[k + 1..]
    else s
  }

  predicate IsDigit(c: char)
  {
    '0' <= c <= '9'
  }

  predicate AllDigits(s: string)
  {
    forall i | 0 <= i < |s| :: IsDigit(s[i])
  }

  /** The decimal value of a string of digits. */
  function DigitsValue(s: string): nat
    requires AllDigits(s)
  {
    if s == [] then 0 else DigitsValue(s[..|s| - 1]) * 10 + (s[|s| - 1] as int - '0' as int)
  }

  /**
   * `parseFloat` on the catalog's price text "D+.DD", read exactly as a
   * number of cents; any other text reads as `None` (JavaScript's NaN).
   */
  function ParseCents(s: string): Option<nat>
  {
    if |s| >= 4 && s[|s| - 3] == '.' && AllDigits(s[..|s| - 3]) && AllDigits(s[|s| - 2..]) then
      Some(DigitsValue(s[..|s| - 3]) * 100 + DigitsValue(s[|s| - 2..]))
    else
      None
  }

  function DigitChar(d: nat): (c: char)
    requires d < 10
    ensures IsDigit(c) && c as int - '0' as int == d
  {
    ('0' as int + d) as char
  }

  /** The decimal digits of `n`, most significant first, without leading zeros. */
  function NatText(n: nat): (r: string)
    ensures AllDigits(r) && |r| >= 1
    decreases n
  {
    var d := [DigitChar(n % 10)];
    if n < 10 then d else NatText(n / 10) + d
  }

  lemma {:induction false} NatTextValue(n: nat)
    ensures DigitsValue(NatText(n)) == n
    decreases n
  {
    var d := [DigitChar(n % 10)];
    if n >= 10 {
      NatTextValue(n / 10);
      var t := NatText(n / 10) + d;
      assert t[..|t| - 1] == NatText(n / 10);
    }
  }

  /** A number of cents written as a price text "D+.DD". */
  function CentsText(cents: nat): string
  {
    var c := cents % 100;
    NatText(cents / 100) + "." + [DigitChar(c / 10), DigitChar(c % 10)]
  }

  /** Reading back a written price gives the same number of cents. */
  lemma {:induction false} ParseCentsText(cents: nat)
    ensures ParseCents(CentsText(cents)) == Some(cents)
  {
    var c := cents % 100;
    var whole := NatText(cents / 100);
    var frac := [DigitChar(c / 10), DigitChar(c % 10)];
    var s := whole + "." + frac;
    assert s[..|s| - 3] == whole;
    assert s[|s| - 3] == '.';
    assert s[|s| - 2..] == frac;
    NatTextValue(cents / 100);
    assert frac[..1] == [frac[0]] && [frac[0]][..0] == [];
    assert DigitsValue([frac[0]]) == c / 10;
    assert DigitsValue(frac) == DigitsValue([frac[0]]) * 10 + c % 10;
  }
}
