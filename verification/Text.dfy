/** String helpers shared by the renderings and the stored URLs:
    searching for a character, and decimal numerals. */
module Text {
  import opened Outcomes

  /** Index of the first `c` in `s`, or `|s|` when there is none. */
  function IndexOf(s: string, c: char): (k: nat)
    ensures k <= |s|
    ensures k < |s| ==> s[k] == c
    ensures forall i :: 0 <= i < k ==> s[i] != c
  {
    if s == [] then 0
    else if s[0] == c then 0
    else 1 + IndexOf(s[1..], c)
  }

  /** Searching a concatenation whose left part lacks `c` and whose right part
      starts with it finds the seam. */
  lemma {:induction false} IndexOfAtSeam(a: string, b: string, c: char)
    requires c !in a
    requires |b| > 0 && b[0] == c
    ensures IndexOf(a + b, c) == |a|
  {
    if a != [] {
      assert (a + b)[1..] == a[1..] + b;
      IndexOfAtSeam(a[1..], b, c);
    }
  }

  predicate IsDigit(c: char) {
    '0' <= c <= '9'
  }

  predicate AllDigits(s: string) {
    forall i :: 0 <= i < |s| ==> IsDigit(s[i])
  }

  function DigitChar(d: nat): (c: char)
    requires d < 10
    ensures IsDigit(c) && c as int - '0' as int == d
  {
    ('0' as int + d) as char
  }

  /** The decimal numeral of `n`, without leading zeros, as Python's `str(n)`. */
  function Decimal(n: nat): (r: string)
    ensures |r| > 0 && AllDigits(r)
    ensures r[0] == '0' ==> n == 0
    decreases n
  {
    if n < 10 then [DigitChar(n)] else Decimal(n / 10) + [DigitChar(n % 10)]
  }

  /** The value of a string of decimal digits, most significant first. */
  function DigitsValue(s: string): nat
    requires AllDigits(s)
  {
    if s == [] then 0
    else DigitsValue(s[..|s| - 1]) * 10 + (s[|s| - 1] as int - '0' as int)
  }

  /** Reading back a decimal numeral gives the number it was made from. */
  lemma {:induction false} DigitsValueOfDecimal(n: nat)
    ensures DigitsValue(Decimal(n)) == n
    decreases n
  {
    if n >= 10 {
      var d := Decimal(n / 10);
      assert (d + [DigitChar(n % 10)])[..|d|] == d;
      DigitsValueOfDecimal(n / 10);
    }
  }

  lemma SlashNotInDecimal(n: nat)
    ensures '/' !in Decimal(n)
  {
  }

  /** Splits a leading run of digits, up to the first slash, off a path:
      its value and the rest of the path from the slash on. */
  function SplitKey(s: string): Option<(nat, string)> {
    var k := IndexOf(s, '/');
    if k == 0 || !AllDigits(s[..k]) then None
    else Some((DigitsValue(s[..k]), s[k..]))
  }

  /** A key written in decimal in front of a slash splits off as that key. */
  lemma SplitKeyOfDecimal(n: nat, rest: string)
    requires |rest| > 0 && rest[0] == '/'
    ensures SplitKey(Decimal(n) + rest) == Some((n, rest))
  {
    var d := Decimal(n);
    SlashNotInDecimal(n);
    IndexOfAtSeam(d, rest, '/');
    assert (d + rest)[..|d|] == d;
    assert (d + rest)[|d|..] == rest;
    DigitsValueOfDecimal(n);
  }
}
