/**
 * The string formatting the script relies on: Python's `c * n`, the
 * `'{:<n}'`, `'{:>n}'` and `'{:0>n}'` format specifications, `str.center`,
 * and `str()` of a non-negative integer.
 */
module Text {

  function Max(a: int, b: int): int {
    if a >= b then a else b
  }

  /** `c * n`: n copies of the character c. */
  function Repeat(c: char, n: nat): (r: string)
    ensures |r| == n
  {
    if n == 0 then [] else [c] + Repeat(c, n - 1)
  }

  /** Every character of `c * n` is c. */
  lemma {:induction false} RepeatChars(c: char, n: nat)
    ensures forall i :: 0 <= i < n ==> Repeat(c, n)[i] == c
  {
    if n > 0 {
      RepeatChars(c, n - 1);
      assert forall i :: 0 < i < n ==> Repeat(c, n)[i] == Repeat(c, n - 1)[i - 1];
    }
  }

  /** `'{:<n}'.format(s)`: left-aligned, padded with spaces, never truncated. */
  function PadRight(s: string, n: nat): (r: string)
    ensures |r| == Max(|s|, n)
  {
    if |s| >= n then s else s + Repeat(' ', n - |s|)
  }

  /** The text comes first, then spaces up to the width. */
  lemma PadRightSpec(s: string, n: nat)
    ensures var r := PadRight(s, n);
      r[..|s|] == s && forall i :: |s| <= i < |r| ==> r[i] == ' '
  {
    if |s| < n {
      RepeatChars(' ', n - |s|);
      var r := PadRight(s, n);
      assert forall i :: |s| <= i < |r| ==> r[i] == Repeat(' ', n - |s|)[i - |s|];
    }
  }

  /** `'{:>n}'.format(s)` (fill ' ') and `'{:0>n}'`: right-aligned, never truncated. */
  function PadLeft(s: string, n: nat, fill: char): (r: string)
    ensures |r| == Max(|s|, n)
  {
    if |s| >= n then s else Repeat(fill, n - |s|) + s
  }

  /** The fill comes first, then the text, which ends the result. */
  lemma PadLeftSpec(s: string, n: nat, fill: char)
    ensures var r := PadLeft(s, n, fill);
      r[|r| - |s|..] == s && forall i :: 0 <= i < |r| - |s| ==> r[i] == fill
  {
    if |s| < n {
      RepeatChars(fill, n - |s|);
    }
  }

  /**
   * `s.center(width, fill)` as CPython computes it: the margin is split with
   * `left = marg / 2 + (marg & width & 1)`, so the two sides differ by at most one.
   */
  function Center(s: string, width: nat, fill: char): string {
    if width <= |s| then s
    else
      var marg := width - |s|;
      var left: nat := marg / 2 + (if marg % 2 == 1 && width % 2 == 1 then 1 else 0);
      Repeat(fill, left) + s + Repeat(fill, marg - left)
  }

  /** The centred text is as wide as asked (never narrower than the text), with the margins differing by at most one. */
  lemma CenterSpec(s: string, width: nat, fill: char)
    ensures var r := Center(s, width, fill);
      && |r| == Max(|s|, width)
      && exists left: nat {:trigger Repeat(fill, left)} ::
           left <= |r| - |s| &&
           r == Repeat(fill, left) + s + Repeat(fill, |r| - |s| - left) &&
           -1 <= (|r| - |s| - left) - left <= 1
  {
    if width <= |s| {
      assert s == Repeat(fill, 0) + s + Repeat(fill, 0);
    }
  }

  /** The centred text starts with the fill character or with the text itself. */
  lemma CenterFirst(s: string, width: nat, fill: char)
    requires s != []
    ensures Center(s, width, fill)[0] in {fill, s[0]}
  {
    if width > |s| {
      var marg := width - |s|;
      var left: nat := marg / 2 + (if marg % 2 == 1 && width % 2 == 1 then 1 else 0);
      var r := Repeat(fill, left) + s + Repeat(fill, marg - left);
      assert Center(s, width, fill) == r;
      if left == 0 {
        assert r[0] == s[0];
      } else {
        assert r[0] == Repeat(fill, left)[0];
      }
    }
  }

  predicate IsDigit(c: char) {
    '0' <= c <= '9'
  }

  function DigitChar(d: nat): (c: char)
    requires d < 10
    ensures IsDigit(c)
  {
    ('0' as int + d) as char
  }

  function DigitValue(c: char): int {
    c as int - '0' as int
  }

  /** `str(n)` for a non-negative integer: decimal digits, no leading zero. */
  function NatToString(n: nat): (r: string)
    ensures |r| >= 1
    decreases n
  {
    if n < 10 then [DigitChar(n)] else NatToString(n / 10) + [DigitChar(n % 10)]
  }

  /** `str(n)` is all decimal digits, with no leading zero unless it is "0". */
  lemma {:induction false} NatToStringDigits(n: nat)
    ensures var r := NatToString(n);
      (forall i :: 0 <= i < |r| ==> IsDigit(r[i])) && (|r| > 1 ==> r[0] != '0')
    decreases n
  {
    if n >= 10 {
      NatToStringDigits(n / 10);
      var r, t := NatToString(n), NatToString(n / 10);
      assert forall i :: 0 <= i < |t| ==> r[i] == t[i];
    }
  }

  /** Reads a string of decimal digits back as a number (the inverse of NatToString). */
  function ParseDecimal(s: string): int {
    if s == [] then 0 else ParseDecimal(s[..|s| - 1]) * 10 + DigitValue(s[|s| - 1])
  }

  lemma {:induction false} DecimalRoundTrip(n: nat)
    ensures ParseDecimal(NatToString(n)) == n
    decreases n
  {
    if n >= 10 {
      var s := NatToString(n);
      assert s[..|s| - 1] == NatToString(n / 10);
      DecimalRoundTrip(n / 10);
    }
  }

  function Pow10(k: nat): nat {
    if k == 0 then 1 else 10 * Pow10(k - 1)
  }

  /** A number below 10^k has at most k digits (one digit at the least). */
  lemma {:induction false} DecimalWidth(n: nat, k: nat)
    requires n < Pow10(k)
    ensures |NatToString(n)| <= Max(k, 1)
    decreases n
  {
    if n >= 10 {
      assert Pow10(0) == 1 && Pow10(1) == 10;
      DecimalWidth(n / 10, k - 1);
    }
  }

  /** A leading run of zeros does not change the value of a digit string. */
  lemma {:induction false} ParseLeadingZeros(k: nat, s: string)
    ensures ParseDecimal(Repeat('0', k) + s) == ParseDecimal(Repeat('0', k)) * Pow10(|s|) + ParseDecimal(s)
    decreases |s|
  {
    var z := Repeat('0', k);
    if s == [] {
      assert z + s == z;
    } else {
      var t := s[..|s| - 1];
      var d := DigitValue(s[|s| - 1]);
      assert (z + s)[..|z + s| - 1] == z + t;
      assert (z + s)[|z + s| - 1] == s[|s| - 1];
      assert ParseDecimal(z + s) == ParseDecimal(z + t) * 10 + d;
      assert ParseDecimal(s) == ParseDecimal(t) * 10 + d;
      ParseLeadingZeros(k, t);
      var pz, pt := ParseDecimal(z), Pow10(|t|);
      assert Pow10(|s|) == pt * 10;
      assert (pz * pt + ParseDecimal(t)) * 10 + d == pz * (pt * 10) + (ParseDecimal(t) * 10 + d);
    }
  }

  lemma {:induction false} ParseZeros(k: nat)
    ensures ParseDecimal(Repeat('0', k)) == 0
  {
    if k > 0 {
      var z := Repeat('0', k);
      RepeatChars('0', k);
      RepeatChars('0', k - 1);
      assert z[..|z| - 1] == Repeat('0', k - 1);
      ParseZeros(k - 1);
    }
  }

  /** `'{:02}'.format(n)`: at least two digits, zero-filled on the left. */
  function ZeroPad2(n: nat): string {
    PadLeft(NatToString(n), 2, '0')
  }

  lemma ZeroPadDigits(s: string, n: nat)
    requires forall i :: 0 <= i < |s| ==> IsDigit(s[i])
    ensures forall i :: 0 <= i < |PadLeft(s, n, '0')| ==> IsDigit(PadLeft(s, n, '0')[i])
  {
    var r := PadLeft(s, n, '0');
    PadLeftSpec(s, n, '0');
    forall i | 0 <= i < |r| ensures IsDigit(r[i]) {
      if i >= |r| - |s| {
        assert r[i] == r[|r| - |s|..][i - (|r| - |s|)];
      }
    }
  }

  /** Two digits below 100, and reading them back gives n. */
  lemma ZeroPad2Spec(n: nat)
    ensures n < 100 ==> |ZeroPad2(n)| == 2
    ensures forall i :: 0 <= i < |ZeroPad2(n)| ==> IsDigit(ZeroPad2(n)[i])
    ensures ParseDecimal(ZeroPad2(n)) == n
  {
    var s := NatToString(n);
    DecimalRoundTrip(n);
    NatToStringDigits(n);
    PadLeftSpec(s, 2, '0');
    ZeroPadDigits(s, 2);
    if |s| < 2 {
      ParseLeadingZeros(2 - |s|, s);
      ParseZeros(2 - |s|);
    }
    if n < 100 {
      DecimalWidth(n, 2);
    }
  }
}
