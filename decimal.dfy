/** Decimal text: what std::to_string and strftime print for a non-negative
    integer, and what a `%d` conversion of sscanf reads back. */
module Decimal {
  import opened Wrappers

  predicate IsDigit(c: char) { '0' <= c <= '9' }

  /** The characters isspace() accepts in the C locale. */
  predicate IsSpace(c: char) { c == ' ' || c == '\t' || c == '\n' || c == '\r' || c == '\U{B}' || c == '\U{C}' }

  predicate AllDigits(s: string) { forall i :: 0 <= i < |s| ==> IsDigit(s[i]) }

  function DigitChar(d: nat): (c: char)
    requires d < 10
    ensures IsDigit(c)
  {
    (('0' as int) + d) as char
  }

  function DigitValue(c: char): (d: nat)
    requires IsDigit(c)
    ensures d < 10 && DigitChar(d) == c
  {
    (c as int) - ('0' as int)
  }

  /** Value of a string of decimal digits, most significant first. */
  function DigitsValue(s: string): nat
    requires AllDigits(s)
  {
    if s == [] then 0 else DigitsValue(s[..|s| - 1]) * 10 + DigitValue(s[|s| - 1])
  }

  /** std::to_string of a non-negative integer: its shortest decimal text. */
  function NatToString(n: nat): (s: string)
    ensures |s| > 0 && AllDigits(s)
    ensures |s| > 1 ==> s[0] != '0'
  {
    if n < 10 then [DigitChar(n)] else NatToString(n / 10) + [DigitChar(n % 10)]
  }

  lemma {:induction false} NatToStringValue(n: nat)
    ensures DigitsValue(NatToString(n)) == n
    decreases n
  {
    if n >= 10 {
      var s := NatToString(n);
      assert s[..|s| - 1] == NatToString(n / 10);
      NatToStringValue(n / 10);
    }
  }

  /** Shortest decimal texts are only as long as the number of digits demands. */
  lemma {:induction false} NatToStringLength(n: nat, w: nat)
    requires 1 <= w && n < Pow10(w)
    ensures |NatToString(n)| <= w
    decreases w
  {
    if n >= 10 {
      assert Pow10(1) == 10;
      assert w >= 2;
      assert n / 10 < Pow10(w - 1);
      NatToStringLength(n / 10, w - 1);
    }
  }

  function Pow10(w: nat): (p: nat)
    ensures p >= 1
  {
    if w == 0 then 1 else 10 * Pow10(w - 1)
  }

  /** `n` copies of a character. */
  function Repeat(c: char, n: nat): (s: string)
    ensures |s| == n && forall i :: 0 <= i < n ==> s[i] == c
  {
    seq(n, i => c)
  }

  /** Left-pads with '0' up to width `w` (what `insert(0, w - len, '0')` and
      strftime's two-digit fields do); never truncates. */
  function ZeroPad(s: string, w: nat): (r: string)
    ensures |r| == if |s| < w then w else |s|
    ensures r[|r| - |s|..] == s
    ensures forall i :: 0 <= i < |r| - |s| ==> r[i] == '0'
  {
    if |s| < w then Repeat('0', w - |s|) + s else s
  }

  lemma {:induction false} LeadingZerosValue(k: nat, s: string)
    requires AllDigits(s)
    ensures AllDigits(Repeat('0', k) + s)
    ensures DigitsValue(Repeat('0', k) + s) == DigitsValue(s)
    decreases |s|
  {
    var z := Repeat('0', k) + s;
    if s == [] {
      assert z == Repeat('0', k);
      ZerosValue(k);
    } else {
      assert z[..|z| - 1] == Repeat('0', k) + s[..|s| - 1];
      LeadingZerosValue(k, s[..|s| - 1]);
    }
  }

  lemma {:induction false} ZerosValue(k: nat)
    ensures AllDigits(Repeat('0', k)) && DigitsValue(Repeat('0', k)) == 0
    decreases k
  {
    if k > 0 {
      assert Repeat('0', k)[..k - 1] == Repeat('0', k - 1);
      ZerosValue(k - 1);
    }
  }

  /** The zero-padded decimal text of `n`, of width `w` (strftime `%02d`-like). */
  function PaddedDigits(n: nat, w: nat): (s: string)
    ensures AllDigits(s)
  {
    ZeroPad(NatToString(n), w)
  }

  lemma PaddedDigitsValue(n: nat, w: nat)
    ensures DigitsValue(PaddedDigits(n, w)) == n
    ensures n < Pow10(w) && w >= 1 ==> |PaddedDigits(n, w)| == w
  {
    var s := NatToString(n);
    NatToStringValue(n);
    if |s| < w {
      LeadingZerosValue(w - |s|, s);
    }
    if n < Pow10(w) && w >= 1 {
      NatToStringLength(n, w);
    }
  }

  /** Length of the leading run of digits. */
  function DigitRun(s: string): (n: nat)
    ensures n <= |s| && AllDigits(s[..n]) && (n < |s| ==> !IsDigit(s[n]))
  {
    if s == [] || !IsDigit(s[0]) then 0 else 1 + DigitRun(s[1..])
  }

  function SkipSpace(s: string): (r: string)
    ensures |r| <= |s| && r == s[|s| - |r|..]
    ensures r != [] ==> !IsSpace(r[0])
  {
    if s != [] && IsSpace(s[0]) then SkipSpace(s[1..]) else s
  }

  /** One `%d` conversion of sscanf: skip white space, an optional sign, then
      the longest run of digits (at least one). Yields the value and the rest
      of the input, or None on a matching failure. */
  function ScanInt(s: string): (r: Option<(int, string)>)
    ensures r.Some? ==> |r.value.1| < |s|
  {
    var s1 := SkipSpace(s);
    var neg := s1 != [] && s1[0] == '-';
    var s2 := if s1 != [] && (s1[0] == '-' || s1[0] == '+') then s1[1..] else s1;
    var n := DigitRun(s2);
    if n == 0 then None
    else Some(((if neg then -1 else 1) * DigitsValue(s2[..n]), s2[n..]))
  }

  lemma {:induction false} DigitRunOfDigits(d: string, rest: string)
    requires AllDigits(d)
    requires rest == [] || !IsDigit(rest[0])
    ensures DigitRun(d + rest) == |d|
    decreases |d|
  {
    if d != [] {
      assert (d + rest)[1..] == d[1..] + rest;
      DigitRunOfDigits(d[1..], rest);
    }
  }

  /** Scanning a string that starts with a digit: no white space and no sign to skip. */
  lemma ScanIntAtDigit(s: string)
    requires s != [] && IsDigit(s[0])
    ensures DigitRun(s) >= 1
    ensures ScanInt(s) == Some((DigitsValue(s[..DigitRun(s)]), s[DigitRun(s)..]))
  {
    assert !IsSpace(s[0]);
    assert SkipSpace(s) == s;
  }

  /** `%d` reads back exactly the zero-padded text of `n`, stopping at the next non-digit. */
  lemma ScanPaddedDigits(n: nat, w: nat, rest: string)
    requires w >= 1
    requires rest == [] || !IsDigit(rest[0])
    ensures ScanInt(PaddedDigits(n, w) + rest) == Some((n, rest))
  {
    var d := PaddedDigits(n, w);
    PaddedDigitsValue(n, w);
    var s := d + rest;
    assert s[0] == d[0];
    ScanIntAtDigit(s);
    DigitRunOfDigits(d, rest);
    assert s[..|d|] == d;
    assert s[|d|..] == rest;
  }
}
