/**
 * Decimal text of integers, as `FString::Printf(TEXT("%i"), n)` writes it,
 * with a reader for it, and the diagnostic names of the Kawase blur passes.
 */
module Decimal {
  import opened Common

  predicate IsDigit(c: char) {
    '0' <= c <= '9'
  }

  predicate AllDigits(s: string) {
    forall k :: 0 <= k < |s| ==> IsDigit(s[k])
  }

  function DigitChar(d: int): (c: char)
    requires 0 <= d < 10
    ensures IsDigit(c)
  {
    (48 + d) as char
  }

  function DigitValue(c: char): (d: nat)
    requires IsDigit(c)
    ensures d < 10
  {
    (c as int) - 48
  }

  /** Decimal digits of `n`, most significant first, without leading zeros. */
  function NatToString(n: nat): (s: string)
    ensures 1 <= |s| && AllDigits(s)
    ensures |s| > 1 ==> s[0] != '0'
  {
    if n < 10 then [DigitChar(n)] else NatToString(n / 10) + [DigitChar(n % 10)]
  }

  /** `%i`: a minus sign before the digits of a negative number. */
  function IntToString(n: int): (s: string)
    ensures 1 <= |s|
  {
    if n < 0 then "-" + NatToString(-n) else NatToString(n)
  }

  /** The number a string of decimal digits denotes. */
  function DigitsValue(s: string): nat
    requires AllDigits(s)
  {
    if |s| == 0 then 0 else 10 * DigitsValue(s[..|s| - 1]) + DigitValue(s[|s| - 1])
  }

  /** How many decimal digits `s` starts with. */
  function DigitRun(s: string): (n: nat)
    ensures n <= |s| && AllDigits(s[..n])
    ensures n < |s| ==> !IsDigit(s[n])
  {
    if |s| == 0 || !IsDigit(s[0]) then 0
    else
      var n := 1 + DigitRun(s[1..]);
      assert s[..n] == [s[0]] + s[1..][..n - 1];
      n
  }

  /**
   * Reads an optionally negative decimal number at the start of `s`, taking
   * every digit there is; gives the number and the text after it.
   */
  function ParseInt(s: string): (r: Option<(int, string)>)
    ensures r.Some? ==> |r.value.1| < |s|
  {
    if |s| > 0 && s[0] == '-' then
      var n := DigitRun(s[1..]);
      var v: int := DigitsValue(s[1..][..n]);
      if n == 0 then None else Some((-v, s[1..][n..]))
    else
      var n := DigitRun(s);
      if n == 0 then None else Some((DigitsValue(s[..n]), s[n..]))
  }

  lemma {:induction false} NatToStringValue(n: nat)
    ensures DigitsValue(NatToString(n)) == n
  {
    var s := NatToString(n);
    if n >= 10 {
      NatToStringValue(n / 10);
      assert s[..|s| - 1] == NatToString(n / 10);
    }
  }

  /** A run of digits followed by a non-digit (or nothing) is read whole. */
  lemma {:induction false} DigitRunOfDigits(d: string, rest: string)
    requires AllDigits(d)
    requires rest == [] || !IsDigit(rest[0])
    ensures DigitRun(d + rest) == |d|
  {
    if |d| > 0 {
      assert (d + rest)[1..] == d[1..] + rest;
      DigitRunOfDigits(d[1..], rest);
    }
  }

  /** Reading back what `%i` wrote gives the number and leaves the text after it. */
  lemma IntToStringRoundTrip(n: int, rest: string)
    requires rest == [] || !IsDigit(rest[0])
    ensures ParseInt(IntToString(n) + rest) == Some((n, rest))
  {
    var d := NatToString(if n < 0 then -n else n);
    NatToStringValue(if n < 0 then -n else n);
    DigitRunOfDigits(d, rest);
    var s := IntToString(n) + rest;
    if n < 0 {
      assert s[1..] == d + rest;
      assert (d + rest)[..|d|] == d;
      assert (d + rest)[|d|..] == rest;
    } else {
      assert s == d + rest;
      assert s[..|d|] == d;
      assert s[|d|..] == rest;
    }
  }

  /** `%i` never writes the same text for two numbers. */
  lemma IntToStringInjective(m: int, n: int)
    requires IntToString(m) == IntToString(n)
    ensures m == n
  {
    IntToStringRoundTrip(m, []);
    IntToStringRoundTrip(n, []);
    assert IntToString(m) + [] == IntToString(m);
    assert IntToString(n) + [] == IntToString(n);
  }

  /**
   * `"KawaseBlur" + "_%i_" + ("Down" | "Up") + "_%ix%i"`: the name a blur
   * pass and its buffer get, from the pass index, its direction and the
   * width and height of its rectangle.
   */
  function BlurPassName(index: int, down: bool, width: int, height: int): string {
    "KawaseBlur_" + (IntToString(index)
      + ("_" + (if down then "Down" else "Up") + "_" + (IntToString(width) + "x" + IntToString(height))))
  }

  /** Reads `"_Down_"` or `"_Up_"`: true for Down, and the text after it. */
  function ParseDirection(s: string): Option<(bool, string)> {
    if |s| >= 6 && s[..6] == "_Down_" then Some((true, s[6..]))
    else if |s| >= 4 && s[..4] == "_Up_" then Some((false, s[4..]))
    else None
  }

  /** Reads `"%ix%i"` and nothing after it. */
  function ParseSize(s: string): Option<(int, int)> {
    match ParseInt(s)
    case None => None
    case Some((width, s1)) =>
      if |s1| == 0 || s1[0] != 'x' then None
      else match ParseInt(s1[1..])
        case None => None
        case Some((height, s2)) => if s2 != [] then None else Some((width, height))
  }

  /** Reads a blur pass name back into index, direction, width and height. */
  function ParseBlurPassName(s: string): Option<(int, bool, int, int)> {
    var prefix := "KawaseBlur_";
    if |s| < |prefix| || s[..|prefix|] != prefix then None
    else match ParseInt(s[|prefix|..])
      case None => None
      case Some((index, s1)) =>
        match ParseDirection(s1)
        case None => None
        case Some((down, s2)) =>
          match ParseSize(s2)
          case None => None
          case Some((width, height)) => Some((index, down, width, height))
  }

  lemma DirectionRoundTrip(down: bool, rest: string)
    ensures ParseDirection("_" + (if down then "Down" else "Up") + "_" + rest) == Some((down, rest))
  {
    var s := "_" + (if down then "Down" else "Up") + "_" + rest;
    if down {
      assert s[..6] == "_Down_" && s[6..] == rest;
    } else {
      assert s[..4] == "_Up_" && s[4..] == rest;
      assert |s| >= 6 ==> s[1] == 'U';
    }
  }

  lemma SizeRoundTrip(width: int, height: int)
    ensures ParseSize(IntToString(width) + "x" + IntToString(height)) == Some((width, height))
  {
    var hs := IntToString(height);
    IntToStringRoundTrip(width, "x" + hs);
    assert IntToString(width) + "x" + hs == IntToString(width) + ("x" + hs);
    assert ("x" + hs)[1..] == hs + [];
    IntToStringRoundTrip(height, []);
  }

  /** A blur pass name can be read back: it says which pass it belongs to. */
  lemma BlurPassNameRoundTrip(index: int, down: bool, width: int, height: int)
    ensures ParseBlurPassName(BlurPassName(index, down, width, height)) == Some((index, down, width, height))
  {
    var size := IntToString(width) + "x" + IntToString(height);
    var s1 := "_" + (if down then "Down" else "Up") + "_" + size;
    var s := BlurPassName(index, down, width, height);
    assert s[..11] == "KawaseBlur_" && s[11..] == IntToString(index) + s1;
    IntToStringRoundTrip(index, s1);
    DirectionRoundTrip(down, size);
    SizeRoundTrip(width, height);
  }

  /** Two blur passes with different indices never share a name. */
  lemma BlurPassNamesDistinct(i: int, j: int, di: bool, dj: bool, wi: int, wj: int, hi: int, hj: int)
    requires i != j
    ensures BlurPassName(i, di, wi, hi) != BlurPassName(j, dj, wj, hj)
  {
    BlurPassNameRoundTrip(i, di, wi, hi);
    BlurPassNameRoundTrip(j, dj, wj, hj);
  }
}
