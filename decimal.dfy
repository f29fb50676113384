/** Decimal text for the numbers the loop pipeline hands to ffmpeg: the
    process id inside temporary file names, the input count of a concat
    filter, and time offsets in seconds.

    Times are whole milliseconds. `Seconds` prints them in seconds, the way
    Rust's `Display` prints the `f32` nearest to that many seconds while
    adjacent `f32` values are less than 1 ms apart (below 2^14 seconds):
    no trailing zeros, no dot for whole seconds, a leading minus sign for
    negative values. `ParseSeconds` reads such text back; the round trip
    shows that two arguments printed from the same boundary agree exactly. */
module Decimal {

  datatype Option<T> = None | Some(value: T)

  predicate IsDigit(c: char) {
    '0' <= c <= '9'
  }

  predicate AllDigits(s: string) {
    forall i :: 0 <= i < |s| ==> IsDigit(s[i])
  }

  function Digit(d: nat): (c: char)
    requires d < 10
    ensures IsDigit(c)
  {
    ('0' as int + d) as char
  }

  function DigitValue(c: char): (d: nat)
    requires IsDigit(c)
    ensures d < 10 && Digit(d) == c
  {
    c as int - '0' as int
  }

  /** The decimal digits of `n`, most significant first, without leading zeros. */
  function NatToString(n: nat): (s: string)
    ensures s != [] && AllDigits(s)
    ensures (s[0] == '0') == (n == 0)
    decreases n
  {
    if n < 10 then [Digit(n)] else NatToString(n / 10) + [Digit(n % 10)]
  }

  function ParseNat(s: string): nat
    requires AllDigits(s)
  {
    if s == [] then 0 else ParseNat(s[..|s| - 1]) * 10 + DigitValue(s[|s| - 1])
  }

  lemma {:induction false} ParseNatToString(n: nat)
    ensures ParseNat(NatToString(n)) == n
  {
    if n >= 10 {
      var s := NatToString(n);
      assert s[..|s| - 1] == NatToString(n / 10);
      ParseNatToString(n / 10);
    }
  }

  /** The part after the whole seconds: empty for a whole second, else a dot
      and the millisecond digits up to the last non-zero one. */
  function Fraction(ms: nat): string
    requires ms < 1000
  {
    if ms == 0 then ""
    else if ms % 100 == 0 then ['.', Digit(ms / 100)]
    else if ms % 10 == 0 then ['.', Digit(ms / 100), Digit(ms / 10 % 10)]
    else ['.', Digit(ms / 100), Digit(ms / 10 % 10), Digit(ms % 10)]
  }

  function UnsignedSeconds(ms: nat): string {
    NatToString(ms / 1000) + Fraction(ms % 1000)
  }

  /** `ms` milliseconds written as decimal seconds: a minus sign exactly for
      a negative time, then a digit. */
  function Seconds(ms: int): (s: string)
    ensures |s| >= 1 && (s[0] == '-' <==> ms < 0)
    ensures ms < 0 ==> |s| >= 2 && IsDigit(s[1])
    ensures IsDigit(s[if ms < 0 then 1 else 0])
  {
    var u := if ms < 0 then -ms else ms;
    UnsignedSecondsStartsWithDigit(u);
    if ms < 0 then "-" + UnsignedSeconds(u) else UnsignedSeconds(u)
  }

  function Pow10(k: nat): nat {
    if k == 0 then 1 else 10 * Pow10(k - 1)
  }

  /** Index of the first dot in `s`, or `|s|` when there is none. */
  function DotIndex(s: string): (i: nat)
    ensures i <= |s|
    ensures forall j :: 0 <= j < i ==> s[j] != '.'
    ensures i < |s| ==> s[i] == '.'
  {
    if s == [] || s[0] == '.' then 0 else 1 + DotIndex(s[1..])
  }

  /** Reads `digits[.d[d[d]]]` as a whole number of milliseconds. */
  function ParseUnsignedSeconds(s: string): Option<int> {
    var i := DotIndex(s);
    var whole, frac := s[..i], s[i..];
    if whole == [] || !AllDigits(whole) then None
    else if frac == [] then Some(ParseNat(whole) * 1000)
    else if 2 <= |frac| <= 4 && AllDigits(frac[1..]) then
      Some(ParseNat(whole) * 1000 + ParseNat(frac[1..]) * Pow10(4 - |frac|))
    else None
  }

  /** Reads decimal seconds, optionally negative, as milliseconds. */
  function ParseSeconds(s: string): Option<int> {
    if s != [] && s[0] == '-' then
      match ParseUnsignedSeconds(s[1..])
      case None => None
      case Some(v) => Some(-v)
    else ParseUnsignedSeconds(s)
  }

  lemma {:induction false} DotIndexAfterDigits(digits: string, rest: string)
    requires AllDigits(digits)
    requires rest == [] || rest[0] == '.'
    ensures DotIndex(digits + rest) == |digits|
  {
    if digits != [] {
      assert (digits + rest)[1..] == digits[1..] + rest;
      DotIndexAfterDigits(digits[1..], rest);
    }
  }

  lemma ParseOneDigit(a: nat)
    requires a < 10
    ensures ParseNat([Digit(a)]) == a
  {
    assert [Digit(a)][..0] == [];
  }

  lemma ParseTwoDigits(a: nat, b: nat)
    requires a < 10 && b < 10
    ensures ParseNat([Digit(a), Digit(b)]) == 10 * a + b
  {
    assert [Digit(a), Digit(b)][..1] == [Digit(a)];
    ParseOneDigit(a);
  }

  lemma ParseThreeDigits(a: nat, b: nat, c: nat)
    requires a < 10 && b < 10 && c < 10
    ensures ParseNat([Digit(a), Digit(b), Digit(c)]) == 100 * a + 10 * b + c
  {
    assert [Digit(a), Digit(b), Digit(c)][..2] == [Digit(a), Digit(b)];
    ParseTwoDigits(a, b);
  }

  lemma FractionValue(ms: nat)
    requires 0 < ms < 1000
    ensures var f := Fraction(ms);
      2 <= |f| <= 4 && f[0] == '.' && AllDigits(f[1..])
      && ParseNat(f[1..]) * Pow10(4 - |f|) == ms
  {
    var a, b, c := ms / 100, ms / 10 % 10, ms % 10;
    assert ms == 100 * a + 10 * b + c;
    var f := Fraction(ms);
    assert Pow10(1) == 10 && Pow10(2) == 100 && Pow10(0) == 1;
    if ms % 100 == 0 {
      assert f[1..] == [Digit(a)];
      ParseOneDigit(a);
    } else if ms % 10 == 0 {
      assert f[1..] == [Digit(a), Digit(b)];
      ParseTwoDigits(a, b);
    } else {
      assert f[1..] == [Digit(a), Digit(b), Digit(c)];
      ParseThreeDigits(a, b, c);
    }
  }

  /** Printed whole milliseconds start with a digit. */
  lemma UnsignedSecondsStartsWithDigit(ms: nat)
    ensures UnsignedSeconds(ms) != [] && IsDigit(UnsignedSeconds(ms)[0])
  {
    var w := NatToString(ms / 1000);
    assert (w + Fraction(ms % 1000))[0] == w[0];
  }

  lemma UnsignedSecondsRoundTrip(ms: nat)
    ensures ParseUnsignedSeconds(UnsignedSeconds(ms)) == Some(ms)
  {
    var w, f := NatToString(ms / 1000), Fraction(ms % 1000);
    var s := w + f;
    DotIndexAfterDigits(w, f);
    assert s[..|w|] == w && s[|w|..] == f;
    ParseNatToString(ms / 1000);
    if ms % 1000 != 0 {
      FractionValue(ms % 1000);
    }
  }

  /** Text that starts with a minus sign reads as the negation of the rest. */
  lemma ParseNegated(u: string, v: int)
    requires ParseUnsignedSeconds(u) == Some(v)
    ensures ParseSeconds("-" + u) == Some(-v)
  {
    assert ("-" + u)[1..] == u;
  }

  /** Text that starts with a digit reads as unsigned. */
  lemma ParsePlain(u: string, v: int)
    requires u != [] && IsDigit(u[0]) && ParseUnsignedSeconds(u) == Some(v)
    ensures ParseSeconds(u) == Some(v)
  {
  }

  /** Reading back a printed time gives the milliseconds it was printed from. */
  lemma SecondsRoundTrip(ms: int)
    ensures ParseSeconds(Seconds(ms)) == Some(ms)
  {
    if ms < 0 {
      var u := UnsignedSeconds(-ms);
      assert Seconds(ms) == "-" + u;
      UnsignedSecondsRoundTrip(-ms);
      ParseNegated(u, -ms);
    } else {
      var u := UnsignedSeconds(ms);
      assert Seconds(ms) == u;
      UnsignedSecondsRoundTrip(ms);
      UnsignedSecondsStartsWithDigit(ms);
      ParsePlain(u, ms);
    }
  }

  /** Different times never print the same. */
  lemma SecondsInjective(a: int, b: int)
    requires Seconds(a) == Seconds(b)
    ensures a == b
  {
    SecondsRoundTrip(a);
    SecondsRoundTrip(b);
  }
}
