/**
 * Decimal numerals as `Number.prototype.toFixed` writes them (section
 * 21.1.3.3 of ECMA-262), computed on the exact value of the number, and a
 * reading of such numerals back into numbers so that their meaning can be
 * stated.
 */
module Decimal {

  function Pow10(k: nat): (p: nat)
    ensures p >= 1
  {
    if k == 0 then 1 else 10 * Pow10(k - 1)
  }

  predicate IsDigit(c: char)
  {
    '0' <= c <= '9'
  }

  predicate AllDigits(s: string)
  {
    forall i :: 0 <= i < |s| ==> IsDigit(s[i])
  }

  function DigitChar(d: nat): (c: char)
    requires d < 10
    ensures IsDigit(c) && c as int - '0' as int == d
  {
    ('0' as int + d) as char
  }

  /** The number a string of decimal digits denotes (0 for the empty string). */
  function ValueOf(s: string): nat
    requires AllDigits(s)
  {
    if s == [] then 0 else ValueOf(s[..|s| - 1]) * 10 + (s[|s| - 1] as int - '0' as int)
  }

  /** The decimal numeral of `n`, without leading zeros (`ToString` of an integer). */
  function Digits(n: nat): (s: string)
    ensures 1 <= |s| && AllDigits(s)
    ensures (s[0] == '0') == (n == 0)
  {
    if n < 10 then [DigitChar(n)] else Digits(n / 10) + [DigitChar(n % 10)]
  }

  /** A run of `k` zero digits. */
  function Zeros(k: nat): (z: string)
    ensures |z| == k && AllDigits(z)
  {
    seq(k, _ => '0')
  }

  lemma {:induction false} ValueOfZeros(k: nat)
    ensures ValueOf(Zeros(k)) == 0
  {
    if k > 0 {
      assert Zeros(k)[..k - 1] == Zeros(k - 1);
      ValueOfZeros(k - 1);
    }
  }

  lemma {:induction false} ValueOfDigits(n: nat)
    ensures ValueOf(Digits(n)) == n
  {
    if n >= 10 {
      var d := Digits(n / 10);
      ValueOfDigits(n / 10);
      assert (d + [DigitChar(n % 10)])[..|d|] == d;
    }
  }

  /** Writing `b` after `a` shifts `a` left by `|b|` places. */
  lemma {:induction false} ValueOfAppend(a: string, b: string)
    requires AllDigits(a) && AllDigits(b)
    ensures ValueOf(a + b) == ValueOf(a) * Pow10(|b|) + ValueOf(b)
    decreases |b|
  {
    if b == [] {
      assert a + b == a;
    } else {
      var b' := b[..|b| - 1];
      var d := b[|b| - 1] as int - '0' as int;
      assert (a + b)[..|a + b| - 1] == a + b';
      ValueOfAppend(a, b');
      var va, vb', p' := ValueOf(a), ValueOf(b'), Pow10(|b'|);
      assert ValueOf(a + b) == (va * p' + vb') * 10 + d;
      assert ValueOf(b) == vb' * 10 + d;
      assert Pow10(|b|) == p' * 10;
      ShiftOnce(va, vb', p', d);
    }
  }

  lemma ShiftOnce(va: int, vb: int, p: int, d: int)
    ensures (va * p + vb) * 10 + d == va * (p * 10) + (vb * 10 + d)
  {
  }

  function Abs(x: real): real
  {
    if x < 0.0 then -x else x
  }

  /** `y * 10^f`, one factor of ten at a time. */
  function Scale(y: real, f: nat): (r: real)
    ensures y >= 0.0 ==> r >= 0.0
  {
    if f == 0 then y else Scale(y, f - 1) * 10.0
  }

  lemma {:induction false} ScaleIsPow10(y: real, f: nat)
    ensures Scale(y, f) == y * Pow10(f) as real
  {
    if f > 0 {
      ScaleIsPow10(y, f - 1);
      var p := Pow10(f - 1) as real;
      assert Pow10(f) as real == p * 10.0;
      assert Scale(y, f) == (y * p) * 10.0 == y * (p * 10.0);
    }
  }

  /** `v / 10^f`, one factor of ten at a time. */
  function Shift(v: real, f: nat): real
  {
    if f == 0 then v else Shift(v, f - 1) / 10.0
  }

  lemma {:induction false} ShiftIsPow10(v: real, f: nat)
    ensures Shift(v, f) == v / Pow10(f) as real
  {
    if f > 0 {
      ShiftIsPow10(v, f - 1);
      var p := Pow10(f - 1) as real;
      assert Pow10(f) as real == p * 10.0;
      assert Shift(v, f) == (v / p) / 10.0 == v / (p * 10.0);
    }
  }

  /** `|x| * 10^f` rounded to the nearest integer, the larger one on a tie. */
  function RoundedMagnitude(x: real, f: nat): nat
  {
    (Scale(Abs(x), f) + 0.5).Floor
  }

  /** `(y + 0.5).Floor` is an integer nearest to `y`, and the larger of two. */
  lemma NearestInteger(y: real, m: int)
    ensures var r := (y + 0.5).Floor as real;
            && Abs(r - y) <= Abs(m as real - y)
            && (Abs(r - y) == Abs(m as real - y) ==> m as real <= r)
  {
    var r := (y + 0.5).Floor;
    assert r as real <= y + 0.5 < r as real + 1.0;
    if m > r {
      assert m as real >= r as real + 1.0;
    } else if m < r {
      assert m as real <= r as real - 1.0;
    }
  }

  /**
   * ECMA-262 asks toFixed for the integer `n` that makes `n / 10^f - |x|` as
   * close to zero as possible, and for the larger of two such integers.
   */
  lemma RoundedMagnitudeIsNearest(x: real, f: nat, m: int)
    ensures var y := Abs(x) * Pow10(f) as real;
            && Abs(RoundedMagnitude(x, f) as real - y) <= Abs(m as real - y)
            && (Abs(RoundedMagnitude(x, f) as real - y) == Abs(m as real - y) ==> m <= RoundedMagnitude(x, f))
  {
    ScaleIsPow10(Abs(x), f);
    NearestInteger(Scale(Abs(x), f), m);
  }

  /** The digits of `n`, with zeros in front so that there are more than `f` of them. */
  function Padded(n: nat, f: nat): (m: string)
    ensures f + 1 <= |m| && AllDigits(m)
  {
    var d := Digits(n);
    if |d| <= f then Zeros(f + 1 - |d|) + d else d
  }

  /** `n / 10^f` with exactly `f` digits after the point, and no point when `f == 0`. */
  function Render(n: nat, f: nat): (u: string)
    ensures |u| >= f + 1 && IsDigit(u[0])
  {
    var m := Padded(n, f);
    if f == 0 then m else m[..|m| - f] + "." + m[|m| - f..]
  }

  /** `x.toFixed(f)` for `|x| < 10^21`. */
  function Fixed(x: real, f: nat): (r: string)
    ensures |r| >= f + 1
  {
    var n := RoundedMagnitude(x, f);
    if x < 0.0 then "-" + Render(n, f) else Render(n, f)
  }

  // Reading numerals back.

  /** The position of the first '.' in `s`, or `|s|` when there is none. */
  function DotIndex(s: string): (i: nat)
    ensures i <= |s|
    ensures i < |s| ==> s[i] == '.'
    ensures forall j :: 0 <= j < i ==> s[j] != '.'
  {
    if s == [] || s[0] == '.' then 0 else 1 + DotIndex(s[1..])
  }

  /** One or more digits, optionally followed by a point and one or more digits. */
  predicate IsUnsignedNumeral(s: string)
  {
    var i := DotIndex(s);
    0 < i && AllDigits(s[..i]) && (i < |s| ==> i + 1 < |s| && AllDigits(s[i + 1..]))
  }

  /** The number of characters after the first point (0 when there is none). */
  function FractionDigits(s: string): nat
  {
    var i := DotIndex(s);
    if i == |s| then 0 else |s| - i - 1
  }

  /** `s` with its first point taken out. */
  function Undotted(s: string): string
  {
    var i := DotIndex(s);
    if i == |s| then s else s[..i] + s[i + 1..]
  }

  /** A numeral denotes its digits read as an integer, over ten to the number of fraction digits. */
  function UnsignedValue(s: string): real
    requires IsUnsignedNumeral(s)
  {
    var i := DotIndex(s);
    assert i < |s| ==> AllDigits(s[..i] + s[i + 1..]);
    assert i == |s| ==> s[..i] == s;
    Shift(ValueOf(Undotted(s)) as real, FractionDigits(s))
  }

  /** An unsigned numeral, optionally preceded by a minus sign. */
  predicate IsNumeral(s: string)
  {
    if s != [] && s[0] == '-' then IsUnsignedNumeral(s[1..]) else IsUnsignedNumeral(s)
  }

  function NumeralValue(s: string): real
    requires IsNumeral(s)
  {
    if s != [] && s[0] == '-' then -UnsignedValue(s[1..]) else UnsignedValue(s)
  }

  lemma {:induction false} DotIndexOfWhole(a: string, rest: string)
    requires forall j :: 0 <= j < |a| ==> a[j] != '.'
    requires rest == [] || rest[0] == '.'
    ensures DotIndex(a + rest) == |a|
  {
    if a == [] {
      assert a + rest == rest;
    } else {
      assert (a + rest)[0] == a[0];
      assert (a + rest)[1..] == a[1..] + rest;
      DotIndexOfWhole(a[1..], rest);
    }
  }

  /** A string of digits is a numeral without fraction digits. */
  lemma WholeOnly(a: string)
    requires 1 <= |a| && AllDigits(a)
    ensures IsUnsignedNumeral(a) && FractionDigits(a) == 0 && Undotted(a) == a
    ensures UnsignedValue(a) == ValueOf(a) as real
  {
    DotIndexOfWhole(a, []);
    assert a + [] == a;
    var i := DotIndex(a);
    assert i == |a|;
    assert a[..i] == a;
    assert IsUnsignedNumeral(a);
    assert FractionDigits(a) == 0;
    assert Undotted(a) == a;
  }

  /** Digits, a point and more digits form a numeral with `|b|` fraction digits. */
  lemma WholeAndFraction(a: string, b: string)
    requires 1 <= |a| && AllDigits(a) && 1 <= |b| && AllDigits(b)
    ensures IsUnsignedNumeral(a + "." + b) && FractionDigits(a + "." + b) == |b|
    ensures Undotted(a + "." + b) == a + b
    ensures UnsignedValue(a + "." + b) == Shift(ValueOf(a + b) as real, |b|)
  {
    PointAfter(a, b);
  }

  /** The first point of `a + "." + b`, for digits `a`, is the one between them. */
  lemma PointAfter(a: string, b: string)
    requires AllDigits(a)
    ensures var s := a + "." + b;
            && |s| == |a| + 1 + |b| && DotIndex(s) == |a|
            && s[..|a|] == a && s[|a| + 1..] == b
  {
    assert a + "." + b == a + ("." + b);
    assert ("." + b)[0] == '.';
    assert forall j :: 0 <= j < |a| ==> a[j] != '.';
    DotIndexOfWhole(a, "." + b);
  }

  lemma SignedNumeral(u: string)
    requires IsUnsignedNumeral(u)
    ensures IsNumeral("-" + u) && NumeralValue("-" + u) == -UnsignedValue(u)
    ensures FractionDigits("-" + u) == FractionDigits(u)
    ensures IsNumeral(u) && NumeralValue(u) == UnsignedValue(u)
  {
    assert ("-" + u)[1..] == u;
    assert DotIndex("-" + u) == 1 + DotIndex(u);
    var i := DotIndex(u);
    assert u[0] != '-' by {
      assert u[..i][0] == u[0];
    }
  }

  lemma PaddedValue(n: nat, f: nat)
    ensures ValueOf(Padded(n, f)) == n
  {
    var d := Digits(n);
    ValueOfDigits(n);
    var m := Padded(n, f);
    if |d| <= f {
      LeadingZeros(f + 1 - |d|, d);
      assert m == Zeros(f + 1 - |d|) + d;
    } else {
      assert m == d;
    }
  }

  /** Zeros in front do not change what digits denote. */
  lemma LeadingZeros(k: nat, d: string)
    requires AllDigits(d)
    ensures AllDigits(Zeros(k) + d) && ValueOf(Zeros(k) + d) == ValueOf(d)
  {
    var z := Zeros(k);
    ValueOfAppend(z, d);
    ValueOfZeros(k);
    assert ValueOf(z) * Pow10(|d|) == 0;
  }

  lemma RenderWhole(n: nat)
    ensures IsUnsignedNumeral(Render(n, 0)) && FractionDigits(Render(n, 0)) == 0
    ensures UnsignedValue(Render(n, 0)) == n as real
  {
    var m := Padded(n, 0);
    PaddedValue(n, 0);
    assert Render(n, 0) == m;
    WholeOnly(m);
  }

  lemma RenderFraction(n: nat, f: nat)
    requires f > 0
    ensures IsUnsignedNumeral(Render(n, f)) && FractionDigits(Render(n, f)) == f
    ensures UnsignedValue(Render(n, f)) == Shift(n as real, f)
  {
    var a, b := RenderParts(n, f);
    PaddedValue(n, f);
    WholeAndFraction(a, b);
  }

  /** For `f > 0`, `Render` writes the padded digits with a point before the last `f`. */
  lemma RenderParts(n: nat, f: nat) returns (whole: string, frac: string)
    requires f > 0
    ensures Render(n, f) == whole + "." + frac && whole + frac == Padded(n, f)
    ensures 1 <= |whole| && AllDigits(whole) && |frac| == f && AllDigits(frac)
  {
    var m := Padded(n, f);
    whole, frac := m[..|m| - f], m[|m| - f..];
    assert whole + frac == m;
  }

  /** What `Render` writes denotes `n / 10^f`, with `f` digits after the point. */
  lemma RenderValue(n: nat, f: nat)
    ensures IsUnsignedNumeral(Render(n, f)) && FractionDigits(Render(n, f)) == f
    ensures UnsignedValue(Render(n, f)) == Shift(n as real, f)
  {
    if f == 0 {
      RenderWhole(n);
    } else {
      RenderFraction(n, f);
    }
  }

  /** Shape of `x.toFixed(f)` for `f > 0`: an optional sign, the whole digits, a point and `f` digits. */
  lemma FixedParts(x: real, f: nat) returns (sign: string, whole: string, frac: string)
    requires f > 0
    ensures Fixed(x, f) == sign + whole + "." + frac
    ensures sign == (if x < 0.0 then "-" else "")
    ensures 1 <= |whole| && AllDigits(whole) && |frac| == f && AllDigits(frac)
  {
    sign := if x < 0.0 then "-" else "";
    whole, frac := RenderParts(RoundedMagnitude(x, f), f);
    assert sign + (whole + "." + frac) == sign + whole + "." + frac;
  }

  /**
   * `x.toFixed(f)` is a numeral with `f` digits after the point whose value is
   * the sign of `x` times its magnitude rounded to `f` places.
   */
  lemma FixedValue(x: real, f: nat)
    ensures IsNumeral(Fixed(x, f)) && FractionDigits(Fixed(x, f)) == f
    ensures var r := Shift(RoundedMagnitude(x, f) as real, f);
            NumeralValue(Fixed(x, f)) == if x < 0.0 then -r else r
  {
    var n := RoundedMagnitude(x, f);
    var u := Render(n, f);
    RenderValue(n, f);
    SignedNumeral(u);
    assert Fixed(x, f) == if x < 0.0 then "-" + u else u;
  }

  /** For a number of zero or more, `toFixed(f)` denotes its value rounded to `f` places. */
  lemma FixedValueNonNegative(x: real, f: nat)
    requires x >= 0.0
    ensures IsNumeral(Fixed(x, f)) && FractionDigits(Fixed(x, f)) == f
    ensures NumeralValue(Fixed(x, f)) == Shift(RoundedMagnitude(x, f) as real, f)
  {
    FixedValue(x, f);
  }

  /** No zeros in front: a lone "0", or a first digit other than 0. */
  predicate NoLeadingZeros(w: string)
  {
    w == "0" || (|w| > 0 && w[0] != '0')
  }

  /** The digits `Render` puts before the point have no zeros in front. */
  lemma PaddedWhole(n: nat, f: nat)
    ensures var m := Padded(n, f); NoLeadingZeros(m[..|m| - f])
  {
    var d := Digits(n);
    var m := Padded(n, f);
    if |d| <= f {
      assert m == Zeros(f + 1 - |d|) + d;
      assert m[..|m| - f] == [m[0]] && m[0] == '0';
    } else {
      assert m == d;
      if n == 0 {
        assert d == [DigitChar(0)] == "0";
      } else {
        assert m[..|m| - f][0] == d[0];
      }
    }
  }

  /**
   * The whole part `x.toFixed(f)` writes, after the sign and before the
   * point, is "0" or starts with a digit other than 0.
   */
  lemma FixedWholeNoLeadingZeros(x: real, f: nat)
    ensures var s := Fixed(x, f);
            var u := if x < 0.0 then s[1..] else s;
            NoLeadingZeros(u[..DotIndex(u)])
  {
    var n := RoundedMagnitude(x, f);
    var m := Padded(n, f);
    var u := Render(n, f);
    PaddedWhole(n, f);
    assert (if x < 0.0 then Fixed(x, f)[1..] else Fixed(x, f)) == u;
    if f == 0 {
      assert u == m && m + [] == m;
      DotIndexOfWhole(m, []);
    } else {
      var a, b := RenderParts(n, f);
      PointAfter(a, b);
      assert a == m[..|m| - f];
    }
  }

  /** The shifts `toFixed(0)`, `toFixed(1)` and `toFixed(2)` read back with. */
  lemma ShiftSmall(v: real)
    ensures Shift(v, 0) == v && Shift(v, 1) == v / 10.0 && Shift(v, 2) == v / 100.0
  {
  }
}
