/**
 * The two display formatters of src/lib/utils.ts: `formatNumber`, which
 * writes a number with two decimals and strips the trailing zeros, and
 * `formatAmount`, which writes an ingredient amount and switches large
 * millilitre amounts to litres.
 */
module Format {
  import opened Decimal

  predicate AllZeros(t: string)
  {
    forall i :: 0 <= i < |t| ==> t[i] == '0'
  }

  /** `t`, as a whole, matches the pattern `\.?0+`. */
  predicate DotZeros(t: string)
  {
    (1 <= |t| && AllZeros(t)) || (2 <= |t| && t[0] == '.' && AllZeros(t[1..]))
  }

  /** The leftmost position, from `i` on, where `\.?0+$` matches; `|s|` when there is none. */
  function MatchStart(s: string, i: nat): (k: nat)
    requires i <= |s|
    ensures i <= k <= |s|
    ensures k < |s| ==> DotZeros(s[k..])
    ensures forall j :: i <= j < k ==> !DotZeros(s[j..])
    decreases |s| - i
  {
    if i == |s| then |s| else if DotZeros(s[i..]) then i else MatchStart(s, i + 1)
  }

  /**
   * `s.replace(/\.?0+$/, '')`: the leftmost match of the end-anchored
   * pattern, which runs to the end of `s`, is cut off.
   */
  function StripTrailingZeros(s: string): (r: string)
    ensures r <= s
    ensures |r| < |s| ==> DotZeros(s[|r|..])
    ensures forall j :: 0 <= j < |r| ==> !DotZeros(s[j..])
  {
    s[..MatchStart(s, 0)]
  }

  /** `formatNumber(num)`: two decimals, then trailing zeros and a bare point removed. */
  function FormatNumber(x: real): (r: string)
    ensures r <= Fixed(x, 2)
  {
    StripTrailingZeros(Fixed(x, 2))
  }

  /** The amount text and unit text of one table cell. */
  datatype Display = Display(amount: string, unit: string)

  /** Millilitres as litres, `amount / 1000`. */
  function Litres(amount: real): (l: real)
    ensures l * 1000.0 == amount
  {
    amount / 1000.0
  }

  /** `formatAmount(amount, unit)`. */
  function FormatAmount(amount: real, unit: string): (r: Display)
    ensures r.unit == if unit == "ml" && amount >= 1000.0 then "" else unit
  {
    if unit == "ml" && amount >= 1000.0 then
      Display(Fixed(Litres(amount), 2) + "L (" + Fixed(amount, 0) + "ml)", "")
    else
      Display(Fixed(amount, 1), unit)
  }

  // Proofs.

  /** Any `k` with the leftmost-match properties is the one `MatchStart` finds. */
  lemma MatchStartIs(s: string, k: nat)
    requires k <= |s|
    requires k < |s| ==> DotZeros(s[k..])
    requires forall j :: 0 <= j < k ==> !DotZeros(s[j..])
    ensures MatchStart(s, 0) == k
  {
  }

  /** A character other than '0' (and other than a point, at the front) rules out a match. */
  lemma NotDotZeros(t: string, i: nat)
    requires i < |t| && t[i] != '0' && (i == 0 ==> t[0] != '.')
    ensures !DotZeros(t)
  {
    if 1 <= i {
      assert t[1..][i - 1] == t[i];
    }
  }

  /** What `formatNumber` keeps of a numeral with the whole digits `whole` and decimals `d1 d2`. */
  function TwoPlacesTrimmed(whole: string, d1: char, d2: char): string
  {
    if d1 == '0' && d2 == '0' then whole
    else if d2 == '0' then whole + "." + [d1]
    else whole + "." + [d1, d2]
  }

  /**
   * On a numeral with two decimals, the pattern removes ".00", or a single
   * final zero, or nothing.
   */
  lemma StripTwoPlaces(p: string, d1: char, d2: char)
    requires forall j :: 0 <= j < |p| ==> p[j] != '.'
    requires IsDigit(d1) && IsDigit(d2)
    ensures StripTrailingZeros(p + "." + [d1, d2]) == TwoPlacesTrimmed(p, d1, d2)
  {
    var s := p + "." + [d1, d2];
    var n := |p|;
    assert s[n..] == ['.', d1, d2];
    assert s[n + 1..] == [d1, d2];
    assert s[n + 2..] == [d2];
    forall j | 0 <= j < n
      ensures !DotZeros(s[j..])
    {
      assert s[j..][n - j] == '.';
      assert s[j..][0] == p[j];
    }
    if d1 == '0' && d2 == '0' {
      assert DotZeros(s[n..]);
      MatchStartIs(s, n);
      assert s[..n] == p;
    } else if d2 == '0' {
      NotDotZeros(s[n..], 1);
      NotDotZeros(s[n + 1..], 0);
      assert DotZeros(s[n + 2..]);
      MatchStartIs(s, n + 2);
      assert s[..n + 2] == p + "." + [d1];
    } else {
      NotDotZeros(s[n..], 2);
      NotDotZeros(s[n + 1..], 1);
      NotDotZeros(s[n + 2..], 0);
      MatchStartIs(s, n + 3);
      assert s[..n + 3] == s;
    }
  }

  /** Dropping ".00", or one final zero, from an unsigned numeral keeps its value. */
  lemma TrimmedValue(whole: string, d1: char, d2: char)
    requires 1 <= |whole| && AllDigits(whole) && IsDigit(d1) && IsDigit(d2)
    ensures var u, t := whole + "." + [d1, d2], TwoPlacesTrimmed(whole, d1, d2);
            && IsUnsignedNumeral(u) && IsUnsignedNumeral(t)
            && UnsignedValue(t) == UnsignedValue(u)
  {
    var w := ValueOf(whole);
    var v1, v2 := d1 as int - '0' as int, d2 as int - '0' as int;
    WholeAndFraction(whole, [d1, d2]);
    DecimalsValue(whole, d1, d2);
    ShiftSmall(ValueOf(whole + [d1, d2]) as real);
    if d1 == '0' && d2 == '0' {
      WholeOnly(whole);
    } else if d2 == '0' {
      WholeAndFraction(whole, [d1]);
      ShiftSmall(ValueOf(whole + [d1]) as real);
    }
  }

  /** The digits of a whole part followed by one or two decimals, read as an integer. */
  lemma DecimalsValue(whole: string, d1: char, d2: char)
    requires AllDigits(whole) && IsDigit(d1) && IsDigit(d2)
    ensures var w, v1, v2 := ValueOf(whole), d1 as int - '0' as int, d2 as int - '0' as int;
            && ValueOf(whole + [d1, d2]) == w * 100 + v1 * 10 + v2
            && ValueOf(whole + [d1]) == w * 10 + v1
  {
    ValueOfAppend(whole, [d1, d2]);
    ValueOfAppend(whole, [d1]);
    assert [d1, d2][..1] == [d1];
    assert [d1][..0] == [];
    assert Pow10(2) == 100 && Pow10(1) == 10;
  }

  /** `formatNumber(x)` is `x.toFixed(2)` with its decimals trimmed. */
  lemma FormatNumberParts(x: real) returns (sign: string, whole: string, d1: char, d2: char)
    ensures Fixed(x, 2) == sign + (whole + "." + [d1, d2])
    ensures FormatNumber(x) == sign + TwoPlacesTrimmed(whole, d1, d2)
    ensures sign == (if x < 0.0 then "-" else "")
    ensures 1 <= |whole| && AllDigits(whole) && IsDigit(d1) && IsDigit(d2)
  {
    var frac;
    sign, whole, frac := FixedParts(x, 2);
    d1, d2 := frac[0], frac[1];
    assert frac == [d1, d2];
    SignedTwoPlaces(Fixed(x, 2), sign, whole, d1, d2);
  }

  /** Stripping a signed numeral with two decimals trims the decimals behind the sign. */
  lemma SignedTwoPlaces(s: string, sign: string, whole: string, d1: char, d2: char)
    requires sign == "" || sign == "-"
    requires s == sign + whole + "." + [d1, d2]
    requires AllDigits(whole) && IsDigit(d1) && IsDigit(d2)
    ensures s == sign + (whole + "." + [d1, d2])
    ensures StripTrailingZeros(s) == sign + TwoPlacesTrimmed(whole, d1, d2)
  {
    var p := sign + whole;
    assert forall j :: 0 <= j < |p| ==> p[j] != '.' by {
      forall j | 0 <= j < |p|
        ensures p[j] != '.'
      {
        if j >= |sign| {
          assert p[j] == whole[j - |sign|];
        }
      }
    }
    StripTwoPlaces(p, d1, d2);
    TrimmedBehindSign(sign, whole, d1, d2);
  }

  /** An optional minus sign in front of an unsigned numeral negates it. */
  lemma SignPrefix(sign: string, u: string)
    requires sign == "" || sign == "-"
    requires IsUnsignedNumeral(u)
    ensures IsNumeral(sign + u)
    ensures NumeralValue(sign + u) == if sign == "-" then -UnsignedValue(u) else UnsignedValue(u)
  {
    SignedNumeral(u);
    if sign == "" {
      assert sign + u == u;
    }
  }

  /** The trimmed numeral keeps the value of the untrimmed one. */
  lemma TrimmedSameValue(sign: string, whole: string, d1: char, d2: char)
    requires sign == "" || sign == "-"
    requires 1 <= |whole| && AllDigits(whole) && IsDigit(d1) && IsDigit(d2)
    ensures var s, r := sign + (whole + "." + [d1, d2]), sign + TwoPlacesTrimmed(whole, d1, d2);
            && IsNumeral(s) && IsNumeral(r)
            && NumeralValue(r) == NumeralValue(s)
  {
    TrimmedValue(whole, d1, d2);
    SignPrefix(sign, whole + "." + [d1, d2]);
    SignPrefix(sign, TwoPlacesTrimmed(whole, d1, d2));
  }

  /** The trimmed numeral is a prefix holding the whole part, and ends in neither a point nor a zero decimal. */
  lemma TrimmedPrefix(p: string, d1: char, d2: char)
    requires 1 <= |p| && p[|p| - 1] != '.'
    requires forall j :: 0 <= j < |p| ==> p[j] != '.'
    requires IsDigit(d1) && IsDigit(d2)
    ensures var s, r := p + "." + [d1, d2], TwoPlacesTrimmed(p, d1, d2);
            && r <= s
            && s[..DotIndex(s)] <= r
            && r[|r| - 1] != '.'
            && ('.' in r ==> r[|r| - 1] != '0')
  {
    var tail := "." + [d1, d2];
    var s, r := p + tail, TwoPlacesTrimmed(p, d1, d2);
    assert p + "." + [d1, d2] == s;
    DotIndexOfWhole(p, tail);
    assert s[..|p|] == p;
    if d1 == '0' && d2 == '0' {
      assert r == p;
    } else if d2 == '0' {
      assert r == p + ['.', d1];
      assert r == s[..|p| + 2];
      assert r[..|p|] == p;
    } else {
      assert r == s;
    }
  }

  /** `sign + p + ...` has the same trimmed form as `p + ...`, behind the sign. */
  lemma TrimmedBehindSign(sign: string, whole: string, d1: char, d2: char)
    ensures sign + TwoPlacesTrimmed(whole, d1, d2) == TwoPlacesTrimmed(sign + whole, d1, d2)
    ensures sign + (whole + "." + [d1, d2]) == (sign + whole) + "." + [d1, d2]
  {
  }

  /** `formatNumber(x)` denotes the same number as `x.toFixed(2)`. */
  lemma FormatNumberKeepsValue(x: real)
    ensures var s, r := Fixed(x, 2), FormatNumber(x);
            && IsNumeral(s) && IsNumeral(r)
            && NumeralValue(r) == NumeralValue(s)
  {
    var sign, whole, d1, d2 := FormatNumberParts(x);
    TrimmedSameValue(sign, whole, d1, d2);
  }

  /**
   * `formatNumber(x)` only cuts characters off the end of `x.toFixed(2)`,
   * keeps its whole part, and ends in neither a point nor a zero after a
   * point.
   */
  lemma FormatNumberShape(x: real)
    ensures var s, r := Fixed(x, 2), FormatNumber(x);
            && r <= s
            && s[..DotIndex(s)] <= r
            && r[|r| - 1] != '.'
            && ('.' in r ==> r[|r| - 1] != '0')
  {
    var sign, whole, d1, d2 := FormatNumberParts(x);
    TrimmedBehindSign(sign, whole, d1, d2);
    var p := sign + whole;
    assert p[|p| - 1] == whole[|whole| - 1];
    TrimmedPrefix(p, d1, d2);
  }

  /**
   * `formatAmount` on a millilitre amount of 1000 or more: the text reads
   * "<litres to 2 places>L (<millilitres to 0 places>ml)" and the unit
   * shown is empty.
   */
  lemma FormatAmountLitres(amount: real, unit: string) returns (litres: string, millilitres: string)
    requires unit == "ml" && amount >= 1000.0
    ensures FormatAmount(amount, unit) == Display(litres + "L (" + millilitres + "ml)", "")
    ensures IsNumeral(litres) && FractionDigits(litres) == 2
    ensures NumeralValue(litres) == RoundedMagnitude(Litres(amount), 2) as real / 100.0
    ensures IsNumeral(millilitres) && FractionDigits(millilitres) == 0
    ensures NumeralValue(millilitres) == RoundedMagnitude(amount, 0) as real
    ensures litres == Fixed(Litres(amount), 2) && millilitres == Fixed(amount, 0)
    ensures NoLeadingZeros(litres[..DotIndex(litres)]) && NoLeadingZeros(millilitres[..DotIndex(millilitres)])
  {
    var x := Litres(amount);
    litres, millilitres := Fixed(x, 2), Fixed(amount, 0);
    HundredthsValue(x);
    UnitsValue(amount);
    FixedWholeNoLeadingZeros(x, 2);
    FixedWholeNoLeadingZeros(amount, 0);
  }

  lemma HundredthsValue(x: real)
    requires x >= 0.0
    ensures IsNumeral(Fixed(x, 2)) && FractionDigits(Fixed(x, 2)) == 2
    ensures NumeralValue(Fixed(x, 2)) == RoundedMagnitude(x, 2) as real / 100.0
  {
    FixedValueNonNegative(x, 2);
    ShiftSmall(RoundedMagnitude(x, 2) as real);
  }

  lemma UnitsValue(x: real)
    requires x >= 0.0
    ensures IsNumeral(Fixed(x, 0)) && FractionDigits(Fixed(x, 0)) == 0
    ensures NumeralValue(Fixed(x, 0)) == RoundedMagnitude(x, 0) as real
  {
    FixedValueNonNegative(x, 0);
    ShiftSmall(RoundedMagnitude(x, 0) as real);
  }

  /** `formatAmount` on any other amount: one decimal, and the unit unchanged. */
  lemma FormatAmountPlain(amount: real, unit: string)
    requires !(unit == "ml" && amount >= 1000.0)
    ensures var r := FormatAmount(amount, unit);
            && r.unit == unit
            && IsNumeral(r.amount) && FractionDigits(r.amount) == 1
            && var tenths := RoundedMagnitude(amount, 1) as real / 10.0;
               NumeralValue(r.amount) == if amount < 0.0 then -tenths else tenths
    ensures var r := FormatAmount(amount, unit);
            && r.amount == Fixed(amount, 1)
            && var u := if amount < 0.0 then r.amount[1..] else r.amount;
               NoLeadingZeros(u[..DotIndex(u)])
  {
    var r := FormatAmount(amount, unit);
    assert r.amount == Fixed(amount, 1);
    FixedValue(amount, 1);
    ShiftSmall(RoundedMagnitude(amount, 1) as real);
    FixedWholeNoLeadingZeros(amount, 1);
  }

  /** `toFixed(2)` of a number from 1 to 9.995, whose rounded hundredths `n` have three digits. */
  lemma FixedTwoPlaces(x: real, n: nat)
    requires RoundedMagnitude(x, 2) == n && 100 <= n < 1000 && x >= 0.0
    ensures Fixed(x, 2) == [DigitChar(n / 100)] + "." + [DigitChar(n / 10 % 10), DigitChar(n % 10)]
  {
    assert Digits(n / 100) == [DigitChar(n / 100)];
    assert Digits(n / 10) == [DigitChar(n / 100)] + [DigitChar(n / 10 % 10)];
    var d := Digits(n);
    assert d == [DigitChar(n / 100), DigitChar(n / 10 % 10), DigitChar(n % 10)];
    assert Padded(n, 2) == d;
    assert d[..1] == [DigitChar(n / 100)] && d[1..] == [DigitChar(n / 10 % 10), DigitChar(n % 10)];
  }

  /** 1000 ml is shown as "1.00L (1000ml)", with no separate unit. */
  lemma FormatAmountLitresExample()
    ensures FormatAmount(1000.0, "ml") == Display("1.00L (1000ml)", "")
  {
    assert Litres(1000.0) == 1.0;
    assert RoundedMagnitude(1.0, 2) == 100;
    FixedTwoPlaces(1.0, 100);
    ThousandUnits();
  }

  lemma ThousandUnits()
    ensures Fixed(1000.0, 0) == "1000"
  {
    assert RoundedMagnitude(1000.0, 0) == 1000;
    assert Digits(1000) == "1000";
  }

  /** 500 ml is shown as "500.0" ml. */
  lemma FormatAmountPlainExample()
    ensures FormatAmount(500.0, "ml") == Display("500.0", "ml")
  {
    assert RoundedMagnitude(500.0, 1) == 5000;
    assert Digits(5000) == "5000";
    assert Padded(5000, 1) == "5000";
    assert Fixed(500.0, 1) == "500" + "." + "0";
  }

  /** 5 is shown as "5". */
  lemma FormatNumberWhole()
    ensures FormatNumber(5.0) == "5"
  {
    assert Fixed(5.0, 2) == "5.00" by {
      assert RoundedMagnitude(5.0, 2) == 500;
      FixedTwoPlaces(5.0, 500);
    }
    assert "5" + "." + ['0', '0'] == "5.00";
    StripTwoPlaces("5", '0', '0');
  }

  /** 5.1 is shown as "5.1". */
  lemma FormatNumberOneDecimal()
    ensures FormatNumber(5.1) == "5.1"
  {
    assert Fixed(5.1, 2) == "5.10" by {
      assert RoundedMagnitude(5.1, 2) == 510;
      FixedTwoPlaces(5.1, 510);
    }
    assert "5" + "." + ['1', '0'] == "5.10";
    StripTwoPlaces("5", '1', '0');
  }

  /** 5.25 is shown as "5.25". */
  lemma FormatNumberTwoDecimals()
    ensures FormatNumber(5.25) == "5.25"
  {
    assert Fixed(5.25, 2) == "5.25" by {
      assert RoundedMagnitude(5.25, 2) == 525;
      FixedTwoPlaces(5.25, 525);
    }
    assert "5" + "." + ['2', '5'] == "5.25";
    StripTwoPlaces("5", '2', '5');
  }
}
