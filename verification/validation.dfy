/**
 * `validateProduct` of src/lib/utils.ts: a required-name check on the
 * trimmed name, then one error per location whose quantity is negative.
 */
module Validation {
  import opened Types

  /**
   * The code points `String.prototype.trim` removes: WhiteSpace and
   * LineTerminator of ECMA-262 (sections 12.2 and 12.3), the space
   * separators of Unicode category Zs included.
   */
  predicate IsJsWhitespace(c: char)
  {
    var n := c as int;
    n == 0x09 || n == 0x0A || n == 0x0B || n == 0x0C || n == 0x0D || n == 0x20
    || n == 0xA0 || n == 0x1680 || (0x2000 <= n <= 0x200A) || n == 0x2028 || n == 0x2029
    || n == 0x202F || n == 0x205F || n == 0x3000 || n == 0xFEFF
  }

  /** Only white space (the empty string included). */
  predicate IsBlank(s: string)
  {
    forall i :: 0 <= i < |s| ==> IsJsWhitespace(s[i])
  }

  /** The first position at or after `i` that does not hold white space, or `|s|`. */
  function SkipBlanks(s: string, i: nat): (k: nat)
    requires i <= |s|
    ensures i <= k <= |s|
    ensures forall j :: i <= j < k ==> IsJsWhitespace(s[j])
    ensures k < |s| ==> !IsJsWhitespace(s[k])
    decreases |s| - i
  {
    if i < |s| && IsJsWhitespace(s[i]) then SkipBlanks(s, i + 1) else i
  }

  /** Going back from `j` towards `lo`, the position just after the last code point that is not white space, or `lo`. */
  function SkipBlanksBack(s: string, lo: nat, j: nat): (e: nat)
    requires lo <= j <= |s|
    ensures lo <= e <= j
    ensures forall m :: e <= m < j ==> IsJsWhitespace(s[m])
    ensures e > lo ==> !IsJsWhitespace(s[e - 1])
    decreases j
  {
    if j > lo && IsJsWhitespace(s[j - 1]) then SkipBlanksBack(s, lo, j - 1) else j
  }

  /** `s.trim()`: the text between the leading and the trailing white space. */
  function Trim(s: string): string
  {
    var start := SkipBlanks(s, 0);
    s[start..SkipBlanksBack(s, start, |s|)]
  }

  /**
   * What `trim` keeps: a slice of `s` with only white space before and
   * after it, which neither starts nor ends with white space.
   */
  lemma TrimMeaning(s: string)
    ensures var r := Trim(s);
            exists i :: 0 <= i <= |s| - |r| && r == s[i..i + |r|] && IsBlank(s[..i]) && IsBlank(s[i + |r|..])
    ensures var r := Trim(s);
            r == [] || (!IsJsWhitespace(r[0]) && !IsJsWhitespace(r[|r| - 1]))
  {
    var start := SkipBlanks(s, 0);
    var end := SkipBlanksBack(s, start, |s|);
    var r := Trim(s);
    assert r == s[start..end] && |r| == end - start;
    assert IsBlank(s[..start]) by {
      assert forall j :: 0 <= j < start ==> s[..start][j] == s[j];
    }
    assert IsBlank(s[end..]) by {
      assert forall m :: 0 <= m < |s| - end ==> s[end..][m] == s[end + m];
    }
  }

  /** `!s.trim()`: trimming leaves the empty string exactly when `s` is all white space. */
  lemma TrimEmptyIffBlank(s: string)
    ensures Trim(s) == [] <==> IsBlank(s)
  {
    var start := SkipBlanks(s, 0);
    var end := SkipBlanksBack(s, start, |s|);
    assert |Trim(s)| == end - start;
  }

  const NameRequired := ValidationError("name", "Product name is required")

  function QuantityError(l: Location): ValidationError
  {
    ValidationError("quantities." + LocationName(l), LocationName(l) + " quantity cannot be negative")
  }

  /** The name error, present when the trimmed name is empty. */
  function NameErrors(name: string): seq<ValidationError>
  {
    if Trim(name) == [] then [NameRequired] else []
  }

  /** The location errors, in the key order of the quantities record. */
  function QuantityErrors(qs: seq<(Location, int)>): seq<ValidationError>
  {
    if qs == [] then []
    else
      var (l, q) := qs[|qs| - 1];
      QuantityErrors(qs[..|qs| - 1]) + (if q < 0 then [QuantityError(l)] else [])
  }

  /** What the validation promises of a product it passes. */
  predicate IsValidProduct(p: Product)
  {
    !IsBlank(p.name) && forall i :: 0 <= i < |p.quantities| ==> p.quantities[i].1 >= 0
  }

  /** Every location appears at most once, as in a record. */
  predicate DistinctLocations(qs: seq<(Location, int)>)
  {
    forall i, j :: 0 <= i < j < |qs| ==> qs[i].0 != qs[j].0
  }

  predicate HasNegative(qs: seq<(Location, int)>, l: Location)
  {
    exists i :: 0 <= i < |qs| && qs[i].0 == l && qs[i].1 < 0
  }

  /** One more step of the loop over the quantities: an error is appended exactly for a negative quantity. */
  lemma ErrorsStep(errors0: seq<ValidationError>, errors: seq<ValidationError>, qs: seq<(Location, int)>, i: nat)
    requires i < |qs| && errors == errors0 + QuantityErrors(qs[..i])
    ensures (if qs[i].1 < 0 then errors + [QuantityError(qs[i].0)] else errors) == errors0 + QuantityErrors(qs[..i + 1])
  {
    assert qs[..i + 1][..i] == qs[..i];
    if qs[i].1 < 0 {
      assert (errors0 + QuantityErrors(qs[..i])) + [QuantityError(qs[i].0)]
          == errors0 + (QuantityErrors(qs[..i]) + [QuantityError(qs[i].0)]);
    } else {
      assert QuantityErrors(qs[..i + 1]) == QuantityErrors(qs[..i]) + [];
    }
  }

  /** `validateProduct(product)`. */
  method ValidateProduct(product: Product) returns (errors: seq<ValidationError>)
    ensures errors == NameErrors(product.name) + QuantityErrors(product.quantities)
    ensures (|errors| > 0 && errors[0] == NameRequired) <==> IsBlank(product.name)
    ensures errors == [] <==> IsValidProduct(product)
  {
    errors := [];
    if Trim(product.name) == [] {
      errors := errors + [NameRequired];
    }
    errors := CheckQuantities(errors, product.quantities);
    NameErrorFirst(product);
    NoErrorsIffValid(product);
  }

  /** The loop of `validateProduct` over the quantities record, appending to `errors`. */
  method CheckQuantities(errors0: seq<ValidationError>, quantities: seq<(Location, int)>) returns (errors: seq<ValidationError>)
    ensures errors == errors0 + QuantityErrors(quantities)
  {
    errors := errors0;
    var i := 0;
    while i < |quantities|
      invariant 0 <= i <= |quantities|
      invariant errors == errors0 + QuantityErrors(quantities[..i])
    {
      ErrorsStep(errors0, errors, quantities, i);
      var (location, quantity) := quantities[i];
      if quantity < 0 {
        errors := errors + [QuantityError(location)];
      }
      i := i + 1;
    }
    assert quantities[..i] == quantities;
  }

  // Properties of the error list.

  lemma {:induction false} QuantityErrorsAreQuantityErrors(qs: seq<(Location, int)>)
    ensures forall e :: e in QuantityErrors(qs) ==> e.field != "name"
  {
    if qs != [] {
      QuantityErrorsAreQuantityErrors(qs[..|qs| - 1]);
      var l := qs[|qs| - 1].0;
      assert QuantityError(l).field[..11] == "quantities.";
    }
  }

  /** Every quantity error is the error of a location whose quantity is negative: nothing else is pushed. */
  lemma {:induction false} QuantityErrorsFromNegatives(qs: seq<(Location, int)>)
    ensures forall e :: e in QuantityErrors(qs) ==>
              exists i :: 0 <= i < |qs| && qs[i].1 < 0 && e == QuantityError(qs[i].0)
  {
    if qs != [] {
      var init := qs[..|qs| - 1];
      QuantityErrorsFromNegatives(init);
      forall e | e in QuantityErrors(qs)
        ensures exists i :: 0 <= i < |qs| && qs[i].1 < 0 && e == QuantityError(qs[i].0)
      {
        if e in QuantityErrors(init) {
          var i :| 0 <= i < |init| && init[i].1 < 0 && e == QuantityError(init[i].0);
          assert qs[i] == init[i];
        } else {
          assert qs[|qs| - 1].1 < 0 && e == QuantityError(qs[|qs| - 1].0);
        }
      }
    }
  }

  /** The first error is the name error exactly when the name is blank. */
  lemma NameErrorFirst(p: Product)
    ensures var errors := NameErrors(p.name) + QuantityErrors(p.quantities);
            (|errors| > 0 && errors[0] == NameRequired) <==> IsBlank(p.name)
  {
    TrimEmptyIffBlank(p.name);
    QuantityErrorsAreQuantityErrors(p.quantities);
    var qe := QuantityErrors(p.quantities);
    if !IsBlank(p.name) && |qe| > 0 {
      assert qe[0] in qe;
    }
  }

  /** No location errors exactly when no quantity is negative. */
  lemma {:induction false} QuantityErrorsEmpty(qs: seq<(Location, int)>)
    ensures QuantityErrors(qs) == [] <==> forall i :: 0 <= i < |qs| ==> qs[i].1 >= 0
  {
    if qs != [] {
      var init := qs[..|qs| - 1];
      QuantityErrorsEmpty(init);
      if QuantityErrors(qs) == [] {
        forall i | 0 <= i < |qs|
          ensures qs[i].1 >= 0
        {
          if i < |qs| - 1 {
            assert qs[i] == init[i];
          }
        }
      }
    }
  }

  /** A product yields no errors exactly when it is valid. */
  lemma NoErrorsIffValid(p: Product)
    ensures NameErrors(p.name) + QuantityErrors(p.quantities) == [] <==> IsValidProduct(p)
  {
    TrimEmptyIffBlank(p.name);
    QuantityErrorsEmpty(p.quantities);
  }

  lemma QuantityErrorInjective(a: Location, b: Location)
    ensures QuantityError(a) == QuantityError(b) ==> a == b
  {
    if a != b {
      var fa, fb := QuantityError(a).field, QuantityError(b).field;
      assert fa[11] != fb[11] || fa[12] != fb[12];
    }
  }

  /** Taking the last entry off: a negative quantity of `l` is in the rest or is that entry. */
  lemma HasNegativeLast(qs: seq<(Location, int)>, l: Location)
    requires qs != [] && DistinctLocations(qs)
    ensures var init, last := qs[..|qs| - 1], qs[|qs| - 1];
            && DistinctLocations(init)
            && (HasNegative(qs, l) <==> HasNegative(init, l) || (last.1 < 0 && last.0 == l))
            && (HasNegative(init, l) ==> last.0 != l)
  {
    var init := qs[..|qs| - 1];
    assert forall i :: 0 <= i < |init| ==> init[i] == qs[i];
    if HasNegative(qs, l) {
      var i :| 0 <= i < |qs| && qs[i].0 == l && qs[i].1 < 0;
      if i < |qs| - 1 {
        assert init[i] == qs[i];
      }
    }
    if HasNegative(init, l) {
      var i :| 0 <= i < |init| && init[i].0 == l && init[i].1 < 0;
      assert qs[i] == init[i];
    }
  }

  /**
   * In a record, each location with a negative quantity gets exactly one
   * error, and a location without one gets none.
   */
  lemma {:induction false} OneErrorPerNegativeLocation(qs: seq<(Location, int)>, l: Location)
    requires DistinctLocations(qs)
    ensures multiset(QuantityErrors(qs))[QuantityError(l)] == if HasNegative(qs, l) then 1 else 0
  {
    if qs != [] {
      var init := qs[..|qs| - 1];
      var (last, q) := qs[|qs| - 1];
      HasNegativeLast(qs, l);
      OneErrorPerNegativeLocation(init, l);
      QuantityErrorInjective(last, l);
      var tail := if q < 0 then [QuantityError(last)] else [];
      var e := QuantityError(l);
      assert QuantityErrors(qs) == QuantityErrors(init) + tail;
      assert multiset(QuantityErrors(qs))[e] == multiset(QuantityErrors(init))[e] + multiset(tail)[e];
      assert multiset(tail)[e] == if q < 0 && last == l then 1 else 0;
    }
  }
}
