/**
 * PHP 7's loose comparison `==` of two strings: when both are numeric
 * strings they are compared as numbers, otherwise as strings. Numbers are
 * compared exactly here; PHP's conversion to `int` or `float` and its rounding
 * are not modelled.
 */
module PhpNumeric {
  import opened PhpValues
  import opened Regex

  /**
   * An exponent `[eE][+-]?[0-9]+` starting at `i`, if there is one: where it
   * ends and the power of ten it denotes.
   */
  function Exponent(s: string, i: nat): (r: Option<(nat, int)>)
    requires i <= |s|
    ensures r.Some? ==> i + 2 <= r.value.0 <= |s|
  {
    if i < |s| && s[i] in {'e', 'E'} then
      var k := if i + 1 < |s| && s[i + 1] in {'+', '-'} then i + 2 else i + 1;
      var e := RunEnd(Digit, s, k);
      if e > k then
        var n := DigitsValue(s[k..e]);
        var power: int := if s[i + 1] == '-' then -(n as int) else n;
        Some((e, power))
      else None
    else None
  }

  /** The number `intDigits.fracDigits`. */
  function Decimal(intDigits: string, fracDigits: string): real
    requires forall i :: 0 <= i < |intDigits| ==> intDigits[i] in Digit
    requires forall i :: 0 <= i < |fracDigits| ==> fracDigits[i] in Digit
  {
    DigitsValue(intDigits) as real + DigitsValue(fracDigits) as real / Pow10(|fracDigits|) as real
  }

  /** `x` times ten to the power `e`. */
  function Scale(x: real, e: int): real {
    if e >= 0 then x * Pow10(e) as real else x / Pow10(-e) as real
  }

  /**
   * The value of `s` when it is a numeric string: optional leading white
   * space, an optional sign, digits with an optional decimal point (at least
   * one digit in all), an optional exponent, and nothing after.
   */
  function NumericValue(s: string): (r: Option<real>)
    ensures r.Some? ==> exists i :: 0 <= i < |s| && s[i] in Digit
  {
    var i0 := RunEnd(Space, s, 0);
    var i1 := if i0 < |s| && s[i0] in {'+', '-'} then i0 + 1 else i0;
    var i2 := RunEnd(Digit, s, i1);
    var i3 := if i2 < |s| && s[i2] == '.' then i2 + 1 else i2;
    var i4 := RunEnd(Digit, s, i3);
    var exp := Exponent(s, i4);
    var end := if exp.Some? then exp.value.0 else i4;
    if (i2 == i1 && i4 == i3) || end != |s| then None
    else
      assert i2 > i1 ==> s[i1] in Digit;
      var m := Decimal(s[i1..i2], s[i3..i4]);
      var signed := if i1 > i0 && s[i0] == '-' then -m else m;
      Some(Scale(signed, if exp.Some? then exp.value.1 else 0))
  }

  /**
   * `a == b` for two PHP strings: equal strings are loosely equal, and when
   * one side is not numeric it is plain string equality.
   */
  function LooseEquals(a: string, b: string): (r: bool)
    ensures a == b ==> r
    ensures NumericValue(a).None? || NumericValue(b).None? ==> (r <==> a == b)
  {
    match (NumericValue(a), NumericValue(b))
    case (Some(x), Some(y)) => x == y
    case _ => a == b
  }

  /** A run of digits reaches to the end of a string made of digits from `i` on. */
  lemma {:induction false} DigitsToEnd(s: string, i: nat)
    requires i <= |s|
    requires forall k :: i <= k < |s| ==> s[k] in Digit
    ensures RunEnd(Digit, s, i) == |s|
    decreases |s| - i
  {
    if i < |s| {
      DigitsToEnd(s, i + 1);
    }
  }

  /** `"0"` is the number zero. */
  lemma ZeroIsNumeric()
    ensures NumericValue("0") == Some(0.0)
  {
    assert RunEnd(Space, "0", 0) == 0;
    assert RunEnd(Digit, "0", 1) == 1;
    assert RunEnd(Digit, "0", 0) == 1;
    assert "0"[0..1] == "0";
    assert DigitsValue("0") == 0;
  }

  /** `"0e"` followed by one or more digits is zero times a power of ten: the number zero. */
  lemma ZeroExponentIsZero(d: string)
    requires |d| > 0 && forall i :: 0 <= i < |d| ==> d[i] in Digit
    ensures NumericValue("0e" + d) == Some(0.0)
  {
    var s := "0e" + d;
    assert RunEnd(Space, s, 0) == 0;
    assert RunEnd(Digit, s, 1) == 1;
    assert RunEnd(Digit, s, 0) == 1;
    DigitsToEnd(s, 2);
    assert Exponent(s, 1).Some? && Exponent(s, 1).value.0 == |s|;
    assert s[0..1] == "0";
    assert Decimal(s[0..1], s[1..1]) == 0.0;
  }

  /** `"fail"` is not a numeric string, so comparing with it is plain string equality. */
  lemma FailIsNotNumeric()
    ensures NumericValue("fail").None?
  {
    assert RunEnd(Space, "fail", 0) == 0;
    assert RunEnd(Digit, "fail", 0) == 0;
  }
  /** An integer key has the value its string has as a numeric string. */
  lemma IntegerKeyIsItsNumber(s: string)
    requires ArrayKey(s).IntKey?
    ensures NumericValue(s) == Some(ArrayKey(s).n as real)
  {
    IntegerKeysAreDecimal(s);
    var neg := s[0] == '-';
    var d := Magnitude(s);
    assert AllDigits(d) && |d| > 0 by {
      if s == "0" { assert d == "0"; }
    }
    var i1 := if neg then 1 else 0;
    assert s[i1..] == d;
    var m := DigitsValue(d);
    assert ArrayKey(s).n == if neg then -(m as int) else m;
    SignedDigitsValue(s, i1);
  }

  /** An optional `-` followed by nothing but digits is the number they denote, signed. */
  lemma SignedDigitsValue(s: string, i1: nat)
    requires i1 < |s| && (i1 == 1 <==> s[0] == '-') && i1 <= 1
    requires forall k :: i1 <= k < |s| ==> s[k] in Digit
    ensures NumericValue(s) == Some(if i1 > 0 && s[0] == '-' then -(DigitsValue(s[i1..]) as real) else DigitsValue(s[i1..]) as real)
  {
    DigitsScan(s, i1);
    var m := DigitsValue(s[i1..]) as real;
    assert Decimal(s[i1..|s|], s[|s|..|s|]) == m by {
      assert s[|s|..|s|] == "" && DigitsValue("") == 0 && Pow10(0) == 1;
      assert s[i1..|s|] == s[i1..];
    }
    var signed := if i1 > 0 && s[0] == '-' then -m else m;
    assert Scale(signed, 0) == signed;
    assert i1 == 0 ==> s[i1..] == s;
  }

  /** Where NumericValue's scan stops on such a string: no space, the digits run to the end, no exponent. */
  lemma DigitsScan(s: string, i1: nat)
    requires i1 < |s| && (i1 == 1 <==> s[0] == '-') && i1 <= 1
    requires forall k :: i1 <= k < |s| ==> s[k] in Digit
    ensures RunEnd(Space, s, 0) == 0
    ensures (if s[0] in {'+', '-'} then 1 else 0) == i1
    ensures RunEnd(Digit, s, i1) == |s| && RunEnd(Digit, s, |s|) == |s|
    ensures Exponent(s, |s|).None?
  {
    assert s[0] !in Space;
    DigitsToEnd(s, i1);
  }
}
