/**
 * PHP values as the form session stores them, and the few PHP conversions
 * and comparisons the validation code relies on.
 */
module PhpValues {

  /** An attribute that may be unset; PHP's `isset` is false for `None`. */
  datatype Option<+T> = None | Some(value: T) {
    function GetOr(default: T): T {
      match this
      case Some(v) => v
      case None => default
    }
  }

  /**
   * A field value: posted data is always a string; an unchecked checkbox is
   * stored as the boolean `false`.
   */
  datatype Value = Text(s: string) | Flag(b: bool)

  /** The string PHP produces when a value is used as a string (`strlen`, `filter_var`). */
  function PhpString(v: Value): (s: string)
    ensures v.Text? ==> s == v.s
    ensures v.Flag? ==> (s == "" <==> !v.b)
  {
    match v
    case Text(t) => t
    case Flag(b) => if b then "1" else ""
  }

  /** PHP truthiness of a string: only `""` and `"0"` are falsy. */
  predicate Truthy(s: string) {
    s != "" && s != "0"
  }

  /**
   * The loose comparison `$value == ''` used by the `required` rule: true for
   * the empty string and for `false`, and for nothing else a field can hold.
   */
  predicate LooselyEmpty(v: Value) {
    v == Text("") || v == Flag(false)
  }

  /** The characters PCRE's `\s` and PHP's numeric-string grammar count as white space. */
  const Space: set<char> := {' ', '\t', '\n', '\r', '\U{000B}', '\U{000C}'}

  const Digit: set<char> := {'0', '1', '2', '3', '4', '5', '6', '7', '8', '9'}

  function Pow10(n: nat): (p: nat)
    ensures p >= 1
  {
    if n == 0 then 1 else 10 * Pow10(n - 1)
  }

  /** The number a string of decimal digits denotes. */
  function DigitsValue(d: string): (n: nat)
    requires forall i :: 0 <= i < |d| ==> d[i] in Digit
    ensures n < Pow10(|d|)
  {
    if d == [] then 0 else 10 * DigitsValue(d[..|d| - 1]) + (d[|d| - 1] as int - '0' as int)
  }

  // ---------------------------------------------------------------------
  // Byte length

  /** How many bytes UTF-8 uses for `c`. */
  function CharBytes(c: char): (n: nat)
    ensures 1 <= n <= 4
    ensures n == 1 <==> c as int < 0x80
  {
    if c as int < 0x80 then 1 else if c as int < 0x800 then 2 else if c as int < 0x1_0000 then 3 else 4
  }

  /**
   * `strlen` of a string: PHP counts bytes, and the posted text arrives as
   * UTF-8, so every character counts as many bytes as UTF-8 gives it.
   */
  function ByteLength(s: string): (n: nat)
    ensures |s| <= n <= 4 * |s|
    ensures (forall i :: 0 <= i < |s| ==> s[i] as int < 0x80) ==> n == |s|
  {
    if s == [] then 0 else ByteLength(s[..|s| - 1]) + CharBytes(s[|s| - 1])
  }

  /** One character repeated `n` times takes `n` times its own byte count. */
  lemma {:induction false} ByteLengthOfRun(c: char, n: nat)
    ensures ByteLength(seq(n, _ => c)) == n * CharBytes(c)
  {
    if n > 0 {
      var s := seq(n, _ => c);
      assert s[..n - 1] == seq(n - 1, _ => c);
      ByteLengthOfRun(c, n - 1);
    }
  }

  // ---------------------------------------------------------------------
  // Array keys

  /** A PHP array key: a string key, or an integer key. */
  datatype Key = StrKey(s: string) | IntKey(n: int)

  /** The `int` range of 64-bit PHP. */
  const LongMin: int := -0x8000_0000_0000_0000
  const LongMax: int := 0x7FFF_FFFF_FFFF_FFFF

  /** `"0"`, or an optional `-` and digits with no leading zero: the strings PHP reads as integer keys. */
  predicate IsDecimalInt(s: string) {
    s == "0" || (|Magnitude(s)| > 0 && Magnitude(s)[0] != '0' && AllDigits(Magnitude(s)))
  }

  /** `s` without its leading `-`, if it has one. */
  function Magnitude(s: string): string {
    if |s| > 0 && s[0] == '-' then s[1..] else s
  }

  predicate AllDigits(d: string) {
    forall i :: 0 <= i < |d| ==> d[i] in Digit
  }

  /**
   * The key a string becomes when it is used as an array key (as `array_flip`
   * does): a decimal integer in the `int` range becomes that integer, and
   * every other string stays a string key.
   */
  function ArrayKey(s: string): (k: Key)
    ensures k.StrKey? ==> k.s == s
    ensures k.IntKey? ==> LongMin <= k.n <= LongMax
  {
    if s == "0" then IntKey(0)
    else if IsDecimalInt(s) then
      var n: int := if s[0] == '-' then -(DigitsValue(Magnitude(s)) as int) else DigitsValue(Magnitude(s));
      if LongMin <= n <= LongMax then IntKey(n) else StrKey(s)
    else StrKey(s)
  }

  /** Only decimal integers become integer keys. */
  lemma IntegerKeysAreDecimal(s: string)
    ensures ArrayKey(s).IntKey? ==> IsDecimalInt(s)
    ensures !IsDecimalInt(s) ==> ArrayKey(s) == StrKey(s)
  {
  }

  lemma LooselyEmptyMeansEmptyString(v: Value)
    ensures LooselyEmpty(v) <==> PhpString(v) == ""
  {
  }
}
