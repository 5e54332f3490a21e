/**
 * PHP 8's reading of a string as a number: is_numeric($s) and the (int)
 * cast. Both rest on the same grammar, the leading numeral of the string:
 * optional whitespace, an optional sign, digits with an optional decimal
 * point, and an optional exponent.
 */
module PhpNumeric {
  import opened Wrappers
  import opened PhpStrings

  /** The whitespace a numeric string may carry around its numeral: space, \t, \n, \r, \v and \f. */
  predicate IsNumericSpace(c: char) {
    c == ' ' || c == '\t' || c == '\n' || c == '\r' || c == '\U{B}' || c == '\U{C}'
  }

  predicate AllNumericSpace(s: string) {
    forall i :: 0 <= i < |s| ==> IsNumericSpace(s[i])
  }

  /** Length of the run of whitespace that starts `s`. */
  function SpaceSpan(s: string): (n: nat)
    ensures n <= |s|
    ensures forall k :: 0 <= k < n ==> IsNumericSpace(s[k])
    ensures n < |s| ==> !IsNumericSpace(s[n])
  {
    if s != [] && IsNumericSpace(s[0]) then 1 + SpaceSpan(s[1..]) else 0
  }

  /** Length of the run of decimal digits that starts `s`. */
  function DigitSpan(s: string): (n: nat)
    ensures n <= |s|
    ensures forall k :: 0 <= k < n ==> IsDigit(s[k])
    ensures n < |s| ==> !IsDigit(s[n])
  {
    if s != [] && IsDigit(s[0]) then 1 + DigitSpan(s[1..]) else 0
  }

  /** The digit run that starts at index `i`, as a span of `s` itself. */
  function DigitsAt(s: string, i: nat): (w: nat)
    requires i <= |s|
    ensures i + w <= |s|
    ensures forall k :: i <= k < i + w ==> IsDigit(s[k])
    ensures i + w < |s| ==> !IsDigit(s[i + w])
  {
    var w := DigitSpan(s[i..]);
    assert forall k :: i <= k < i + w ==> s[k] == s[i..][k - i];
    w
  }

  /**
   * The leading numeral of a string: its sign, the digits before and after
   * the decimal point, the exponent, and the index just past it.
   */
  datatype Numeral = Numeral(negative: bool, whole: string, fraction: string, exponent: int, end: nat)

  /** An exponent `e`/`E`, optional sign and digits at index `i`, if there is one; (0, i) otherwise. */
  function Exponent(s: string, i: nat): (r: (int, nat))
    requires i <= |s|
    ensures i <= r.1 <= |s|
    ensures r.1 == i ==> r.0 == 0
    ensures r.1 > i ==> (s[i] == 'e' || s[i] == 'E') && IsDigit(s[r.1 - 1])
  {
    if i < |s| && (s[i] == 'e' || s[i] == 'E') then
      var signed := i + 1 < |s| && (s[i + 1] == '+' || s[i + 1] == '-');
      var j := if signed then i + 2 else i + 1;
      var d := DigitsAt(s, j);
      if d == 0 then (0, i)
      else
        var magnitude: int := DigitsValue(s[j..j + d]);
        var e: int := if signed && s[i + 1] == '-' then -magnitude else magnitude;
        (e, j + d)
    else (0, i)
  }

  /** The leading numeral of `s`, or None when `s` does not start with one. */
  function ParseNumeral(s: string): (r: Option<Numeral>)
    ensures r.Some? ==> r.value.end <= |s|
    ensures r.Some? ==> |r.value.whole| + |r.value.fraction| > 0
    ensures r.Some? ==> AllDigits(r.value.whole) && AllDigits(r.value.fraction)
  {
    var i0 := SpaceSpan(s);
    var signed := i0 < |s| && (s[i0] == '+' || s[i0] == '-');
    var i1 := if signed then i0 + 1 else i0;
    var w := DigitsAt(s, i1);
    var i2 := i1 + w;
    var dot := i2 < |s| && s[i2] == '.';
    var f := if dot then DigitsAt(s, i2 + 1) else 0;
    var i3 := if dot then i2 + 1 + f else i2;
    if w + f == 0 then None
    else
      DigitSlice(s, i1, i2);
      DigitSlice(s, if dot then i2 + 1 else i2, i3);
      var (exponent, end) := Exponent(s, i3);
      Some(Numeral(signed && s[i0] == '-', s[i1..i2], if dot then s[i2 + 1..i3] else "", exponent, end))
  }

  /** A slice lying inside a digit run is all digits. */
  lemma DigitSlice(s: string, a: nat, b: nat)
    requires a <= b <= |s|
    requires forall k :: a <= k < b ==> IsDigit(s[k])
    ensures AllDigits(s[a..b])
  {
    assert forall k :: 0 <= k < b - a ==> s[a..b][k] == s[a + k];
  }

  function Pow10(n: nat): (p: nat)
    ensures p >= 1
  {
    if n == 0 then 1 else 10 * Pow10(n - 1)
  }

  /** The numeral's value truncated toward zero, as the (int) cast truncates the float it denotes. */
  function NumeralValue(n: Numeral): int {
    var digits := DigitsValue(n.whole + n.fraction);
    var scale := n.exponent - |n.fraction|;
    var magnitude: int := if scale >= 0 then digits * Pow10(scale) else digits / Pow10(-scale);
    if n.negative then -magnitude else magnitude
  }

  /** PHP 8's is_numeric($s) for a string: a numeral with only whitespace around it. */
  predicate IsNumericString(s: string) {
    match ParseNumeral(s)
    case None => false
    case Some(n) => AllNumericSpace(s[n.end..])
  }

  /** PHP's (int)$s: the value of the leading numeral, 0 when there is none. */
  function StrToInt(s: string): int {
    match ParseNumeral(s)
    case None => 0
    case Some(n) => NumeralValue(n)
  }

  /** A digit run that reaches the end of the string covers the whole tail. */
  lemma DigitsToEnd(s: string, i: nat)
    requires i <= |s|
    requires forall k :: i <= k < |s| ==> IsDigit(s[k])
    ensures DigitsAt(s, i) == |s| - i
  {
  }

  /** A string made of an optional minus sign and digits is one numeral, with that sign and those digits. */
  lemma SignedDigitsParse(s: string, i1: nat)
    requires i1 < |s| && (i1 == 1 <==> s[0] == '-') && i1 <= 1
    requires forall k :: i1 <= k < |s| ==> IsDigit(s[k])
    ensures ParseNumeral(s) == Some(Numeral(i1 == 1, s[i1..], "", 0, |s|))
  {
    assert i1 == 0 ==> IsDigit(s[0]);
    assert !IsNumericSpace(s[0]);
    assert SpaceSpan(s) == 0;
    DigitsToEnd(s, i1);
    assert s[i1..|s|] == s[i1..];
    assert Exponent(s, |s|) == (0, |s|);
  }

  /** The leading numeral of an integer's spelling is all of it: its sign and its digits. */
  lemma IntSpellingParses(i: int)
    ensures var s := IntToString(i);
      ParseNumeral(s) == Some(Numeral(i < 0, NatToString(if i < 0 then -i else i), "", 0, |s|))
  {
    var s := IntToString(i);
    var digits := NatToString(if i < 0 then -i else i);
    var i1 := if i < 0 then 1 else 0;
    assert s[i1..] == digits;
    assert forall k :: i1 <= k < |s| ==> s[k] == digits[k - i1];
    SignedDigitsParse(s, i1);
  }

  /** A numeral without fraction or exponent has the value of its digits, with its sign. */
  lemma IntegerNumeralValue(negative: bool, digits: string, end: nat)
    ensures NumeralValue(Numeral(negative, digits, "", 0, end)) == if negative then -DigitsValue(digits) else DigitsValue(digits)
  {
    assert digits + "" == digits;
  }

  /** The decimal spelling of an integer is a numeric string that casts back to that integer. */
  lemma IntSpellingIsNumeric(i: int)
    ensures IsNumericString(IntToString(i))
    ensures StrToInt(IntToString(i)) == i
  {
    var s := IntToString(i);
    IntSpellingParses(i);
    IntegerNumeralValue(i < 0, NatToString(if i < 0 then -i else i), |s|);
    assert s[|s|..] == [];
  }
}
