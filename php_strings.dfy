/**
 * The two PHP string built-ins the client applies to its arguments:
 * trim() with its default character list, and the decimal spelling of an
 * integer that PHP produces when an int is used as a string.
 */
module PhpStrings {

  /** The characters trim() strips by default: space, tab, newline, carriage return, NUL and vertical tab. */
  predicate IsTrimChar(c: char) {
    c == ' ' || c == '\t' || c == '\n' || c == '\r' || c == '\0' || c == '\U{B}'
  }

  predicate AllTrimChars(s: string) {
    forall i :: 0 <= i < |s| ==> IsTrimChar(s[i])
  }

  /** trim() from the left: the longest suffix of `s` that does not start with a trim character. */
  function TrimLeft(s: string): (r: string)
    ensures |r| <= |s| && r == s[|s| - |r|..]
    ensures AllTrimChars(s[..|s| - |r|])
    ensures r == [] || !IsTrimChar(r[0])
  {
    if s != [] && IsTrimChar(s[0]) then TrimLeft(s[1..]) else s
  }

  /** trim() from the right: the longest prefix of `s` that does not end with a trim character. */
  function TrimRight(s: string): (r: string)
    ensures |r| <= |s| && r == s[..|r|]
    ensures AllTrimChars(s[|r|..])
    ensures r == [] || !IsTrimChar(r[|r| - 1])
  {
    if s != [] && IsTrimChar(s[|s| - 1]) then TrimRight(s[..|s| - 1]) else s
  }

  /** PHP's trim($s): strips trim characters from both ends. */
  function Trim(s: string): (r: string)
    ensures |r| <= |s|
    ensures r == [] <==> AllTrimChars(s)
    ensures r == [] || (!IsTrimChar(r[0]) && !IsTrimChar(r[|r| - 1]))
  {
    var left := TrimLeft(s);
    var r := TrimRight(left);
    assert r != [] ==> r[0] == left[0];
    assert AllTrimChars(s) ==> left == [] by {
      if left != [] {
        assert left[0] == s[|s| - |left|];
      }
    }
    assert left == [] ==> AllTrimChars(s) by {
      assert s[..|s|] == s;
    }
    r
  }

  /** A run cut from both ends of `s` at `i` and `i + |r|` leaves `r` as the slice between them. */
  lemma SliceOfSuffix(s: string, left: string, r: string, i: nat)
    requires i <= |s| && left == s[i..] && |r| <= |left| && r == left[..|r|]
    requires AllTrimChars(left[|r|..])
    ensures r == s[i..i + |r|] && AllTrimChars(s[i + |r|..])
  {
    assert s[i + |r|..] == left[|r|..];
  }

  /** What trim() removes is trim characters only: the result sits inside `s` between two runs of them. */
  lemma TrimIsInfix(s: string)
    ensures var r := Trim(s);
      exists i :: 0 <= i && i + |r| <= |s| && r == s[i..i + |r|]
        && AllTrimChars(s[..i]) && AllTrimChars(s[i + |r|..])
  {
    var left := TrimLeft(s);
    var r := TrimRight(left);
    var i := |s| - |left|;
    SliceOfSuffix(s, left, r, i);
    assert Trim(s) == r;
    assert AllTrimChars(s[..i]);
  }

  /** A string that neither starts nor ends with a trim character is left alone. */
  lemma TrimKeeps(s: string)
    requires s == [] || (!IsTrimChar(s[0]) && !IsTrimChar(s[|s| - 1]))
    ensures Trim(s) == s
  {
  }

  /** trim() is idempotent. */
  lemma TrimIdempotent(s: string)
    ensures Trim(Trim(s)) == Trim(s)
  {
    var t := Trim(s);
    assert t == [] || (!IsTrimChar(t[0]) && !IsTrimChar(t[|t| - 1]));
    TrimKeeps(t);
  }

  predicate IsDigit(c: char) {
    '0' <= c <= '9'
  }

  predicate AllDigits(s: string) {
    forall i :: 0 <= i < |s| ==> IsDigit(s[i])
  }

  function DigitChar(d: nat): (c: char)
    requires d < 10
    ensures IsDigit(c) && c as int - '0' as int == d
  {
    ('0' as int + d) as char
  }

  /** The decimal digits of `s` read as a number (meaningful when every character is a digit). */
  function DigitsValue(s: string): int {
    if s == [] then 0 else DigitsValue(s[..|s| - 1]) * 10 + (s[|s| - 1] as int - '0' as int)
  }

  /** The decimal spelling of a natural number, without leading zeros. */
  function NatToString(n: nat): (r: string)
    ensures |r| > 0 && AllDigits(r)
    ensures r[0] == '0' ==> n == 0
    ensures DigitsValue(r) == n
  {
    if n < 10 then [DigitChar(n)]
    else
      var prefix := NatToString(n / 10);
      var r := prefix + [DigitChar(n % 10)];
      assert r[..|r| - 1] == prefix;
      r
  }

  /** The string PHP makes of an integer: an optional minus sign and the decimal digits. */
  function IntToString(i: int): (r: string)
    ensures |r| > 0
    ensures IsDigit(r[0]) || r[0] == '-'
    ensures r == "0" <==> i == 0
  {
    if i < 0 then "-" + NatToString(-i) else NatToString(i)
  }
}
