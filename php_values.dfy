/**
 * The loosely typed values the client accepts as arguments and options,
 * restricted to null, integers and strings, with the PHP rules the client
 * relies on: truthiness, is_numeric, the (int) and (string) casts, empty()
 * on a string, and `==` against a fixed word.
 */
module PhpValues {
  import opened PhpStrings
  import opened PhpNumeric

  datatype Arg = Null | Int(i: int) | Str(s: string)

  /** PHP truthiness: null, 0, "" and "0" are false, everything else is true. */
  predicate Truthy(a: Arg) {
    match a
    case Null => false
    case Int(i) => i != 0
    case Str(s) => s != "" && s != "0"
  }

  /** is_numeric($a). */
  predicate IsNumeric(a: Arg) {
    match a
    case Null => false
    case Int(_) => true
    case Str(s) => IsNumericString(s)
  }

  /** (int)$a. */
  function ToInt(a: Arg): int {
    match a
    case Null => 0
    case Int(i) => i
    case Str(s) => StrToInt(s)
  }

  /** (string)$a, the conversion trim() applies to its argument. */
  function ToStr(a: Arg): string {
    match a
    case Null => ""
    case Int(i) => IntToString(i)
    case Str(s) => s
  }

  /** empty($s) for a string: "" and "0". */
  predicate EmptyString(s: string) {
    s == "" || s == "0"
  }

  /**
   * PHP 8's `$a == $t` for a string `$t` that is not numeric: a string is
   * compared as text, an integer by its decimal spelling, null as "".
   */
  predicate LooseEqualsText(a: Arg, t: string) {
    match a
    case Null => t == ""
    case Int(i) => IntToString(i) == t
    case Str(s) => s == t
  }

  /** Against a word that starts with a letter, the loose comparison holds exactly for that string. */
  lemma LooseEqualsWord(a: Arg, t: string)
    requires t != [] && ('a' <= t[0] <= 'z' || 'A' <= t[0] <= 'Z')
    ensures LooseEqualsText(a, t) <==> a == Str(t)
  {
  }

  /** A string holding an integer's decimal spelling is truthy, numeric and cast exactly as that integer is. */
  lemma IntSpellingActsAsInt(i: int)
    ensures Truthy(Str(IntToString(i))) == Truthy(Int(i))
    ensures IsNumeric(Str(IntToString(i))) && ToInt(Str(IntToString(i))) == i
  {
    IntSpellingIsNumeric(i);
  }
}
