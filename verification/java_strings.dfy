/** The few facts about `java.lang.String` the patterns rely on: a string
    reference may be `null`, string concatenation renders `null` as the four
    letters "null", and `equalsIgnoreCase` compares letter-wise after case
    folding (restricted here to ASCII letters). */
module JavaStrings {

  /** A Java `String` reference: `null` or a character sequence. */
  datatype JStr = Null | Str(chars: string)

  /** What `"..." + x` appends for a `String` operand `x`. */
  function Render(x: JStr): (r: string)
    ensures x.Str? ==> r == x.chars
    ensures x.Null? ==> r == "null"
  {
    match x
    case Null => "null"
    case Str(s) => s
  }

  /** What `"..." + b` appends for a `boolean` operand `b`. */
  function RenderBool(b: bool): (r: string)
    ensures r == "true" <==> b
    ensures r == "false" <==> !b
  {
    if b then "true" else "false"
  }

  predicate IsAsciiLower(c: char)
  {
    'a' <= c <= 'z'
  }

  predicate IsAsciiUpper(c: char)
  {
    'A' <= c <= 'Z'
  }

  /** `Character.toUpperCase`, restricted to the ASCII letters. */
  function Upper(c: char): (u: char)
    ensures !IsAsciiLower(u)
    ensures IsAsciiLower(c) ==> IsAsciiUpper(u) && u as int == c as int - 32
    ensures !IsAsciiLower(c) ==> u == c
  {
    if IsAsciiLower(c) then (c as int - 32) as char else c
  }

  /** `Character.toLowerCase`, restricted to the ASCII letters. */
  function Lower(c: char): (l: char)
    ensures !IsAsciiUpper(l)
    ensures IsAsciiUpper(c) ==> IsAsciiLower(l) && l as int == c as int + 32
    ensures !IsAsciiUpper(c) ==> l == c
  {
    if IsAsciiUpper(c) then (c as int + 32) as char else c
  }

  /** The per-character test of `String.regionMatches(ignoreCase = true, ...)`:
      equal, or equal after upper-casing, or equal after upper- then
      lower-casing. */
  predicate CharsMatchIgnoringCase(a: char, b: char)
  {
    a == b || Upper(a) == Upper(b) || Lower(Upper(a)) == Lower(Upper(b))
  }

  /** The three-step character test is exactly "same upper-case letter". */
  lemma CharsMatchIffSameUpper(a: char, b: char)
    ensures CharsMatchIgnoringCase(a, b) <==> Upper(a) == Upper(b)
  {
  }

  /** The meaning of case-insensitive equality: same length and the same
      upper-case letter at every position. */
  ghost predicate SameIgnoringCase(a: string, b: string)
  {
    |a| == |b| && forall i :: 0 <= i < |a| ==> Upper(a[i]) == Upper(b[i])
  }

  /** `a.equalsIgnoreCase(b)` for a non-null `b`: lengths first, then the
      characters left to right. */
  function EqualsIgnoreCase(a: string, b: string): (r: bool)
    ensures r <==> SameIgnoringCase(a, b)
  {
    if |a| != |b| then false
    else if |a| == 0 then true
    else
      CharsMatchIffSameUpper(a[0], b[0]);
      var rest := EqualsIgnoreCase(a[1..], b[1..]);
      assert rest <==> SameIgnoringCase(a[1..], b[1..]);
      assert SameIgnoringCase(a, b) ==> SameIgnoringCase(a[1..], b[1..]) by {
        if SameIgnoringCase(a, b) {
          forall i | 0 <= i < |a| - 1
            ensures Upper(a[1..][i]) == Upper(b[1..][i])
          {
            assert Upper(a[i + 1]) == Upper(b[i + 1]);
          }
        }
      }
      CharsMatchIgnoringCase(a[0], b[0]) && rest
  }

  /** The string with every ASCII letter upper-cased. */
  function UpperCase(s: string): (u: string)
    ensures |u| == |s|
    ensures forall i :: 0 <= i < |s| ==> u[i] == Upper(s[i])
  {
    if |s| == 0 then [] else [Upper(s[0])] + UpperCase(s[1..])
  }

  /** Case-insensitive equality is equality of the upper-cased strings. */
  lemma SameIgnoringCaseIffUpperCaseEqual(a: string, b: string)
    ensures SameIgnoringCase(a, b) <==> UpperCase(a) == UpperCase(b)
  {
  }

  /** Upper-casing is idempotent, so a string and its upper-cased form are
      equal ignoring case. */
  lemma UpperCaseSameIgnoringCase(s: string)
    ensures SameIgnoringCase(s, UpperCase(s))
  {
  }
}
