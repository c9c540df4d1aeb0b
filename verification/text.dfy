/** The two string built-ins the palette relies on, with their ECMAScript
    meaning: String.prototype.trim and String.prototype.toLowerCase. */
module Text {

  /** The characters trim strips: the ECMAScript WhiteSpace production
      (tab, vertical tab, form feed, space, no-break space, byte order mark
      and the space separators) and the LineTerminator production. */
  predicate IsWhitespace(c: char) {
    || c == '\t' || c == '\U{000B}' || c == '\U{000C}' || c == ' '
    || c == '\U{00A0}' || c == '\U{FEFF}' || c == '\U{1680}'
    || ('\U{2000}' <= c <= '\U{200A}')
    || c == '\U{202F}' || c == '\U{205F}' || c == '\U{3000}'
    || c == '\n' || c == '\r' || c == '\U{2028}' || c == '\U{2029}'
  }

  predicate AllWhitespace(s: string) {
    forall i :: 0 <= i < |s| ==> IsWhitespace(s[i])
  }

  /** The number of white-space characters `s` starts with. */
  function LeadingWhitespace(s: string): (n: nat)
    ensures n <= |s|
    ensures forall i :: 0 <= i < n ==> IsWhitespace(s[i])
    ensures n < |s| ==> !IsWhitespace(s[n])
    decreases |s|
  {
    if |s| > 0 && IsWhitespace(s[0]) then 1 + LeadingWhitespace(s[1..]) else 0
  }

  /** The number of white-space characters `s` ends with. */
  function TrailingWhitespace(s: string): (n: nat)
    ensures n <= |s|
    ensures forall i :: |s| - n <= i < |s| ==> IsWhitespace(s[i])
    ensures n < |s| ==> !IsWhitespace(s[|s| - n - 1])
    decreases |s|
  {
    if |s| > 0 && IsWhitespace(s[|s| - 1]) then 1 + TrailingWhitespace(s[..|s| - 1]) else 0
  }

  /** String.prototype.trim: `r` is the infix `s[lo..hi]`, every character
      outside it is white space, and neither end of `r` is. */
  function Trim(s: string): (r: string)
    ensures var lo := LeadingWhitespace(s);
      var hi := lo + |r|;
      && hi <= |s|
      && r == s[lo..hi]
      && (forall i :: 0 <= i < lo ==> IsWhitespace(s[i]))
      && (forall i :: hi <= i < |s| ==> IsWhitespace(s[i]))
    ensures |r| > 0 ==> !IsWhitespace(r[0]) && !IsWhitespace(r[|r| - 1])
    ensures |r| == 0 <==> AllWhitespace(s)
  {
    var lo := LeadingWhitespace(s);
    if lo == |s| then [] else s[lo..|s| - TrailingWhitespace(s)]
  }

  /** A trimmed string trims to itself. */
  lemma TrimIdempotent(s: string)
    ensures Trim(Trim(s)) == Trim(s)
  {
  }

  /** toLowerCase on one character. Only the ASCII capitals and the Kelvin
      sign (whose lower case is the Latin letter k) are mapped; every other
      character is returned unchanged. */
  function ToLowerChar(c: char): char {
    if 'A' <= c <= 'Z' then (c as int + 32) as char
    else if c == '\U{212A}' then 'k'
    else c
  }

  function ToLower(s: string): seq<char> {
    seq(|s|, i requires 0 <= i < |s| => ToLowerChar(s[i]))
  }

  /** The key strings whose lower case is "k" are exactly "k", "K" and the
      Kelvin sign. */
  lemma LowerIsK(key: string)
    ensures ToLower(key) == "k" <==> key == "k" || key == "K" || key == "\U{212A}"
  {
  }
}
