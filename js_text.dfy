/**
  The few JavaScript string operations the exporters rely on:
  `String.prototype.trim`, `toLowerCase` and `startsWith`.
  Strings are sequences of Unicode scalar values here, where JavaScript
  strings are UTF-16; none of the texts the pump compares with contain
  characters outside the Basic Multilingual Plane.
*/
module JsText {

  /** The characters `trim` removes: ECMAScript WhiteSpace and LineTerminator. */
  predicate IsWhiteSpace(c: char)
  {
    || c == '\t' || c == '\n' || c == '\U{B}' || c == '\U{C}' || c == '\r' || c == ' '
    || c == '\U{A0}' || c == '\U{1680}' || ('\U{2000}' <= c <= '\U{200A}')
    || c == '\U{2028}' || c == '\U{2029}' || c == '\U{202F}' || c == '\U{205F}'
    || c == '\U{3000}' || c == '\U{FEFF}'
  }

  predicate AllWhiteSpace(s: string)
  {
    forall i :: 0 <= i < |s| ==> IsWhiteSpace(s[i])
  }

  /** `s` with its leading white space removed: a suffix of `s`. */
  function TrimStart(s: string): (r: string)
    ensures |r| <= |s| && r == s[|s| - |r|..]
    ensures AllWhiteSpace(s[..|s| - |r|])
    ensures r != [] ==> !IsWhiteSpace(r[0])
  {
    if s != [] && IsWhiteSpace(s[0]) then TrimStart(s[1..]) else s
  }

  /** `s` with its trailing white space removed: a prefix of `s`. */
  function TrimEnd(s: string): (r: string)
    ensures |r| <= |s| && r == s[..|r|]
    ensures AllWhiteSpace(s[|r|..])
    ensures r != [] ==> !IsWhiteSpace(r[|r| - 1])
  {
    if s != [] && IsWhiteSpace(s[|s| - 1]) then TrimEnd(s[..|s| - 1]) else s
  }

  /** `s.trim()`: `s` with white space cut from both ends. */
  function Trim(s: string): (r: string)
    ensures |r| <= |s|
    ensures r != [] ==> !IsWhiteSpace(r[0]) && !IsWhiteSpace(r[|r| - 1])
  {
    TrimEnd(TrimStart(s))
  }

  /** What `trim` keeps is a slice of `s`, and everything it cuts on either side is white space. */
  lemma TrimIsSlice(s: string)
    ensures var r := Trim(s);
            var a := |s| - |TrimStart(s)|;
            && a + |r| <= |s| && r == s[a..a + |r|]
            && AllWhiteSpace(s[..a]) && AllWhiteSpace(s[a + |r|..])
  {
    var t := TrimStart(s);
    var a := |s| - |t|;
    assert s[a + |Trim(s)|..] == t[|Trim(s)|..];
  }

  lemma TrimIdempotent(s: string)
    ensures Trim(Trim(s)) == Trim(s)
  {
  }

  /** The lower-case mapping of one character, for the characters that map to ASCII. */
  function LowerChar(c: char): (d: char)
    ensures !('A' <= d <= 'Z')
    ensures 'A' <= c <= 'Z' ==> d as int == c as int + 32
    ensures c == '\U{212A}' ==> d == 'k'
    ensures !('A' <= c <= 'Z' || c == '\U{212A}') ==> d == c
  {
    if 'A' <= c <= 'Z' then (c as int + 32) as char
    else if c == '\U{212A}' then 'k'  // KELVIN SIGN lower-cases to a Latin k
    else c
  }

  predicate HasUpper(s: string)
  {
    exists i :: 0 <= i < |s| && ('A' <= s[i] <= 'Z' || s[i] == '\U{212A}')
  }

  /** `s.toLowerCase()`, restricted to the characters whose lower case is ASCII. */
  function ToLower(s: string): (r: string)
    ensures |r| == |s| && !HasUpper(r)
    ensures forall i :: 0 <= i < |s| ==> (r[i] == s[i] <==> !('A' <= s[i] <= 'Z' || s[i] == '\U{212A}'))
    ensures forall i :: 0 <= i < |s| ==> r[i] == LowerChar(s[i])
  {
    seq(|s|, i requires 0 <= i < |s| => LowerChar(s[i]))
  }

  lemma {:induction false} ToLowerIdempotent(s: string)
    ensures ToLower(ToLower(s)) == ToLower(s)
  {
    var r := ToLower(s);
    assert !HasUpper(r);
    forall i | 0 <= i < |r| ensures ToLower(r)[i] == r[i] {
      assert !('A' <= r[i] <= 'Z' || r[i] == '\U{212A}');
    }
  }

  /** `s.startsWith(p)` */
  predicate StartsWith(s: string, p: string)
  {
    |p| <= |s| && s[..|p|] == p
  }
}
