/** The few string operations of Python and JavaScript that the modelled code calls. */
module Text {

  /** What Python's `str.strip()` and `str.isspace()` treat as white space. */
  predicate PythonSpace(c: char) {
    || '\t' <= c <= '\r'
    || '\U{1c}' <= c <= ' '
    || c in ['\U{85}', '\U{a0}', '\U{1680}', '\U{2028}', '\U{2029}', '\U{202f}', '\U{205f}', '\U{3000}']
    || '\U{2000}' <= c <= '\U{200a}'
  }

  /** What JavaScript's `String.prototype.trim` removes. */
  predicate ScriptSpace(c: char) {
    || '\t' <= c <= '\r'
    || c in [' ', '\U{a0}', '\U{1680}', '\U{2028}', '\U{2029}', '\U{202f}', '\U{205f}', '\U{3000}', '\U{feff}']
    || '\U{2000}' <= c <= '\U{200a}'
  }

  predicate IsBlank(s: string) {
    forall i | 0 <= i < |s| :: PythonSpace(s[i])
  }

  function TrimLeft(s: string, space: char -> bool): (t: string)
    ensures |t| <= |s| && t == s[|s| - |t|..]
    ensures t != "" ==> !space(t[0])
  {
    if s != "" && space(s[0]) then TrimLeft(s[1..], space) else s
  }

  function TrimRight(s: string, space: char -> bool): (t: string)
    ensures t <= s
    ensures t != "" ==> !space(t[|t| - 1])
  {
    if s != "" && space(s[|s| - 1]) then TrimRight(s[..|s| - 1], space) else s
  }

  function Trim(s: string, space: char -> bool): string {
    TrimRight(TrimLeft(s, space), space)
  }

  /** Trimming takes white space off both ends, and nothing else. */
  lemma TrimTakesSpaces(s: string, space: char -> bool)
    ensures var left, t := TrimLeft(s, space), Trim(s, space); var k := |s| - |left|;
      && s[k..] == left && left[..|t|] == t
      && (forall i | 0 <= i < k :: space(s[i])) && (forall i | |t| <= i < |left| :: space(left[i]))
      && (t != "" ==> !space(t[|t| - 1])) && (left != "" ==> !space(left[0]))
  {
    LeftSpaces(s, space);
    RightSpaces(TrimLeft(s, space), space);
  }

  lemma {:induction false} LeftSpaces(s: string, space: char -> bool)
    ensures forall i | 0 <= i < |s| - |TrimLeft(s, space)| :: space(s[i])
  {
    if s != "" && space(s[0]) {
      LeftSpaces(s[1..], space);
      forall i | 0 < i < |s| - |TrimLeft(s, space)| ensures space(s[i]) { assert s[i] == s[1..][i - 1]; }
    }
  }

  lemma {:induction false} RightSpaces(s: string, space: char -> bool)
    ensures forall i | |TrimRight(s, space)| <= i < |s| :: space(s[i])
  {
    if s != "" && space(s[|s| - 1]) { RightSpaces(s[..|s| - 1], space); }
  }

  function Strip(s: string): string {
    Trim(s, PythonSpace)
  }

  function LowerChar(c: char): (l: char)
    ensures if 'A' <= c <= 'Z' then 'a' <= l <= 'z' && l as int - 'a' as int == c as int - 'A' as int else l == c
  {
    if 'A' <= c <= 'Z' then (c as int + 32) as char else c
  }

  /** `str.lower()` on the ASCII letters; every other character is kept. */
  function Lower(s: string): (t: string)
    ensures |t| == |s|
  {
    seq(|s|, i requires 0 <= i < |s| => LowerChar(s[i]))
  }

  predicate StartsWith(s: string, prefix: string) {
    prefix <= s
  }
}
