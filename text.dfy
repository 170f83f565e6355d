/** JavaScript string trimming, as the contact form and the chat widget use it.
    `String.prototype.trim` strips the WhiteSpace and LineTerminator code points
    of ECMA-262 from both ends; the regular-expression class `\s` matches the
    same set, so one predicate serves both. */
module Text {

  /** The ECMA-262 WhiteSpace and LineTerminator code points. */
  predicate IsWhitespace(c: char) {
    || c == '\t' || c == '\n' || c == '\U{B}' || c == '\U{C}' || c == '\r' || c == ' '
    || c == '\U{A0}' || c == '\U{1680}' || ('\U{2000}' <= c <= '\U{200A}')
    || c == '\U{2028}' || c == '\U{2029}' || c == '\U{202F}' || c == '\U{205F}'
    || c == '\U{3000}' || c == '\U{FEFF}'
  }

  /** JavaScript's `!s.trim()` and `s.trim() === ''`: every character is
      whitespace. `Trim` is empty exactly
      when this holds. */
  predicate IsBlank(s: string) {
    forall i :: 0 <= i < |s| ==> IsWhitespace(s[i])
  }

  /** Two blank strings concatenate to a blank string. */
  lemma BlankConcat(a: string, b: string)
    requires IsBlank(a) && IsBlank(b)
    ensures IsBlank(a + b)
  {
    forall i | 0 <= i < |a + b| ensures IsWhitespace((a + b)[i]) {
      if i < |a| {
        assert (a + b)[i] == a[i];
      } else {
        assert (a + b)[i] == b[i - |a|];
      }
    }
  }

  /** Drops the longest all-whitespace prefix: what is left is a suffix of `s`
      that is empty or starts with a non-whitespace character. */
  function TrimStart(s: string): (r: string)
    ensures |r| <= |s| && r == s[|s| - |r|..]
    ensures IsBlank(s[..|s| - |r|])
    ensures r == [] || !IsWhitespace(r[0])
    decreases |s|
  {
    if s != [] && IsWhitespace(s[0]) then
      var r := TrimStart(s[1..]);
      assert s[..|s| - |r|] == [s[0]] + s[1..][..|s| - 1 - |r|];
      BlankConcat([s[0]], s[1..][..|s| - 1 - |r|]);
      r
    else
      s
  }

  /** Drops the longest all-whitespace suffix: what is left is a prefix of `s`
      that is empty or ends with a non-whitespace character. */
  function TrimEnd(s: string): (r: string)
    ensures |r| <= |s| && r == s[..|r|]
    ensures IsBlank(s[|r|..])
    ensures r == [] || !IsWhitespace(r[|r| - 1])
    decreases |s|
  {
    if s != [] && IsWhitespace(s[|s| - 1]) then
      var r := TrimEnd(s[..|s| - 1]);
      assert s[|r|..] == s[..|s| - 1][|r|..] + [s[|s| - 1]];
      BlankConcat(s[..|s| - 1][|r|..], [s[|s| - 1]]);
      r
    else
      s
  }

  /** `s.trim()`: empty exactly when every character of `s` is whitespace;
      otherwise it neither starts nor ends with whitespace. */
  function Trim(s: string): (r: string)
    ensures |r| <= |s|
    ensures r == [] <==> IsBlank(s)
    ensures r != [] ==> !IsWhitespace(r[0]) && !IsWhitespace(r[|r| - 1])
  {
    var t := TrimStart(s);
    var r := TrimEnd(t);
    var k := |s| - |t|;
    if r == [] then
      assert s == s[..k] + t;
      assert t[|r|..] == t;
      BlankConcat(s[..k], t);
      r
    else
      assert s[k] == r[0];
      r
  }
}
