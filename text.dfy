/** The JavaScript string operations the pages use to filter lists:
    `String.prototype.trim`, `toLowerCase` and `includes`. */
module Text {

  /** The characters `trim` removes: ECMAScript WhiteSpace and LineTerminator. */
  predicate IsJsWhitespace(c: char) {
    c == ' ' || c == '\t' || c == '\n' || c == '\r' || c == '\U{B}' || c == '\U{C}' ||
    c == '\U{A0}' || c == '\U{1680}' || ('\U{2000}' <= c <= '\U{200A}') ||
    c == '\U{2028}' || c == '\U{2029}' || c == '\U{202F}' || c == '\U{205F}' ||
    c == '\U{3000}' || c == '\U{FEFF}'
  }

  /** Every character of `s` is white space (the empty string included). */
  predicate IsBlank(s: string) {
    forall i :: 0 <= i < |s| ==> IsJsWhitespace(s[i])
  }

  /** `s` without its leading white space. */
  function TrimStart(s: string): (r: string)
    ensures |r| <= |s| && r == s[|s| - |r|..]
    ensures r == [] || !IsJsWhitespace(r[0])
  {
    if s != [] && IsJsWhitespace(s[0]) then TrimStart(s[1..]) else s
  }

  /** `s` without its trailing white space. */
  function TrimEnd(s: string): (r: string)
    ensures |r| <= |s| && r == s[..|r|]
    ensures r == [] || !IsJsWhitespace(r[|r| - 1])
  {
    if s != [] && IsJsWhitespace(s[|s| - 1]) then TrimEnd(s[..|s| - 1]) else s
  }

  /** A blank prefix of the tail, behind a white-space first character, is a
      blank prefix of the whole string. */
  lemma BlankStepsBack(s: string, n: int)
    requires 1 <= n <= |s| && IsJsWhitespace(s[0]) && IsBlank(s[1..][..n - 1])
    ensures IsBlank(s[..n])
  {
    forall i | 0 <= i < n ensures IsJsWhitespace(s[..n][i]) {
      if i > 0 { assert s[..n][i] == s[1..][..n - 1][i - 1]; }
    }
  }

  /** A blank suffix of all but the last character, followed by a white-space
      last character, is a blank suffix of the whole string. */
  lemma BlankStepsForward(s: string, n: int)
    requires 0 <= n < |s| && IsJsWhitespace(s[|s| - 1]) && IsBlank(s[..|s| - 1][n..])
    ensures IsBlank(s[n..])
  {
    forall i | 0 <= i < |s| - n ensures IsJsWhitespace(s[n..][i]) {
      if i < |s| - 1 - n { assert s[n..][i] == s[..|s| - 1][n..][i]; }
    }
  }

  /** What `TrimStart` removes is white space. */
  lemma {:induction false} TrimStartRemovesBlanks(s: string)
    ensures IsBlank(s[..|s| - |TrimStart(s)|])
  {
    if s != [] && IsJsWhitespace(s[0]) {
      TrimStartRemovesBlanks(s[1..]);
      BlankStepsBack(s, |s| - |TrimStart(s)|);
    }
  }

  /** What `TrimEnd` removes is white space. */
  lemma {:induction false} TrimEndRemovesBlanks(s: string)
    ensures IsBlank(s[|TrimEnd(s)|..])
  {
    if s != [] && IsJsWhitespace(s[|s| - 1]) {
      TrimEndRemovesBlanks(s[..|s| - 1]);
      BlankStepsForward(s, |TrimEnd(s)|);
    }
  }

  /** `s.trim()`. */
  function Trim(s: string): string {
    TrimEnd(TrimStart(s))
  }

  /** `s.trim() === ''` holds exactly when `s` is blank. */
  lemma TrimEmptyIffBlank(s: string)
    ensures Trim(s) == "" <==> IsBlank(s)
  {
    var r := TrimStart(s);
    TrimStartRemovesBlanks(s);
    if r == [] {
      assert s[..|s|] == s;
    } else {
      assert s[|s| - |r|] == r[0];
      TrimEndKeepsNonBlank(r);
    }
  }

  /** Trimming the end of a string that starts with a non-space character keeps
      that character. */
  lemma {:induction false} TrimEndKeepsNonBlank(s: string)
    requires s != [] && !IsJsWhitespace(s[0])
    ensures TrimEnd(s) != []
  {
    if |s| > 1 && IsJsWhitespace(s[|s| - 1]) {
      TrimEndKeepsNonBlank(s[..|s| - 1]);
    }
  }

  /** `c.toLowerCase()` for the letters that have a lower-case form in ASCII. */
  function LowerChar(c: char): (r: char)
    ensures 'A' <= c <= 'Z' ==> 'a' <= r <= 'z'
    ensures !('A' <= c <= 'Z') ==> r == c
  {
    if 'A' <= c <= 'Z' then (c as int - 'A' as int + 'a' as int) as char else c
  }

  /** `s.toLowerCase()`, character by character. */
  function Lower(s: string): (r: string)
    ensures |r| == |s|
    ensures forall i :: 0 <= i < |s| ==> r[i] == LowerChar(s[i])
  {
    if s == [] then [] else [LowerChar(s[0])] + Lower(s[1..])
  }

  /** `s.startsWith(t)`. */
  predicate StartsWith(s: string, t: string) {
    |t| <= |s| && s[..|t|] == t
  }

  /** `t` occurs in `s` starting at index `i`. */
  predicate OccursAt(s: string, t: string, i: int) {
    0 <= i && i + |t| <= |s| && s[i..i + |t|] == t
  }

  /** `s.includes(t)`: `t` occurs somewhere in `s`. */
  function Contains(s: string, t: string): (r: bool)
    ensures r <==> exists i :: OccursAt(s, t, i)
  {
    if StartsWith(s, t) then
      assert OccursAt(s, t, 0);
      true
    else if s == [] then
      false
    else
      var r := Contains(s[1..], t);
      assert r ==> exists i :: OccursAt(s, t, i) by {
        if r {
          var j :| OccursAt(s[1..], t, j);
          assert s[j + 1..j + 1 + |t|] == s[1..][j..j + |t|];
          assert OccursAt(s, t, j + 1);
        }
      }
      assert (exists i :: OccursAt(s, t, i)) ==> r by {
        if exists i :: OccursAt(s, t, i) {
          var i :| OccursAt(s, t, i);
          assert i != 0;
          assert s[1..][i - 1..i - 1 + |t|] == s[i..i + |t|];
          assert OccursAt(s[1..], t, i - 1);
        }
      }
      r
  }
}
