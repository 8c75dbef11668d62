/**
 * The email check of the reminder endpoint: the regular expression
 * `^[^\s@]+@[^\s@]+\.[^\s@]+$` (backend/server.js, line 75), read literally as
 * three atoms joined by '@' and '.', and the plain-words characterisation of the
 * same language, proved equal.
 */
module Email {

  /** The characters matched by `\s` in a JavaScript regular expression. */
  predicate IsJsWhitespace(c: char) {
    || c == ' ' || c == '\t' || c == '\n' || c == '\U{000B}' || c == '\U{000C}' || c == '\r'
    || c == '\U{00A0}' || c == '\U{1680}' || ('\U{2000}' <= c <= '\U{200A}')
    || c == '\U{2028}' || c == '\U{2029}' || c == '\U{202F}' || c == '\U{205F}'
    || c == '\U{3000}' || c == '\U{FEFF}'
  }

  /** A character of the class `[^\s@]`. */
  predicate IsAtomChar(c: char) {
    c != '@' && !IsJsWhitespace(c)
  }

  /** One or more characters of the class `[^\s@]`, i.e. `[^\s@]+`. */
  predicate IsAtom(t: string) {
    |t| > 0 && forall k :: 0 <= k < |t| ==> IsAtomChar(t[k])
  }

  /**
   * The whole string matches `^[^\s@]+@[^\s@]+\.[^\s@]+$`: it splits at an '@'
   * (position i) and a later '.' (position j) into three atoms.
   */
  predicate MatchesEmailPattern(s: string) {
    exists i, j :: 0 <= i < j < |s| && s[i] == '@' && s[j] == '.' &&
      IsAtom(s[..i]) && IsAtom(s[i + 1..j]) && IsAtom(s[j + 1..])
  }

  /**
   * The same language in plain words: exactly one '@', which is not the first
   * character; no whitespace; and after the '@' a '.' that is neither the first
   * nor the last character of the domain.
   */
  predicate IsWellFormedEmail(s: string) {
    exists i :: 0 < i < |s| && s[i] == '@' &&
      (forall m :: 0 <= m < |s| && m != i ==> s[m] != '@') &&
      (forall m :: 0 <= m < |s| ==> !IsJsWhitespace(s[m])) &&
      (exists j :: i + 1 < j < |s| - 1 && s[j] == '.')
  }

  /** The pattern accepts exactly the well-formed addresses. */
  lemma PatternIsWellFormedEmail(s: string)
    ensures MatchesEmailPattern(s) <==> IsWellFormedEmail(s)
  {
    if MatchesEmailPattern(s) {
      var i, j :| 0 <= i < j < |s| && s[i] == '@' && s[j] == '.' &&
        IsAtom(s[..i]) && IsAtom(s[i + 1..j]) && IsAtom(s[j + 1..]);
      forall m | 0 <= m < |s| && m != i
        ensures IsAtomChar(s[m]) || m == j
      {
        if m < i {
          assert s[m] == s[..i][m];
        } else if i < m < j {
          assert s[m] == s[i + 1..j][m - i - 1];
        } else if j < m {
          assert s[m] == s[j + 1..][m - j - 1];
        }
      }
      assert s[i + 1..j][0] == s[i + 1];
      assert s[j + 1..][0] == s[j + 1];
      assert IsWellFormedEmail(s) by {
        assert 0 < i by { assert |s[..i]| > 0; }
        assert i + 1 < j < |s| - 1;
      }
    }
    if IsWellFormedEmail(s) {
      var i :| 0 < i < |s| && s[i] == '@' &&
        (forall m :: 0 <= m < |s| && m != i ==> s[m] != '@') &&
        (forall m :: 0 <= m < |s| ==> !IsJsWhitespace(s[m])) &&
        (exists j :: i + 1 < j < |s| - 1 && s[j] == '.');
      var j :| i + 1 < j < |s| - 1 && s[j] == '.';
      assert forall m :: 0 <= m < |s| && m != i ==> IsAtomChar(s[m]);
      assert IsAtom(s[..i]) && IsAtom(s[i + 1..j]) && IsAtom(s[j + 1..]);
    }
  }
}
