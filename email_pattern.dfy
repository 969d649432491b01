/**
 * The id check of the login form: QRegularExpression
 *   ([\w\.-]+)@([\w\.-]+)\.([a-zA-Z]{2,})
 * searched for anywhere in the trimmed id (the pattern has no anchors).
 * Without UseUnicodePropertiesOption, Qt's \w is the ASCII class
 * [A-Za-z0-9_].
 */
module EmailPattern {

  /** \w */
  predicate IsWordChar(c: char)
  {
    ('a' <= c <= 'z') || ('A' <= c <= 'Z') || ('0' <= c <= '9') || c == '_'
  }

  /** [\w\.-] */
  predicate IsNameChar(c: char)
  {
    IsWordChar(c) || c == '.' || c == '-'
  }

  /** [a-zA-Z] */
  predicate IsLetter(c: char)
  {
    ('a' <= c <= 'z') || ('A' <= c <= 'Z')
  }

  /** Every character of s[lo..hi] is in [\w.-]. */
  predicate NameCharsIn(s: string, lo: int, hi: int)
  {
    0 <= lo <= hi <= |s| && forall k :: lo <= k < hi ==> IsNameChar(s[k])
  }

  /** Every character of s[lo..hi] is in [a-zA-Z]. */
  predicate LettersIn(s: string, lo: int, hi: int)
  {
    0 <= lo <= hi <= |s| && forall k :: lo <= k < hi ==> IsLetter(s[k])
  }

  /** t is "local@domain.tld" with the '@' at index a and the final '.' at
      index d: a non-empty local part and domain of [\w.-], and a top-level
      part of at least two letters. */
  predicate SplitAt(t: string, a: int, d: int)
  {
    && 0 < a && a + 1 < d && d + 2 < |t|
    && NameCharsIn(t, 0, a) && t[a] == '@'
    && NameCharsIn(t, a + 1, d) && t[d] == '.'
    && LettersIn(t, d + 1, |t|)
  }

  /** t as a whole matches the pattern. */
  predicate MatchesWhole(t: string)
  {
    exists a, d | 0 <= a < |t| && 0 <= d < |t| :: SplitAt(t, a, d)
  }

  /** QRegularExpression::match(s).hasMatch(): some substring matches. */
  predicate HasMatch(s: string)
  {
    exists i, j | 0 <= i <= j <= |s| :: MatchesWhole(s[i..j])
  }

  /** The shortest match around an '@' at index a of s and a '.' at index d:
      one name character before the '@', name characters up to the '.',
      and two letters after it. */
  predicate CoreAt(s: string, a: int, d: int)
  {
    && 1 <= a && a + 1 < d && d + 2 < |s|
    && IsNameChar(s[a - 1]) && s[a] == '@'
    && NameCharsIn(s, a + 1, d) && s[d] == '.'
    && IsLetter(s[d + 1]) && IsLetter(s[d + 2])
  }

  /** Name characters of a slice are name characters of the whole. */
  lemma NameCharsShift(s: string, i: int, j: int, lo: int, hi: int)
    requires 0 <= i <= j <= |s|
    requires NameCharsIn(s[i..j], lo, hi)
    ensures NameCharsIn(s, i + lo, i + hi)
  {
    forall k | i + lo <= k < i + hi
      ensures IsNameChar(s[k])
    {
      assert s[k] == s[i..j][k - i];
    }
  }

  /** The reverse direction of NameCharsShift. */
  lemma NameCharsSlice(s: string, i: int, j: int, lo: int, hi: int)
    requires 0 <= i <= j <= |s| && 0 <= lo <= hi <= j - i
    requires NameCharsIn(s, i + lo, i + hi)
    ensures NameCharsIn(s[i..j], lo, hi)
  {
    forall k | lo <= k < hi
      ensures IsNameChar(s[i..j][k])
    {
      assert s[i..j][k] == s[i + k];
    }
  }

  /** The search succeeds exactly when some '@' has a core match around it. */
  lemma HasMatchIffCore(s: string)
    ensures HasMatch(s) <==> exists a, d :: CoreAt(s, a, d)
  {
    if HasMatch(s) {
      var i, j :| 0 <= i <= j <= |s| && MatchesWhole(s[i..j]);
      var t := s[i..j];
      var a, d :| 0 <= a < |t| && 0 <= d < |t| && SplitAt(t, a, d);
      assert t[a - 1] == s[i + a - 1];
      NameCharsShift(s, i, j, a + 1, d);
      assert t[d + 1] == s[i + d + 1] && t[d + 2] == s[i + d + 2];
      assert CoreAt(s, i + a, i + d);
    }
    if a, d :| CoreAt(s, a, d) {
      CoreIsMatch(s, a, d);
    }
  }

  lemma CoreIsMatch(s: string, a: int, d: int)
    requires CoreAt(s, a, d)
    ensures HasMatch(s)
  {
    var i, j := a - 1, d + 3;
    var t := s[i..j];
    NameCharsSlice(s, i, j, 2, d - i);
    assert SplitAt(t, 1, d - i);
  }

  /** An id without '@' never passes. */
  lemma NoAtNoMatch(s: string)
    requires forall k :: 0 <= k < |s| ==> s[k] != '@'
    ensures !HasMatch(s)
  {
    HasMatchIffCore(s);
  }

  /** A core match inside a slice is a core match of the whole text. */
  lemma CoreShift(u: string, i: int, j: int, a: int, d: int)
    requires 0 <= i <= j <= |u| && CoreAt(u[i..j], a, d)
    ensures CoreAt(u, i + a, i + d)
  {
    var t := u[i..j];
    NameCharsShift(u, i, j, a + 1, d);
    assert t[a - 1] == u[i + a - 1] && t[a] == u[i + a];
    assert t[d] == u[i + d] && t[d + 1] == u[i + d + 1] && t[d + 2] == u[i + d + 2];
  }

  /** The search is unanchored: surrounding text never hides a match. */
  lemma MatchAnywhere(pre: string, s: string, post: string)
    requires HasMatch(s)
    ensures HasMatch(pre + s + post)
  {
    HasMatchIffCore(s);
    var a, d :| CoreAt(s, a, d);
    var u := pre + s + post;
    assert u[|pre|..|pre| + |s|] == s;
    CoreShift(u, |pre|, |pre| + |s|, a, d);
    CoreIsMatch(u, |pre| + a, |pre| + d);
  }

  lemma ExampleAccepted()
    ensures HasMatch("a@b.com")
  {
    CoreIsMatch("a@b.com", 1, 3);
  }

  lemma ExampleTopLevelTooShort()
    ensures !HasMatch("a@b.c")
  {
    HasMatchIffCore("a@b.c");
  }

  lemma ExampleNoDomainDot()
    ensures !HasMatch("user@localhost")
  {
    var s := "user@localhost";
    HasMatchIffCore(s);
    if a, d :| CoreAt(s, a, d) {
      assert s[d] == '.';
    }
  }
}
