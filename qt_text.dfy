/**
 * The two QString operations the client relies on: QString::trimmed and
 * QString::number for an int.
 */
module QtText {

  /** QChar::isSpace: the separator categories Zs, Zl and Zp together with
      the control characters U+0009..U+000D and U+0085. */
  predicate IsSpace(c: char)
  {
    ('\t' <= c <= '\r') || c == ' ' || c == '\U{0085}' || c == '\U{00A0}'
    || c == '\U{1680}' || ('\U{2000}' <= c <= '\U{200A}')
    || c == '\U{2028}' || c == '\U{2029}' || c == '\U{202F}' || c == '\U{205F}'
    || c == '\U{3000}'
  }

  predicate AllSpace(s: string)
  {
    forall k :: 0 <= k < |s| ==> IsSpace(s[k])
  }

  /** Number of whitespace characters at the start of s. */
  function LeadingSpaces(s: string): (n: nat)
    ensures n <= |s|
    ensures forall k :: 0 <= k < n ==> IsSpace(s[k])
    ensures n < |s| ==> !IsSpace(s[n])
  {
    if s == [] || !IsSpace(s[0]) then 0 else 1 + LeadingSpaces(s[1..])
  }

  /** Number of whitespace characters at the end of s. */
  function TrailingSpaces(s: string): (n: nat)
    ensures n <= |s|
    ensures forall k :: |s| - n <= k < |s| ==> IsSpace(s[k])
    ensures n < |s| ==> !IsSpace(s[|s| - 1 - n])
  {
    if s == [] || !IsSpace(s[|s| - 1]) then 0 else 1 + TrailingSpaces(s[..|s| - 1])
  }

  /** QString::trimmed: s without its leading and trailing whitespace. */
  function Trimmed(s: string): (r: string)
    ensures LeadingSpaces(s) + |r| <= |s|
    ensures r == s[LeadingSpaces(s)..LeadingSpaces(s) + |r|]
    ensures forall k :: LeadingSpaces(s) + |r| <= k < |s| ==> IsSpace(s[k])
    ensures r == [] <==> AllSpace(s)
    ensures r != [] ==> !IsSpace(r[0]) && !IsSpace(r[|r| - 1])
  {
    var lo := LeadingSpaces(s);
    if lo == |s| then []
    else
      var hi := |s| - TrailingSpaces(s);
      assert lo < hi;
      s[lo..hi]
  }

  /** Text without white space at either end is its own trimmed form. */
  lemma TrimmedUnpadded(t: string)
    requires t != [] && !IsSpace(t[0]) && !IsSpace(t[|t| - 1])
    ensures Trimmed(t) == t
  {
    assert LeadingSpaces(t) == 0;
    assert TrailingSpaces(t) == 0;
  }

  /** Trimming twice is trimming once. */
  lemma TrimmedIdempotent(s: string)
    ensures Trimmed(Trimmed(s)) == Trimmed(s)
  {
    if Trimmed(s) != [] {
      TrimmedUnpadded(Trimmed(s));
    }
  }

  /** Trimming removes exactly the white space padding around the text. */
  lemma TrimmedKeepsInnerText(pre: string, t: string, post: string)
    requires AllSpace(pre) && AllSpace(post)
    requires t != [] && !IsSpace(t[0]) && !IsSpace(t[|t| - 1])
    ensures Trimmed(pre + t + post) == t
  {
    var s := pre + t + post;
    LeadingSpacesOfPadded(pre, t + post);
    assert s == pre + (t + post);
    TrailingSpacesOfPadded(pre + t, post);
  }

  lemma {:induction false} LeadingSpacesOfPadded(pre: string, rest: string)
    requires AllSpace(pre)
    requires rest != [] && !IsSpace(rest[0])
    ensures LeadingSpaces(pre + rest) == |pre|
  {
    if pre != [] {
      assert (pre + rest)[1..] == pre[1..] + rest;
      LeadingSpacesOfPadded(pre[1..], rest);
    }
  }

  lemma {:induction false} TrailingSpacesOfPadded(rest: string, post: string)
    requires AllSpace(post)
    requires rest != [] && !IsSpace(rest[|rest| - 1])
    ensures TrailingSpaces(rest + post) == |post|
  {
    if post != [] {
      assert (rest + post)[..|rest + post| - 1] == rest + post[..|post| - 1];
      TrailingSpacesOfPadded(rest, post[..|post| - 1]);
    }
  }

  /* ---------- QString::number(int) ---------- */

  predicate IsDigit(c: char) { '0' <= c <= '9' }

  function DigitChar(d: nat): (c: char)
    requires d < 10
    ensures IsDigit(c)
  {
    ['0', '1', '2', '3', '4', '5', '6', '7', '8', '9'][d]
  }

  function DigitValue(c: char): nat
    requires IsDigit(c)
  {
    c as int - '0' as int
  }

  /** Value of a string of decimal digits, most significant first. */
  function DecimalValue(s: string): nat
    requires forall k :: 0 <= k < |s| ==> IsDigit(s[k])
  {
    if s == [] then 0 else 10 * DecimalValue(s[..|s| - 1]) + DigitValue(s[|s| - 1])
  }

  /** Decimal digits of n without leading zeros ("0" for zero). */
  function NatDigits(n: nat): (s: string)
    ensures s != [] && forall k :: 0 <= k < |s| ==> IsDigit(s[k])
  {
    if n < 10 then [DigitChar(n)] else NatDigits(n / 10) + [DigitChar(n % 10)]
  }

  /** QString::number for an int: an optional minus sign and the digits. */
  function Number(i: int): string
  {
    if i < 0 then "-" + NatDigits(-i) else NatDigits(i)
  }

  /** The digits written for n denote n, and have no leading zero. */
  lemma {:induction false} NatDigitsValue(n: nat)
    ensures DecimalValue(NatDigits(n)) == n
    ensures |NatDigits(n)| > 1 ==> NatDigits(n)[0] != '0'
  {
    if n >= 10 {
      var s := NatDigits(n / 10) + [DigitChar(n % 10)];
      assert s[..|s| - 1] == NatDigits(n / 10);
      NatDigitsValue(n / 10);
    }
  }

  /** The text of a number starts with a minus sign exactly when it is negative. */
  lemma NumberSign(i: int)
    ensures |Number(i)| > 0 && (Number(i)[0] == '-' <==> i < 0)
  {
  }

  /** Distinct naturals have distinct digit strings. */
  lemma NatDigitsInjective(m: nat, n: nat)
    requires NatDigits(m) == NatDigits(n)
    ensures m == n
  {
    NatDigitsValue(m);
    NatDigitsValue(n);
  }

  /** Distinct status codes are written as distinct texts. */
  lemma NumberInjective(i: int, j: int)
    requires Number(i) == Number(j)
    ensures i == j
  {
    NumberSign(i);
    NumberSign(j);
    if i < 0 {
      assert NatDigits(-i) == Number(i)[1..];
      assert NatDigits(-j) == Number(j)[1..];
      NatDigitsInjective(-i, -j);
    } else {
      NatDigitsInjective(i, j);
    }
  }
}
