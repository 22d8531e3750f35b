/**
 * The character classes and string tests the two test classes rely on:
 * Java's `String.trim()` and `String.isBlank()`, the `\s` class of
 * `java.util.regex`, the e-mail pattern `^[^@\s]+@[^@\s]+\.[^@\s]+$` and
 * `contains("@")`.
 */
module Text {

  /** `String.trim()` strips every code point up to U+0020 from both ends. */
  predicate IsTrimmable(c: char) {
    c <= ' '
  }

  /** `Character.isWhitespace`, the test behind `String.isBlank()`. */
  predicate IsJavaWhitespace(c: char) {
    var n := c as int;
    (0x09 <= n <= 0x0D) || (0x1C <= n <= 0x20) || n == 0x1680
    || (0x2000 <= n <= 0x200A && n != 0x2007)
    || n == 0x2028 || n == 0x2029 || n == 0x205F || n == 0x3000
  }

  /** The predefined class `\s` of Java regular expressions: [ \t\n\x0B\f\r]. */
  predicate IsRegexSpace(c: char) {
    c == ' ' || ('\t' <= c <= '\r')
  }

  /** How many leading characters `trim()` removes. */
  function LeadingTrimmable(s: string): (n: nat)
    ensures n <= |s|
    ensures forall k :: 0 <= k < n ==> IsTrimmable(s[k])
    ensures n < |s| ==> !IsTrimmable(s[n])
  {
    if s == [] || !IsTrimmable(s[0]) then 0 else 1 + LeadingTrimmable(s[1..])
  }

  /** How many trailing characters `trim()` removes. */
  function TrailingTrimmable(s: string): (n: nat)
    ensures n <= |s|
    ensures forall k :: |s| - n <= k < |s| ==> IsTrimmable(s[k])
    ensures n < |s| ==> !IsTrimmable(s[|s| - 1 - n])
  {
    if s == [] || !IsTrimmable(s[|s| - 1]) then 0 else 1 + TrailingTrimmable(s[..|s| - 1])
  }

  /**
   * `String.trim()`: the result is empty exactly when every character is
   * trimmable, and otherwise starts and ends with a character above U+0020.
   */
  function Trim(s: string): (r: string)
    ensures r == [] <==> forall k :: 0 <= k < |s| ==> IsTrimmable(s[k])
    ensures r != [] ==> !IsTrimmable(r[0]) && !IsTrimmable(r[|r| - 1])
  {
    var lead := LeadingTrimmable(s);
    var t := s[lead..];
    var r := t[..|t| - TrailingTrimmable(t)];
    // An empty result leaves nothing after the leading run.
    assert r == [] ==> lead == |s|;
    r
  }

  /** `String.isBlank()`: empty, or nothing but white space. */
  predicate IsBlank(s: string) {
    forall k :: 0 <= k < |s| ==> IsJavaWhitespace(s[k])
  }

  /** A character that `[^@\s]` accepts. */
  predicate IsPlain(c: char) {
    c != '@' && !IsRegexSpace(c)
  }

  /** A string that `[^@\s]+` matches. */
  predicate IsPlainRun(t: string) {
    |t| > 0 && forall k :: 0 <= k < |t| ==> IsPlain(t[k])
  }

  /**
   * Reference reading of `^[^@\s]+@[^@\s]+\.[^@\s]+$`: `s` splits at
   * position `at` (the `@`) and `dot` (the `.`) into three plain runs.
   */
  ghost predicate EmailSplit(s: string, at: nat, dot: nat) {
    && at < dot < |s|
    && IsPlainRun(s[..at]) && s[at] == '@'
    && IsPlainRun(s[at + 1..dot]) && s[dot] == '.'
    && IsPlainRun(s[dot + 1..])
  }

  /** The regular expression matches the whole of `s`. */
  ghost predicate RegexMatchesEmail(s: string) {
    exists at: nat, dot: nat :: EmailSplit(s, at, dot)
  }

  /**
   * The e-mail test, written out by hand: no white space, exactly one `@`,
   * at least one character before it, and a `.` strictly inside the domain.
   */
  predicate MatchesEmailPattern(s: string) {
    && (forall c :: c in s ==> !IsRegexSpace(c))
    && exists at :: 0 < at < |s| - 2 && AtSign(s, at) && '.' in s[at + 2..|s| - 1]
  }

  /** The only `@` of `s` sits at position `at`. */
  predicate AtSign(s: string, at: nat)
    requires at < |s|
  {
    s[at] == '@' && '@' !in s[..at] && '@' !in s[at + 1..]
  }

  /** The hand-written test accepts exactly what the regular expression matches. */
  lemma EmailPatternIsRegex(s: string)
    ensures MatchesEmailPattern(s) <==> RegexMatchesEmail(s)
  {
    if MatchesEmailPattern(s) {
      PatternSplits(s);
    }
    if RegexMatchesEmail(s) {
      SplitMatchesPattern(s);
    }
  }

  /** An address the hand-written test accepts splits as the regular expression requires. */
  lemma PatternSplits(s: string)
    requires MatchesEmailPattern(s)
    ensures RegexMatchesEmail(s)
  {
    var at :| 0 < at < |s| - 2 && AtSign(s, at) && '.' in s[at + 2..|s| - 1];
    var j :| 0 <= j < |s[at + 2..|s| - 1]| && s[at + 2..|s| - 1][j] == '.';
    var dot := at + 2 + j;
    assert s[dot] == '.';
    forall k | 0 <= k < |s| && k != at ensures IsPlain(s[k]) {
      assert s[k] in s;
      if k < at { assert s[k] == s[..at][k]; } else { assert s[k] == s[at + 1..][k - at - 1]; }
    }
    assert IsPlainRun(s[..at]);
    assert IsPlainRun(s[at + 1..dot]);
    assert IsPlainRun(s[dot + 1..]);
    assert EmailSplit(s, at, dot);
  }

  /** An address the regular expression matches passes the hand-written test. */
  lemma SplitMatchesPattern(s: string)
    requires RegexMatchesEmail(s)
    ensures MatchesEmailPattern(s)
  {
    var a: nat, d: nat :| EmailSplit(s, a, d);
    forall k | 0 <= k < |s| ensures IsPlain(s[k]) || k == a {
      if k < a {
        assert s[k] == s[..a][k];
      } else if a < k < d {
        assert s[k] == s[a + 1..d][k - a - 1];
      } else if k > d {
        assert s[k] == s[d + 1..][k - d - 1];
      }
    }
    assert '@' !in s[..a];
    assert '@' !in s[a + 1..] by {
      var t := s[a + 1..];
      forall k | 0 <= k < |t| ensures t[k] != '@' {
        assert t[k] == s[a + 1 + k];
      }
    }
    assert s[a + 2..|s| - 1][d - a - 2] == '.';
    assert AtSign(s, a);
  }

  /** `user@domain.tld` with non-empty parts free of `@` and white space is accepted. */
  lemma PlainAddressMatches(user: string, domain: string, tld: string)
    requires IsPlainRun(user) && IsPlainRun(domain) && IsPlainRun(tld)
    ensures MatchesEmailPattern(user + "@" + domain + "." + tld)
  {
    var s := user + "@" + domain + "." + tld;
    var at := |user|;
    var dot := at + 1 + |domain|;
    assert s[..at] == user && s[at + 1..dot] == domain && s[dot + 1..] == tld;
    assert EmailSplit(s, at, dot);
    EmailPatternIsRegex(s);
  }

  /** Every address the regular expression accepts also passes `contains("@")`. */
  lemma EmailPatternHasAt(s: string)
    requires RegexMatchesEmail(s)
    ensures '@' in s
  {
    var at: nat, dot: nat :| EmailSplit(s, at, dot);
  }
}
