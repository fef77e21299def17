/**
 * The Python `str` operations the response parser relies on: `strip()`,
 * `startswith` and `endswith`, over `seq<char>`.
 */
module PyStr {

  /** The characters for which Python's `str.isspace()` holds. */
  const WHITESPACE: set<char> := {' ', '\t', '\n', '\r', '\U{000B}', '\U{000C}', '\U{001C}', '\U{001D}', '\U{001E}', '\U{001F}', '\U{0085}', '\U{00A0}', '\U{1680}', '\U{2000}', '\U{2001}', '\U{2002}', '\U{2003}', '\U{2004}', '\U{2005}', '\U{2006}', '\U{2007}', '\U{2008}', '\U{2009}', '\U{200A}', '\U{2028}', '\U{2029}', '\U{202F}', '\U{205F}', '\U{3000}'}

  /** `c.isspace()` for a single character. */
  predicate IsSpace(c: char) {
    c in WHITESPACE
  }

  predicate AllSpace(s: string) {
    forall i :: 0 <= i < |s| ==> IsSpace(s[i])
  }

  /** Neither end of `s` is whitespace. */
  predicate Trimmed(s: string) {
    |s| == 0 || (!IsSpace(s[0]) && !IsSpace(s[|s| - 1]))
  }

  /** `s.lstrip()`: drops the longest all-whitespace prefix. */
  function StripLeft(s: string): (r: string)
    ensures |r| <= |s| && r == s[|s| - |r|..]
    ensures |r| > 0 ==> !IsSpace(r[0])
  {
    if |s| > 0 && IsSpace(s[0]) then StripLeft(s[1..]) else s
  }

  /** `s.rstrip()`: drops the longest all-whitespace suffix. */
  function StripRight(s: string): (r: string)
    ensures |r| <= |s| && r == s[..|r|]
    ensures |r| > 0 ==> !IsSpace(r[|r| - 1])
  {
    if |s| > 0 && IsSpace(s[|s| - 1]) then StripRight(s[..|s| - 1]) else s
  }

  /** `s.strip()`. */
  function Strip(s: string): (r: string)
    ensures |r| <= |s|
    ensures Trimmed(r)
  {
    StripRight(StripLeft(s))
  }

  predicate StartsWith(s: string, p: string) {
    |p| <= |s| && s[..|p|] == p
  }

  predicate EndsWith(s: string, p: string) {
    |p| <= |s| && s[|s| - |p|..] == p
  }

  lemma {:induction false} StripLeftPadded(a: string, t: string)
    requires AllSpace(a)
    requires |t| == 0 || !IsSpace(t[0])
    ensures StripLeft(a + t) == t
  {
    if |a| > 0 {
      assert (a + t)[1..] == a[1..] + t;
      StripLeftPadded(a[1..], t);
    } else {
      assert a + t == t;
    }
  }

  lemma {:induction false} StripRightPadded(t: string, b: string)
    requires AllSpace(b)
    requires |t| == 0 || !IsSpace(t[|t| - 1])
    ensures StripRight(t + b) == t
  {
    if |b| > 0 {
      assert (t + b)[..|t + b| - 1] == t + b[..|b| - 1];
      StripRightPadded(t, b[..|b| - 1]);
    } else {
      assert t + b == t;
    }
  }

  /**
   * `strip()` is fully characterised: surrounding a text with no
   * whitespace at either end by whitespace of any length, and stripping,
   * gives back exactly that text.
   */
  lemma StripPadded(a: string, m: string, b: string)
    requires AllSpace(a) && AllSpace(b) && Trimmed(m)
    ensures Strip(a + m + b) == m
  {
    if |m| == 0 {
      assert a + m + b == a + b;
      assert AllSpace(a + b);
      StripLeftPadded(a + b, []);
      assert a + b + [] == a + b;
    } else {
      assert a + m + b == a + (m + b);
      StripLeftPadded(a, m + b);
      StripRightPadded(m, b);
    }
  }

  /** A text with no whitespace at either end is its own `strip()`. */
  lemma StripTrimmed(m: string)
    requires Trimmed(m)
    ensures Strip(m) == m
  {
    StripPadded([], m, []);
    assert [] + m + [] == m;
  }

  /** Stripping twice is stripping once. */
  lemma StripIdempotent(s: string)
    ensures Strip(Strip(s)) == Strip(s)
  {
    var m := Strip(s);
    StripPadded([], m, []);
    assert [] + m + [] == m;
  }

  /** A text whose first character differs from a prefix's first character does not start with it. */
  lemma NotStartsWith(s: string, p: string)
    requires |p| > 0 && (|s| == 0 || s[0] != p[0])
    ensures !StartsWith(s, p)
  {
    if |p| <= |s| { assert s[..|p|][0] == s[0]; }
  }

  /** A text whose last character differs from a suffix's last character does not end with it. */
  lemma NotEndsWith(s: string, p: string)
    requires |p| > 0 && (|s| == 0 || s[|s| - 1] != p[|p| - 1])
    ensures !EndsWith(s, p)
  {
    if |p| <= |s| { assert s[|s| - |p|..][|p| - 1] == s[|s| - 1]; }
  }
}
