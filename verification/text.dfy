/**
 * Text helpers shared by the server and the client:
 *  - `Strip`, the whitespace trimming that Python's `str.strip()` and
 *    JavaScript's `String.prototype.trim()` apply to comments, each with its
 *    own set of whitespace characters;
 *  - `LexLe`, the order SQLite's default BINARY collation puts on TEXT
 *    values (byte-wise on UTF-8, which is code-point order on characters).
 */
module Text {

  /** Whose trimming is meant: Python's `str.strip()` on the server or
      JavaScript's `String.prototype.trim()` in the client. */
  datatype Runtime = Python | JavaScript

  /** The ASCII characters each runtime treats as whitespace: both strip the
      space, tab, line feed, vertical tab, form feed and carriage return;
      Python also strips the four separators U+001C to U+001F. */
  predicate IsSpace(rt: Runtime, c: char) {
    || c == ' ' || c == '\t' || c == '\n' || c == '\r' || c == '\U{000B}' || c == '\U{000C}'
    || (rt == Python && '\U{001C}' <= c <= '\U{001F}')
  }

  predicate AllSpace(rt: Runtime, s: string) {
    forall k :: 0 <= k < |s| ==> IsSpace(rt, s[k])
  }

  /** Drops the leading whitespace: the result is the suffix of `s` that starts
      at its first non-space character. */
  function TrimStart(rt: Runtime, s: string): (r: string)
    ensures |r| <= |s| && r == s[|s| - |r|..]
    ensures r == [] || !IsSpace(rt, r[0])
    ensures AllSpace(rt, s[..|s| - |r|])
  {
    if s != [] && IsSpace(rt, s[0]) then
      var r := TrimStart(rt, s[1..]);
      assert s[..|s| - |r|] == [s[0]] + s[1..][..|s| - 1 - |r|];
      r
    else s
  }

  /** Drops the trailing whitespace: the result is the prefix of `s` that ends
      at its last non-space character. */
  function TrimEnd(rt: Runtime, s: string): (r: string)
    ensures |r| <= |s| && r == s[..|r|]
    ensures r == [] || !IsSpace(rt, r[|r| - 1])
    ensures AllSpace(rt, s[|r|..])
  {
    if s != [] && IsSpace(rt, s[|s| - 1]) then
      var r := TrimEnd(rt, s[..|s| - 1]);
      assert s[|r|..] == s[..|s| - 1][|r|..] + [s[|s| - 1]];
      r
    else s
  }

  /** `s.strip()` / `s.trim()`: `s` is the leading whitespace, then the result,
      then the trailing whitespace; the result has no whitespace at either end
      and is empty exactly when `s` is all whitespace. */
  function Strip(rt: Runtime, s: string): (r: string)
    ensures |r| <= |TrimStart(rt, s)| <= |s|
    ensures r == [] || (!IsSpace(rt, r[0]) && !IsSpace(rt, r[|r| - 1]))
    ensures r == [] <==> AllSpace(rt, s)
    ensures r == s[|s| - |TrimStart(rt, s)|..][..|r|]
    ensures AllSpace(rt, s[..|s| - |TrimStart(rt, s)|])
    ensures AllSpace(rt, s[|s| - |TrimStart(rt, s)| + |r|..])
  {
    var t := TrimStart(rt, s);
    var r := TrimEnd(rt, t);
    var i := |s| - |t|;
    assert s[i + |r|..] == t[|r|..];
    assert r == [] ==> AllSpace(rt, s) by {
      if r == [] {
        AllSpaceConcat(rt, s[..i], t);
        assert s == s[..i] + t;
      }
    }
    r
  }

  lemma AllSpaceConcat(rt: Runtime, a: string, b: string)
    requires AllSpace(rt, a) && AllSpace(rt, b)
    ensures AllSpace(rt, a + b)
  {
    forall k | 0 <= k < |a + b|
      ensures IsSpace(rt, (a + b)[k])
    {
      if k >= |a| {
        assert (a + b)[k] == b[k - |a|];
      }
    }
  }

  /** A string with no whitespace at either end strips to itself. */
  lemma StripTrimmed(rt: Runtime, r: string)
    requires r == [] || (!IsSpace(rt, r[0]) && !IsSpace(rt, r[|r| - 1]))
    ensures Strip(rt, r) == r
  {
    assert TrimStart(rt, r) == r;
    assert TrimEnd(rt, r) == r;
  }

  /** Stripping twice is stripping once. */
  lemma StripIdempotent(rt: Runtime, s: string)
    ensures Strip(rt, Strip(rt, s)) == Strip(rt, s)
  {
    StripTrimmed(rt, Strip(rt, s));
  }

  /** Every ASCII character JavaScript trims, Python strips too: a comment
      made of ASCII whitespace that the client finds blank the server finds
      blank as well. */
  lemma ClientBlankIsServerBlank(s: string)
    requires AllSpace(JavaScript, s)
    ensures Strip(Python, s) == []
  {
    assert AllSpace(Python, s);
  }

  /** The converse fails: a lone unit separator (U+001F) is text to the
      client and whitespace to the server. */
  lemma ServerBlankNotClientBlank()
    ensures Strip(JavaScript, "\U{001F}") == "\U{001F}"
    ensures Strip(Python, "\U{001F}") == []
  {
    StripTrimmed(JavaScript, "\U{001F}");
    assert AllSpace(Python, "\U{001F}");
  }

  /** `a <= b` under SQLite's BINARY collation: the first differing character
      decides, and a prefix sorts before any longer string that extends it. */
  predicate LexLe(a: string, b: string)
    ensures a <= b ==> LexLe(a, b)
    ensures LexLe(a, b) && a != [] ==> b != [] && a[0] <= b[0]
  {
    a == [] || (b != [] && (a[0] < b[0] || (a[0] == b[0] && LexLe(a[1..], b[1..]))))
  }

  lemma {:induction false} LexLeTotal(a: string, b: string)
    ensures LexLe(a, b) || LexLe(b, a)
  {
    if a != [] && b != [] && a[0] == b[0] {
      LexLeTotal(a[1..], b[1..]);
    }
  }

  lemma {:induction false} LexLeTransitive(a: string, b: string, c: string)
    requires LexLe(a, b) && LexLe(b, c)
    ensures LexLe(a, c)
  {
    if a != [] && b != [] && c != [] && a[0] == b[0] == c[0] {
      LexLeTransitive(a[1..], b[1..], c[1..]);
    }
  }

  lemma {:induction false} LexLeAntisymmetric(a: string, b: string)
    requires LexLe(a, b) && LexLe(b, a)
    ensures a == b
  {
    if a != [] && b != [] {
      LexLeAntisymmetric(a[1..], b[1..]);
      assert a == [a[0]] + a[1..];
      assert b == [b[0]] + b[1..];
    }
  }
}
