/**
 * The pieces of Python's `str` that the quiz functions rely on: `isspace`,
 * `strip`, `startswith`, `endswith` and the substring test `p in s`.
 */
module Strings {

  /** Python's `str.isspace` for a single character. */
  predicate IsSpace(c: char) {
    || ('\t' <= c <= '\r')
    || ('\U{1c}' <= c <= '\U{1f}')
    || c == ' '
    || c == '\U{85}'
    || c == '\U{a0}'
    || c == '\U{1680}'
    || ('\U{2000}' <= c <= '\U{200a}')
    || c == '\U{2028}'
    || c == '\U{2029}'
    || c == '\U{202f}'
    || c == '\U{205f}'
    || c == '\U{3000}'
  }

  predicate AllSpace(s: string) {
    forall i :: 0 <= i < |s| ==> IsSpace(s[i])
  }

  /** Neither end of `s` is whitespace: `strip` would leave it alone. */
  predicate IsStripped(s: string) {
    s == [] || (!IsSpace(s[0]) && !IsSpace(s[|s| - 1]))
  }

  /** `s.startswith(p)` */
  predicate StartsWith(s: string, p: string) {
    |p| <= |s| && s[..|p|] == p
  }

  /** `s.endswith(p)` */
  predicate EndsWith(s: string, p: string) {
    |p| <= |s| && s[|s| - |p|..] == p
  }

  /** `p in s`: `p` occurs in `s` as a contiguous slice. */
  predicate Contains(s: string, p: string) {
    exists i :: 0 <= i <= |s| && StartsWith(s[i..], p)
  }

  /** `s.lstrip()`: drops the leading whitespace and nothing else. */
  function TrimStart(s: string): (r: string)
    ensures |r| <= |s| && r == s[|s| - |r|..]
    ensures AllSpace(s[..|s| - |r|])
    ensures r == [] || !IsSpace(r[0])
  {
    if s != [] && IsSpace(s[0]) then
      var r := TrimStart(s[1..]);
      assert s[1..][|s| - 1 - |r|..] == s[|s| - |r|..];
      assert forall i :: 0 < i < |s| - |r| ==> s[i] == s[1..][..|s| - 1 - |r|][i - 1];
      r
    else
      s
  }

  /** `s.rstrip()`: drops the trailing whitespace and nothing else. */
  function TrimEnd(s: string): (r: string)
    ensures |r| <= |s| && r == s[..|r|]
    ensures AllSpace(s[|r|..])
    ensures r == [] || !IsSpace(r[|r| - 1])
  {
    if s != [] && IsSpace(s[|s| - 1]) then
      var r := TrimEnd(s[..|s| - 1]);
      assert s[..|s| - 1][..|r|] == s[..|r|];
      assert forall i :: |r| <= i < |s| - 1 ==> s[i] == s[..|s| - 1][|r|..][i - |r|];
      r
    else
      s
  }

  /** `s.strip()` */
  function Strip(s: string): (r: string)
    ensures IsStripped(r)
  {
    var t := TrimStart(s);
    var r := TrimEnd(t);
    assert r != [] ==> r[0] == t[0];
    r
  }

  /** `strip` keeps a contiguous slice of its argument. */
  lemma StripIsSlice(s: string)
    ensures Contains(s, Strip(s))
    ensures |Strip(s)| <= |s|
  {
    var t := TrimStart(s);
    assert StartsWith(s[|s| - |t|..], Strip(s));
  }

  /** Any split of a string into leading whitespace and a rest that does not
      start with whitespace is the one `TrimStart` finds. */
  lemma {:induction false} TrimStartUnique(w: string, rest: string)
    requires AllSpace(w)
    requires rest == [] || !IsSpace(rest[0])
    ensures TrimStart(w + rest) == rest
  {
    if w == [] {
      assert w + rest == rest;
    } else {
      assert (w + rest)[1..] == w[1..] + rest;
      TrimStartUnique(w[1..], rest);
    }
  }

  /** Any split of a string into a rest that does not end with whitespace and
      trailing whitespace is the one `TrimEnd` finds. */
  lemma {:induction false} TrimEndUnique(rest: string, w: string)
    requires AllSpace(w)
    requires rest == [] || !IsSpace(rest[|rest| - 1])
    ensures TrimEnd(rest + w) == rest
  {
    if w == [] {
      assert rest + w == rest;
    } else {
      var s := rest + w;
      assert s[..|s| - 1] == rest + w[..|w| - 1];
      TrimEndUnique(rest, w[..|w| - 1]);
    }
  }

  /** `strip` removes exactly the whitespace padding around stripped text. */
  lemma StripPadded(w1: string, body: string, w2: string)
    requires AllSpace(w1) && AllSpace(w2)
    requires IsStripped(body)
    ensures Strip(w1 + body + w2) == body
  {
    if body == [] {
      assert w1 + body + w2 == w1 + w2;
      assert AllSpace(w1 + w2);
      TrimStartUnique(w1 + w2, []);
      assert w1 + w2 + [] == w1 + w2;
      TrimEndUnique([], []);
    } else {
      assert w1 + body + w2 == w1 + (body + w2);
      TrimStartUnique(w1, body + w2);
      TrimEndUnique(body, w2);
    }
  }

  /** Stripped text is a fixed point of `strip`. */
  lemma StripStripped(s: string)
    requires IsStripped(s)
    ensures Strip(s) == s
  {
    assert [] + s + [] == s;
    StripPadded([], s, []);
  }

  /** `"".join(pieces)` */
  function Concat(pieces: seq<string>): string
  {
    if pieces == [] then [] else pieces[0] + Concat(pieces[1..])
  }

  /** Joining a split list joins the two parts. */
  lemma {:induction false} ConcatSplit(a: seq<string>, b: seq<string>)
    ensures Concat(a + b) == Concat(a) + Concat(b)
  {
    if a == [] {
      assert a + b == b;
    } else {
      assert (a + b)[1..] == a[1..] + b;
      ConcatSplit(a[1..], b);
    }
  }

  lemma Associative(a: string, b: string, c: string)
    ensures a + (b + c) == a + b + c
  {
  }

  lemma ContainsSelf(s: string)
    ensures Contains(s, s)
  {
    assert StartsWith(s[0..], s);
  }

  /** A slice of a slice is a slice. */
  lemma ContainsTransitive(a: string, b: string, c: string)
    requires Contains(a, b) && Contains(b, c)
    ensures Contains(a, c)
  {
    var i :| 0 <= i <= |a| && StartsWith(a[i..], b);
    var j :| 0 <= j <= |b| && StartsWith(b[j..], c);
    assert a[i + j..][..|c|] == c by {
      forall k | 0 <= k < |c|
        ensures a[i + j..][..|c|][k] == c[k]
      {
        assert a[i + j + k] == a[i..][..|b|][j + k] == b[j + k] == b[j..][..|c|][k];
      }
    }
    assert StartsWith(a[i + j..], c);
  }

  lemma ContainsShorter(s: string, p: string)
    requires Contains(s, p)
    ensures |p| <= |s|
  {
  }

  lemma ContainsSlice(s: string, i: nat, j: nat)
    requires i <= j <= |s|
    ensures Contains(s, s[i..j])
  {
    assert StartsWith(s[i..], s[i..j]);
  }

  lemma ContainsLeft(a: string, b: string, p: string)
    requires Contains(a, p)
    ensures Contains(a + b, p)
  {
    var i :| 0 <= i <= |a| && StartsWith(a[i..], p);
    assert (a + b)[i..][..|p|] == a[i..][..|p|];
  }

  lemma ContainsRight(a: string, b: string, p: string)
    requires Contains(b, p)
    ensures Contains(a + b, p)
  {
    var i :| 0 <= i <= |b| && StartsWith(b[i..], p);
    assert (a + b)[|a| + i..] == b[i..];
  }

  lemma ContainsMiddle(a: string, p: string, b: string)
    ensures Contains(a + p + b, p)
  {
    assert (a + p + b)[|a|..][..|p|] == p;
  }

  lemma EndsWithAppend(a: string, p: string, t: string)
    requires EndsWith(a, p)
    ensures EndsWith(a + t, p + t)
  {
    assert (a + t)[|a + t| - |p + t|..] == a[|a| - |p|..] + t;
  }

  /** A string is too short to contain a longer one. */
  lemma NotContainsLonger(s: string, p: string)
    requires |s| < |p|
    ensures !Contains(s, p)
  {
  }
}
