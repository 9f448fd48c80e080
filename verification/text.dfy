/**
  Small text utilities the separator relies on: an optional value, prefix
  tests on code-point sequences, and whitespace trimming.
 */
module Text {

  datatype Option<+T> = None | Some(value: T)

  /** Code points that Go's `unicode.IsSpace` accepts: the Unicode White_Space property. */
  predicate IsSpace(c: char) {
    || c == '\t' || c == '\n' || c == '\U{0B}' || c == '\U{0C}' || c == '\r' || c == ' '
    || c == '\U{85}' || c == '\U{A0}' || c == '\U{1680}'
    || ('\U{2000}' <= c <= '\U{200A}')
    || c == '\U{2028}' || c == '\U{2029}' || c == '\U{202F}' || c == '\U{205F}' || c == '\U{3000}'
  }

  predicate AllSpace(s: seq<char>) {
    forall k :: 0 <= k < |s| ==> IsSpace(s[k])
  }

  /** No white space at either end. */
  predicate IsTrimmed(s: seq<char>) {
    s == [] || (!IsSpace(s[0]) && !IsSpace(s[|s| - 1]))
  }

  predicate IsSuffix(r: seq<char>, s: seq<char>) {
    |r| <= |s| && r == s[|s| - |r|..]
  }

  /** `prefix` occurs at the front of `s` (Go's `hasPrefix` over rune slices). */
  predicate HasPrefix(s: seq<char>, prefix: seq<char>) {
    |s| >= |prefix| && s[..|prefix|] == prefix
  }

  /** `pat` occurs in `s` starting at index `k`. */
  predicate OccursAt(s: seq<char>, k: nat, pat: seq<char>) {
    k + |pat| <= |s| && s[k..k + |pat|] == pat
  }

  lemma ConcatAssoc<T>(a: seq<T>, b: seq<T>, c: seq<T>)
    ensures a + b + c == a + (b + c)
  {
  }

  lemma AppendEmpty<T>(s: seq<T>)
    ensures s + [] == s && [] + s == s
  {
  }

  lemma SplitHead<T>(p: seq<T>, t: seq<T>)
    requires |p| > 0
    ensures p + t == [p[0]] + (p[1..] + t)
  {
    assert p == [p[0]] + p[1..];
  }

  lemma AppendHead<T>(s: seq<T>, p: seq<T>)
    requires |p| > 0
    ensures s + [p[0]] + p[1..] == s + p
  {
    assert p == [p[0]] + p[1..];
  }

  lemma HasPrefixSplits(s: seq<char>, prefix: seq<char>)
    ensures HasPrefix(s, prefix) <==> |prefix| <= |s| && s == prefix + s[|prefix|..]
  {
    if |prefix| <= |s| && s == prefix + s[|prefix|..] {
      assert s[..|prefix|] == prefix;
    }
  }

  /** Removes leading white space. */
  function TrimLeft(s: seq<char>): (r: seq<char>)
    ensures IsSuffix(r, s)
    ensures AllSpace(s[..|s| - |r|])
    ensures r == [] || !IsSpace(r[0])
    decreases |s|
  {
    if |s| > 0 && IsSpace(s[0]) then TrimLeft(s[1..]) else s
  }

  /** Removes trailing white space. */
  function TrimRight(s: seq<char>): (r: seq<char>)
    ensures |r| <= |s| && r == s[..|r|]
    ensures AllSpace(s[|r|..])
    ensures r == [] || !IsSpace(r[|r| - 1])
    decreases |s|
  {
    if |s| > 0 && IsSpace(s[|s| - 1]) then
      var r := TrimRight(s[..|s| - 1]);
      DropTrailingSpace(s, r);
      r
    else s
  }

  lemma DropTrailingSpace(s: seq<char>, r: seq<char>)
    requires |s| > 0 && IsSpace(s[|s| - 1])
    requires |r| <= |s| - 1 && r == s[..|s| - 1][..|r|] && AllSpace(s[..|s| - 1][|r|..])
    ensures r == s[..|r|] && AllSpace(s[|r|..])
  {
    var t := s[..|s| - 1];
    assert t[..|r|] == s[..|r|];
    forall k | 0 <= k < |s| - |r|
      ensures IsSpace(s[|r|..][k])
    {
      if |r| + k < |s| - 1 {
        assert s[|r|..][k] == t[|r|..][k];
      }
    }
  }

  /** `s` is `r` with white space only before index `lo` and after `r`. */
  predicate PaddedAt(s: seq<char>, r: seq<char>, lo: nat) {
    && lo + |r| <= |s| && s[lo..lo + |r|] == r
    && AllSpace(s[..lo]) && AllSpace(s[lo + |r|..])
  }

  /** Go's `strings.TrimSpace`: the longest infix of `s` with no white space at either end. */
  function TrimSpace(s: seq<char>): (r: seq<char>)
    ensures IsTrimmed(r)
    ensures r == [] <==> AllSpace(s)
    ensures exists lo: nat :: PaddedAt(s, r, lo)
  {
    TrimBothEnds(s);
    TrimRight(TrimLeft(s))
  }

  lemma TrimBothEnds(s: seq<char>)
    ensures var l := TrimLeft(s); var r := TrimRight(l);
            && PaddedAt(s, r, |s| - |l|)
            && (r == [] <==> AllSpace(s))
  {
    TrimKeepsInfix(s);
    TrimDropsTrailing(s);
    TrimEmptyIffBlank(s);
  }

  lemma TrimKeepsInfix(s: seq<char>)
    ensures var l := TrimLeft(s); var r := TrimRight(l); var lo := |s| - |l|;
            s[lo..lo + |r|] == r
  {
    var l := TrimLeft(s);
    assert l == s[|s| - |l|..];
  }

  lemma TrimDropsTrailing(s: seq<char>)
    ensures var l := TrimLeft(s); var r := TrimRight(l); var lo := |s| - |l|;
            AllSpace(s[lo + |r|..])
  {
    var l := TrimLeft(s);
    var r := TrimRight(l);
    var lo := |s| - |l|;
    assert s[lo + |r|..] == l[|r|..];
  }

  lemma TrimEmptyIffBlank(s: seq<char>)
    ensures var l := TrimLeft(s); var r := TrimRight(l);
            (r == [] <==> AllSpace(s))
  {
    if !AllSpace(s) {
      var k :| 0 <= k < |s| && !IsSpace(s[k]);
      VisibleSurvivesTrim(s, k);
    } else {
      BlankTrimsLeft(s);
    }
  }

  lemma BlankTrimsLeft(s: seq<char>)
    requires AllSpace(s)
    ensures TrimLeft(s) == []
  {
  }

  /** A non-space code point anywhere in `s` keeps the trimmed text non-empty. */
  lemma VisibleSurvivesTrim(s: seq<char>, k: nat)
    requires k < |s| && !IsSpace(s[k])
    ensures TrimRight(TrimLeft(s)) != []
  {
    var l := TrimLeft(s);
    if l == [] {
      LeftEmptyIsBlank(s);
      assert false;
    }
    VisibleHeadSurvives(l);
  }

  lemma VisibleHeadSurvives(l: seq<char>)
    requires |l| > 0 && !IsSpace(l[0])
    ensures TrimRight(l) != []
  {
    assert l[0..] == l;
  }

  lemma LeftEmptyIsBlank(s: seq<char>)
    requires TrimLeft(s) == []
    ensures AllSpace(s)
  {
    assert s[..|s|] == s;
  }

  /** Trimming removes exactly the white space around text that has none at its ends. */
  lemma TrimAround(pre: seq<char>, s: seq<char>, post: seq<char>)
    requires AllSpace(pre) && AllSpace(post) && IsTrimmed(s)
    ensures TrimSpace(pre + s + post) == s
  {
    if s == [] {
      assert pre + s + post == pre + post;
      BlankJoin(pre, post);
      TrimEmptyIffBlank(pre + post);
    } else {
      ConcatAssoc(pre, s, post);
      assert (s + post)[0] == s[0];
      TrimLeftSkips(pre, s + post);
      TrimRightSkips(s, post);
    }
  }

  lemma BlankJoin(a: seq<char>, b: seq<char>)
    requires AllSpace(a) && AllSpace(b)
    ensures AllSpace(a + b)
  {
    forall k | 0 <= k < |a + b|
      ensures IsSpace((a + b)[k])
    {
      if k >= |a| {
        assert (a + b)[k] == b[k - |a|];
      }
    }
  }

  lemma {:induction false} TrimLeftSkips(pre: seq<char>, u: seq<char>)
    requires AllSpace(pre) && (u == [] || !IsSpace(u[0]))
    ensures TrimLeft(pre + u) == u
    decreases |pre|
  {
    if pre == [] {
      assert pre + u == u;
    } else {
      assert (pre + u)[0] == pre[0];
      assert (pre + u)[1..] == pre[1..] + u;
      TrimLeftSkips(pre[1..], u);
    }
  }

  lemma {:induction false} TrimRightSkips(u: seq<char>, post: seq<char>)
    requires AllSpace(post) && (u == [] || !IsSpace(u[|u| - 1]))
    ensures TrimRight(u + post) == u
    decreases |post|
  {
    var w := u + post;
    if post == [] {
      assert w == u;
    } else {
      assert w[|w| - 1] == post[|post| - 1];
      assert w[..|w| - 1] == u + post[..|post| - 1];
      TrimRightSkips(u, post[..|post| - 1]);
    }
  }
}
