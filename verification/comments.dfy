// Comment skipping: the separator discards every comment that starts at the
// front of the remaining input. Three comment forms exist: `#` and `--` run up
// to and including the next line feed, and `/*` runs up to and including the
// first `*/` (block comments do not nest). A comment whose close marker never
// appears swallows the rest of the input.
module Comments {
  import opened Text

  /** How a comment opens: the width of its opening marker and the marker that closes it. */
  datatype Opener = Opener(width: nat, close: seq<char>)

  function CommentOpener(s: seq<char>): Option<Opener> {
    if |s| > 0 && s[0] == '#' then Some(Opener(1, "\n"))
    else if |s| >= 2 && s[0] == '-' && s[1] == '-' then Some(Opener(2, "\n"))
    else if |s| >= 2 && s[0] == '/' && s[1] == '*' then Some(Opener(2, "*/"))
    else None
  }

  // `s` begins with `#`, `--` or `/*`.
  predicate OpensComment(s: seq<char>) {
    CommentOpener(s).Some?
  }

  /** The first index at or after `from` where `pat` occurs in `s`. */
  function FindFrom(s: seq<char>, from: nat, pat: seq<char>): (r: Option<nat>)
    requires |pat| > 0
    ensures r.Some? ==> from <= r.value && OccursAt(s, r.value, pat)
    ensures r.Some? ==> forall k :: from <= k < r.value ==> !OccursAt(s, k, pat)
    ensures r.None? ==> forall k :: from <= k ==> !OccursAt(s, k, pat)
    decreases |s| - from
  {
    if from >= |s| then None
    else if OccursAt(s, from, pat) then Some(from)
    else FindFrom(s, from + 1, pat)
  }

  /**
    Removes the comments at the front of `s` and returns what remains. Nothing
    but a prefix is removed, and what remains does not open a comment.
   */
  function SkipComments(s: seq<char>): (r: seq<char>)
    ensures IsSuffix(r, s)
    ensures !OpensComment(r)
    ensures !OpensComment(s) ==> r == s
    decreases |s|
  {
    match CommentOpener(s)
    case None => s
    case Some(op) =>
      match FindFrom(s, op.width, op.close)
      case None => []
      case Some(j) => SkipComments(s[j + |op.close|..])
  }

  // `*/` does not occur anywhere in `body`.
  predicate NoBlockClose(body: seq<char>) {
    forall k :: 0 <= k < |body| ==> !OccursAt(body, k, "*/")
  }

  /** A body without `*` cannot hold the close marker. */
  lemma StarlessBody(body: seq<char>)
    requires '*' !in body
    ensures NoBlockClose(body)
  {
    forall k | 0 <= k < |body|
      ensures !OccursAt(body, k, "*/")
    {
      assert body[k] != '*';
    }
  }

  lemma FindFromFirst(s: seq<char>, from: nat, pat: seq<char>, j: nat)
    requires |pat| > 0 && from <= j && OccursAt(s, j, pat)
    requires forall k :: from <= k < j ==> !OccursAt(s, k, pat)
    ensures FindFrom(s, from, pat) == Some(j)
  {
  }

  lemma FindFromAbsent(s: seq<char>, from: nat, pat: seq<char>)
    requires |pat| > 0
    requires forall k :: from <= k ==> !OccursAt(s, k, pat)
    ensures FindFrom(s, from, pat) == None
  {
  }

  /** A closed line comment (`#` or `--`) is discarded up to and including its line feed. */
  lemma SkipLineComment(opener: seq<char>, body: seq<char>, t: seq<char>)
    requires opener == "#" || opener == "--"
    requires '\n' !in body
    ensures SkipComments(opener + body + "\n" + t) == SkipComments(t)
  {
    var s := opener + body + "\n" + t;
    var j := |opener| + |body|;
    assert CommentOpener(s) == Some(Opener(|opener|, "\n"));
    assert OccursAt(s, j, "\n") by {
      assert s[j] == '\n';
    }
    forall k | |opener| <= k < j
      ensures !OccursAt(s, k, "\n")
    {
      assert s[k] == body[k - |opener|];
    }
    FindFromFirst(s, |opener|, "\n", j);
    assert s[j + 1..] == t;
  }

  /** An unclosed line comment swallows the rest of the input. */
  lemma SkipUnclosedLineComment(opener: seq<char>, body: seq<char>)
    requires opener == "#" || opener == "--"
    requires '\n' !in body
    ensures SkipComments(opener + body) == []
  {
    var s := opener + body;
    assert CommentOpener(s) == Some(Opener(|opener|, "\n"));
    forall k | |opener| <= k
      ensures !OccursAt(s, k, "\n")
    {
      if k < |s| {
        assert s[k] == body[k - |opener|];
      }
    }
    FindFromAbsent(s, |opener|, "\n");
  }

  // A block comment is discarded up to and including the first `*/` after its opener.
  lemma SkipBlockComment(body: seq<char>, t: seq<char>)
    requires NoBlockClose(body)
    ensures SkipComments("/*" + body + "*/" + t) == SkipComments(t)
  {
    var s := "/*" + body + "*/" + t;
    var j := 2 + |body|;
    assert CommentOpener(s) == Some(Opener(2, "*/"));
    assert OccursAt(s, j, "*/") by {
      assert s[j..j + 2] == "*/";
    }
    forall k | 2 <= k < j
      ensures !OccursAt(s, k, "*/")
    {
      if k + 1 < j {
        assert s[k..k + 2] == body[k - 2..k];
        assert !OccursAt(body, k - 2, "*/");
      } else {
        assert s[k..k + 2][1] == s[j] == '*';
      }
    }
    FindFromFirst(s, 2, "*/", j);
    assert s[j + 2..] == t;
  }

  /** An unclosed block comment swallows the rest of the input. */
  lemma SkipUnclosedBlockComment(body: seq<char>)
    requires NoBlockClose(body)
    ensures SkipComments("/*" + body) == []
  {
    var s := "/*" + body;
    assert CommentOpener(s) == Some(Opener(2, "*/"));
    forall k | 2 <= k
      ensures !OccursAt(s, k, "*/")
    {
      if k + 2 <= |s| {
        assert s[k..k + 2] == body[k - 2..k];
        assert !OccursAt(body, k - 2, "*/");
      }
    }
    FindFromAbsent(s, 2, "*/");
  }
}
