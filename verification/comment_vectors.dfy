/**
  The comment-skipping examples of the repository's tests: what is left of the
  input once the comments at its front are skipped.
 */
module CommentVectors {
  import opened Text
  import opened Comments

  /** A closed line comment at the front is dropped with its line feed; text that opens no comment stays. */
  lemma LineThen(opener: seq<char>, body: seq<char>, t: seq<char>, s: seq<char>)
    requires opener == "#" || opener == "--"
    requires '\n' !in body && !OpensComment(t)
    requires s == opener + body + "\n" + t
    ensures SkipComments(s) == t
  {
    SkipLineComment(opener, body, t);
  }

  /** A closed block comment at the front is dropped with its close marker. */
  lemma BlockThen(body: seq<char>, t: seq<char>, s: seq<char>)
    requires '*' !in body && !OpensComment(t)
    requires s == "/*" + body + "*/" + t
    ensures SkipComments(s) == t
  {
    StarlessBody(body);
    SkipBlockComment(body, t);
  }

  /** A line comment with no line feed takes everything. */
  lemma LineOpen(opener: seq<char>, body: seq<char>, s: seq<char>)
    requires opener == "#" || opener == "--"
    requires '\n' !in body && s == opener + body
    ensures SkipComments(s) == []
  {
    SkipUnclosedLineComment(opener, body);
  }

  /** A block comment with no close marker takes everything. */
  lemma BlockOpen(body: seq<char>, s: seq<char>)
    requires '*' !in body && s == "/*" + body
    ensures SkipComments(s) == []
  {
    StarlessBody(body);
    SkipUnclosedBlockComment(body);
  }

  lemma HashComment()
    ensures SkipComments("# SELECT 1;\n") == ""
  {
    LineThen("#", " SELECT 1;", "", "# SELECT 1;\n");
  }

  lemma DashComment()
    ensures SkipComments("-- SELECT 1;\n") == ""
  {
    LineThen("--", " SELECT 1;", "", "-- SELECT 1;\n");
  }

  lemma BlockComment()
    ensures SkipComments("/* SELECT\n1; */") == ""
  {
    BlockThen(" SELECT\n1; ", "", "/* SELECT\n1; */");
  }

  lemma HashCommentThenStatement()
    ensures SkipComments("# SELECT 1;\nSELECT 2;") == "SELECT 2;"
  {
    LineThen("#", " SELECT 1;", "SELECT 2;", "# SELECT 1;\nSELECT 2;");
  }

  lemma DashCommentThenStatement()
    ensures SkipComments("-- SELECT 1;\nSELECT 2;") == "SELECT 2;"
  {
    LineThen("--", " SELECT 1;", "SELECT 2;", "-- SELECT 1;\nSELECT 2;");
  }

  /** The white space after a block comment is not a comment and stays. */
  lemma BlockCommentThenStatement()
    ensures SkipComments("/* SELECT\n1; */ SELECT 2;") == " SELECT 2;"
  {
    BlockThen(" SELECT\n1; ", " SELECT 2;", "/* SELECT\n1; */ SELECT 2;");
  }

  lemma HashCommentUnterminated()
    ensures SkipComments("# SELECT 1") == ""
  {
    LineOpen("#", " SELECT 1", "# SELECT 1");
  }

  lemma DashCommentUnterminated()
    ensures SkipComments("-- SELECT 1") == ""
  {
    LineOpen("--", " SELECT 1", "-- SELECT 1");
  }

  lemma BlockCommentUnterminated()
    ensures SkipComments("/* SELECT\n1;") == ""
  {
    BlockOpen(" SELECT\n1;", "/* SELECT\n1;");
  }

  /** Input that does not open a comment is left as it is. */
  lemma NotComments()
    ensures SkipComments("SELECT 1;") == "SELECT 1;"
  {
    assert !OpensComment("SELECT 1;") by {
      assert "SELECT 1;"[0] == 'S';
    }
  }
}
