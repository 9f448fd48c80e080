/**
  The literal-consuming examples of the repository's tests: what each consume
  function copies into the statement buffer and what input it leaves.
 */
module LiteralVectors {
  import opened Text
  import opened Literals

  /** One quote opens the literal unless the next two runes repeat it. */
  lemma SingleOpens(prefix: seq<char>, q: char, after: seq<char>, s: seq<char>)
    requires !(|after| >= 2 && after[0] == q && after[1] == q)
    requires s == prefix + ([q] + after)
    ensures ConsumeStringDelimiter(s[|prefix|..]) == Delimiter([q], after)
  {
    assert s[|prefix|..] == [q] + after;
  }

  /** Three equal quotes open a triple-quoted literal. */
  lemma TripleOpens(prefix: seq<char>, q: char, after: seq<char>, s: seq<char>)
    requires s == prefix + ([q, q, q] + after)
    ensures ConsumeStringDelimiter(s[|prefix|..]) == Delimiter([q, q, q], after)
  {
    assert s[|prefix|..] == [q, q, q] + after;
  }

  /** With the opening delimiter read, the literal is the prefix, the delimiter and the scanned content. */
  lemma QuotedFrom(s: seq<char>, n: nat, raw: bool, d: Delimiter, c: Content)
    requires n < |s| && ConsumeStringDelimiter(s[n..]) == d
    requires ConsumeStringContent(d.rest, d.delim, raw) == c
    ensures ConsumeQuoted(s, n, raw) == Content(s[..n] + d.delim + c.written, c.rest, c.outcome)
  {
  }

  lemma SameWritten(s: seq<char>, prefix: seq<char>, x: seq<char>, d: seq<char>, w: seq<char>)
    requires s == prefix + x
    ensures s[..|prefix|] + d + w == prefix + (d + w)
  {
    assert s[..|prefix|] == prefix;
  }

  /** In a non-raw literal an escape pair and the plain text after it are copied, and the scan goes on. */
  lemma EscapedRun(c: char, plain: seq<char>, t: seq<char>, delim: seq<char>)
    requires |delim| > 0 && delim[0] != '\\' && delim[0] !in plain && '\\' !in plain
    ensures ConsumeStringContent(['\\', c] + plain + t, delim, false)
         == Prepend(['\\', c] + plain, ConsumeStringContent(t, delim, false))
  {
    assert ['\\', c] + plain + t == ['\\', c] + (plain + t);
    ContentEscapedPair(c, plain + t, delim);
    ContentSkipsBody(plain, t, delim, false);
    PrependTwice(['\\', c], plain, ConsumeStringContent(t, delim, false));
  }

  /** The content of a single-quoted non-raw literal with one escape pair: an escaped quote does not close it. */
  lemma OneEscapeContent(a: seq<char>, c: char, b: seq<char>, q: char, t: seq<char>)
    requires IsQuote(q) && q !in a && '\\' !in a && q !in b && '\\' !in b
    ensures ConsumeStringContent(a + (['\\', c] + b + ([q] + t)), [q], false)
         == Content(a + (['\\', c] + b + [q]), t, Closed)
  {
    EscapedRun(c, b, [q] + t, [q]);
    ContentBaseCases([q] + t, [q], false);
    assert ([q] + t)[1..] == t;
    ContentSkipsBody(a, ['\\', c] + b + ([q] + t), [q], false);
  }

  /** Three escape pairs, each followed by plain text, then the closing quote. */
  lemma ThreeEscapesContent(c1: char, p1: seq<char>, c2: char, p2: seq<char>, c3: char, p3: seq<char>, q: char, t: seq<char>)
    requires IsQuote(q) && q !in p1 && '\\' !in p1 && q !in p2 && '\\' !in p2 && q !in p3 && '\\' !in p3
    ensures ConsumeStringContent(['\\', c1] + p1 + (['\\', c2] + p2 + (['\\', c3] + p3 + ([q] + t))), [q], false)
         == Content(['\\', c1] + p1 + (['\\', c2] + p2 + (['\\', c3] + p3 + [q])), t, Closed)
  {
    var e1 := ['\\', c1] + p1;
    var e2 := ['\\', c2] + p2;
    var e3 := ['\\', c3] + p3;
    EscapedRun(c3, p3, [q] + t, [q]);
    ContentBaseCases([q] + t, [q], false);
    assert ([q] + t)[1..] == t;
    EscapedRun(c2, p2, e3 + ([q] + t), [q]);
    EscapedRun(c1, p1, e2 + (e3 + ([q] + t)), [q]);
  }

  /** A literal in single quotes: the prefix, the quote, then whatever the content scan writes. */
  lemma SingleWith(prefix: seq<char>, q: char, after: seq<char>, raw: bool, c: Content, s: seq<char>, w: seq<char>)
    requires !(|after| >= 2 && after[0] == q && after[1] == q)
    requires s == prefix + ([q] + after) && ConsumeStringContent(after, [q], raw) == c
    requires w == prefix + ([q] + c.written)
    ensures ConsumeQuoted(s, |prefix|, raw) == Content(w, c.rest, c.outcome)
  {
    SingleOpens(prefix, q, after, s);
    QuotedFrom(s, |prefix|, raw, Delimiter([q], after), c);
    SameWritten(s, prefix, [q] + after, [q], c.written);
  }

  /** A triple-quoted literal: the prefix, three quotes, then whatever the content scan writes. */
  lemma TripleWith(prefix: seq<char>, q: char, after: seq<char>, raw: bool, c: Content, s: seq<char>, w: seq<char>)
    requires s == prefix + ([q, q, q] + after) && ConsumeStringContent(after, [q, q, q], raw) == c
    requires w == prefix + ([q, q, q] + c.written)
    ensures ConsumeQuoted(s, |prefix|, raw) == Content(w, c.rest, c.outcome)
  {
    TripleOpens(prefix, q, after, s);
    QuotedFrom(s, |prefix|, raw, Delimiter([q, q, q], after), c);
    SameWritten(s, prefix, [q, q, q] + after, [q, q, q], c.written);
  }

  /** Content free of the delimiter's first rune (and, unless raw, of backslashes) closes at the delimiter. */
  lemma PlainContent(body: seq<char>, delim: seq<char>, t: seq<char>, raw: bool, after: seq<char>, written: seq<char>)
    requires (|delim| == 1 || |delim| == 3) && delim[0] != '\\' && delim[0] !in body && (raw || '\\' !in body)
    requires after == body + delim + t && written == body + delim
    ensures ConsumeStringContent(after, delim, raw) == Content(written, t, Closed)
  {
    ContentClosed(body, t, delim, raw);
  }

  /** A literal in single quotes whose content holds neither its quote nor (unless raw) a backslash. */
  lemma SingleVector(prefix: seq<char>, q: char, body: seq<char>, t: seq<char>, raw: bool, s: seq<char>, w: seq<char>)
    requires IsQuote(q) && q !in body && (raw || '\\' !in body) && (|body| > 0 || t == [] || t[0] != q)
    requires s == prefix + ([q] + (body + [q] + t)) && w == prefix + ([q] + (body + [q]))
    ensures ConsumeQuoted(s, |prefix|, raw) == Content(w, t, Closed)
  {
    var after := body + [q] + t;
    assert |after| >= 2 && after[0] == q ==> after[1] != q by {
      if |body| == 0 {
        assert after == [q] + t;
      }
    }
    PlainContent(body, [q], t, raw, after, body + [q]);
    SingleWith(prefix, q, after, raw, Content(body + [q], t, Closed), s, w);
  }

  /** A triple-quoted literal whose content holds neither its quote nor (unless raw) a backslash. */
  lemma TripleVector(prefix: seq<char>, q: char, body: seq<char>, t: seq<char>, raw: bool, s: seq<char>, w: seq<char>)
    requires IsQuote(q) && q !in body && (raw || '\\' !in body)
    requires s == prefix + ([q, q, q] + (body + [q, q, q] + t)) && w == prefix + ([q, q, q] + (body + [q, q, q]))
    ensures ConsumeQuoted(s, |prefix|, raw) == Content(w, t, Closed)
  {
    var after := body + [q, q, q] + t;
    PlainContent(body, [q, q, q], t, raw, after, body + [q, q, q]);
    TripleWith(prefix, q, after, raw, Content(body + [q, q, q], t, Closed), s, w);
  }

  /** A single-quoted non-raw literal with one escape pair inside. */
  lemma OneEscapeVector(prefix: seq<char>, q: char, a: seq<char>, c: char, b: seq<char>, t: seq<char>, s: seq<char>, w: seq<char>)
    requires IsQuote(q) && |a| > 0 && q !in a && '\\' !in a && q !in b && '\\' !in b
    requires s == prefix + ([q] + (a + (['\\', c] + b + ([q] + t))))
    requires w == prefix + ([q] + (a + (['\\', c] + b + [q])))
    ensures ConsumeQuoted(s, |prefix|, false) == Content(w, t, Closed)
  {
    var after := a + (['\\', c] + b + ([q] + t));
    assert after[0] == a[0];
    OneEscapeContent(a, c, b, q, t);
    SingleWith(prefix, q, after, false, Content(a + (['\\', c] + b + [q]), t, Closed), s, w);
  }

  /** A single-quoted non-raw literal made of three escape pairs, each followed by plain text. */
  lemma ThreeEscapesVector(prefix: seq<char>, q: char, c1: char, p1: seq<char>, c2: char, p2: seq<char>, c3: char, p3: seq<char>,
                           t: seq<char>, s: seq<char>, w: seq<char>)
    requires IsQuote(q) && q !in p1 && '\\' !in p1 && q !in p2 && '\\' !in p2 && q !in p3 && '\\' !in p3
    requires s == prefix + ([q] + (['\\', c1] + p1 + (['\\', c2] + p2 + (['\\', c3] + p3 + ([q] + t)))))
    requires w == prefix + ([q] + (['\\', c1] + p1 + (['\\', c2] + p2 + (['\\', c3] + p3 + [q]))))
    ensures ConsumeQuoted(s, |prefix|, false) == Content(w, t, Closed)
  {
    var after := ['\\', c1] + p1 + (['\\', c2] + p2 + (['\\', c3] + p3 + ([q] + t)));
    assert after[0] == '\\';
    ThreeEscapesContent(c1, p1, c2, p2, c3, p3, q, t);
    SingleWith(prefix, q, after, false, Content(['\\', c1] + p1 + (['\\', c2] + p2 + (['\\', c3] + p3 + [q])), t, Closed), s, w);
  }

  // ---------------------------------------------------------------------
  // consumeString (separator_test.go)

  lemma DoubleQuotedString(s: seq<char>)
    requires s == "\"test\" WHERE"
    ensures ConsumeString(s) == Content("\"test\"", " WHERE", Closed)
  {
    SingleVector("", '"', "test", " WHERE", false, s, "\"test\"");
  }

  lemma SingleQuotedString(s: seq<char>)
    requires s == "\'test\' WHERE"
    ensures ConsumeString(s) == Content("\'test\'", " WHERE", Closed)
  {
    SingleVector("", '\'', "test", " WHERE", false, s, "\'test\'");
  }

  /** Three equal quotes open the literal, and only three close it. */
  lemma TripleQuotedString(s: seq<char>)
    requires s == "\"\"\"test\"\"\" WHERE"
    ensures ConsumeString(s) == Content("\"\"\"test\"\"\"", " WHERE", Closed)
  {
    TripleVector("", '"', "test", " WHERE", false, s, "\"\"\"test\"\"\"");
  }

  /** A quote after a backslash does not close the literal. */
  lemma EscapedQuoteString(s: seq<char>)
    requires s == "\"te\\\"st\" WHERE"
    ensures ConsumeString(s) == Content("\"te\\\"st\"", " WHERE", Closed)
  {
    OneEscapeVector("", '"', "te", '"', "st", " WHERE", s, "\"te\\\"st\"");
  }

  /** Two quotes followed by something else are an empty literal, not the start of a triple-quoted one. */
  lemma EmptyString(s: seq<char>)
    requires s == "\"\" WHERE"
    ensures ConsumeString(s) == Content("\"\"", " WHERE", Closed)
  {
    SingleVector("", '"', "", " WHERE", false, s, "\"\"");
  }

  /** Line feeds inside a triple-quoted literal are copied like any other rune. */
  lemma TripleQuotedNewlines(s: seq<char>)
    requires s == "\'\'\'t\ne\ns\nt\'\'\' WHERE"
    ensures ConsumeString(s) == Content("\'\'\'t\ne\ns\nt\'\'\'", " WHERE", Closed)
  {
    TripleVector("", '\'', "t\ne\ns\nt", " WHERE", false, s, "\'\'\'t\ne\ns\nt\'\'\'");
  }

  /** Six quotes are an empty triple-quoted literal. */
  lemma EmptyTripleQuoted(s: seq<char>)
    requires s == "\"\"\"\"\"\" WHERE"
    ensures ConsumeString(s) == Content("\"\"\"\"\"\"", " WHERE", Closed)
  {
    TripleVector("", '"', "", " WHERE", false, s, "\"\"\"\"\"\"");
  }

  /** Code points outside ASCII are copied as single runes. */
  lemma MultiByteString(s: seq<char>)
    requires s == "\"テスト\" WHERE"
    ensures ConsumeString(s) == Content("\"テスト\"", " WHERE", Closed)
  {
    SingleVector("", '"', "テスト", " WHERE", false, s, "\"テスト\"");
  }

  // ---------------------------------------------------------------------
  // consumeRawString (separator_test.go)

  lemma RawString(s: seq<char>)
    requires s == "r\"test\" WHERE"
    ensures ConsumeRawString(s) == Content("r\"test\"", " WHERE", Closed)
  {
    SingleVector("r", '"', "test", " WHERE", true, s, "r\"test\"");
  }

  lemma UpperRawString(s: seq<char>)
    requires s == "R\'test\' WHERE"
    ensures ConsumeRawString(s) == Content("R\'test\'", " WHERE", Closed)
  {
    SingleVector("R", '\'', "test", " WHERE", true, s, "R\'test\'");
  }

  /** In a raw literal a backslash is copied as it is. */
  lemma RawBackslash(s: seq<char>)
    requires s == "r\"test\\abc\" WHERE"
    ensures ConsumeRawString(s) == Content("r\"test\\abc\"", " WHERE", Closed)
  {
    SingleVector("r", '"', "test\\abc", " WHERE", true, s, "r\"test\\abc\"");
  }

  // ---------------------------------------------------------------------
  // consumeBytesString (separator_test.go)

  lemma BytesString(s: seq<char>)
    requires s == "b\"test\" WHERE"
    ensures ConsumeBytesString(s) == Content("b\"test\"", " WHERE", Closed)
  {
    SingleVector("b", '"', "test", " WHERE", false, s, "b\"test\"");
  }

  lemma UpperBytesString(s: seq<char>)
    requires s == "B\'test\' WHERE"
    ensures ConsumeBytesString(s) == Content("B\'test\'", " WHERE", Closed)
  {
    SingleVector("B", '\'', "test", " WHERE", false, s, "B\'test\'");
  }

  /** Escape pairs in a bytes literal are copied unchanged. */
  lemma HexEscapes(s: seq<char>)
    requires s == "b\"\\x12\\x34\\x56\" WHERE"
    ensures ConsumeBytesString(s) == Content("b\"\\x12\\x34\\x56\"", " WHERE", Closed)
  {
    ThreeEscapesVector("b", '"', 'x', "12", 'x', "34", 'x', "56", " WHERE", s, "b\"\\x12\\x34\\x56\"");
  }

  // ---------------------------------------------------------------------
  // consumeRawBytesString (separator_test.go)

  lemma RawBytesString(s: seq<char>)
    requires s == "rb\"test\" WHERE"
    ensures ConsumeRawBytesString(s) == Content("rb\"test\"", " WHERE", Closed)
  {
    SingleVector("rb", '"', "test", " WHERE", true, s, "rb\"test\"");
  }

  lemma UpperRawBytesString(s: seq<char>)
    requires s == "RB\"test\" WHERE"
    ensures ConsumeRawBytesString(s) == Content("RB\"test\"", " WHERE", Closed)
  {
    SingleVector("RB", '"', "test", " WHERE", true, s, "RB\"test\"");
  }
}
