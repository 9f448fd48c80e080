/**
  Properties of the main loop: what one iteration does to the remaining
  input, the statement buffer and the statements emitted so far when the
  input starts with a comment, a literal, a quoted identifier, plain text or
  a terminator, and what happens at the end of the input.
 */
module SeparatorProperties {
  import opened Text
  import opened Comments
  import opened Literals
  import opened Separator

  /** At the end of the input the buffer is flushed as a trailing statement when it holds more than white space. */
  lemma EndOfInput(sb: seq<char>, terms: seq<seq<char>>, acc: seq<InputStatement>)
    requires NonEmptyTerms(terms)
    ensures AllSpace(sb) ==> Separate(Separator([], sb, terms), acc) == acc
    ensures !AllSpace(sb) ==> Separate(Separator([], sb, terms), acc) == acc + [InputStatement(TrimSpace(sb), [])]
  {
    SeparateDone(Separator([], sb, terms), acc);
  }

  /** Comments at the front of the remaining input are dropped without touching the buffer. */
  lemma CommentsDiscarded(s: seq<char>, sb: seq<char>, terms: seq<seq<char>>)
    requires NonEmptyTerms(terms)
    ensures Iterate(Separator(s, sb, terms)) == Iterate(Separator(SkipComments(s), sb, terms))
  {
    assert SkipComments(SkipComments(s)) == SkipComments(s);
  }

  /** `;` ends the statement in the buffer, trimmed, even when it is empty, and starts an empty buffer. */
  lemma SemicolonEnds(t: seq<char>, sb: seq<char>, terms: seq<seq<char>>)
    requires NonEmptyTerms(terms)
    ensures Iterate(Separator(";" + t, sb, terms))
         == Go(Separator(t, [], terms), [InputStatement(TrimSpace(sb), ";")])
  {
    var u := ";" + t;
    assert u[0] == ';' && u[1..] == t;
    assert SkipComments(u) == u;
  }

  /**
    A custom terminator ends the statement in the buffer like `;` does, when
    no earlier custom terminator matches at the same place and the terminator
    is not swallowed by a comment.
   */
  lemma CustomTerminatorEnds(k: nat, t: seq<char>, sb: seq<char>, terms: seq<seq<char>>)
    requires NonEmptyTerms(terms) && k < |terms| && Reachable(terms[k])
    requires !OpensComment(terms[k] + t)
    requires forall j :: 0 <= j < k ==> !HasPrefix(terms[k] + t, terms[j]) || terms[j] == terms[k]
    ensures Iterate(Separator(terms[k] + t, sb, terms))
         == Go(Separator(t, [], terms), [InputStatement(TrimSpace(sb), terms[k])])
  {
    var u := terms[k] + t;
    assert u[0] == terms[k][0];
    assert HasPrefix(u, terms[k]) by {
      assert u[..|terms[k]|] == terms[k];
    }
    var m := FirstMatch(u, terms).value;
    assert m <= k && terms[m] == terms[k];
    assert u[|terms[k]|..] == t;
    assert SkipComments(u) == u;
  }

  /**
    A rune that does not open a comment, a literal or a quoted identifier, is
    not `;` and (unless it is a prefix letter) starts no custom terminator is
    appended to the buffer.
   */
  lemma RuneCopied(c: char, t: seq<char>, sb: seq<char>, terms: seq<seq<char>>)
    requires NonEmptyTerms(terms)
    requires !OpensComment([c] + t) && !LiteralStart([c] + t) && c != '`' && c != ';'
    requires IsPrefixLetter(c) || FirstMatch([c] + t, terms).None?
    ensures Iterate(Separator([c] + t, sb, terms)) == Go(Separator(t, sb + [c], terms), [])
  {
    var u := [c] + t;
    assert u[0] == c && u[1..] == t;
    assert SkipComments(u) == u;
  }

  /** A literal at the front of the input goes into the buffer in one piece. */
  lemma LiteralCopied(u: seq<char>, sb: seq<char>, terms: seq<seq<char>>)
    requires NonEmptyTerms(terms) && LiteralStart(u)
    ensures var c := ConsumeQuoteStart(u);
            Iterate(Separator(u, sb, terms)) == Go(Separator(c.rest, sb + c.written, terms), [])
  {
    assert !OpensComment(u);
    assert SkipComments(u) == u;
  }

  /** A quoted identifier at the front of the input goes into the buffer in one piece. */
  lemma IdentifierCopied(u: seq<char>, sb: seq<char>, terms: seq<seq<char>>)
    requires NonEmptyTerms(terms) && |u| > 0 && u[0] == '`'
    ensures var c := ConsumeQuotedIdentifier(u);
            Iterate(Separator(u, sb, terms)) == Go(Separator(c.rest, sb + c.written, terms), [])
  {
    var c := ConsumeQuotedIdentifier(u);
    assert !OpensComment(u);
    assert SkipComments(u) == u;
    assert !IsQuote(u[0]) && !IsPrefixLetter(u[0]);
    assert Step(u, terms) == Append(c.written, c.rest);
  }

  /**
    The rune at index `k` of `p` is ordinary text wherever `p` stands: no quote,
    backtick, `;`, comment rune or start of a custom terminator, and a prefix
    letter only when the rune after it, inside `p`, is neither a quote nor
    another prefix letter.
   */
  predicate PlainAt(p: seq<char>, k: nat, terms: seq<seq<char>>)
    requires k < |p|
  {
    var c := p[k];
    && !IsQuote(c) && c != '`' && c != ';' && c != '#' && c != '-' && c != '/'
    && (forall j :: 0 <= j < |terms| ==> |terms[j]| == 0 || terms[j][0] != c)
    && (IsPrefixLetter(c) ==> k + 1 < |p| && !IsQuote(p[k + 1]) && !IsPrefixLetter(p[k + 1]))
  }

  predicate Plain(p: seq<char>, terms: seq<seq<char>>) {
    forall k :: 0 <= k < |p| ==> PlainAt(p, k, terms)
  }

  /** The first rune of plain text is copied by the main loop, whatever follows the text. */
  lemma PlainHead(p: seq<char>, t: seq<char>, terms: seq<seq<char>>)
    requires NonEmptyTerms(terms) && Plain(p, terms) && |p| > 0
    ensures var u := [p[0]] + (p[1..] + t);
            && !OpensComment(u) && !LiteralStart(u) && p[0] != '`' && p[0] != ';'
            && (IsPrefixLetter(p[0]) || FirstMatch(u, terms).None?)
  {
    var c := p[0];
    var u := [c] + (p[1..] + t);
    assert u[0] == c;
    assert PlainAt(p, 0, terms);
    assert !LiteralStart(u) by {
      if IsPrefixLetter(c) {
        assert u[1] == p[1];
      }
    }
    assert FirstMatch(u, terms).None?;
  }

  lemma PlainTail(p: seq<char>, terms: seq<seq<char>>)
    requires Plain(p, terms) && |p| > 0
    ensures Plain(p[1..], terms)
  {
    var more := p[1..];
    forall k | 0 <= k < |more|
      ensures PlainAt(more, k, terms)
    {
      assert PlainAt(p, k + 1, terms);
      assert more[k] == p[k + 1];
      if k + 1 < |more| {
        assert more[k + 1] == p[k + 2];
      }
    }
  }

  /** Plain text is appended to the buffer unchanged, whatever follows it. */
  lemma {:induction false} PlainRunCopied(p: seq<char>, t: seq<char>, sb: seq<char>, terms: seq<seq<char>>, acc: seq<InputStatement>)
    requires NonEmptyTerms(terms) && Plain(p, terms)
    ensures Separate(Separator(p + t, sb, terms), acc) == Separate(Separator(t, sb + p, terms), acc)
    decreases |p|
  {
    if p == [] {
      assert p + t == t && sb + p == sb;
    } else {
      PlainTail(p, terms);
      PlainRunCopied(p[1..], t, sb + [p[0]], terms, acc);
      PlainRunStep(p, t, sb, terms, acc);
    }
  }

  lemma PlainRunStep(p: seq<char>, t: seq<char>, sb: seq<char>, terms: seq<seq<char>>, acc: seq<InputStatement>)
    requires NonEmptyTerms(terms) && Plain(p, terms) && |p| > 0
    requires Separate(Separator(p[1..] + t, sb + [p[0]], terms), acc)
          == Separate(Separator(t, sb + [p[0]] + p[1..], terms), acc)
    ensures Separate(Separator(p + t, sb, terms), acc) == Separate(Separator(t, sb + p, terms), acc)
  {
    var c := p[0];
    var more := p[1..];
    SplitHead(p, t);
    PlainHead(p, t, terms);
    RuneCopied(c, more + t, sb, terms);
    SeparateCopies(Separator(p + t, sb, terms), Separator(more + t, sb + [c], terms), acc);
    AppendHead(sb, p);
  }

  /**
    A custom terminator that the separator always recognises where it stands:
    reachable, not starting with a comment rune, and the only custom
    terminator with its first rune.
   */
  predicate Distinct(term: seq<char>, terms: seq<seq<char>>) {
    && Reachable(term) && term[0] != '-' && term[0] != '/'
    && term in terms
    && forall j :: 0 <= j < |terms| ==> terms[j] == term || |terms[j]| == 0 || terms[j][0] != term[0]
  }

  predicate SafeTerminator(term: seq<char>, terms: seq<seq<char>>) {
    term == ";" || Distinct(term, terms)
  }

  /** A terminator that is safe where it stands ends the statement in the buffer. */
  lemma SafeTerminatorEnds(term: seq<char>, t: seq<char>, sb: seq<char>, terms: seq<seq<char>>)
    requires NonEmptyTerms(terms) && SafeTerminator(term, terms)
    ensures Iterate(Separator(term + t, sb, terms))
         == Go(Separator(t, [], terms), [InputStatement(TrimSpace(sb), term)])
  {
    if term == ";" {
      SemicolonEnds(t, sb, terms);
    } else {
      var k :| 0 <= k < |terms| && terms[k] == term;
      var u := term + t;
      assert u[0] == term[0];
      forall j | 0 <= j < k && HasPrefix(u, terms[j])
        ensures terms[j] == term
      {
        assert u[..|terms[j]|][0] == u[0];
      }
      assert !OpensComment(u);
      CustomTerminatorEnds(k, t, sb, terms);
    }
  }

  /** A literal that the literal scan takes whole lands in the buffer whole, whatever follows it: no cut falls inside it. */
  lemma LiteralRunCopied(lit: seq<char>, t: seq<char>, sb: seq<char>, terms: seq<seq<char>>, acc: seq<InputStatement>)
    requires NonEmptyTerms(terms) && LiteralStart(lit + t)
    requires ConsumeQuoteStart(lit + t).written == lit && ConsumeQuoteStart(lit + t).rest == t
    ensures Separate(Separator(lit + t, sb, terms), acc) == Separate(Separator(t, sb + lit, terms), acc)
  {
    LiteralCopied(lit + t, sb, terms);
    SeparateCopies(Separator(lit + t, sb, terms), Separator(t, sb + lit, terms), acc);
  }

  /** A quoted identifier that the scan takes whole lands in the buffer whole. */
  lemma IdentifierRunCopied(id: seq<char>, t: seq<char>, sb: seq<char>, terms: seq<seq<char>>, acc: seq<InputStatement>)
    requires NonEmptyTerms(terms) && |id| > 0 && id[0] == '`'
    requires ConsumeQuotedIdentifier(id + t).written == id && ConsumeQuotedIdentifier(id + t).rest == t
    ensures Separate(Separator(id + t, sb, terms), acc) == Separate(Separator(t, sb + id, terms), acc)
  {
    assert (id + t)[0] == '`';
    IdentifierCopied(id + t, sb, terms);
    SeparateCopies(Separator(id + t, sb, terms), Separator(t, sb + id, terms), acc);
  }

  /** A safe terminator emits the trimmed buffer as a statement and empties the buffer. */
  lemma TerminatorRunEnds(term: seq<char>, t: seq<char>, sb: seq<char>, terms: seq<seq<char>>, acc: seq<InputStatement>)
    requires NonEmptyTerms(terms) && SafeTerminator(term, terms)
    ensures Separate(Separator(term + t, sb, terms), acc)
         == Separate(Separator(t, [], terms), acc + [InputStatement(TrimSpace(sb), term)])
  {
    SafeTerminatorEnds(term, t, sb, terms);
    SeparateEmits(Separator(term + t, sb, terms), Separator(t, [], terms), InputStatement(TrimSpace(sb), term), acc);
  }

  /** Comments at the front of the input change nothing but the input: they are dropped whole. */
  lemma CommentRunSkipped(s: seq<char>, sb: seq<char>, terms: seq<seq<char>>, acc: seq<InputStatement>)
    requires NonEmptyTerms(terms)
    ensures Separate(Separator(s, sb, terms), acc) == Separate(Separator(SkipComments(s), sb, terms), acc)
  {
    CommentsDiscarded(s, sb, terms);
    var st := Separator(s, sb, terms);
    var st' := Separator(SkipComments(s), sb, terms);
    if Iterate(st).Done? {
      SeparateDone(st, acc);
      SeparateDone(st', acc);
    } else {
      SeparateGo(st, acc);
      SeparateGo(st', acc);
    }
  }

  lemma SeparateAtEnd(sb: seq<char>, terms: seq<seq<char>>, acc: seq<InputStatement>)
    requires NonEmptyTerms(terms)
    ensures Separate(Separator([], sb, terms), acc) == acc + Flush(sb, [])
  {
    SeparateDone(Separator([], sb, terms), acc);
    FlushAppends(sb, acc);
  }

  lemma FlushAppends(sb: seq<char>, acc: seq<InputStatement>)
    ensures Flush(sb, acc) == acc + Flush(sb, [])
  {
    AppendEmpty(acc);
  }

  /** Flushing into an empty list yields the trimmed buffer, or nothing for a blank buffer. */
  lemma TrailingStatement(sb: seq<char>)
    ensures Flush(sb, []) == if AllSpace(sb) then [] else [InputStatement(TrimSpace(sb), [])]
  {
  }

  lemma {:induction false} StatementsConcat(xs: seq<InputStatement>, ys: seq<InputStatement>)
    ensures Statements(xs + ys) == Statements(xs) + Statements(ys)
  {
    var l := Statements(xs + ys);
    var r := Statements(xs) + Statements(ys);
    assert |l| == |r|;
    forall i | 0 <= i < |l|
      ensures l[i] == r[i]
    {
      if i < |xs| {
        assert (xs + ys)[i] == xs[i];
      } else {
        assert (xs + ys)[i] == ys[i - |xs|];
      }
    }
  }

  /**
    A terminator the main loop can never match is never reported: custom
    terminators that start with a quote, a prefix letter, a backtick or `;`,
    or that open a comment, are dead.
   */
  lemma UnreachableNeverReported(input: seq<char>, terms: seq<seq<char>>, term: seq<char>)
    requires NonEmptyTerms(terms) && term != ";" && term != [] && !Reachable(term)
    ensures forall i :: 0 <= i < |SeparateInput(input, terms)| ==> SeparateInput(input, terms)[i].terminator != term
  {
  }

  /**
    An empty custom terminator matches at every ordinary rune without
    consuming it, so the loop would make no progress: this is why the
    separator is only modelled for non-empty custom terminators.
   */
  lemma EmptyTerminatorStalls(u: seq<char>)
    requires |u| > 0 && !RoutedElsewhere(u[0])
    ensures Step(u, [[]]) == Emit([], u)
  {
    assert HasPrefix(u, []);
  }

  /**
    A non-raw literal ending in a lone backslash does not protect what it
    holds: the loop copies the literal, then scans its content again as
    plain text, so a `;` inside the literal ends a statement and the text
    before it lands in the buffer twice.
   */
  lemma LoneBackslashSplits(q: char, t: seq<char>, sb: seq<char>, acc: seq<InputStatement>)
    requires IsQuote(q) && q !in t && '\\' !in t
    ensures var lit := [q] + (['a', ';'] + t) + ['\\'];
            Separate(Separator(lit, sb, []), acc)
              == Separate(Separator(t + ['\\'], [], []), acc + [InputStatement(TrimSpace(sb + lit + ['a']), ";")])
  {
    var lit := [q] + (['a', ';'] + t) + ['\\'];
    var st0 := Separator(lit, sb, []);
    var st1 := Separator(['a'] + ([';'] + (t + ['\\'])), sb + lit, []);
    var st2 := Separator([';'] + (t + ['\\']), sb + lit + ['a'], []);
    LoneBackslashCopied(q, t, sb);
    PlainACopied([';'] + (t + ['\\']), sb + lit);
    SemicolonEnds(t + ['\\'], sb + lit + ['a'], []);
    SeparateGo(st0, acc);
    AppendEmpty(acc);
    SeparateGo(st1, acc);
    SeparateGo(st2, acc);
  }

  lemma LoneBackslashCopied(q: char, t: seq<char>, sb: seq<char>)
    requires IsQuote(q) && q !in t && '\\' !in t
    ensures var lit := [q] + (['a', ';'] + t) + ['\\'];
            Iterate(Separator(lit, sb, [])) == Go(Separator(['a'] + ([';'] + (t + ['\\'])), sb + lit, []), [])
  {
    var body := ['a', ';'] + t;
    assert 'a' != q && ';' != q;
    assert q !in body && '\\' !in body;
    LoneBackslashLiteral(q, body);
    LiteralCopied([q] + body + "\\", sb, []);
    Regroup(t);
  }

  lemma Regroup(t: seq<char>)
    ensures ['a', ';'] + t + ['\\'] == ['a'] + ([';'] + (t + ['\\']))
  {
  }

  lemma PlainACopied(u: seq<char>, sb: seq<char>)
    ensures Iterate(Separator(['a'] + u, sb, [])) == Go(Separator(u, sb + ['a'], []), [])
  {
  }
}
