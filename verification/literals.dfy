/**
  String literals and quoted identifiers. Each is copied into the statement
  buffer verbatim (no de-escaping) so that the terminators they contain are
  not mistaken for statement boundaries, except when a non-raw literal ends
  in a lone backslash: its content is then scanned again as plain text and
  may be split. A literal may carry a raw prefix
  (`r`/`R`), a bytes prefix (`b`/`B`) or both, and is delimited by one quote
  character or by the same quote character three times.
 */
module Literals {
  import opened Text

  predicate IsQuote(c: char) { c == '"' || c == '\'' }
  predicate IsRawLetter(c: char) { c == 'r' || c == 'R' }
  predicate IsBytesLetter(c: char) { c == 'b' || c == 'B' }
  predicate IsPrefixLetter(c: char) { IsRawLetter(c) || IsBytesLetter(c) }

  /** How consuming a literal ended. */
  datatype Outcome =
    | Closed         // the closing delimiter was found and copied
    | Unclosed       // the input ran out before the closing delimiter
    | LoneBackslash  // a non-raw literal ended in a lone backslash: the input is not advanced past the content
    | NotLiteral     // no literal starts here; one rune was copied as plain text

  /** The text appended to the statement buffer, the input left over, and how the scan ended. */
  datatype Content = Content(written: seq<char>, rest: seq<char>, outcome: Outcome)

  /** The opening delimiter of a literal and the input after it. */
  datatype Delimiter = Delimiter(delim: seq<char>, rest: seq<char>)

  /**
    Reads the opening delimiter of a literal at the front of `s`: three equal
    runes when the first three runes are the same, otherwise the first rune.
   */
  function ConsumeStringDelimiter(s: seq<char>): (r: Delimiter)
    requires |s| > 0
    ensures r.delim + r.rest == s
    ensures r.delim == [s[0]] || r.delim == [s[0], s[0], s[0]]
    ensures |r.delim| == 3 <==> |s| >= 3 && s[1] == s[0] && s[2] == s[0]
  {
    var c := s[0];
    if |s| >= 3 && s[1] == c && s[2] == c then Delimiter([c, c, c], s[3..])
    else Delimiter([c], s[1..])
  }

  /** The closing delimiter `delim` occurs at index `i` of `s`. */
  predicate ClosesAt(s: seq<char>, i: nat, delim: seq<char>)
    requires i < |s|
  {
    || (|delim| == 1 && [s[i]] == delim)
    || (|delim| == 3 && |s| >= i + 3 && s[i..i + 3] == delim)
  }

  /** What every exit of the content scan started at index `i` of `s` guarantees. */
  predicate ContentExit(s: seq<char>, delim: seq<char>, raw: bool, i: nat, r: Content) {
    && r.outcome != NotLiteral
    && (r.outcome == Closed ==>
          && r.written + r.rest == s
          && (|delim| == 1 || |delim| == 3) && i + |delim| <= |r.written|
          && ClosesAt(s, |r.written| - |delim|, delim))
    && (r.outcome == Unclosed ==> r.written == s && r.rest == [])
    && (r.outcome == LoneBackslash ==> !raw && r.written == s && r.rest == s && |s| > 0 && s[|s| - 1] == '\\')
  }

  /** One iteration of the content scan: it either ends the scan or moves to a later index. */
  datatype Advance = Finish(result: Content) | Continue(next: nat, w: seq<char>)

  /**
    The iteration at index `i` of `s`, having written `w` so far. Copying is
    verbatim, so `w` is always `s[..i]`.
   */
  function ContentStep(s: seq<char>, delim: seq<char>, raw: bool, i: nat, w: seq<char>): (r: Advance)
    requires i < |s| && w == s[..i]
    ensures r.Continue? ==> i < r.next <= |s| && r.w == s[..r.next]
    ensures r.Finish? ==> ContentExit(s, delim, raw, i, r.result)
  {
    if ClosesAt(s, i, delim) then
      assert s[..i] + delim == s[..i + |delim|];
      Finish(Content(w + delim, s[i + |delim|..], Closed))
    else if s[i] == '\\' then
      if raw then
        assert w + "\\" == s[..i + 1];
        Continue(i + 1, w + "\\")
      else if i + 1 >= |s| then
        Finish(Content(w + "\\", s, LoneBackslash))
      else
        assert w + ['\\', s[i + 1]] == s[..i + 2];
        Continue(i + 2, w + ['\\', s[i + 1]])
    else
      assert w + [s[i]] == s[..i + 1];
      Continue(i + 1, w + [s[i]])
  }

  /** The content scan from index `i` of `s` to its end. */
  function ContentLoop(s: seq<char>, delim: seq<char>, raw: bool, i: nat, w: seq<char>): Content
    requires i <= |s| && w == s[..i]
    decreases |s| - i
  {
    if i >= |s| then Content(w, s[i..], Unclosed)
    else match ContentStep(s, delim, raw, i, w)
      case Finish(c) => c
      case Continue(j, w') => ContentLoop(s, delim, raw, j, w')
  }

  /** Every way the scan can end satisfies the exit guarantees. */
  lemma {:induction false} ContentLoopExit(s: seq<char>, delim: seq<char>, raw: bool, i: nat, w: seq<char>)
    requires i <= |s| && w == s[..i]
    ensures ContentExit(s, delim, raw, i, ContentLoop(s, delim, raw, i, w))
    decreases |s| - i
  {
    if i < |s| {
      match ContentStep(s, delim, raw, i, w)
      case Finish(c) =>
      case Continue(j, w') => ContentLoopExit(s, delim, raw, j, w');
    }
  }

  /**
    Copies the content of a literal up to and including the closing `delim`.
    Outside the lone-backslash case the written text followed by the rest is
    exactly the input; with a lone trailing backslash the whole input is
    written but none of it is consumed.
   */
  function ConsumeStringContent(s: seq<char>, delim: seq<char>, raw: bool): (r: Content)
    ensures r.outcome != NotLiteral
    ensures r.outcome != LoneBackslash ==> r.written + r.rest == s
    ensures r.outcome == Closed ==> |r.written| >= |delim| && r.written[|r.written| - |delim|..] == delim
    ensures r.outcome == Unclosed ==> r.rest == []
    ensures r.outcome == LoneBackslash ==> !raw && r.written == s && r.rest == s && |s| > 0 && s[|s| - 1] == '\\'
  {
    ContentLoopExit(s, delim, raw, 0, []);
    ContentLoop(s, delim, raw, 0, [])
  }

  /** Puts `p` in front of a content scan of the text that followed `p`. */
  function Prepend(p: seq<char>, r: Content): Content {
    Content(p + r.written, if r.outcome == LoneBackslash then p + r.rest else r.rest, r.outcome)
  }

  /**
    A reference definition of the content scan by recursion on the text that
    remains instead of on an index: a closing delimiter ends it, and otherwise
    one rune (or, outside raw literals, a backslash with the rune it protects)
    is put in front of the scan of what follows.
   */
  function ScanRest(u: seq<char>, delim: seq<char>, raw: bool): Content
    decreases |u|
  {
    if u == [] then Content([], [], Unclosed)
    else if ClosesAt(u, 0, delim) then Content(delim, u[|delim|..], Closed)
    else if u[0] == '\\' && !raw && |u| == 1 then Content("\\", "\\", LoneBackslash)
    else if u[0] == '\\' && !raw then Prepend(['\\', u[1]], ScanRest(u[2..], delim, raw))
    else Prepend([u[0]], ScanRest(u[1..], delim, raw))
  }

  /** The index-based scan of the content and the reference definition agree on every input. */
  lemma ContentIsScan(s: seq<char>, delim: seq<char>, raw: bool)
    ensures ConsumeStringContent(s, delim, raw) == ScanRest(s, delim, raw)
  {
    ScanAgrees(s, delim, raw, 0);
    assert s[..0] == [] && s[0..] == s;
    PrependNothing(ScanRest(s, delim, raw));
  }

  /** From any index, the loop is what it has copied so far in front of the reference scan of the rest. */
  lemma {:induction false} ScanAgrees(s: seq<char>, delim: seq<char>, raw: bool, i: nat)
    requires i <= |s|
    ensures ContentLoop(s, delim, raw, i, s[..i]) == Prepend(s[..i], ScanRest(s[i..], delim, raw))
    decreases |s| - i
  {
    if i == |s| {
      assert s[..i] + [] == s[..i] && s[i..] == [];
    } else {
      ClosesShift(s, i, delim);
      var a := ContentStep(s, delim, raw, i, s[..i]);
      if a.Finish? {
        FinishAgrees(s, delim, raw, i);
      } else {
        ScanAgrees(s, delim, raw, a.next);
        ContinueAgrees(s, delim, raw, i);
      }
    }
  }

  lemma ClosesShift(s: seq<char>, i: nat, delim: seq<char>)
    requires i < |s|
    ensures ClosesAt(s, i, delim) == ClosesAt(s[i..], 0, delim)
  {
    if |s| >= i + 3 {
      assert s[i..][0..3] == s[i..i + 3];
    }
  }

  lemma FinishAgrees(s: seq<char>, delim: seq<char>, raw: bool, i: nat)
    requires i < |s| && ClosesAt(s, i, delim) == ClosesAt(s[i..], 0, delim)
    requires ContentStep(s, delim, raw, i, s[..i]).Finish?
    ensures ContentLoop(s, delim, raw, i, s[..i]) == Prepend(s[..i], ScanRest(s[i..], delim, raw))
  {
    var u := s[i..];
    if ClosesAt(s, i, delim) {
      assert u[|delim|..] == s[i + |delim|..];
    } else {
      assert s == s[..i] + "\\";
    }
  }

  lemma ContinueAgrees(s: seq<char>, delim: seq<char>, raw: bool, i: nat)
    requires i < |s| && ClosesAt(s, i, delim) == ClosesAt(s[i..], 0, delim)
    requires ContentStep(s, delim, raw, i, s[..i]).Continue?
    requires var j := ContentStep(s, delim, raw, i, s[..i]).next;
             ContentLoop(s, delim, raw, j, s[..j]) == Prepend(s[..j], ScanRest(s[j..], delim, raw))
    ensures ContentLoop(s, delim, raw, i, s[..i]) == Prepend(s[..i], ScanRest(s[i..], delim, raw))
  {
    var j := ContentStep(s, delim, raw, i, s[..i]).next;
    var u := s[i..];
    LoopContinues(s, delim, raw, i, s[..i]);
    assert u[j - i..] == s[j..];
    assert s[..i] + u[..j - i] == s[..j];
    assert !ClosesAt(u, 0, delim);
    if s[i] == '\\' && !raw {
      assert j == i + 2 && u[..2] == ['\\', u[1]];
    } else {
      assert j == i + 1 && u[..1] == [u[0]];
    }
    assert ScanRest(u, delim, raw) == Prepend(u[..j - i], ScanRest(s[j..], delim, raw));
    PrependTwice(s[..i], u[..j - i], ScanRest(s[j..], delim, raw));
  }

  /** One iteration that does not finish the scan hands over to the next. */
  lemma LoopContinues(s: seq<char>, delim: seq<char>, raw: bool, i: nat, w: seq<char>)
    requires i < |s| && w == s[..i] && ContentStep(s, delim, raw, i, w).Continue?
    ensures var a := ContentStep(s, delim, raw, i, w);
            ContentLoop(s, delim, raw, i, w) == ContentLoop(s, delim, raw, a.next, a.w)
  {
  }

  /** The scan stops at a delimiter, at the end of input, and at a lone trailing backslash in a non-raw literal. */
  lemma ContentBaseCases(s: seq<char>, delim: seq<char>, raw: bool)
    ensures s == [] ==> ConsumeStringContent(s, delim, raw) == Content([], [], Unclosed)
    ensures |s| > 0 && ClosesAt(s, 0, delim) ==> ConsumeStringContent(s, delim, raw) == Content(delim, s[|delim|..], Closed)
    ensures s == "\\" && !raw && delim != "\\" ==> ConsumeStringContent(s, delim, raw) == Content("\\", "\\", LoneBackslash)
  {
    if |s| > 0 && ClosesAt(s, 0, delim) {
      assert [] + delim == delim;
    }
  }

  /** In a non-raw literal a backslash and the rune after it are copied as a pair, so an escaped delimiter does not close it. */
  lemma {:induction false} ContentEscapedPair(c: char, t: seq<char>, delim: seq<char>)
    requires |delim| > 0 && delim[0] != '\\'
    ensures ConsumeStringContent(['\\', c] + t, delim, false) == Prepend(['\\', c], ConsumeStringContent(t, delim, false))
  {
    var s := ['\\', c] + t;
    assert !ClosesAt(s, 0, delim) by {
      if |delim| == 3 && |s| >= 3 {
        assert s[0..3][0] == '\\';
      }
    }
    assert s[2..] == t;
    ContentIsScan(s, delim, false);
    ContentIsScan(t, delim, false);
  }

  /** In a raw literal a backslash is copied alone; the rune after it is examined on its own. */
  lemma {:induction false} ContentRawBackslash(t: seq<char>, delim: seq<char>)
    requires |delim| > 0 && delim[0] != '\\'
    ensures ConsumeStringContent(['\\'] + t, delim, true) == Prepend("\\", ConsumeStringContent(t, delim, true))
  {
    var s := ['\\'] + t;
    assert !ClosesAt(s, 0, delim) by {
      if |delim| == 3 && |s| >= 3 {
        assert s[0..3][0] == '\\';
      }
    }
    assert s[1..] == t;
    ContentIsScan(s, delim, true);
    ContentIsScan(t, delim, true);
  }

  /** Any other rune that does not begin the closing delimiter is copied and the scan moves on. */
  lemma {:induction false} ContentOrdinaryRune(c: char, t: seq<char>, delim: seq<char>, raw: bool)
    requires c != '\\' && !ClosesAt([c] + t, 0, delim)
    ensures ConsumeStringContent([c] + t, delim, raw) == Prepend([c], ConsumeStringContent(t, delim, raw))
  {
    assert ([c] + t)[1..] == t;
    ContentIsScan([c] + t, delim, raw);
    ContentIsScan(t, delim, raw);
  }

  /** After `n` prefix letters, `w` opens with `delim` and ends with another copy of it. */
  predicate Enclosed(w: seq<char>, n: nat, delim: seq<char>) {
    && |w| >= n + 2 * |delim|
    && w[n..n + |delim|] == delim
    && w[|w| - |delim|..] == delim
  }

  /** A literal whose content is `n` prefix letters, then a delimiter, then its content. */
  function ConsumeQuoted(s: seq<char>, n: nat, raw: bool): (r: Content)
    requires n < |s|
    ensures r.outcome != NotLiteral
    ensures r.outcome != LoneBackslash ==> r.written + r.rest == s
    ensures r.outcome == Unclosed ==> r.rest == []
    ensures r.outcome == LoneBackslash ==> !raw && r.written == s
    ensures IsSuffix(r.rest, s) && |r.rest| < |s| - n
    ensures r.outcome == Closed ==> Enclosed(r.written, n, ConsumeStringDelimiter(s[n..]).delim)
  {
    var d := ConsumeStringDelimiter(s[n..]);
    var c := ConsumeStringContent(d.rest, d.delim, raw);
    QuotedParts(s, n, raw, d, c);
    Content(s[..n] + d.delim + c.written, c.rest, c.outcome)
  }

  lemma QuotedParts(s: seq<char>, n: nat, raw: bool, d: Delimiter, c: Content)
    requires n < |s| && d.delim + d.rest == s[n..] && |d.delim| > 0
    requires c.outcome != LoneBackslash ==> c.written + c.rest == d.rest
    requires c.outcome == LoneBackslash ==> c.written == d.rest && c.rest == d.rest
    requires c.outcome == Closed ==> |c.written| >= |d.delim| && c.written[|c.written| - |d.delim|..] == d.delim
    ensures var r := Content(s[..n] + d.delim + c.written, c.rest, c.outcome);
            && (r.outcome != LoneBackslash ==> r.written + r.rest == s)
            && (r.outcome == LoneBackslash ==> r.written == s)
            && IsSuffix(r.rest, s) && |r.rest| < |s| - n
            && (r.outcome == Closed ==> Enclosed(r.written, n, d.delim))
  {
    assert s == s[..n] + d.delim + d.rest by {
      assert s == s[..n] + s[n..];
    }
    QuotedRest(s, n, d, c);
    var w := s[..n] + d.delim + c.written;
    if c.outcome == Closed {
      QuotedEnclosed(s[..n], d.delim, c.written);
    }
    if c.outcome != LoneBackslash {
      ConcatAssoc(s[..n] + d.delim, c.written, c.rest);
    }
  }

  lemma QuotedEnclosed(head: seq<char>, delim: seq<char>, written: seq<char>)
    requires |written| >= |delim| && written[|written| - |delim|..] == delim
    ensures Enclosed(head + delim + written, |head|, delim)
  {
    var w := head + delim + written;
    assert w[|w| - |delim|..] == written[|written| - |delim|..];
    assert w[|head|..|head| + |delim|] == delim;
  }

  lemma QuotedRest(s: seq<char>, n: nat, d: Delimiter, c: Content)
    requires n < |s| && s == s[..n] + d.delim + d.rest && |d.delim| > 0
    requires c.written + c.rest == d.rest || c.rest == d.rest
    ensures IsSuffix(c.rest, s) && |c.rest| < |s| - n
  {
    assert d.rest == s[n + |d.delim|..];
    if c.rest != d.rest {
      assert c.rest == d.rest[|c.written|..];
    }
  }

  /** A literal with no prefix: a delimiter, then content up to the same delimiter. */
  function ConsumeString(s: seq<char>): (r: Content)
    requires |s| > 0
    ensures r.outcome != NotLiteral
    ensures r.outcome != LoneBackslash ==> r.written + r.rest == s
    ensures r.outcome == Closed ==> Enclosed(r.written, 0, ConsumeStringDelimiter(s).delim)
    ensures var d := ConsumeStringDelimiter(s); var c := ScanRest(d.rest, d.delim, false);
            r == Content(d.delim + c.written, c.rest, c.outcome)
  {
    assert s[0..] == s && s[..0] == [];
    var d := ConsumeStringDelimiter(s);
    ContentIsScan(d.rest, d.delim, false);
    ConsumeQuoted(s, 0, false)
  }

  /** A literal with an `r` or `R` prefix: the letter is copied, and a backslash never stops the scan early. */
  function ConsumeRawString(s: seq<char>): (r: Content)
    requires |s| > 1
    ensures r.outcome != NotLiteral && r.outcome != LoneBackslash
    ensures r.written + r.rest == s
    ensures |r.rest| < |s| - 1
    ensures var d := ConsumeStringDelimiter(s[1..]); var c := ScanRest(d.rest, d.delim, true);
            r == Content(s[..1] + d.delim + c.written, c.rest, c.outcome)
  {
    var d := ConsumeStringDelimiter(s[1..]);
    ContentIsScan(d.rest, d.delim, true);
    ConsumeQuoted(s, 1, true)
  }

  /** A literal with a `b` or `B` prefix: the letter is copied, then the literal is scanned like an unprefixed one. */
  function ConsumeBytesString(s: seq<char>): (r: Content)
    requires |s| > 1
    ensures r.outcome != NotLiteral
    ensures r.outcome != LoneBackslash ==> r.written + r.rest == s
    ensures r.outcome == LoneBackslash ==> r.written == s
    ensures |r.rest| < |s| - 1
    ensures var c := ConsumeString(s[1..]); r == Content(s[..1] + c.written, c.rest, c.outcome)
  {
    QuotedShift(s, 1, false);
    ConsumeQuoted(s, 1, false)
  }

  /** A literal with a two-letter raw-bytes prefix, in either order: both letters are copied, and the scan is raw. */
  function ConsumeRawBytesString(s: seq<char>): (r: Content)
    requires |s| > 2
    ensures r.outcome != NotLiteral && r.outcome != LoneBackslash
    ensures r.written + r.rest == s
    ensures |r.rest| < |s| - 2
    ensures var c := ConsumeRawString(s[1..]); r == Content(s[..1] + c.written, c.rest, c.outcome)
  {
    QuotedShift(s, 2, true);
    ConsumeQuoted(s, 2, true)
  }

  /** Copying the first of `n` prefix letters up front leaves a literal with one prefix letter fewer. */
  lemma QuotedShift(s: seq<char>, n: nat, raw: bool)
    requires 0 < n < |s|
    ensures var c := ConsumeQuoted(s[1..], n - 1, raw);
            ConsumeQuoted(s, n, raw) == Content(s[..1] + c.written, c.rest, c.outcome)
  {
    var t := s[1..];
    assert t[n - 1..] == s[n..];
    assert s[..n] == s[..1] + t[..n - 1];
    var d := ConsumeStringDelimiter(s[n..]);
    var c := ConsumeStringContent(d.rest, d.delim, raw);
    ConcatAssoc(s[..1], t[..n - 1], d.delim);
    ConcatAssoc(s[..1], t[..n - 1] + d.delim, c.written);
  }

  /** A backtick-quoted identifier: one backtick, then content scanned like a non-raw single-quoted literal. */
  function ConsumeQuotedIdentifier(s: seq<char>): (r: Content)
    requires |s| > 0
    ensures r.outcome != NotLiteral
    ensures r.outcome != LoneBackslash ==> r.written + r.rest == s
    ensures r.outcome == LoneBackslash ==> r.written == s && r.rest == s[1..]
    ensures r.outcome == Unclosed ==> r.rest == []
    ensures r.outcome == Closed ==> |r.written| >= 2 && r.written[|r.written| - 1] == '`'
    ensures |r.rest| < |s|
  {
    var c := ConsumeStringContent(s[1..], "`", false);
    assert s == [s[0]] + s[1..];
    Content([s[0]] + c.written, c.rest, c.outcome)
  }

  /** Result of looking for a literal prefix: the flags set and where the quote stands. */
  datatype Prefix = Prefix(raw: bool, bytes: bool, isString: bool, letters: nat)

  function Flag(b: bool): nat { if b then 1 else 0 }

  /** The prefix scan at index `i`: each flag is set by at most one letter, and a quote ends the scan. */
  function PrefixLoop(s: seq<char>, i: nat, raw: bool, bytes: bool): Prefix
    decreases 3 - i
  {
    if i >= 3 || i >= |s| then Prefix(raw, bytes, false, i)
    else if !raw && IsRawLetter(s[i]) then PrefixLoop(s, i + 1, true, bytes)
    else if !bytes && IsBytesLetter(s[i]) then PrefixLoop(s, i + 1, raw, true)
    else if IsQuote(s[i]) then Prefix(raw, bytes, true, i)
    else Prefix(raw, bytes, false, i)
  }

  /**
    A literal starts at the front of `s`: a quote within the first three runes,
    preceded by nothing, by one prefix letter, or by one raw and one bytes letter
    in either order.
   */
  predicate LiteralStart(s: seq<char>) {
    || (|s| > 0 && IsQuote(s[0]))
    || (|s| > 1 && IsPrefixLetter(s[0]) && IsQuote(s[1]))
    || (|s| > 2 && IsQuote(s[2])
        && ((IsRawLetter(s[0]) && IsBytesLetter(s[1])) || (IsBytesLetter(s[0]) && IsRawLetter(s[1]))))
  }

  /**
    Decides whether a literal starts at the front of `s` and, if so, which
    prefix flags it carries and how many prefix letters precede its quote.
   */
  function StringPrefix(s: seq<char>): (r: Prefix)
    ensures r.isString <==> LiteralStart(s)
    ensures r.isString ==> r.letters < |s| && IsQuote(s[r.letters])
    ensures r.isString ==> r.letters == Flag(r.raw) + Flag(r.bytes)
  {
    PrefixLoop(s, 0, false, false)
  }

  /** The raw and bytes flags record exactly which kinds of prefix letter stand before the quote. */
  lemma StringPrefixFlags(s: seq<char>)
    requires LiteralStart(s)
    ensures var r := StringPrefix(s);
            && (r.raw <==> exists k :: 0 <= k < r.letters && IsRawLetter(s[k]))
            && (r.bytes <==> exists k :: 0 <= k < r.letters && IsBytesLetter(s[k]))
  {
  }

  /**
    The separator's handling of a rune that may open a literal: the whole
    literal, prefix letters included, when one starts here, and otherwise one
    rune copied as plain text.
   */
  function ConsumeQuoteStart(s: seq<char>): (r: Content)
    requires |s| > 0
    ensures r.outcome == NotLiteral <==> !LiteralStart(s)
    ensures r.outcome == NotLiteral ==> r.written == [s[0]] && r.rest == s[1..]
    ensures r.outcome != LoneBackslash ==> r.written + r.rest == s
    ensures r.outcome == LoneBackslash ==> r.written == s && IsSuffix(r.rest, s)
    ensures r.outcome == LoneBackslash ==> !StringPrefix(s).raw
    ensures r.outcome == Unclosed ==> r.rest == []
    ensures |r.rest| < |s|
  {
    var p := StringPrefix(s);
    if !p.isString then Content([s[0]], s[1..], NotLiteral)
    else ConsumeQuoted(s, p.letters, p.raw)
  }

  /**
    The literal handling above is the dispatch of the separator's loop: both
    flags select the raw-bytes form, then the raw form, then the bytes form,
    and otherwise the unprefixed form.
   */
  lemma QuoteStartDispatch(s: seq<char>)
    requires |s| > 0 && LiteralStart(s)
    ensures var p := StringPrefix(s);
            ConsumeQuoteStart(s)
            == if p.raw && p.bytes then ConsumeRawBytesString(s)
               else if p.raw then ConsumeRawString(s)
               else if p.bytes then ConsumeBytesString(s)
               else ConsumeString(s)
  {
  }

  lemma PrependNothing(r: Content)
    ensures Prepend([], r) == r
  {
    assert [] + r.written == r.written && [] + r.rest == r.rest;
  }

  lemma PrependTwice(p: seq<char>, q: seq<char>, r: Content)
    ensures Prepend(p, Prepend(q, r)) == Prepend(p + q, r)
  {
    assert p + (q + r.written) == (p + q) + r.written;
    assert p + (q + r.rest) == (p + q) + r.rest;
  }

  /**
    Text that holds no rune opening the closing delimiter (and, in a non-raw
    literal, no backslash) is copied through unchanged: the scan resumes after
    it exactly as if it had started there.
   */
  lemma {:induction false} ContentSkipsBody(body: seq<char>, t: seq<char>, delim: seq<char>, raw: bool)
    requires |delim| > 0 && delim[0] != '\\' && delim[0] !in body
    requires raw || '\\' !in body
    ensures ConsumeStringContent(body + t, delim, raw) == Prepend(body, ConsumeStringContent(t, delim, raw))
    decreases |body|
  {
    if body == [] {
      assert body + t == t;
      PrependNothing(ConsumeStringContent(t, delim, raw));
    } else {
      var c := body[0];
      var more := body[1..];
      assert body + t == [c] + (more + t);
      assert body == [c] + more;
      ContentSkipsBody(more, t, delim, raw);
      if c == '\\' {
        ContentRawBackslash(more + t, delim);
      } else {
        assert !ClosesAt([c] + (more + t), 0, delim) by {
          if |delim| == 3 && |more + t| >= 2 {
            assert ([c] + (more + t))[0..3][0] == c;
          }
        }
        ContentOrdinaryRune(c, more + t, delim, raw);
      }
      PrependTwice([c], more, ConsumeStringContent(t, delim, raw));
    }
  }

  /** The scan of content that never meets its delimiter copies all of it and leaves nothing. */
  lemma ContentUnclosed(body: seq<char>, delim: seq<char>, raw: bool)
    requires |delim| > 0 && delim[0] != '\\' && delim[0] !in body
    requires raw || '\\' !in body
    ensures ConsumeStringContent(body, delim, raw) == Content(body, [], Unclosed)
  {
    ContentSkipsBody(body, [], delim, raw);
    assert body + [] == body;
    ContentBaseCases([], delim, raw);
  }

  /** Content followed by its delimiter: everything up to and including the delimiter is written, the rest is left. */
  lemma ContentClosed(body: seq<char>, t: seq<char>, delim: seq<char>, raw: bool)
    requires (|delim| == 1 || |delim| == 3) && delim[0] != '\\' && delim[0] !in body
    requires raw || '\\' !in body
    ensures ConsumeStringContent(body + delim + t, delim, raw) == Content(body + delim, t, Closed)
  {
    ContentSkipsBody(body, delim + t, delim, raw);
    assert body + delim + t == body + (delim + t);
    var u := delim + t;
    assert ClosesAt(u, 0, delim) by {
      assert u[0..|delim|] == delim;
      if |delim| == 1 {
        assert [u[0]] == delim;
      }
    }
    ContentBaseCases(u, delim, raw);
    assert u[|delim|..] == t;
  }

  /**
    A quote, content free of that quote and of backslashes, and the same quote
    again: the separator copies the whole literal, whatever follows it.
   */
  lemma QuotedLiteral(q: char, body: seq<char>, t: seq<char>)
    requires IsQuote(q) && |body| > 0 && q !in body && '\\' !in body
    ensures ConsumeQuoteStart([q] + body + [q] + t) == Content([q] + body + [q], t, Closed)
  {
    var u := [q] + body + [q] + t;
    assert u[0] == q && u[1] == body[0];
    assert StringPrefix(u) == Prefix(false, false, true, 0);
    assert u[0..] == u;
    assert ConsumeStringDelimiter(u) == Delimiter([q], body + [q] + t);
    ContentClosed(body, t, [q], false);
    assert u[..0] + [q] + (body + [q]) == [q] + body + [q];
  }

  /**
    A raw literal: an `r` or `R`, a quote, content free of that quote, and the
    quote again. Backslashes in the content are copied as they are.
   */
  lemma RawLiteral(letter: char, q: char, body: seq<char>, t: seq<char>)
    requires IsRawLetter(letter) && IsQuote(q) && |body| > 0 && q !in body
    ensures ConsumeQuoteStart([letter, q] + body + [q] + t) == Content([letter, q] + body + [q], t, Closed)
  {
    var u := [letter, q] + body + [q] + t;
    assert u[0] == letter && u[1] == q && u[2] == body[0];
    assert StringPrefix(u) == Prefix(true, false, true, 1);
    assert u[1..] == [q] + body + [q] + t;
    assert ConsumeStringDelimiter(u[1..]) == Delimiter([q], body + [q] + t);
    ContentClosed(body, t, [q], true);
    assert u[..1] + [q] + (body + [q]) == [letter, q] + body + [q];
  }

  /** A literal whose closing quote never comes takes the rest of the input. */
  lemma UnclosedLiteral(q: char, body: seq<char>)
    requires IsQuote(q) && |body| > 0 && q !in body && '\\' !in body
    ensures ConsumeQuoteStart([q] + body) == Content([q] + body, [], Unclosed)
  {
    var u := [q] + body;
    assert u[0] == q && u[1] == body[0];
    assert StringPrefix(u) == Prefix(false, false, true, 0);
    assert u[0..] == u;
    assert ConsumeStringDelimiter(u) == Delimiter([q], body);
    ContentUnclosed(body, [q], false);
    assert u[..0] + [q] + body == u;
  }

  /** A backtick, a name free of backticks and backslashes, and a backtick: the identifier is copied whole. */
  lemma QuotedIdentifier(body: seq<char>, t: seq<char>)
    requires '`' !in body && '\\' !in body
    ensures ConsumeQuotedIdentifier(['`'] + body + ['`'] + t) == Content(['`'] + body + ['`'], t, Closed)
  {
    var u := ['`'] + body + ['`'] + t;
    assert u[1..] == body + "`" + t;
    ContentClosed(body, t, "`", false);
    assert [u[0]] + (body + "`") == ['`'] + body + ['`'];
  }

  /**
    A non-raw literal whose content ends in a lone backslash: everything is
    written, but only the opening quote is consumed, so the content is scanned
    again as ordinary text.
   */
  lemma LoneBackslashLiteral(q: char, body: seq<char>)
    requires IsQuote(q) && q !in body && '\\' !in body
    ensures ConsumeQuoteStart([q] + body + "\\") == Content([q] + body + "\\", body + "\\", LoneBackslash)
  {
    var u := [q] + body + "\\";
    assert u[0] == q && u[1] != q;
    assert StringPrefix(u) == Prefix(false, false, true, 0);
    assert u[0..] == u;
    assert ConsumeStringDelimiter(u) == Delimiter([q], body + "\\");
    ContentSkipsBody(body, "\\", [q], false);
    ContentBaseCases("\\", [q], false);
    assert u[..0] + [q] + (body + "\\") == u;
  }
}
