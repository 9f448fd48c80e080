/**
  How a whole input is cut into statements. An input is described as a list
  of pieces, each a run of chunks (plain text, literals, quoted identifiers
  and comments) ended by a terminator, followed by a last run of chunks with
  no terminator. The separator emits one statement per piece: the text the
  chunks leave in the buffer (comments leave nothing), trimmed, with the
  piece's terminator. Nothing is ever cut inside a literal, an identifier or
  a comment.
 */
module Pieces {
  import opened Text
  import opened Comments
  import opened Literals
  import opened Separator
  import opened SeparatorProperties

  /** A stretch of input that the main loop takes as a unit. */
  datatype Chunk =
    | Words(text: seq<char>)                              // plain text, copied rune by rune
    | Quoted(q: char, body: seq<char>)                    // "body" or 'body'
    | RawQuoted(letter: char, q: char, body: seq<char>)   // r"body", R'body', ...
    | Backticked(body: seq<char>)                         // `body`
    | LineComment(opener: seq<char>, body: seq<char>)     // # body or -- body, with its line feed
    | BlockComment(body: seq<char>)                       // /* body */

  /** The chunk as it appears in the input. */
  function Source(c: Chunk): seq<char> {
    match c
    case Words(p) => p
    case Quoted(q, b) => [q] + b + [q]
    case RawQuoted(l, q, b) => [l, q] + b + [q]
    case Backticked(b) => ['`'] + b + ['`']
    case LineComment(o, b) => o + b + "\n"
    case BlockComment(b) => "/*" + b + "*/"
  }

  predicate IsComment(c: Chunk) {
    c.LineComment? || c.BlockComment?
  }

  /** What the chunk leaves in the statement buffer: comments leave nothing, everything else is kept verbatim. */
  function Kept(c: Chunk): seq<char> {
    if IsComment(c) then [] else Source(c)
  }

  /**
    The chunk is read as one unit wherever it stands: plain text holds no rune
    that starts anything else, a literal's body does not hold its quote (nor,
    outside raw literals, a backslash), and a comment's body does not hold its
    close marker.
   */
  predicate ChunkOk(c: Chunk, terms: seq<seq<char>>) {
    match c
    case Words(p) => Plain(p, terms)
    case Quoted(q, b) => IsQuote(q) && |b| > 0 && q !in b && '\\' !in b
    case RawQuoted(l, q, b) => IsRawLetter(l) && IsQuote(q) && |b| > 0 && q !in b
    case Backticked(b) => '`' !in b && '\\' !in b
    case LineComment(o, b) => (o == "#" || o == "--") && '\n' !in b
    case BlockComment(b) => NoBlockClose(b)
  }

  predicate ChunksOk(cs: seq<Chunk>, terms: seq<seq<char>>) {
    forall i :: 0 <= i < |cs| ==> ChunkOk(cs[i], terms)
  }

  function Sources(cs: seq<Chunk>): seq<char> {
    if |cs| == 0 then [] else Source(cs[0]) + Sources(cs[1..])
  }

  function KeptText(cs: seq<Chunk>): seq<char> {
    if |cs| == 0 then [] else Kept(cs[0]) + KeptText(cs[1..])
  }

  /** A chunk goes into the buffer as a unit, whatever follows it. */
  lemma ChunkCopied(c: Chunk, t: seq<char>, sb: seq<char>, terms: seq<seq<char>>, acc: seq<InputStatement>)
    requires NonEmptyTerms(terms) && ChunkOk(c, terms)
    ensures Separate(Separator(Source(c) + t, sb, terms), acc) == Separate(Separator(t, sb + Kept(c), terms), acc)
  {
    match c
    case Words(p) => PlainRunCopied(p, t, sb, terms, acc);
    case Quoted(q, b) => QuotedCopied(q, b, t, sb, terms, acc);
    case RawQuoted(l, q, b) => RawCopied(l, q, b, t, sb, terms, acc);
    case Backticked(b) => BacktickedCopied(b, t, sb, terms, acc);
    case LineComment(o, b) => LineCommentDropped(o, b, t, sb, terms, acc);
    case BlockComment(b) => BlockCommentDropped(b, t, sb, terms, acc);
  }

  lemma QuotedCopied(q: char, b: seq<char>, t: seq<char>, sb: seq<char>, terms: seq<seq<char>>, acc: seq<InputStatement>)
    requires NonEmptyTerms(terms) && IsQuote(q) && |b| > 0 && q !in b && '\\' !in b
    ensures Separate(Separator([q] + b + [q] + t, sb, terms), acc) == Separate(Separator(t, sb + ([q] + b + [q]), terms), acc)
  {
    QuotedLiteral(q, b, t);
    LiteralRunCopied([q] + b + [q], t, sb, terms, acc);
  }

  lemma RawCopied(l: char, q: char, b: seq<char>, t: seq<char>, sb: seq<char>, terms: seq<seq<char>>, acc: seq<InputStatement>)
    requires NonEmptyTerms(terms) && IsRawLetter(l) && IsQuote(q) && |b| > 0 && q !in b
    ensures Separate(Separator([l, q] + b + [q] + t, sb, terms), acc) == Separate(Separator(t, sb + ([l, q] + b + [q]), terms), acc)
  {
    RawLiteral(l, q, b, t);
    LiteralRunCopied([l, q] + b + [q], t, sb, terms, acc);
  }

  lemma BacktickedCopied(b: seq<char>, t: seq<char>, sb: seq<char>, terms: seq<seq<char>>, acc: seq<InputStatement>)
    requires NonEmptyTerms(terms) && '`' !in b && '\\' !in b
    ensures Separate(Separator(['`'] + b + ['`'] + t, sb, terms), acc) == Separate(Separator(t, sb + (['`'] + b + ['`']), terms), acc)
  {
    QuotedIdentifier(b, t);
    IdentifierRunCopied(['`'] + b + ['`'], t, sb, terms, acc);
  }

  lemma LineCommentDropped(o: seq<char>, b: seq<char>, t: seq<char>, sb: seq<char>, terms: seq<seq<char>>, acc: seq<InputStatement>)
    requires NonEmptyTerms(terms) && (o == "#" || o == "--") && '\n' !in b
    ensures Separate(Separator(o + b + "\n" + t, sb, terms), acc) == Separate(Separator(t, sb + [], terms), acc)
  {
    SkipLineComment(o, b, t);
    CommentDropped(o + b + "\n", t, sb, terms, acc);
  }

  lemma BlockCommentDropped(b: seq<char>, t: seq<char>, sb: seq<char>, terms: seq<seq<char>>, acc: seq<InputStatement>)
    requires NonEmptyTerms(terms) && NoBlockClose(b)
    ensures Separate(Separator("/*" + b + "*/" + t, sb, terms), acc) == Separate(Separator(t, sb + [], terms), acc)
  {
    SkipBlockComment(b, t);
    CommentDropped("/*" + b + "*/", t, sb, terms, acc);
  }

  lemma CommentDropped(cm: seq<char>, t: seq<char>, sb: seq<char>, terms: seq<seq<char>>, acc: seq<InputStatement>)
    requires NonEmptyTerms(terms) && SkipComments(cm + t) == SkipComments(t)
    ensures Separate(Separator(cm + t, sb, terms), acc) == Separate(Separator(t, sb + [], terms), acc)
  {
    CommentRunSkipped(cm + t, sb, terms, acc);
    CommentRunSkipped(t, sb, terms, acc);
    AppendEmpty(sb);
  }

  /** A run of chunks leaves exactly their kept text in the buffer, whatever follows it, and emits nothing. */
  lemma {:induction false} ChunksCopied(cs: seq<Chunk>, t: seq<char>, sb: seq<char>, terms: seq<seq<char>>, acc: seq<InputStatement>)
    requires NonEmptyTerms(terms) && ChunksOk(cs, terms)
    ensures Separate(Separator(Sources(cs) + t, sb, terms), acc) == Separate(Separator(t, sb + KeptText(cs), terms), acc)
    decreases |cs|
  {
    if |cs| == 0 {
      AppendEmpty(t);
      AppendEmpty(sb);
    } else {
      ChunksCopied(cs[1..], t, sb + Kept(cs[0]), terms, acc);
      ChunksStep(cs, t, sb, terms, acc);
    }
  }

  lemma ChunksStep(cs: seq<Chunk>, t: seq<char>, sb: seq<char>, terms: seq<seq<char>>, acc: seq<InputStatement>)
    requires NonEmptyTerms(terms) && ChunksOk(cs, terms) && |cs| > 0
    requires Separate(Separator(Sources(cs[1..]) + t, sb + Kept(cs[0]), terms), acc)
          == Separate(Separator(t, sb + Kept(cs[0]) + KeptText(cs[1..]), terms), acc)
    ensures Separate(Separator(Sources(cs) + t, sb, terms), acc) == Separate(Separator(t, sb + KeptText(cs), terms), acc)
  {
    assert ChunkOk(cs[0], terms);
    ConcatAssoc(Source(cs[0]), Sources(cs[1..]), t);
    ChunkCopied(cs[0], Sources(cs[1..]) + t, sb, terms, acc);
    ConcatAssoc(sb, Kept(cs[0]), KeptText(cs[1..]));
  }

  /** A run of chunks ended by a terminator. */
  datatype Piece = Piece(chunks: seq<Chunk>, terminator: seq<char>)

  predicate PieceOk(p: Piece, terms: seq<seq<char>>) {
    ChunksOk(p.chunks, terms) && SafeTerminator(p.terminator, terms)
  }

  predicate PiecesOk(ps: seq<Piece>, terms: seq<seq<char>>) {
    forall i :: 0 <= i < |ps| ==> PieceOk(ps[i], terms)
  }

  /** The input the pieces are written as: each piece's chunks, then its terminator, in order. */
  function Joined(ps: seq<Piece>): seq<char> {
    if |ps| == 0 then [] else Sources(ps[0].chunks) + ps[0].terminator + Joined(ps[1..])
  }

  /** The statement a piece should become: its kept text trimmed, with its terminator. */
  function Expected(p: Piece): InputStatement {
    InputStatement(TrimSpace(KeptText(p.chunks)), p.terminator)
  }

  function ExpectedAll(ps: seq<Piece>): seq<InputStatement> {
    if |ps| == 0 then [] else [Expected(ps[0])] + ExpectedAll(ps[1..])
  }

  /** A piece becomes one statement, and the buffer starts over after its terminator. */
  lemma PieceEnds(p: Piece, rest: seq<char>, terms: seq<seq<char>>, acc: seq<InputStatement>)
    requires NonEmptyTerms(terms) && PieceOk(p, terms)
    ensures Separate(Separator(Sources(p.chunks) + p.terminator + rest, [], terms), acc)
         == Separate(Separator(rest, [], terms), acc + [Expected(p)])
  {
    ConcatAssoc(Sources(p.chunks), p.terminator, rest);
    ChunksCopied(p.chunks, p.terminator + rest, [], terms, acc);
    AppendEmpty(KeptText(p.chunks));
    TerminatorRunEnds(p.terminator, rest, KeptText(p.chunks), terms, acc);
  }

  /**
    Whatever comes after them, the pieces are cut off one by one: each becomes
    its expected statement, in order, empty ones included, and the scan goes
    on after the last terminator with an empty buffer.
   */
  lemma {:induction false} PiecesSplit(ps: seq<Piece>, rest: seq<char>, terms: seq<seq<char>>, acc: seq<InputStatement>)
    requires NonEmptyTerms(terms) && PiecesOk(ps, terms)
    ensures Separate(Separator(Joined(ps) + rest, [], terms), acc)
         == Separate(Separator(rest, [], terms), acc + ExpectedAll(ps))
    decreases |ps|
  {
    if |ps| == 0 {
      AppendEmpty(rest);
      AppendEmpty(acc);
    } else {
      var tail := ps[1..];
      assert PiecesOk(tail, terms) by {
        forall i | 0 <= i < |tail|
          ensures PieceOk(tail[i], terms)
        {
          assert tail[i] == ps[i + 1];
        }
      }
      PiecesSplit(tail, rest, terms, acc + [Expected(ps[0])]);
      PiecesStep(ps, rest, terms, acc);
    }
  }

  lemma PiecesStep(ps: seq<Piece>, rest: seq<char>, terms: seq<seq<char>>, acc: seq<InputStatement>)
    requires NonEmptyTerms(terms) && PiecesOk(ps, terms) && |ps| > 0
    requires Separate(Separator(Joined(ps[1..]) + rest, [], terms), acc + [Expected(ps[0])])
          == Separate(Separator(rest, [], terms), acc + [Expected(ps[0])] + ExpectedAll(ps[1..]))
    ensures Separate(Separator(Joined(ps) + rest, [], terms), acc)
         == Separate(Separator(rest, [], terms), acc + ExpectedAll(ps))
  {
    var p := ps[0];
    assert PieceOk(p, terms);
    ConcatAssoc(Sources(p.chunks) + p.terminator, Joined(ps[1..]), rest);
    PieceEnds(p, Joined(ps[1..]) + rest, terms, acc);
    ConcatAssoc(acc, [Expected(p)], ExpectedAll(ps[1..]));
  }

  /** The trailing run of chunks ends up in the buffer and is flushed at the end of the input. */
  lemma LastChunksFlushed(last: seq<Chunk>, terms: seq<seq<char>>, acc: seq<InputStatement>)
    requires NonEmptyTerms(terms) && ChunksOk(last, terms)
    ensures Separate(Separator(Sources(last), [], terms), acc) == acc + Flush(KeptText(last), [])
  {
    AppendEmpty(Sources(last));
    ChunksCopied(last, [], [], terms, acc);
    AppendEmpty(KeptText(last));
    SeparateAtEnd(KeptText(last), terms, acc);
  }

  /**
    The separator cuts an input made of pieces and a trailing run of chunks
    exactly at the pieces' terminators: one trimmed statement per piece, in
    order, with its terminator, and a trailing statement with an empty
    terminator exactly when the trailing run leaves more than white space.
   */
  lemma SplitJoined(ps: seq<Piece>, last: seq<Chunk>, terms: seq<seq<char>>)
    requires NonEmptyTerms(terms) && PiecesOk(ps, terms) && ChunksOk(last, terms)
    ensures SeparateInput(Joined(ps) + Sources(last), terms)
         == ExpectedAll(ps) + (if AllSpace(KeptText(last)) then [] else [InputStatement(TrimSpace(KeptText(last)), [])])
  {
    PiecesSplit(ps, Sources(last), terms, []);
    AppendEmpty(ExpectedAll(ps));
    LastChunksFlushed(last, terms, ExpectedAll(ps));
    TrailingStatement(KeptText(last));
  }

  /** A literal whose closing quote never comes takes the rest of the input into the trailing statement. */
  lemma UnclosedAtEnd(q: char, body: seq<char>, sb: seq<char>, terms: seq<seq<char>>, acc: seq<InputStatement>)
    requires NonEmptyTerms(terms) && IsQuote(q) && |body| > 0 && q !in body && '\\' !in body
    ensures Separate(Separator([q] + body, sb, terms), acc) == acc + Flush(sb + ([q] + body), [])
  {
    UnclosedLiteral(q, body);
    AppendEmpty([q] + body);
    LiteralRunCopied([q] + body, [], sb, terms, acc);
    SeparateAtEnd(sb + ([q] + body), terms, acc);
  }

  /**
    A string literal left open at the end of the input swallows the rest of
    it: the statement after the last terminator is flushed with everything
    up to the end, the literal included, and an empty terminator.
   */
  lemma SplitJoinedUnclosed(ps: seq<Piece>, last: seq<Chunk>, q: char, body: seq<char>, terms: seq<seq<char>>)
    requires NonEmptyTerms(terms) && PiecesOk(ps, terms) && ChunksOk(last, terms)
    requires IsQuote(q) && |body| > 0 && q !in body && '\\' !in body
    ensures SeparateInput(Joined(ps) + (Sources(last) + ([q] + body)), terms)
         == ExpectedAll(ps) + [InputStatement(TrimSpace(KeptText(last) + ([q] + body)), [])]
  {
    var t := [q] + body;
    PiecesSplit(ps, Sources(last) + t, terms, []);
    AppendEmpty(ExpectedAll(ps));
    ChunksCopied(last, t, [], terms, ExpectedAll(ps));
    AppendEmpty(KeptText(last));
    UnclosedAtEnd(q, body, KeptText(last), terms, ExpectedAll(ps));
    OpenLiteralFlushed(KeptText(last), q, body);
  }

  lemma OpenLiteralFlushed(sb: seq<char>, q: char, body: seq<char>)
    requires IsQuote(q)
    ensures Flush(sb + ([q] + body), []) == [InputStatement(TrimSpace(sb + ([q] + body)), [])]
  {
    assert (sb + ([q] + body))[|sb|] == q;
  }

  /** The texts the pieces should become. */
  function Texts(ps: seq<Piece>): seq<seq<char>> {
    if |ps| == 0 then [] else [TrimSpace(KeptText(ps[0].chunks))] + Texts(ps[1..])
  }

  lemma {:induction false} TextsAreStatements(ps: seq<Piece>)
    ensures Statements(ExpectedAll(ps)) == Texts(ps)
    decreases |ps|
  {
    if |ps| > 0 {
      StatementsConcat([Expected(ps[0])], ExpectedAll(ps[1..]));
      TextsAreStatements(ps[1..]);
    }
  }

  /** The same cut, seen through the text-only entry point. */
  lemma SplitJoinedStrings(ps: seq<Piece>, last: seq<Chunk>, terms: seq<seq<char>>)
    requires NonEmptyTerms(terms) && PiecesOk(ps, terms) && ChunksOk(last, terms)
    ensures SeparateInputString(Joined(ps) + Sources(last), terms)
         == Texts(ps) + (if AllSpace(KeptText(last)) then [] else [TrimSpace(KeptText(last))])
  {
    SplitJoined(ps, last, terms);
    var tail := if AllSpace(KeptText(last)) then [] else [InputStatement(TrimSpace(KeptText(last)), [])];
    StatementsConcat(ExpectedAll(ps), tail);
    TextsAreStatements(ps);
    assert Statements(tail) == if AllSpace(KeptText(last)) then [] else [TrimSpace(KeptText(last))];
  }
}
