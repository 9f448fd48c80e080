/**
  Worked inputs from the separator's own test table, cut with the custom
  terminator `\G`. Each input is written as pieces and chunks, and the
  general splitting theorems give its statements. Every fact about a
  concrete input sits in a lemma of its own, so that each proof sees only a
  few literal strings at a time.
 */
module Vectors {
  import opened Text
  import opened Comments
  import opened Literals
  import opened Separator
  import opened SeparatorProperties
  import opened Pieces

  /** The custom terminator the command-line client passes: `\G`. */
  const G: seq<seq<char>> := ["\\G"]

  lemma GNonEmpty()
    ensures NonEmptyTerms(G)
  {
    assert |G| == 1 && |G[0]| == 2;
  }

  /** The statements an input of pieces and a trailing run of chunks should become. */
  function Want(ps: seq<Piece>, last: seq<Chunk>): seq<InputStatement> {
    ExpectedAll(ps) + (if AllSpace(KeptText(last)) then [] else [InputStatement(TrimSpace(KeptText(last)), [])])
  }

  /** An input written as pieces and a trailing run is cut into the statements the pieces call for. */
  lemma Instance(input: seq<char>, ps: seq<Piece>, last: seq<Chunk>, want: seq<InputStatement>)
    requires PiecesOk(ps, G) && ChunksOk(last, G)
    requires input == Joined(ps) + Sources(last)
    requires want == Want(ps, last)
    ensures SeparateInput(input, G) == want
  {
    GNonEmpty();
    SplitJoined(ps, last, G);
  }

  /**
    The same, for an input whose last statement is cut short by a string
    literal that never closes: the text after the last terminator, literal
    included, is `s` padded with white space.
   */
  lemma OpenInstance(input: seq<char>, ps: seq<Piece>, last: seq<Chunk>, q: char, body: seq<char>,
                     pre: seq<char>, s: seq<char>, post: seq<char>, want: seq<InputStatement>)
    requires PiecesOk(ps, G) && ChunksOk(last, G)
    requires IsQuote(q) && |body| > 0 && q !in body && '\\' !in body
    requires input == Joined(ps) + (Sources(last) + ([q] + body))
    requires KeptText(last) + ([q] + body) == pre + s + post
    requires AllSpace(pre) && AllSpace(post) && IsTrimmed(s)
    requires want == ExpectedAll(ps) + [InputStatement(s, [])]
    ensures SeparateInput(input, G) == want
  {
    GNonEmpty();
    SplitJoinedUnclosed(ps, last, q, body, G);
    TrimAround(pre, s, post);
  }

  /** A piece whose kept text is `s` padded with white space becomes the statement `s`. */
  lemma PieceBecomes(p: Piece, pre: seq<char>, s: seq<char>, post: seq<char>)
    requires KeptText(p.chunks) == pre + s + post
    requires AllSpace(pre) && AllSpace(post) && IsTrimmed(s)
    ensures Expected(p) == InputStatement(s, p.terminator)
  {
    TrimAround(pre, s, post);
  }

  /** Upper-case letters other than the literal prefixes, digits, commas and white space. */
  predicate Ordinary(c: char) {
    ('A' <= c <= 'Z' && c != 'R' && c != 'B') || ('0' <= c <= '9') || c == ',' || c == ' ' || c == '\n'
  }

  /** Text made of ordinary runes is plain under `\G`: it opens nothing and ends nothing. */
  lemma OrdinaryWords(p: seq<char>)
    requires forall k :: 0 <= k < |p| ==> Ordinary(p[k])
    ensures ChunkOk(Words(p), G)
  {
    forall k | 0 <= k < |p|
      ensures PlainAt(p, k, G)
    {
      assert forall j :: 0 <= j < |G| ==> G[j] == "\\G";
    }
  }

  lemma TerminatorSafe()
    ensures SafeTerminator("\\G", G) && SafeTerminator(";", G)
  {
    assert Reachable("\\G") by {
      assert !OpensComment("\\G");
    }
  }

  // Short lists of chunks and pieces, spelled out element by element.

  lemma NoChunks(terms: seq<seq<char>>)
    ensures Sources([]) == [] && KeptText([]) == [] && ChunksOk([], terms)
  {
  }

  lemma OneChunk(cs: seq<Chunk>, terms: seq<seq<char>>)
    requires |cs| == 1
    ensures Sources(cs) == Source(cs[0]) && KeptText(cs) == Kept(cs[0])
    ensures ChunkOk(cs[0], terms) ==> ChunksOk(cs, terms)
  {
    assert Sources(cs[1..]) == [] && KeptText(cs[1..]) == [];
  }

  lemma TwoChunks(cs: seq<Chunk>, terms: seq<seq<char>>)
    requires |cs| == 2
    ensures Sources(cs) == Source(cs[0]) + Source(cs[1])
    ensures KeptText(cs) == Kept(cs[0]) + Kept(cs[1])
    ensures ChunkOk(cs[0], terms) && ChunkOk(cs[1], terms) ==> ChunksOk(cs, terms)
  {
    OneChunk(cs[1..], terms);
  }

  lemma ThreeChunks(cs: seq<Chunk>, terms: seq<seq<char>>)
    requires |cs| == 3
    ensures Sources(cs) == Source(cs[0]) + (Source(cs[1]) + Source(cs[2]))
    ensures KeptText(cs) == Kept(cs[0]) + (Kept(cs[1]) + Kept(cs[2]))
    ensures ChunkOk(cs[0], terms) && ChunkOk(cs[1], terms) && ChunkOk(cs[2], terms) ==> ChunksOk(cs, terms)
  {
    TwoChunks(cs[1..], terms);
  }

  lemma FourChunks(cs: seq<Chunk>, terms: seq<seq<char>>)
    requires |cs| == 4
    ensures Sources(cs) == Source(cs[0]) + (Source(cs[1]) + (Source(cs[2]) + Source(cs[3])))
    ensures KeptText(cs) == Kept(cs[0]) + (Kept(cs[1]) + (Kept(cs[2]) + Kept(cs[3])))
    ensures ChunkOk(cs[0], terms) && ChunkOk(cs[1], terms) && ChunkOk(cs[2], terms) && ChunkOk(cs[3], terms)
            ==> ChunksOk(cs, terms)
  {
    ThreeChunks(cs[1..], terms);
  }

  lemma OnePiece(ps: seq<Piece>, terms: seq<seq<char>>)
    requires |ps| == 1
    ensures Joined(ps) == Sources(ps[0].chunks) + ps[0].terminator
    ensures PieceOk(ps[0], terms) ==> PiecesOk(ps, terms)
  {
    assert Joined(ps[1..]) == [];
    AppendEmpty(Sources(ps[0].chunks) + ps[0].terminator);
  }

  lemma OneExpected(ps: seq<Piece>)
    requires |ps| == 1
    ensures ExpectedAll(ps) == [Expected(ps[0])]
  {
    assert ExpectedAll(ps[1..]) == [];
    AppendEmpty([Expected(ps[0])]);
  }

  lemma TwoPieces(ps: seq<Piece>, terms: seq<seq<char>>)
    requires |ps| == 2
    ensures Joined(ps) == Sources(ps[0].chunks) + ps[0].terminator + (Sources(ps[1].chunks) + ps[1].terminator)
    ensures PieceOk(ps[0], terms) && PieceOk(ps[1], terms) ==> PiecesOk(ps, terms)
  {
    OnePiece(ps[1..], terms);
  }

  /** Two one-element sequences joined make the pair. */
  lemma Pair<T>(a: seq<T>, x: T, b: seq<T>, y: T)
    requires a == [x] && b == [y]
    ensures a + b == [x, y]
  {
  }

  lemma TwoExpected(ps: seq<Piece>)
    requires |ps| == 2
    ensures ExpectedAll(ps) == [Expected(ps[0]), Expected(ps[1])]
  {
    var t := ps[1..];
    assert t[0] == ps[1];
    OneExpected(t);
    Pair([Expected(ps[0])], Expected(ps[0]), ExpectedAll(t), Expected(ps[1]));
  }

  lemma ThreePieces(ps: seq<Piece>, terms: seq<seq<char>>)
    requires |ps| == 3
    ensures Joined(ps) == Sources(ps[0].chunks) + ps[0].terminator
                        + (Sources(ps[1].chunks) + ps[1].terminator + (Sources(ps[2].chunks) + ps[2].terminator))
    ensures PieceOk(ps[0], terms) && PieceOk(ps[1], terms) && PieceOk(ps[2], terms) ==> PiecesOk(ps, terms)
  {
    TwoPieces(ps[1..], terms);
  }

  /** A one-element sequence joined to a pair makes the triple. */
  lemma Triple<T>(a: seq<T>, x: T, b: seq<T>, y: T, z: T)
    requires a == [x] && b == [y, z]
    ensures a + b == [x, y, z]
  {
  }

  lemma ThreeExpected(ps: seq<Piece>)
    requires |ps| == 3
    ensures ExpectedAll(ps) == [Expected(ps[0]), Expected(ps[1]), Expected(ps[2])]
  {
    var t := ps[1..];
    assert t[0] == ps[1] && t[1] == ps[2];
    TwoExpected(t);
    Triple([Expected(ps[0])], Expected(ps[0]), ExpectedAll(t), Expected(ps[1]), Expected(ps[2]));
  }

  /** Nothing trails when the trailing run keeps only white space. */
  lemma NothingTrails(ps: seq<Piece>, last: seq<Chunk>)
    requires AllSpace(KeptText(last))
    ensures Want(ps, last) == ExpectedAll(ps)
  {
    AppendEmpty(ExpectedAll(ps));
  }

  // Plain words that occur in the inputs below.

  lemma SelectOneWords()
    ensures ChunkOk(Words("SELECT 1"), G)
  {
    OrdinaryWords("SELECT 1");
  }

  lemma SpaceWords()
    ensures ChunkOk(Words(" "), G)
  {
    OrdinaryWords(" ");
  }

  lemma SelectWords()
    ensures ChunkOk(Words("SELECT "), G)
  {
    OrdinaryWords("SELECT ");
  }

  lemma SpacedSelectWords()
    ensures ChunkOk(Words(" SELECT "), G)
  {
    OrdinaryWords(" SELECT ");
  }

  lemma NewlineWords()
    ensures ChunkOk(Words("\n"), G)
  {
    OrdinaryWords("\n");
  }

  lemma OneWords()
    ensures ChunkOk(Words(" 1"), G)
  {
    OrdinaryWords(" 1");
  }

  lemma SelectTwoWords()
    ensures ChunkOk(Words("SELECT 2"), G)
  {
    OrdinaryWords("SELECT 2");
  }

  lemma NewlineSelectTwoWords()
    ensures ChunkOk(Words("\n SELECT 2"), G)
  {
    OrdinaryWords("\n SELECT 2");
  }

  lemma CommaWords()
    ensures ChunkOk(Words(", "), G)
  {
    OrdinaryWords(", ");
  }

  // ---------------------------------------------------------------------
  // `SELECT "123";` (separator_test.go:300-309)

  const SinglePieces: seq<Piece> :=
    [ Piece([Words("SELECT "), Quoted('"', "123")], ";") ]

  lemma SingleFirstChunks()
    ensures ChunkOk(Words("SELECT "), G) && ChunkOk(Quoted('"', "123"), G)
  {
    SelectWords();
  }

  lemma SingleFirstOk()
    ensures PieceOk(SinglePieces[0], G)
  {
    TwoChunks(SinglePieces[0].chunks, G);
    SingleFirstChunks();
    TerminatorSafe();
  }

  lemma SingleFirstSpelled()
    ensures "SELECT " + (['"'] + "123" + ['"']) == "SELECT \"123\""
    ensures "SELECT " + (['"'] + "123" + ['"']) == "" + "SELECT \"123\"" + ""
  {
  }

  lemma SingleFirstText()
    ensures Sources(SinglePieces[0].chunks) == "SELECT \"123\""
    ensures KeptText(SinglePieces[0].chunks) == "" + "SELECT \"123\"" + ""
  {
    TwoChunks(SinglePieces[0].chunks, G);
    SingleFirstSpelled();
  }

  lemma SingleFirst()
    ensures Expected(SinglePieces[0]) == InputStatement("SELECT \"123\"", ";")
  {
    SingleFirstText();
    PieceBecomes(SinglePieces[0], "", "SELECT \"123\"", "");
  }

  lemma SingleSpelled()
    ensures "SELECT \"123\"" + ";" + "" == "SELECT \"123\";"
  {
  }

  lemma SingleInputOk()
    ensures PiecesOk(SinglePieces, G) && ChunksOk([], G)
  {
    OnePiece(SinglePieces, G);
    SingleFirstOk();
    NoChunks(G);
  }

  lemma SingleInputText()
    ensures "SELECT \"123\";" == Joined(SinglePieces) + Sources([])
  {
    OnePiece(SinglePieces, G);
    SingleFirstText();
    NoChunks(G);
    SingleSpelled();
  }

  lemma SingleOutput()
    ensures [InputStatement("SELECT \"123\"", ";")] == Want(SinglePieces, [])
  {
    OneExpected(SinglePieces);
    SingleFirst();
    NoChunks(G);
    NothingTrails(SinglePieces, []);
  }

  /** One statement ended by a semicolon. */
  lemma SingleQuery()
    ensures SeparateInput("SELECT \"123\";", G)
         == [InputStatement("SELECT \"123\"", ";")]
  {
    SingleInputOk();
    SingleInputText();
    SingleOutput();
    Instance("SELECT \"123\";", SinglePieces, [],
             [InputStatement("SELECT \"123\"", ";")]);
  }

  // ---------------------------------------------------------------------
  // `SELECT "123"; SELECT "456";` (separator_test.go:310-323)

  const DoublePieces: seq<Piece> :=
    [ Piece([Words("SELECT "), Quoted('"', "123")], ";"),
      Piece([Words(" SELECT "), Quoted('"', "456")], ";") ]

  lemma DoubleFirstChunks()
    ensures ChunkOk(Words("SELECT "), G) && ChunkOk(Quoted('"', "123"), G)
  {
    SelectWords();
  }

  lemma DoubleFirstOk()
    ensures PieceOk(DoublePieces[0], G)
  {
    TwoChunks(DoublePieces[0].chunks, G);
    DoubleFirstChunks();
    TerminatorSafe();
  }

  lemma DoubleFirstSpelled()
    ensures "SELECT " + (['"'] + "123" + ['"']) == "SELECT \"123\""
    ensures "SELECT " + (['"'] + "123" + ['"']) == "" + "SELECT \"123\"" + ""
  {
  }

  lemma DoubleFirstText()
    ensures Sources(DoublePieces[0].chunks) == "SELECT \"123\""
    ensures KeptText(DoublePieces[0].chunks) == "" + "SELECT \"123\"" + ""
  {
    TwoChunks(DoublePieces[0].chunks, G);
    DoubleFirstSpelled();
  }

  lemma DoubleFirst()
    ensures Expected(DoublePieces[0]) == InputStatement("SELECT \"123\"", ";")
  {
    DoubleFirstText();
    PieceBecomes(DoublePieces[0], "", "SELECT \"123\"", "");
  }

  lemma DoubleSecondChunks()
    ensures ChunkOk(Words(" SELECT "), G) && ChunkOk(Quoted('"', "456"), G)
  {
    SpacedSelectWords();
  }

  lemma DoubleSecondOk()
    ensures PieceOk(DoublePieces[1], G)
  {
    TwoChunks(DoublePieces[1].chunks, G);
    DoubleSecondChunks();
    TerminatorSafe();
  }

  lemma DoubleSecondSpelled()
    ensures " SELECT " + (['"'] + "456" + ['"']) == " SELECT \"456\""
    ensures " SELECT " + (['"'] + "456" + ['"']) == " " + "SELECT \"456\"" + ""
  {
  }

  lemma DoubleSecondText()
    ensures Sources(DoublePieces[1].chunks) == " SELECT \"456\""
    ensures KeptText(DoublePieces[1].chunks) == " " + "SELECT \"456\"" + ""
  {
    TwoChunks(DoublePieces[1].chunks, G);
    DoubleSecondSpelled();
  }

  lemma DoubleSecond()
    ensures Expected(DoublePieces[1]) == InputStatement("SELECT \"456\"", ";")
  {
    DoubleSecondText();
    PieceBecomes(DoublePieces[1], " ", "SELECT \"456\"", "");
  }

  lemma DoubleSpelled()
    ensures "SELECT \"123\"" + ";" + (" SELECT \"456\"" + ";") + "" == "SELECT \"123\"; SELECT \"456\";"
  {
  }

  lemma DoubleInputOk()
    ensures PiecesOk(DoublePieces, G) && ChunksOk([], G)
  {
    TwoPieces(DoublePieces, G);
    DoubleFirstOk();
    DoubleSecondOk();
    NoChunks(G);
  }

  lemma DoubleInputText()
    ensures "SELECT \"123\"; SELECT \"456\";" == Joined(DoublePieces) + Sources([])
  {
    TwoPieces(DoublePieces, G);
    DoubleFirstText();
    DoubleSecondText();
    NoChunks(G);
    DoubleSpelled();
  }

  lemma DoubleOutput()
    ensures [InputStatement("SELECT \"123\"", ";"), InputStatement("SELECT \"456\"", ";")] == Want(DoublePieces, [])
  {
    TwoExpected(DoublePieces);
    DoubleFirst();
    DoubleSecond();
    NoChunks(G);
    NothingTrails(DoublePieces, []);
  }

  /** Two statements, each ended by a semicolon; the space after the first terminator is trimmed off the second. */
  lemma DoubleQueries()
    ensures SeparateInput("SELECT \"123\"; SELECT \"456\";", G)
         == [InputStatement("SELECT \"123\"", ";"), InputStatement("SELECT \"456\"", ";")]
  {
    DoubleInputOk();
    DoubleInputText();
    DoubleOutput();
    Instance("SELECT \"123\"; SELECT \"456\";", DoublePieces, [],
             [InputStatement("SELECT \"123\"", ";"), InputStatement("SELECT \"456\"", ";")]);
  }

  // ---------------------------------------------------------------------
  // "SELECT `1`, `2`; SELECT `3`, `4`;" (separator_test.go:324-337)

  const IdentPieces: seq<Piece> :=
    [ Piece([Words("SELECT "), Backticked("1"), Words(", "), Backticked("2")], ";"),
      Piece([Words(" SELECT "), Backticked("3"), Words(", "), Backticked("4")], ";") ]

  lemma IdentFirstChunks()
    ensures ChunkOk(Words("SELECT "), G) && ChunkOk(Backticked("1"), G) && ChunkOk(Words(", "), G) && ChunkOk(Backticked("2"), G)
  {
    SelectWords();
    CommaWords();
  }

  lemma IdentFirstOk()
    ensures PieceOk(IdentPieces[0], G)
  {
    FourChunks(IdentPieces[0].chunks, G);
    IdentFirstChunks();
    TerminatorSafe();
  }

  lemma IdentFirstSpelled()
    ensures "SELECT " + ((['`'] + "1" + ['`']) + (", " + (['`'] + "2" + ['`']))) == "SELECT `1`, `2`"
    ensures "SELECT " + ((['`'] + "1" + ['`']) + (", " + (['`'] + "2" + ['`']))) == "" + "SELECT `1`, `2`" + ""
  {
  }

  lemma IdentFirstText()
    ensures Sources(IdentPieces[0].chunks) == "SELECT `1`, `2`"
    ensures KeptText(IdentPieces[0].chunks) == "" + "SELECT `1`, `2`" + ""
  {
    FourChunks(IdentPieces[0].chunks, G);
    IdentFirstSpelled();
  }

  lemma IdentFirst()
    ensures Expected(IdentPieces[0]) == InputStatement("SELECT `1`, `2`", ";")
  {
    IdentFirstText();
    PieceBecomes(IdentPieces[0], "", "SELECT `1`, `2`", "");
  }

  lemma IdentSecondChunks()
    ensures ChunkOk(Words(" SELECT "), G) && ChunkOk(Backticked("3"), G) && ChunkOk(Words(", "), G) && ChunkOk(Backticked("4"), G)
  {
    SpacedSelectWords();
    CommaWords();
  }

  lemma IdentSecondOk()
    ensures PieceOk(IdentPieces[1], G)
  {
    FourChunks(IdentPieces[1].chunks, G);
    IdentSecondChunks();
    TerminatorSafe();
  }

  lemma IdentSecondSpelled()
    ensures " SELECT " + ((['`'] + "3" + ['`']) + (", " + (['`'] + "4" + ['`']))) == " SELECT `3`, `4`"
    ensures " SELECT " + ((['`'] + "3" + ['`']) + (", " + (['`'] + "4" + ['`']))) == " " + "SELECT `3`, `4`" + ""
  {
  }

  lemma IdentSecondText()
    ensures Sources(IdentPieces[1].chunks) == " SELECT `3`, `4`"
    ensures KeptText(IdentPieces[1].chunks) == " " + "SELECT `3`, `4`" + ""
  {
    FourChunks(IdentPieces[1].chunks, G);
    IdentSecondSpelled();
  }

  lemma IdentSecond()
    ensures Expected(IdentPieces[1]) == InputStatement("SELECT `3`, `4`", ";")
  {
    IdentSecondText();
    PieceBecomes(IdentPieces[1], " ", "SELECT `3`, `4`", "");
  }

  lemma IdentSpelled()
    ensures "SELECT `1`, `2`" + ";" + (" SELECT `3`, `4`" + ";") + "" == "SELECT `1`, `2`; SELECT `3`, `4`;"
  {
  }

  lemma IdentInputOk()
    ensures PiecesOk(IdentPieces, G) && ChunksOk([], G)
  {
    TwoPieces(IdentPieces, G);
    IdentFirstOk();
    IdentSecondOk();
    NoChunks(G);
  }

  lemma IdentInputText()
    ensures "SELECT `1`, `2`; SELECT `3`, `4`;" == Joined(IdentPieces) + Sources([])
  {
    TwoPieces(IdentPieces, G);
    IdentFirstText();
    IdentSecondText();
    NoChunks(G);
    IdentSpelled();
  }

  lemma IdentOutput()
    ensures [InputStatement("SELECT `1`, `2`", ";"), InputStatement("SELECT `3`, `4`", ";")] == Want(IdentPieces, [])
  {
    TwoExpected(IdentPieces);
    IdentFirst();
    IdentSecond();
    NoChunks(G);
    NothingTrails(IdentPieces, []);
  }

  /** Quoted identifiers are kept as they are in the statements. */
  lemma QuotedIdentifiers()
    ensures SeparateInput("SELECT `1`, `2`; SELECT `3`, `4`;", G)
         == [InputStatement("SELECT `1`, `2`", ";"), InputStatement("SELECT `3`, `4`", ";")]
  {
    IdentInputOk();
    IdentInputText();
    IdentOutput();
    Instance("SELECT `1`, `2`; SELECT `3`, `4`;", IdentPieces, [],
             [InputStatement("SELECT `1`, `2`", ";"), InputStatement("SELECT `3`, `4`", ";")]);
  }

  // ---------------------------------------------------------------------
  // `SELECT "123"\G` (separator_test.go:338-347)

  const VerticalPieces: seq<Piece> :=
    [ Piece([Words("SELECT "), Quoted('"', "123")], "\\G") ]

  lemma VerticalFirstChunks()
    ensures ChunkOk(Words("SELECT "), G) && ChunkOk(Quoted('"', "123"), G)
  {
    SelectWords();
  }

  lemma VerticalFirstOk()
    ensures PieceOk(VerticalPieces[0], G)
  {
    TwoChunks(VerticalPieces[0].chunks, G);
    VerticalFirstChunks();
    TerminatorSafe();
  }

  lemma VerticalFirstSpelled()
    ensures "SELECT " + (['"'] + "123" + ['"']) == "SELECT \"123\""
    ensures "SELECT " + (['"'] + "123" + ['"']) == "" + "SELECT \"123\"" + ""
  {
  }

  lemma VerticalFirstText()
    ensures Sources(VerticalPieces[0].chunks) == "SELECT \"123\""
    ensures KeptText(VerticalPieces[0].chunks) == "" + "SELECT \"123\"" + ""
  {
    TwoChunks(VerticalPieces[0].chunks, G);
    VerticalFirstSpelled();
  }

  lemma VerticalFirst()
    ensures Expected(VerticalPieces[0]) == InputStatement("SELECT \"123\"", "\\G")
  {
    VerticalFirstText();
    PieceBecomes(VerticalPieces[0], "", "SELECT \"123\"", "");
  }

  lemma VerticalSpelled()
    ensures "SELECT \"123\"" + "\\G" + "" == "SELECT \"123\"\\G"
  {
  }

  lemma VerticalInputOk()
    ensures PiecesOk(VerticalPieces, G) && ChunksOk([], G)
  {
    OnePiece(VerticalPieces, G);
    VerticalFirstOk();
    NoChunks(G);
  }

  lemma VerticalInputText()
    ensures "SELECT \"123\"\\G" == Joined(VerticalPieces) + Sources([])
  {
    OnePiece(VerticalPieces, G);
    VerticalFirstText();
    NoChunks(G);
    VerticalSpelled();
  }

  lemma VerticalOutput()
    ensures [InputStatement("SELECT \"123\"", "\\G")] == Want(VerticalPieces, [])
  {
    OneExpected(VerticalPieces);
    VerticalFirst();
    NoChunks(G);
    NothingTrails(VerticalPieces, []);
  }

  /** The custom terminator ends a statement and is reported as its terminator. */
  lemma VerticalTerminator()
    ensures SeparateInput("SELECT \"123\"\\G", G)
         == [InputStatement("SELECT \"123\"", "\\G")]
  {
    VerticalInputOk();
    VerticalInputText();
    VerticalOutput();
    Instance("SELECT \"123\"\\G", VerticalPieces, [],
             [InputStatement("SELECT \"123\"", "\\G")]);
  }

  // ---------------------------------------------------------------------
  // `SELECT "123"; SELECT "456"\G SELECT "789";` (separator_test.go:348-365)

  const MixedPieces: seq<Piece> :=
    [ Piece([Words("SELECT "), Quoted('"', "123")], ";"),
      Piece([Words(" SELECT "), Quoted('"', "456")], "\\G"),
      Piece([Words(" SELECT "), Quoted('"', "789")], ";") ]

  lemma MixedFirstChunks()
    ensures ChunkOk(Words("SELECT "), G) && ChunkOk(Quoted('"', "123"), G)
  {
    SelectWords();
  }

  lemma MixedFirstOk()
    ensures PieceOk(MixedPieces[0], G)
  {
    TwoChunks(MixedPieces[0].chunks, G);
    MixedFirstChunks();
    TerminatorSafe();
  }

  lemma MixedFirstSpelled()
    ensures "SELECT " + (['"'] + "123" + ['"']) == "SELECT \"123\""
    ensures "SELECT " + (['"'] + "123" + ['"']) == "" + "SELECT \"123\"" + ""
  {
  }

  lemma MixedFirstText()
    ensures Sources(MixedPieces[0].chunks) == "SELECT \"123\""
    ensures KeptText(MixedPieces[0].chunks) == "" + "SELECT \"123\"" + ""
  {
    TwoChunks(MixedPieces[0].chunks, G);
    MixedFirstSpelled();
  }

  lemma MixedFirst()
    ensures Expected(MixedPieces[0]) == InputStatement("SELECT \"123\"", ";")
  {
    MixedFirstText();
    PieceBecomes(MixedPieces[0], "", "SELECT \"123\"", "");
  }

  lemma MixedSecondChunks()
    ensures ChunkOk(Words(" SELECT "), G) && ChunkOk(Quoted('"', "456"), G)
  {
    SpacedSelectWords();
  }

  lemma MixedSecondOk()
    ensures PieceOk(MixedPieces[1], G)
  {
    TwoChunks(MixedPieces[1].chunks, G);
    MixedSecondChunks();
    TerminatorSafe();
  }

  lemma MixedSecondSpelled()
    ensures " SELECT " + (['"'] + "456" + ['"']) == " SELECT \"456\""
    ensures " SELECT " + (['"'] + "456" + ['"']) == " " + "SELECT \"456\"" + ""
  {
  }

  lemma MixedSecondText()
    ensures Sources(MixedPieces[1].chunks) == " SELECT \"456\""
    ensures KeptText(MixedPieces[1].chunks) == " " + "SELECT \"456\"" + ""
  {
    TwoChunks(MixedPieces[1].chunks, G);
    MixedSecondSpelled();
  }

  lemma MixedSecond()
    ensures Expected(MixedPieces[1]) == InputStatement("SELECT \"456\"", "\\G")
  {
    MixedSecondText();
    PieceBecomes(MixedPieces[1], " ", "SELECT \"456\"", "");
  }

  lemma MixedThirdChunks()
    ensures ChunkOk(Words(" SELECT "), G) && ChunkOk(Quoted('"', "789"), G)
  {
    SpacedSelectWords();
  }

  lemma MixedThirdOk()
    ensures PieceOk(MixedPieces[2], G)
  {
    TwoChunks(MixedPieces[2].chunks, G);
    MixedThirdChunks();
    TerminatorSafe();
  }

  lemma MixedThirdSpelled()
    ensures " SELECT " + (['"'] + "789" + ['"']) == " SELECT \"789\""
    ensures " SELECT " + (['"'] + "789" + ['"']) == " " + "SELECT \"789\"" + ""
  {
  }

  lemma MixedThirdText()
    ensures Sources(MixedPieces[2].chunks) == " SELECT \"789\""
    ensures KeptText(MixedPieces[2].chunks) == " " + "SELECT \"789\"" + ""
  {
    TwoChunks(MixedPieces[2].chunks, G);
    MixedThirdSpelled();
  }

  lemma MixedThird()
    ensures Expected(MixedPieces[2]) == InputStatement("SELECT \"789\"", ";")
  {
    MixedThirdText();
    PieceBecomes(MixedPieces[2], " ", "SELECT \"789\"", "");
  }

  lemma MixedSpelled()
    ensures "SELECT \"123\"" + ";" + (" SELECT \"456\"" + "\\G" + (" SELECT \"789\"" + ";")) + "" == "SELECT \"123\"; SELECT \"456\"\\G SELECT \"789\";"
  {
  }

  lemma MixedInputOk()
    ensures PiecesOk(MixedPieces, G) && ChunksOk([], G)
  {
    ThreePieces(MixedPieces, G);
    MixedFirstOk();
    MixedSecondOk();
    MixedThirdOk();
    NoChunks(G);
  }

  lemma MixedInputText()
    ensures "SELECT \"123\"; SELECT \"456\"\\G SELECT \"789\";" == Joined(MixedPieces) + Sources([])
  {
    ThreePieces(MixedPieces, G);
    MixedFirstText();
    MixedSecondText();
    MixedThirdText();
    NoChunks(G);
    MixedSpelled();
  }

  lemma MixedOutput()
    ensures [InputStatement("SELECT \"123\"", ";"), InputStatement("SELECT \"456\"", "\\G"), InputStatement("SELECT \"789\"", ";")] == Want(MixedPieces, [])
  {
    ThreeExpected(MixedPieces);
    MixedFirst();
    MixedSecond();
    MixedThird();
    NoChunks(G);
    NothingTrails(MixedPieces, []);
  }

  /** Semicolons and the custom terminator may alternate; each statement reports the one that ended it. */
  lemma MixedTerminators()
    ensures SeparateInput("SELECT \"123\"; SELECT \"456\"\\G SELECT \"789\";", G)
         == [InputStatement("SELECT \"123\"", ";"), InputStatement("SELECT \"456\"", "\\G"), InputStatement("SELECT \"789\"", ";")]
  {
    MixedInputOk();
    MixedInputText();
    MixedOutput();
    Instance("SELECT \"123\"; SELECT \"456\"\\G SELECT \"789\";", MixedPieces, [],
             [InputStatement("SELECT \"123\"", ";"), InputStatement("SELECT \"456\"", "\\G"), InputStatement("SELECT \"789\"", ";")]);
  }

  // ---------------------------------------------------------------------
  // `SELECT 1; ;` (separator_test.go:380-393)

  const EmptyPieces: seq<Piece> :=
    [ Piece([Words("SELECT 1")], ";"),
      Piece([Words(" ")], ";") ]

  lemma EmptyFirstOk()
    ensures PieceOk(EmptyPieces[0], G)
  {
    OneChunk(EmptyPieces[0].chunks, G);
    SelectOneWords();
    TerminatorSafe();
  }

  lemma EmptyFirstText()
    ensures Sources(EmptyPieces[0].chunks) == "SELECT 1"
    ensures KeptText(EmptyPieces[0].chunks) == "" + "SELECT 1" + ""
  {
    OneChunk(EmptyPieces[0].chunks, G);
  }

  lemma EmptyFirst()
    ensures Expected(EmptyPieces[0]) == InputStatement("SELECT 1", ";")
  {
    EmptyFirstText();
    PieceBecomes(EmptyPieces[0], "", "SELECT 1", "");
  }

  lemma EmptySecondOk()
    ensures PieceOk(EmptyPieces[1], G)
  {
    OneChunk(EmptyPieces[1].chunks, G);
    SpaceWords();
    TerminatorSafe();
  }

  lemma EmptySecondText()
    ensures Sources(EmptyPieces[1].chunks) == " "
    ensures KeptText(EmptyPieces[1].chunks) == " " + "" + ""
  {
    OneChunk(EmptyPieces[1].chunks, G);
  }

  lemma EmptySecond()
    ensures Expected(EmptyPieces[1]) == InputStatement("", ";")
  {
    EmptySecondText();
    PieceBecomes(EmptyPieces[1], " ", "", "");
  }

  lemma EmptySpelled()
    ensures "SELECT 1" + ";" + (" " + ";") + "" == "SELECT 1; ;"
  {
  }

  lemma EmptyInputOk()
    ensures PiecesOk(EmptyPieces, G) && ChunksOk([], G)
  {
    TwoPieces(EmptyPieces, G);
    EmptyFirstOk();
    EmptySecondOk();
    NoChunks(G);
  }

  lemma EmptyInputText()
    ensures "SELECT 1; ;" == Joined(EmptyPieces) + Sources([])
  {
    TwoPieces(EmptyPieces, G);
    EmptyFirstText();
    EmptySecondText();
    NoChunks(G);
    EmptySpelled();
  }

  lemma EmptyOutput()
    ensures [InputStatement("SELECT 1", ";"), InputStatement("", ";")] == Want(EmptyPieces, [])
  {
    TwoExpected(EmptyPieces);
    EmptyFirst();
    EmptySecond();
    NoChunks(G);
    NothingTrails(EmptyPieces, []);
  }

  /** An empty statement between two terminators is still reported, with an empty text. */
  lemma SecondQueryEmpty()
    ensures SeparateInput("SELECT 1; ;", G)
         == [InputStatement("SELECT 1", ";"), InputStatement("", ";")]
  {
    EmptyInputOk();
    EmptyInputText();
    EmptyOutput();
    Instance("SELECT 1; ;", EmptyPieces, [],
             [InputStatement("SELECT 1", ";"), InputStatement("", ";")]);
  }

  // ---------------------------------------------------------------------
  // "SELECT 1;\n SELECT 2\\G\n" (separator_test.go:394-407)

  const AfterPieces: seq<Piece> :=
    [ Piece([Words("SELECT 1")], ";"),
      Piece([Words("\n SELECT 2")], "\\G") ]

  lemma AfterFirstOk()
    ensures PieceOk(AfterPieces[0], G)
  {
    OneChunk(AfterPieces[0].chunks, G);
    SelectOneWords();
    TerminatorSafe();
  }

  lemma AfterFirstText()
    ensures Sources(AfterPieces[0].chunks) == "SELECT 1"
    ensures KeptText(AfterPieces[0].chunks) == "" + "SELECT 1" + ""
  {
    OneChunk(AfterPieces[0].chunks, G);
  }

  lemma AfterFirst()
    ensures Expected(AfterPieces[0]) == InputStatement("SELECT 1", ";")
  {
    AfterFirstText();
    PieceBecomes(AfterPieces[0], "", "SELECT 1", "");
  }

  lemma AfterSecondOk()
    ensures PieceOk(AfterPieces[1], G)
  {
    OneChunk(AfterPieces[1].chunks, G);
    NewlineSelectTwoWords();
    TerminatorSafe();
  }

  lemma AfterSecondText()
    ensures Sources(AfterPieces[1].chunks) == "\n SELECT 2"
    ensures KeptText(AfterPieces[1].chunks) == "\n " + "SELECT 2" + ""
  {
    OneChunk(AfterPieces[1].chunks, G);
  }

  lemma AfterSecond()
    ensures Expected(AfterPieces[1]) == InputStatement("SELECT 2", "\\G")
  {
    AfterSecondText();
    PieceBecomes(AfterPieces[1], "\n ", "SELECT 2", "");
  }

  const AfterLast: seq<Chunk> := [Words("\n")]

  lemma AfterLastChunks()
    ensures ChunkOk(Words("\n"), G)
  {
    NewlineWords();
  }

  lemma AfterLastOk()
    ensures ChunksOk(AfterLast, G)
  {
    OneChunk(AfterLast, G);
    AfterLastChunks();
  }

  lemma AfterLastText()
    ensures Sources(AfterLast) == "\n" && KeptText(AfterLast) == "\n"
  {
    OneChunk(AfterLast, G);
  }

  lemma AfterLastSpace()
    ensures AllSpace(KeptText(AfterLast))
  {
    AfterLastText();
    assert IsSpace('\n');
  }

  lemma AfterSpelled()
    ensures "SELECT 1" + ";" + ("\n SELECT 2" + "\\G") + "\n" == "SELECT 1;\n SELECT 2\\G\n"
  {
  }

  lemma AfterInputOk()
    ensures PiecesOk(AfterPieces, G) && ChunksOk(AfterLast, G)
  {
    TwoPieces(AfterPieces, G);
    AfterFirstOk();
    AfterSecondOk();
    AfterLastOk();
  }

  lemma AfterInputText()
    ensures "SELECT 1;\n SELECT 2\\G\n" == Joined(AfterPieces) + Sources(AfterLast)
  {
    TwoPieces(AfterPieces, G);
    AfterFirstText();
    AfterSecondText();
    AfterLastText();
    AfterSpelled();
  }

  lemma AfterOutput()
    ensures [InputStatement("SELECT 1", ";"), InputStatement("SELECT 2", "\\G")] == Want(AfterPieces, AfterLast)
  {
    TwoExpected(AfterPieces);
    AfterFirst();
    AfterSecond();
    AfterLastSpace();
    NothingTrails(AfterPieces, AfterLast);
  }

  /** A line break after a terminator is trimmed off the next statement, and one after the last terminator adds no statement. */
  lemma NewlineAfterTerminator()
    ensures SeparateInput("SELECT 1;\n SELECT 2\\G\n", G)
         == [InputStatement("SELECT 1", ";"), InputStatement("SELECT 2", "\\G")]
  {
    AfterInputOk();
    AfterInputText();
    AfterOutput();
    Instance("SELECT 1;\n SELECT 2\\G\n", AfterPieces, AfterLast,
             [InputStatement("SELECT 1", ";"), InputStatement("SELECT 2", "\\G")]);
  }

  // ---------------------------------------------------------------------
  // `SELECT "1;2;3"; SELECT 'TL;DR';` (separator_test.go:408-421)

  const InStringPieces: seq<Piece> :=
    [ Piece([Words("SELECT "), Quoted('"', "1;2;3")], ";"),
      Piece([Words(" SELECT "), Quoted('\'', "TL;DR")], ";") ]

  lemma InStringFirstChunks()
    ensures ChunkOk(Words("SELECT "), G) && ChunkOk(Quoted('"', "1;2;3"), G)
  {
    SelectWords();
  }

  lemma InStringFirstOk()
    ensures PieceOk(InStringPieces[0], G)
  {
    TwoChunks(InStringPieces[0].chunks, G);
    InStringFirstChunks();
    TerminatorSafe();
  }

  lemma InStringFirstSpelled()
    ensures "SELECT " + (['"'] + "1;2;3" + ['"']) == "SELECT \"1;2;3\""
    ensures "SELECT " + (['"'] + "1;2;3" + ['"']) == "" + "SELECT \"1;2;3\"" + ""
  {
  }

  lemma InStringFirstText()
    ensures Sources(InStringPieces[0].chunks) == "SELECT \"1;2;3\""
    ensures KeptText(InStringPieces[0].chunks) == "" + "SELECT \"1;2;3\"" + ""
  {
    TwoChunks(InStringPieces[0].chunks, G);
    InStringFirstSpelled();
  }

  lemma InStringFirst()
    ensures Expected(InStringPieces[0]) == InputStatement("SELECT \"1;2;3\"", ";")
  {
    InStringFirstText();
    PieceBecomes(InStringPieces[0], "", "SELECT \"1;2;3\"", "");
  }

  lemma InStringSecondChunks()
    ensures ChunkOk(Words(" SELECT "), G) && ChunkOk(Quoted('\'', "TL;DR"), G)
  {
    SpacedSelectWords();
  }

  lemma InStringSecondOk()
    ensures PieceOk(InStringPieces[1], G)
  {
    TwoChunks(InStringPieces[1].chunks, G);
    InStringSecondChunks();
    TerminatorSafe();
  }

  lemma InStringSecondSpelled()
    ensures " SELECT " + (['\''] + "TL;DR" + ['\'']) == " SELECT 'TL;DR'"
    ensures " SELECT " + (['\''] + "TL;DR" + ['\'']) == " " + "SELECT 'TL;DR'" + ""
  {
  }

  lemma InStringSecondText()
    ensures Sources(InStringPieces[1].chunks) == " SELECT 'TL;DR'"
    ensures KeptText(InStringPieces[1].chunks) == " " + "SELECT 'TL;DR'" + ""
  {
    TwoChunks(InStringPieces[1].chunks, G);
    InStringSecondSpelled();
  }

  lemma InStringSecond()
    ensures Expected(InStringPieces[1]) == InputStatement("SELECT 'TL;DR'", ";")
  {
    InStringSecondText();
    PieceBecomes(InStringPieces[1], " ", "SELECT 'TL;DR'", "");
  }

  lemma InStringSpelled()
    ensures "SELECT \"1;2;3\"" + ";" + (" SELECT 'TL;DR'" + ";") + "" == "SELECT \"1;2;3\"; SELECT 'TL;DR';"
  {
  }

  lemma InStringInputOk()
    ensures PiecesOk(InStringPieces, G) && ChunksOk([], G)
  {
    TwoPieces(InStringPieces, G);
    InStringFirstOk();
    InStringSecondOk();
    NoChunks(G);
  }

  lemma InStringInputText()
    ensures "SELECT \"1;2;3\"; SELECT 'TL;DR';" == Joined(InStringPieces) + Sources([])
  {
    TwoPieces(InStringPieces, G);
    InStringFirstText();
    InStringSecondText();
    NoChunks(G);
    InStringSpelled();
  }

  lemma InStringOutput()
    ensures [InputStatement("SELECT \"1;2;3\"", ";"), InputStatement("SELECT 'TL;DR'", ";")] == Want(InStringPieces, [])
  {
    TwoExpected(InStringPieces);
    InStringFirst();
    InStringSecond();
    NoChunks(G);
    NothingTrails(InStringPieces, []);
  }

  /** A semicolon inside a string literal does not end the statement. */
  lemma TerminatorInString()
    ensures SeparateInput("SELECT \"1;2;3\"; SELECT 'TL;DR';", G)
         == [InputStatement("SELECT \"1;2;3\"", ";"), InputStatement("SELECT 'TL;DR'", ";")]
  {
    InStringInputOk();
    InStringInputText();
    InStringOutput();
    Instance("SELECT \"1;2;3\"; SELECT 'TL;DR';", InStringPieces, [],
             [InputStatement("SELECT \"1;2;3\"", ";"), InputStatement("SELECT 'TL;DR'", ";")]);
  }

  // ---------------------------------------------------------------------
  // `SELECT r"1\G2\G3"\G SELECT r'4\G5\G6'\G` (separator_test.go:422-435)

  const RawPieces: seq<Piece> :=
    [ Piece([Words("SELECT "), RawQuoted('r', '"', "1\\G2\\G3")], "\\G"),
      Piece([Words(" SELECT "), RawQuoted('r', '\'', "4\\G5\\G6")], "\\G") ]

  lemma RawFirstChunks()
    ensures ChunkOk(Words("SELECT "), G) && ChunkOk(RawQuoted('r', '"', "1\\G2\\G3"), G)
  {
    SelectWords();
  }

  lemma RawFirstOk()
    ensures PieceOk(RawPieces[0], G)
  {
    TwoChunks(RawPieces[0].chunks, G);
    RawFirstChunks();
    TerminatorSafe();
  }

  lemma RawFirstSpelled()
    ensures "SELECT " + (['r', '"'] + "1\\G2\\G3" + ['"']) == "SELECT r\"1\\G2\\G3\""
    ensures "SELECT " + (['r', '"'] + "1\\G2\\G3" + ['"']) == "" + "SELECT r\"1\\G2\\G3\"" + ""
  {
  }

  lemma RawFirstText()
    ensures Sources(RawPieces[0].chunks) == "SELECT r\"1\\G2\\G3\""
    ensures KeptText(RawPieces[0].chunks) == "" + "SELECT r\"1\\G2\\G3\"" + ""
  {
    TwoChunks(RawPieces[0].chunks, G);
    RawFirstSpelled();
  }

  lemma RawFirst()
    ensures Expected(RawPieces[0]) == InputStatement("SELECT r\"1\\G2\\G3\"", "\\G")
  {
    RawFirstText();
    PieceBecomes(RawPieces[0], "", "SELECT r\"1\\G2\\G3\"", "");
  }

  lemma RawSecondChunks()
    ensures ChunkOk(Words(" SELECT "), G) && ChunkOk(RawQuoted('r', '\'', "4\\G5\\G6"), G)
  {
    SpacedSelectWords();
  }

  lemma RawSecondOk()
    ensures PieceOk(RawPieces[1], G)
  {
    TwoChunks(RawPieces[1].chunks, G);
    RawSecondChunks();
    TerminatorSafe();
  }

  lemma RawSecondSpelled()
    ensures " SELECT " + (['r', '\''] + "4\\G5\\G6" + ['\'']) == " SELECT r'4\\G5\\G6'"
    ensures " SELECT " + (['r', '\''] + "4\\G5\\G6" + ['\'']) == " " + "SELECT r'4\\G5\\G6'" + ""
  {
  }

  lemma RawSecondText()
    ensures Sources(RawPieces[1].chunks) == " SELECT r'4\\G5\\G6'"
    ensures KeptText(RawPieces[1].chunks) == " " + "SELECT r'4\\G5\\G6'" + ""
  {
    TwoChunks(RawPieces[1].chunks, G);
    RawSecondSpelled();
  }

  lemma RawSecond()
    ensures Expected(RawPieces[1]) == InputStatement("SELECT r'4\\G5\\G6'", "\\G")
  {
    RawSecondText();
    PieceBecomes(RawPieces[1], " ", "SELECT r'4\\G5\\G6'", "");
  }

  lemma RawSpelled()
    ensures "SELECT r\"1\\G2\\G3\"" + "\\G" + (" SELECT r'4\\G5\\G6'" + "\\G") + "" == "SELECT r\"1\\G2\\G3\"\\G SELECT r'4\\G5\\G6'\\G"
  {
  }

  lemma RawInputOk()
    ensures PiecesOk(RawPieces, G) && ChunksOk([], G)
  {
    TwoPieces(RawPieces, G);
    RawFirstOk();
    RawSecondOk();
    NoChunks(G);
  }

  lemma RawInputText()
    ensures "SELECT r\"1\\G2\\G3\"\\G SELECT r'4\\G5\\G6'\\G" == Joined(RawPieces) + Sources([])
  {
    TwoPieces(RawPieces, G);
    RawFirstText();
    RawSecondText();
    NoChunks(G);
    RawSpelled();
  }

  lemma RawOutput()
    ensures [InputStatement("SELECT r\"1\\G2\\G3\"", "\\G"), InputStatement("SELECT r'4\\G5\\G6'", "\\G")] == Want(RawPieces, [])
  {
    TwoExpected(RawPieces);
    RawFirst();
    RawSecond();
    NoChunks(G);
    NothingTrails(RawPieces, []);
  }

  /** The custom terminator inside a raw string literal does not end the statement. */
  lemma TerminatorInRawString()
    ensures SeparateInput("SELECT r\"1\\G2\\G3\"\\G SELECT r'4\\G5\\G6'\\G", G)
         == [InputStatement("SELECT r\"1\\G2\\G3\"", "\\G"), InputStatement("SELECT r'4\\G5\\G6'", "\\G")]
  {
    RawInputOk();
    RawInputText();
    RawOutput();
    Instance("SELECT r\"1\\G2\\G3\"\\G SELECT r'4\\G5\\G6'\\G", RawPieces, [],
             [InputStatement("SELECT r\"1\\G2\\G3\"", "\\G"), InputStatement("SELECT r'4\\G5\\G6'", "\\G")]);
  }

  // ---------------------------------------------------------------------
  // "SELECT `1;2`; SELECT `3;4`;" (separator_test.go:436-449)

  const TickPieces: seq<Piece> :=
    [ Piece([Words("SELECT "), Backticked("1;2")], ";"),
      Piece([Words(" SELECT "), Backticked("3;4")], ";") ]

  lemma TickFirstChunks()
    ensures ChunkOk(Words("SELECT "), G) && ChunkOk(Backticked("1;2"), G)
  {
    SelectWords();
  }

  lemma TickFirstOk()
    ensures PieceOk(TickPieces[0], G)
  {
    TwoChunks(TickPieces[0].chunks, G);
    TickFirstChunks();
    TerminatorSafe();
  }

  lemma TickFirstSpelled()
    ensures "SELECT " + (['`'] + "1;2" + ['`']) == "SELECT `1;2`"
    ensures "SELECT " + (['`'] + "1;2" + ['`']) == "" + "SELECT `1;2`" + ""
  {
  }

  lemma TickFirstText()
    ensures Sources(TickPieces[0].chunks) == "SELECT `1;2`"
    ensures KeptText(TickPieces[0].chunks) == "" + "SELECT `1;2`" + ""
  {
    TwoChunks(TickPieces[0].chunks, G);
    TickFirstSpelled();
  }

  lemma TickFirst()
    ensures Expected(TickPieces[0]) == InputStatement("SELECT `1;2`", ";")
  {
    TickFirstText();
    PieceBecomes(TickPieces[0], "", "SELECT `1;2`", "");
  }

  lemma TickSecondChunks()
    ensures ChunkOk(Words(" SELECT "), G) && ChunkOk(Backticked("3;4"), G)
  {
    SpacedSelectWords();
  }

  lemma TickSecondOk()
    ensures PieceOk(TickPieces[1], G)
  {
    TwoChunks(TickPieces[1].chunks, G);
    TickSecondChunks();
    TerminatorSafe();
  }

  lemma TickSecondSpelled()
    ensures " SELECT " + (['`'] + "3;4" + ['`']) == " SELECT `3;4`"
    ensures " SELECT " + (['`'] + "3;4" + ['`']) == " " + "SELECT `3;4`" + ""
  {
  }

  lemma TickSecondText()
    ensures Sources(TickPieces[1].chunks) == " SELECT `3;4`"
    ensures KeptText(TickPieces[1].chunks) == " " + "SELECT `3;4`" + ""
  {
    TwoChunks(TickPieces[1].chunks, G);
    TickSecondSpelled();
  }

  lemma TickSecond()
    ensures Expected(TickPieces[1]) == InputStatement("SELECT `3;4`", ";")
  {
    TickSecondText();
    PieceBecomes(TickPieces[1], " ", "SELECT `3;4`", "");
  }

  lemma TickSpelled()
    ensures "SELECT `1;2`" + ";" + (" SELECT `3;4`" + ";") + "" == "SELECT `1;2`; SELECT `3;4`;"
  {
  }

  lemma TickInputOk()
    ensures PiecesOk(TickPieces, G) && ChunksOk([], G)
  {
    TwoPieces(TickPieces, G);
    TickFirstOk();
    TickSecondOk();
    NoChunks(G);
  }

  lemma TickInputText()
    ensures "SELECT `1;2`; SELECT `3;4`;" == Joined(TickPieces) + Sources([])
  {
    TwoPieces(TickPieces, G);
    TickFirstText();
    TickSecondText();
    NoChunks(G);
    TickSpelled();
  }

  lemma TickOutput()
    ensures [InputStatement("SELECT `1;2`", ";"), InputStatement("SELECT `3;4`", ";")] == Want(TickPieces, [])
  {
    TwoExpected(TickPieces);
    TickFirst();
    TickSecond();
    NoChunks(G);
    NothingTrails(TickPieces, []);
  }

  /** A semicolon inside a quoted identifier does not end the statement. */
  lemma TerminatorInIdentifier()
    ensures SeparateInput("SELECT `1;2`; SELECT `3;4`;", G)
         == [InputStatement("SELECT `1;2`", ";"), InputStatement("SELECT `3;4`", ";")]
  {
    TickInputOk();
    TickInputText();
    TickOutput();
    Instance("SELECT `1;2`; SELECT `3;4`;", TickPieces, [],
             [InputStatement("SELECT `1;2`", ";"), InputStatement("SELECT `3;4`", ";")]);
  }

  // ---------------------------------------------------------------------
  // "SELECT '123'\n; SELECT '456'\n\\G" (separator_test.go:450-463)

  const NewlinePieces: seq<Piece> :=
    [ Piece([Words("SELECT "), Quoted('\'', "123"), Words("\n")], ";"),
      Piece([Words(" SELECT "), Quoted('\'', "456"), Words("\n")], "\\G") ]

  lemma NewlineFirstChunks()
    ensures ChunkOk(Words("SELECT "), G) && ChunkOk(Quoted('\'', "123"), G) && ChunkOk(Words("\n"), G)
  {
    SelectWords();
    NewlineWords();
  }

  lemma NewlineFirstOk()
    ensures PieceOk(NewlinePieces[0], G)
  {
    ThreeChunks(NewlinePieces[0].chunks, G);
    NewlineFirstChunks();
    TerminatorSafe();
  }

  lemma NewlineFirstSpelled()
    ensures "SELECT " + ((['\''] + "123" + ['\'']) + "\n") == "SELECT '123'\n"
    ensures "SELECT " + ((['\''] + "123" + ['\'']) + "\n") == "" + "SELECT '123'" + "\n"
  {
  }

  lemma NewlineFirstText()
    ensures Sources(NewlinePieces[0].chunks) == "SELECT '123'\n"
    ensures KeptText(NewlinePieces[0].chunks) == "" + "SELECT '123'" + "\n"
  {
    ThreeChunks(NewlinePieces[0].chunks, G);
    NewlineFirstSpelled();
  }

  lemma NewlineFirst()
    ensures Expected(NewlinePieces[0]) == InputStatement("SELECT '123'", ";")
  {
    NewlineFirstText();
    PieceBecomes(NewlinePieces[0], "", "SELECT '123'", "\n");
  }

  lemma NewlineSecondChunks()
    ensures ChunkOk(Words(" SELECT "), G) && ChunkOk(Quoted('\'', "456"), G) && ChunkOk(Words("\n"), G)
  {
    SpacedSelectWords();
    NewlineWords();
  }

  lemma NewlineSecondOk()
    ensures PieceOk(NewlinePieces[1], G)
  {
    ThreeChunks(NewlinePieces[1].chunks, G);
    NewlineSecondChunks();
    TerminatorSafe();
  }

  lemma NewlineSecondSpelled()
    ensures " SELECT " + ((['\''] + "456" + ['\'']) + "\n") == " SELECT '456'\n"
    ensures " SELECT " + ((['\''] + "456" + ['\'']) + "\n") == " " + "SELECT '456'" + "\n"
  {
  }

  lemma NewlineSecondText()
    ensures Sources(NewlinePieces[1].chunks) == " SELECT '456'\n"
    ensures KeptText(NewlinePieces[1].chunks) == " " + "SELECT '456'" + "\n"
  {
    ThreeChunks(NewlinePieces[1].chunks, G);
    NewlineSecondSpelled();
  }

  lemma NewlineSecond()
    ensures Expected(NewlinePieces[1]) == InputStatement("SELECT '456'", "\\G")
  {
    NewlineSecondText();
    PieceBecomes(NewlinePieces[1], " ", "SELECT '456'", "\n");
  }

  lemma NewlineSpelled()
    ensures "SELECT '123'\n" + ";" + (" SELECT '456'\n" + "\\G") + "" == "SELECT '123'\n; SELECT '456'\n\\G"
  {
  }

  lemma NewlineInputOk()
    ensures PiecesOk(NewlinePieces, G) && ChunksOk([], G)
  {
    TwoPieces(NewlinePieces, G);
    NewlineFirstOk();
    NewlineSecondOk();
    NoChunks(G);
  }

  lemma NewlineInputText()
    ensures "SELECT '123'\n; SELECT '456'\n\\G" == Joined(NewlinePieces) + Sources([])
  {
    TwoPieces(NewlinePieces, G);
    NewlineFirstText();
    NewlineSecondText();
    NoChunks(G);
    NewlineSpelled();
  }

  lemma NewlineOutput()
    ensures [InputStatement("SELECT '123'", ";"), InputStatement("SELECT '456'", "\\G")] == Want(NewlinePieces, [])
  {
    TwoExpected(NewlinePieces);
    NewlineFirst();
    NewlineSecond();
    NoChunks(G);
    NothingTrails(NewlinePieces, []);
  }

  /** White space before either terminator is trimmed off the statement. */
  lemma NewlineBeforeTerminator()
    ensures SeparateInput("SELECT '123'\n; SELECT '456'\n\\G", G)
         == [InputStatement("SELECT '123'", ";"), InputStatement("SELECT '456'", "\\G")]
  {
    NewlineInputOk();
    NewlineInputText();
    NewlineOutput();
    Instance("SELECT '123'\n; SELECT '456'\n\\G", NewlinePieces, [],
             [InputStatement("SELECT '123'", ";"), InputStatement("SELECT '456'", "\\G")]);
  }

  // ---------------------------------------------------------------------
  // "# comment;\nSELECT /* comment */ 1; --comment\nSELECT 2;/* comment */" (separator_test.go:474-487)

  const CommentedPieces: seq<Piece> :=
    [ Piece([LineComment("#", " comment;"), Words("SELECT "), BlockComment(" comment "), Words(" 1")], ";"),
      Piece([Words(" "), LineComment("--", "comment"), Words("SELECT 2")], ";") ]

  lemma CommentedFirstChunks()
    ensures ChunkOk(LineComment("#", " comment;"), G) && ChunkOk(Words("SELECT "), G) && ChunkOk(BlockComment(" comment "), G) && ChunkOk(Words(" 1"), G)
  {
    SelectWords();
    StarlessBody(" comment ");
    OneWords();
  }

  lemma CommentedFirstOk()
    ensures PieceOk(CommentedPieces[0], G)
  {
    FourChunks(CommentedPieces[0].chunks, G);
    CommentedFirstChunks();
    TerminatorSafe();
  }

  lemma CommentedFirstSpelled()
    ensures ("#" + " comment;" + "\n") + ("SELECT " + (("/*" + " comment " + "*/") + " 1")) == "# comment;\nSELECT /* comment */ 1"
    ensures "" + ("SELECT " + ("" + " 1")) == "" + "SELECT  1" + ""
  {
  }

  lemma CommentedFirstText()
    ensures Sources(CommentedPieces[0].chunks) == "# comment;\nSELECT /* comment */ 1"
    ensures KeptText(CommentedPieces[0].chunks) == "" + "SELECT  1" + ""
  {
    FourChunks(CommentedPieces[0].chunks, G);
    CommentedFirstSpelled();
  }

  lemma CommentedFirst()
    ensures Expected(CommentedPieces[0]) == InputStatement("SELECT  1", ";")
  {
    CommentedFirstText();
    PieceBecomes(CommentedPieces[0], "", "SELECT  1", "");
  }

  lemma CommentedSecondChunks()
    ensures ChunkOk(Words(" "), G) && ChunkOk(LineComment("--", "comment"), G) && ChunkOk(Words("SELECT 2"), G)
  {
    SpaceWords();
    SelectTwoWords();
  }

  lemma CommentedSecondOk()
    ensures PieceOk(CommentedPieces[1], G)
  {
    ThreeChunks(CommentedPieces[1].chunks, G);
    CommentedSecondChunks();
    TerminatorSafe();
  }

  lemma CommentedSecondSpelled()
    ensures " " + (("--" + "comment" + "\n") + "SELECT 2") == " --comment\nSELECT 2"
    ensures " " + ("" + "SELECT 2") == " " + "SELECT 2" + ""
  {
  }

  lemma CommentedSecondText()
    ensures Sources(CommentedPieces[1].chunks) == " --comment\nSELECT 2"
    ensures KeptText(CommentedPieces[1].chunks) == " " + "SELECT 2" + ""
  {
    ThreeChunks(CommentedPieces[1].chunks, G);
    CommentedSecondSpelled();
  }

  lemma CommentedSecond()
    ensures Expected(CommentedPieces[1]) == InputStatement("SELECT 2", ";")
  {
    CommentedSecondText();
    PieceBecomes(CommentedPieces[1], " ", "SELECT 2", "");
  }

  const CommentedLast: seq<Chunk> := [BlockComment(" comment ")]

  lemma CommentedLastChunks()
    ensures ChunkOk(BlockComment(" comment "), G)
  {
    StarlessBody(" comment ");
  }

  lemma CommentedLastOk()
    ensures ChunksOk(CommentedLast, G)
  {
    OneChunk(CommentedLast, G);
    CommentedLastChunks();
  }

  lemma CommentedLastText()
    ensures Sources(CommentedLast) == "/* comment */" && KeptText(CommentedLast) == ""
  {
    OneChunk(CommentedLast, G);
  }

  lemma CommentedSpelled()
    ensures "# comment;\nSELECT /* comment */ 1" + ";" + (" --comment\nSELECT 2" + ";") + "/* comment */" == "# comment;\nSELECT /* comment */ 1; --comment\nSELECT 2;/* comment */"
  {
  }

  lemma CommentedInputOk()
    ensures PiecesOk(CommentedPieces, G) && ChunksOk(CommentedLast, G)
  {
    TwoPieces(CommentedPieces, G);
    CommentedFirstOk();
    CommentedSecondOk();
    CommentedLastOk();
  }

  lemma CommentedInputText()
    ensures "# comment;\nSELECT /* comment */ 1; --comment\nSELECT 2;/* comment */" == Joined(CommentedPieces) + Sources(CommentedLast)
  {
    TwoPieces(CommentedPieces, G);
    CommentedFirstText();
    CommentedSecondText();
    CommentedLastText();
    CommentedSpelled();
  }

  lemma CommentedOutput()
    ensures [InputStatement("SELECT  1", ";"), InputStatement("SELECT 2", ";")] == Want(CommentedPieces, CommentedLast)
  {
    TwoExpected(CommentedPieces);
    CommentedFirst();
    CommentedSecond();
    CommentedLastText();
    NothingTrails(CommentedPieces, CommentedLast);
  }

  /** Comments are dropped from the statements, and the text on either side of a comment is joined with nothing between. */
  lemma MultipleComments()
    ensures SeparateInput("# comment;\nSELECT /* comment */ 1; --comment\nSELECT 2;/* comment */", G)
         == [InputStatement("SELECT  1", ";"), InputStatement("SELECT 2", ";")]
  {
    CommentedInputOk();
    CommentedInputText();
    CommentedOutput();
    Instance("# comment;\nSELECT /* comment */ 1; --comment\nSELECT 2;/* comment */", CommentedPieces, CommentedLast,
             [InputStatement("SELECT  1", ";"), InputStatement("SELECT 2", ";")]);
  }

  // ---------------------------------------------------------------------
  // `SELECT "123"; SELECT "45` (separator_test.go:493-506)

  const OpenPieces: seq<Piece> :=
    [ Piece([Words("SELECT "), Quoted('"', "123")], ";") ]

  lemma OpenFirstChunks()
    ensures ChunkOk(Words("SELECT "), G) && ChunkOk(Quoted('"', "123"), G)
  {
    SelectWords();
  }

  lemma OpenFirstOk()
    ensures PieceOk(OpenPieces[0], G)
  {
    TwoChunks(OpenPieces[0].chunks, G);
    OpenFirstChunks();
    TerminatorSafe();
  }

  lemma OpenFirstSpelled()
    ensures "SELECT " + (['"'] + "123" + ['"']) == "SELECT \"123\""
    ensures "SELECT " + (['"'] + "123" + ['"']) == "" + "SELECT \"123\"" + ""
  {
  }

  lemma OpenFirstText()
    ensures Sources(OpenPieces[0].chunks) == "SELECT \"123\""
    ensures KeptText(OpenPieces[0].chunks) == "" + "SELECT \"123\"" + ""
  {
    TwoChunks(OpenPieces[0].chunks, G);
    OpenFirstSpelled();
  }

  lemma OpenFirst()
    ensures Expected(OpenPieces[0]) == InputStatement("SELECT \"123\"", ";")
  {
    OpenFirstText();
    PieceBecomes(OpenPieces[0], "", "SELECT \"123\"", "");
  }

  const OpenLast: seq<Chunk> := [Words(" SELECT ")]

  lemma OpenLastChunks()
    ensures ChunkOk(Words(" SELECT "), G)
  {
    SpacedSelectWords();
  }

  lemma OpenLastOk()
    ensures ChunksOk(OpenLast, G)
  {
    OneChunk(OpenLast, G);
    OpenLastChunks();
  }

  lemma OpenLastText()
    ensures Sources(OpenLast) == " SELECT " && KeptText(OpenLast) == " SELECT "
  {
    OneChunk(OpenLast, G);
  }

  lemma OpenSpelled()
    ensures "SELECT \"123\"" + ";" + (" SELECT " + (['"'] + "45")) == "SELECT \"123\"; SELECT \"45"
  {
  }

  lemma OpenInputOk()
    ensures PiecesOk(OpenPieces, G) && ChunksOk(OpenLast, G)
  {
    OnePiece(OpenPieces, G);
    OpenFirstOk();
    OpenLastOk();
  }

  lemma OpenInputText()
    ensures "SELECT \"123\"; SELECT \"45" == Joined(OpenPieces) + (Sources(OpenLast) + (['"'] + "45"))
  {
    OnePiece(OpenPieces, G);
    OpenFirstText();
    OpenLastText();
    OpenSpelled();
  }

  lemma OpenTrailingSpelled()
    ensures " SELECT " + (['"'] + "45") == " " + "SELECT \"45" + ""
  {
  }

  lemma OpenTrailing()
    ensures KeptText(OpenLast) + (['"'] + "45") == " " + "SELECT \"45" + ""
  {
    OpenLastText();
    OpenTrailingSpelled();
  }

  lemma OpenLiteral()
    ensures IsQuote('"') && |"45"| > 0 && '"' !in "45" && '\\' !in "45"
    ensures AllSpace(" ") && AllSpace("") && IsTrimmed("SELECT \"45")
  {
  }

  lemma OpenOutput()
    ensures [InputStatement("SELECT \"123\"", ";"), InputStatement("SELECT \"45", "")] == ExpectedAll(OpenPieces) + [InputStatement("SELECT \"45", [])]
  {
    OpenFirst();
    OneExpected(OpenPieces);
    Pair(ExpectedAll(OpenPieces), InputStatement("SELECT \"123\"", ";"), [InputStatement("SELECT \"45", [])], InputStatement("SELECT \"45", []));
  }

  /** A string literal left open runs to the end of the input and ends the last statement, which has no terminator. */
  lemma UnclosedString()
    ensures SeparateInput("SELECT \"123\"; SELECT \"45", G)
         == [InputStatement("SELECT \"123\"", ";"), InputStatement("SELECT \"45", "")]
  {
    OpenInputOk();
    OpenInputText();
    OpenTrailing();
    OpenLiteral();
    OpenOutput();
    OpenInstance("SELECT \"123\"; SELECT \"45", OpenPieces, OpenLast, '"', "45",
                 " ", "SELECT \"45", "", [InputStatement("SELECT \"123\"", ";"), InputStatement("SELECT \"45", "")]);
  }

  // ---------------------------------------------------------------------
  // The texts alone (separator_test.go:580-587)

  lemma SecondQueryEmptyTexts()
    ensures SeparateInputString("SELECT 1; ;", G) == ["SELECT 1", ""]
  {
    GNonEmpty();
    SecondQueryEmpty();
  }

  // ---------------------------------------------------------------------
  // "# comment;\n/* comment */--comment\n/* comment */" (separator_test.go:488-492)

  /** A `#` comment, a block comment, a `--` comment and a closing block comment leave nothing. */
  lemma FourComments(b1: seq<char>, b2: seq<char>, b3: seq<char>, b4: seq<char>,
                     s1: seq<char>, s2: seq<char>, s3: seq<char>, s4: seq<char>)
    requires '\n' !in b1 && '*' !in b2 && '\n' !in b3 && '*' !in b4
    requires s1 == "#" + b1 + "\n" && s2 == "/*" + b2 + "*/" && s3 == "--" + b3 + "\n" && s4 == "/*" + b4 + "*/"
    ensures SkipComments(s1 + s2 + s3 + s4) == []
  {
    StarlessBody(b2);
    StarlessBody(b4);
    SkipLineComment("#", b1, s2 + (s3 + s4));
    SkipBlockComment(b2, s3 + s4);
    SkipLineComment("--", b3, s4);
    SkipBlockComment(b4, []);
    AppendEmpty(s4);
    ConcatAssoc(s1, s2, s3);
    ConcatAssoc(s1, s2 + s3, s4);
    ConcatAssoc(s2, s3, s4);
  }

  lemma OnlyCommentsSkipped()
    ensures SkipComments("# comment;\n" + "/* comment */" + "--comment\n" + "/* comment */") == []
  {
    FourComments(" comment;", " comment ", "comment", " comment ",
                 "# comment;\n", "/* comment */", "--comment\n", "/* comment */");
  }

  /** An input made only of comments yields no statement at all. */
  lemma OnlyComments()
    ensures SeparateInput("# comment;\n" + "/* comment */" + "--comment\n" + "/* comment */", G) == []
  {
    GNonEmpty();
    OnlyCommentsSkipped();
  }
}
