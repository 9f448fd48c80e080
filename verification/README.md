# gsqlsep statement separator in Dafny

A model of the statement separator in `separator.go` of gsqlsep. It makes
one left-to-right pass over an input, taken as a sequence of code points, and
cuts it into `InputStatement` records. Each record holds the statement text
with surrounding white space trimmed, plus the terminator that ended it. No
SQL is parsed. The scanner tracks just enough lexical state to find
terminators safely:

- comments (`#`, `--`, `/* */`) are discarded;
- string literals are copied verbatim. They may have an `r`/`R` raw prefix,
  a `b`/`B` bytes prefix, or both, and use one quote or three of the same
  quote as delimiters. A non-raw literal that ends in a lone backslash is
  the exception: after it is copied, its content is scanned again as plain
  text, so the content lands in the buffer twice and may be split
  (`SeparatorProperties.LoneBackslashSplits`);
- backtick-quoted identifiers are copied verbatim;
- the built-in terminator `;` and an ordered list of custom terminators
  (such as `\G`) end statements;
- whatever is left in the buffer at the end of the input becomes a trailing
  statement with an empty terminator, unless it is all white space.

The Go code mutates a `separator` value: a remaining-input slice, a
`strings.Builder` and the terminators. The model is functional. Each
consuming helper returns what it appended to the buffer and what input it
left (`Literals.Content`, `Literals.Delimiter`). The main loop is a recursive
function over an immutable `Separator.Separator` state. It decreases on the
length of the remaining input.

Modules:

- `Text`: prefix tests, and Go's `strings.TrimSpace` over the Unicode
  White_Space code points.
- `Comments`: `skipComments`.
- `Literals`: the delimiter, content and prefix scans, and the four
  `consume*String` operations. It also holds the backtick identifier.
- `Separator`: the main loop (`separate`), `newSeparator`, `SeparateInput`
  and `SeparateInputString`.
- `SeparatorProperties`: what one iteration and runs of iterations do.
- `Pieces`: a whole-input theorem. An input written as terminated pieces of
  plain text, literals, identifiers and comments splits into exactly one
  statement per piece.
- `Vectors`, `CommentVectors`, `LiteralVectors`: the test table's inputs
  worked through the model.

`skipComments` (separator.go:162-215) writes nothing to the buffer, so
`SELECT /* c */ 1` yields `SELECT  1`, with the two spaces that surrounded
the comment.

## Model

| member | source | states |
|---|---|---|
| Text.HasPrefixSplits | separator.go:312-314 | `hasPrefix(s, p)` holds exactly when `s` is `p` followed by the rest of `s` |
| Text.TrimSpace | separator.go:270-273 | the trimmed statement has no white space at either end. It is empty iff the buffer is all white space. The buffer is the result with only white space before and after it |
| Text.TrimAround | separator.go:300-304 | trimming text that has no white space at its ends, once white space is added around it, gives back exactly that text |
| Comments.FindFrom | separator.go:193-207 | the closing-marker search returns the first occurrence at or after the start index, or reports that there is none |
| Comments.SkipComments | separator.go:162-215 | only a prefix of the input is removed. What remains does not open a comment. Input that does not open a comment is left unchanged |
| Comments.SkipLineComment | separator.go:166-199 | a closed `#` or `--` comment is removed up to and including its line feed, and skipping continues after it |
| Comments.SkipUnclosedLineComment | separator.go:187-213 | a `#` or `--` comment with no line feed consumes all remaining input |
| Comments.SkipBlockComment | separator.go:174-206 | a `/* */` comment is removed up to and including the first `*/` (no nesting), and skipping continues after it |
| Comments.SkipUnclosedBlockComment | separator.go:187-213 | a `/*` with no `*/` consumes all remaining input |
| Literals.ConsumeStringDelimiter | separator.go:148-160 | the delimiter is copied and removed from the input. It is three quotes iff the first three runes are the same quote, and one rune otherwise |
| Literals.ConsumeStringContent | separator.go:104-146 | the outcome is one of three cases. A closed literal ends with its delimiter, and appended text plus remaining input is the input. An unclosed one consumes everything. A lone trailing backslash in a non-raw literal writes the whole content and leaves the input unadvanced |
| Literals.ContentIsScan | separator.go:104-146 | the index-based content loop agrees on every input with a recursive reference scan over the rest of the input |
| Literals.ContentBaseCases | separator.go:106-134 | the scan stops at once on empty input and at a delimiter. It also stops at a lone trailing backslash in a non-raw literal, which is then written but not consumed |
| Literals.ContentEscapedPair | separator.go:130-139 | in a non-raw literal a backslash and the next rune are copied as a pair, so an escaped delimiter does not close the literal |
| Literals.ContentRawBackslash | separator.go:122-128 | in a raw literal a backslash is copied alone, and the rune after it is examined on its own |
| Literals.ContentOrdinaryRune | separator.go:141-142 | any other rune that does not start the delimiter is copied, and the scan continues |
| Literals.ContentSkipsBody | separator.go:104-146 | a stretch with no delimiter rune, and no backslash unless the literal is raw, is copied verbatim in front of the scan of what follows |
| Literals.ContentUnclosed | separator.go:143-145 | content that never meets its delimiter is copied whole, and no input remains |
| Literals.ContentClosed | separator.go:108-118 | content followed by its single or triple delimiter is written up to and including the delimiter. The rest is left |
| Literals.ConsumeQuoted | separator.go:71-102 | shared by all prefixed forms: prefix letters, then the delimiter, then the content. Appended text plus remaining input is the input except on a lone backslash. A closed literal opens and ends with the same delimiter. At least the prefix and one rune are consumed |
| Literals.ConsumeString | separator.go:99-102 | an unprefixed literal is copied verbatim, except after a lone trailing backslash. A closed one is enclosed by its opening delimiter. The result is the delimiter followed by the non-raw reference scan `ScanRest` of the content, so it closes at the first closing delimiter |
| Literals.ConsumeRawString | separator.go:71-78 | the `r`/`R` letter and the literal are copied verbatim. A raw literal never stops at a lone backslash. The result is the letter and delimiter followed by the raw reference scan `ScanRest` of the content |
| Literals.ConsumeBytesString | separator.go:80-87 | the `b`/`B` letter is copied, and the rest of the result is exactly the non-raw `ConsumeString` of what follows the letter |
| Literals.ConsumeRawBytesString | separator.go:89-97 | the first prefix letter is copied, and the rest of the result is exactly `ConsumeRawString` of what follows it: the second letter, then a raw scan |
| Literals.QuotedShift | separator.go:80-97 | copying one of several prefix letters up front leaves the same scan with one letter fewer |
| Literals.ConsumeQuotedIdentifier | separator.go:263-267 | a backtick identifier is copied verbatim. A closed one ends with a backtick |
| Literals.StringPrefix | separator.go:235-258 | a literal is recognised iff a quote stands within the first three runes, preceded by at most one raw and at most one bytes letter. The number of letters before it equals the number of flags set |
| Literals.StringPrefixFlags | separator.go:236-243 | the raw flag is set iff a raw letter precedes the quote, and likewise for the bytes flag |
| Literals.ConsumeQuoteStart | separator.go:230-262 | at a quote or prefix letter, no literal means exactly one rune is copied as plain text. Otherwise the literal is copied verbatim, except for the lone-backslash case. Input always advances |
| Literals.QuoteStartDispatch | separator.go:246-255 | the recognised prefix selects the raw-bytes, raw, bytes or plain consumer, with the matching number of prefix letters |
| Literals.QuotedLiteral | separator.go:244-255 | a quoted body with no quote or backslash is taken whole, and what follows is left |
| Literals.RawLiteral | separator.go:238-250 | a raw literal is taken whole, even when its body holds backslashes |
| Literals.UnclosedLiteral | separator.go:143-145 | a literal whose closing quote never comes takes the rest of the input |
| Literals.QuotedIdentifier | separator.go:263-267 | a backtick identifier with a plain name is taken whole |
| Literals.LoneBackslashLiteral | separator.go:130-134 | a non-raw literal ending in a lone backslash writes everything but leaves the input where the content began, so that text is scanned again |
| Separator.MatchFrom | separator.go:279-290 | the first custom terminator, from a given index on, that the input starts with. None before it matches |
| Separator.FirstMatch | separator.go:276-290 | custom terminators are tried in configuration order, and the first prefix match wins |
| Separator.Step | separator.go:230-296 | one iteration: `;` emits with terminator `;`. Other runes not routed to literal handling emit on the first matching custom terminator, advancing by its length. Otherwise text is appended and the remaining input is a suffix |
| Separator.StepInLoop | separator.go:224-296 | with non-empty terminators every iteration consumes input, and every terminator it reports is `;` or a reachable custom terminator |
| Separator.Flush | separator.go:299-308 | after the loop, one statement with terminator `""` is added iff the buffer is not all white space, and its text is the trimmed buffer |
| Separator.Iterate | separator.go:224-296 | one pass of the loop removes comments and then input. It never grows the remaining input |
| Separator.IterateDone | separator.go:224-228 | the loop stops exactly when nothing but comments remains |
| Separator.IterateEmits | separator.go:269-295 | an emitted statement is the trimmed buffer with the reported terminator, and the buffer starts empty again |
| Separator.NewSeparator | separator.go:59-69 | the scan starts with the whole input unread, an empty buffer and the terminators in configuration order |
| Separator.Separate | separator.go:222-310 | the statements already collected are kept as a prefix. Every statement added is trimmed and ended by `;` or a reachable custom terminator, except a final non-empty one with terminator `""` |
| Separator.SeparateAccumulator | separator.go:222-310 | statements are only ever appended, never changed or removed |
| Separator.SeparateInput | separator.go:36-38 | the statements are well formed, and an input that is empty or only comments yields none |
| Separator.Statements | separator.go:44-48 | the statement texts of a list of records, one per record, in order |
| Separator.SeparateInputString | separator.go:43-49 | exactly the statement fields of `SeparateInput`, in order |
| SeparatorProperties.EndOfInput | separator.go:299-308 | at the end of the input a blank buffer adds nothing. Any other buffer adds its trimmed text with terminator `""` |
| SeparatorProperties.CommentsDiscarded | separator.go:225 | leading comments are dropped without touching the buffer |
| SeparatorProperties.SemicolonEnds | separator.go:269-275 | `;` emits the trimmed buffer, even when empty, with terminator `;`, and the buffer starts over |
| SeparatorProperties.CustomTerminatorEnds | separator.go:276-290 | a reachable custom terminator with no earlier different match emits the trimmed buffer, and the input advances by the terminator's length |
| SeparatorProperties.RuneCopied | separator.go:259-262 | a rune that starts nothing else is appended to the buffer |
| SeparatorProperties.LiteralCopied | separator.go:232-258 | a literal at the front goes into the buffer in one piece |
| SeparatorProperties.IdentifierCopied | separator.go:263-267 | a quoted identifier at the front goes into the buffer in one piece |
| SeparatorProperties.PlainRunCopied | separator.go:276-295 | a run of plain text is appended to the buffer unchanged, whatever follows it |
| SeparatorProperties.SafeTerminatorEnds | separator.go:276-290 | a terminator that is the first match where it stands ends the statement in the buffer |
| SeparatorProperties.LiteralRunCopied | separator.go:232-258 | a literal taken whole lands in the buffer whole. No statement boundary falls inside it |
| SeparatorProperties.IdentifierRunCopied | separator.go:263-267 | a quoted identifier taken whole lands in the buffer whole. No statement boundary falls inside it |
| SeparatorProperties.TerminatorRunEnds | separator.go:276-290 | a safe terminator appends the trimmed buffer as a statement and empties the buffer |
| SeparatorProperties.CommentRunSkipped | separator.go:225 | leading comments change nothing but the remaining input |
| SeparatorProperties.SeparateAtEnd | separator.go:299-309 | with no input left, the result is the statements so far plus the flushed buffer |
| SeparatorProperties.TrailingStatement | separator.go:300-307 | the flush yields the trimmed buffer with terminator `""`, or nothing for a blank buffer |
| SeparatorProperties.StatementsConcat | separator.go:44-48 | taking statement texts distributes over concatenation |
| SeparatorProperties.UnreachableNeverReported | separator.go:225-275 | a custom terminator that starts with a quote, prefix letter, backtick or `;`, or that opens a comment, is never reported |
| SeparatorProperties.LoneBackslashSplits | separator.go:130-134 | a non-raw literal ending in a lone backslash leaves its content to be scanned again, so the loop copies the literal, then copies the content a second time as plain text, and a `;` inside the literal ends a statement |
| SeparatorProperties.EmptyTerminatorStalls | separator.go:280-286 | an empty custom terminator matches with zero advance, so the loop would not make progress |
| Pieces.ChunkCopied | separator.go:224-296 | a chunk leaves its kept text in the buffer, and nothing if it is a comment, whatever follows it |
| Pieces.ChunksCopied | separator.go:224-296 | a run of chunks leaves exactly their kept text in the buffer and emits nothing |
| Pieces.PieceEnds | separator.go:224-296 | a piece becomes one statement (its kept text, trimmed, with its terminator), and the buffer starts over |
| Pieces.PiecesSplit | separator.go:222-297 | a sequence of pieces yields one statement per piece, in order |
| Pieces.LastChunksFlushed | separator.go:299-308 | the chunks after the last terminator are flushed as the trailing statement if they leave more than white space |
| Pieces.SplitJoined | separator.go:222-310 | `SeparateInput` of pieces followed by a last run of chunks is one statement per piece, then the flushed last run |
| Pieces.UnclosedAtEnd | separator.go:143-145 | an unclosed literal takes the rest of the input into the trailing statement |
| Pieces.SplitJoinedUnclosed | separator.go:299-308 | pieces followed by an open literal: one statement per piece, then the open literal verbatim in the trailing statement |
| Pieces.TextsAreStatements | separator.go:43-49 | the texts of the expected statements are the pieces' trimmed kept texts |
| Pieces.SplitJoinedStrings | separator.go:43-49 | `SeparateInputString` of such an input is the pieces' trimmed texts, then the last run's |
| CommentVectors.HashComment | separator_test.go:30-34 | `# SELECT 1;\n` leaves nothing |
| CommentVectors.DashComment | separator_test.go:35-39 | `-- SELECT 1;\n` leaves nothing |
| CommentVectors.BlockComment | separator_test.go:40-44 | a block comment spanning a line feed leaves nothing |
| CommentVectors.HashCommentThenStatement | separator_test.go:45-49 | the statement after a `#` comment remains |
| CommentVectors.DashCommentThenStatement | separator_test.go:50-54 | the statement after a `--` comment remains |
| CommentVectors.BlockCommentThenStatement | separator_test.go:55-59 | the space and statement after a block comment remain |
| CommentVectors.HashCommentUnterminated | separator_test.go:60-64 | an unterminated `#` comment consumes everything |
| CommentVectors.DashCommentUnterminated | separator_test.go:65-69 | an unterminated `--` comment consumes everything |
| CommentVectors.BlockCommentUnterminated | separator_test.go:70-74 | an unterminated block comment consumes everything |
| CommentVectors.NotComments | separator_test.go:75-79 | input with no comment is left as it is |
| LiteralVectors.DoubleQuotedString | separator_test.go:100-105 | `"test" WHERE` writes `"test"` and leaves ` WHERE` |
| LiteralVectors.SingleQuotedString | separator_test.go:106-111 | `'test' WHERE` writes `'test'` and leaves ` WHERE` |
| LiteralVectors.TripleQuotedString | separator_test.go:112-117 | a triple-quoted literal is closed by three quotes |
| LiteralVectors.EscapedQuoteString | separator_test.go:118-123 | an escaped quote does not close the literal and is copied with its backslash |
| LiteralVectors.EmptyString | separator_test.go:124-129 | `""` followed by a non-quote is an empty single-quoted literal |
| LiteralVectors.TripleQuotedNewlines | separator_test.go:130-135 | line feeds inside a triple-quoted literal are copied |
| LiteralVectors.EmptyTripleQuoted | separator_test.go:136-141 | six quotes are an empty triple-quoted literal |
| LiteralVectors.MultiByteString | separator_test.go:142-147 | non-ASCII code points are copied as single runes |
| LiteralVectors.RawString | separator_test.go:173-178 | `r"test"` is copied with its prefix letter |
| LiteralVectors.UpperRawString | separator_test.go:179-184 | `R'test'` is copied with its prefix letter |
| LiteralVectors.RawBackslash | separator_test.go:185-190 | a backslash in a raw literal is copied as it is |
| LiteralVectors.BytesString | separator_test.go:216-221 | `b"test"` is copied with its prefix letter |
| LiteralVectors.UpperBytesString | separator_test.go:222-227 | `B'test'` is copied with its prefix letter |
| LiteralVectors.HexEscapes | separator_test.go:228-233 | escape pairs in a bytes literal are copied unchanged |
| LiteralVectors.RawBytesString | separator_test.go:259-264 | `rb"test"` is copied with both prefix letters |
| LiteralVectors.UpperRawBytesString | separator_test.go:265-270 | `RB"test"` is copied with both prefix letters |
| Vectors.SingleQuery | separator_test.go:300-309 | `SELECT "123";` yields one statement ended by `;` |
| Vectors.DoubleQueries | separator_test.go:310-323 | two statements, each ended by `;`, with the space between them trimmed |
| Vectors.QuotedIdentifiers | separator_test.go:324-337 | backtick identifiers are kept in the statements as they are |
| Vectors.VerticalTerminator | separator_test.go:338-347 | `\G` ends the statement and is reported as its terminator |
| Vectors.MixedTerminators | separator_test.go:348-365 | `;` and `\G` alternate, and each statement reports the one that ended it |
| Vectors.SecondQueryEmpty | separator_test.go:380-393 | `SELECT 1; ;` yields `SELECT 1` and an empty statement, both ended by `;` |
| Vectors.NewlineAfterTerminator | separator_test.go:394-407 | a line feed after a terminator is trimmed off the next statement, and one after the last adds no statement |
| Vectors.TerminatorInString | separator_test.go:408-421 | `;` inside string literals does not split |
| Vectors.TerminatorInRawString | separator_test.go:422-435 | the custom terminator `\G` inside raw literals does not split, and outside them it does |
| Vectors.TerminatorInIdentifier | separator_test.go:436-449 | `;` inside backtick identifiers does not split |
| Vectors.NewlineBeforeTerminator | separator_test.go:450-463 | a line feed before the terminator is trimmed away |
| Vectors.MultipleComments | separator_test.go:474-487 | comments are discarded wherever they stand. One inside a statement leaves its surrounding spaces |
| Vectors.OnlyComments | separator_test.go:488-492 | an input of comments only yields no statement |
| Vectors.UnclosedString | separator_test.go:493-506 | an open literal runs to the end and becomes the trailing statement with terminator `""` |
| Vectors.SecondQueryEmptyTexts | separator_test.go:580-587 | the text-only entry point gives `SELECT 1` and the empty text |

## Left out

- Separator.SeparateInput: requires every custom terminator to be non-empty. In the Go code an empty one matches everywhere without advancing, so the loop never ends. A terminating function cannot model that. `SeparatorProperties.EmptyTerminatorStalls` shows the step that makes no progress.
- Separator.SeparateInputString: carries the same non-empty-terminator precondition, for the same reason.
- Input decoding: the input is a sequence of code points, as after Go's `[]rune(s)`. Replacing invalid UTF-8 bytes and the `string(...)` conversions back are not modelled.
- `strings.Builder` and `slices.Equal` are modelled by sequence concatenation and sequence equality.
- Mutable state is replaced by functions that return the appended text and the remaining input.
- The comment-preserving mode, the open-delimiter status and `SeparateInputStringPreserveComments` are not modelled. They do not exist in `separator.go`, whose `newSeparator` takes two arguments. The three-argument calls in `separator_test.go` belong to another version of the code.
- Three whole-input test cases are not worked as vectors: the longer SQL query, DDL, and the triple-quoted "totally incorrect query". Their words use lower-case letters, `*`, `=`, parentheses, or the prefix letters `R` and `B` inside words (`FROM`, `PRIMARY`). The plain-text helper in `Vectors` covers none of these, because each costs the solver far more per rune. `Pieces.SplitJoined` states the general rule the first two follow. The last case is outside it: `Pieces.Chunk` has no triple-quoted kind.
- The Go test scaffolding (`cmp.Diff`, subtests) is not modelled.
