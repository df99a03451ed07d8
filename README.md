# A verified model of a toy interpreter's front end

This project models the front end of a small scripting-language interpreter
written in Rust. The front end has three parts:

- the lexer `tokenise` (src/lexer.rs), which splits the source at whitespace
  and classifies each run of non-whitespace characters through a fixed
  spelling table;
- the recursive-descent `Parser` (src/parser.rs), with a token vector and a
  cursor `idx`, which builds declarations (`let x = 5`) and loops
  (`while a == b { ... }`);
- the syntax tree of src/ast.rs.

Every `panic!` and every failing `unwrap` of the original becomes an explicit
error value. The lexer's errors are `TrailingWhitespace` and
`UnterminatedNumeral`. The parser's errors are `Unexpected(expected, found)`,
`NotImplemented`, `MissingValue` and `BadIntLiteral`.

Files:

- `wrappers.dfy`: `Option` and `Result`.
- `syntax.dfy` (module `Syntax`): `Node`, `Ast`, `Ast::new`, and a size measure
  showing that nodes form finite trees.
- `numerals.dfy` (module `Numerals`): `i64::from_str_radix(text, 10)` as
  `ParseI64`.
- `lexer.dfy` (module `Lexing`): token kinds, the spelling table, the function
  `ScanFrom`/`Scan`, and the imperative `Tokenise`. `ScanFrom`/`Scan` say what
  the lexer computes. `Tokenise` mirrors the nested loops of `tokenise` and is
  proved equal to `Scan`.
- `lexer_properties.dfy` (module `LexerProperties`): an independent, word-based
  description `Outcome` of the lexer's result, proved equal to `Scan` for
  every source, and the consequences of that equality.
- `lexer_examples.dfy`: worked inputs for the lexer.
- `parser.dfy` (module `Parsing`):
  - the token checks;
  - one function per grammar rule (`LetAt`, `ConditionAt`, `StatementAt`,
    `BodyAt`, `WhileAt`, `NodeAt`, `ProgramFrom`), each giving the rule's
    result and the position where the cursor stops;
  - the class `Parser`, whose methods move `idx` step by step and are each
    proved to end as the matching function says.

  These proofs need only the fact that the token sequence ends with `Eof`, and
  they include every index into `tokens`.
- `parser_properties.dfy` (module `ParserProperties`): the shapes each rule
  accepts. It also proves the two surprising behaviours of the original:
  - a non-empty loop body never parses;
  - the final `Eof` becomes a node `IntLiteral(1)`.
- `parser_examples.dfy`: worked token sequences for the parser.

## Model

| member | source | states |
|---|---|---|
| Syntax.NewAst | src/ast.rs:53-57 | a new program has no nodes |
| Syntax.ChildrenAreSmaller | src/ast.rs:17-46 | every child of a node is strictly smaller than the node, so a node is a finite tree (each child is owned through a `Box`) |
| Syntax.Children | src/ast.rs:32-45 | the node and its direct children account for every node of its tree (`Size(n) == 1 + SizeOfAll(cs)`), so leaves have none; the children come in field order: both operands of a comparison or binary operation, the place and the value of an assignment, the value of a declaration, and a loop's condition followed by its body |
| Numerals.ParseI64 | src/parser.rs:54-62 | on text that begins with a digit, the parse succeeds exactly when the text is all digits and its value is at most 9223372036854775807, and it then yields that value |
| Numerals.DecimalRoundTrip | src/parser.rs:56-60 | every value from 0 to the largest `i64` is read back from its decimal spelling, also with a leading `+` or `-` |
| Numerals.OverflowRejected | src/parser.rs:56-60 | 9223372036854775808 is rejected |
| Lexing.Spelling | src/lexer.rs:37-51 | every key of the spelling table is non-empty, at most five characters long and does not begin with a digit |
| Lexing.Classify | src/lexer.rs:84-110 | the token made from a run carries the whole run as its text |
| Lexing.SpaceEnd | src/lexer.rs:64-68 | the whitespace skip stops at or after the cursor, on a non-whitespace character or at the end |
| LexerProperties.SpaceEndAll | src/lexer.rs:64-68 | everything the skip steps over is whitespace, so where it stops is the first non-whitespace character |
| Lexing.RunEnd | src/lexer.rs:87-91 | a run ends at or after its start, on a whitespace character or at the end, and is non-empty when it starts on a non-whitespace character |
| LexerProperties.RunEndAll | src/lexer.rs:87-91 | nothing in a run is whitespace, so a run ends on the first whitespace character |
| Lexing.SkipWhitespace | src/lexer.rs:64-68 | the skip loop fails exactly when it reaches the end of the source (the `unwrap` at line 66), and otherwise stops where `SpaceEnd` says |
| Lexing.ReadNumeral | src/lexer.rs:84-94 | the digit-led loop collects exactly the run up to the next whitespace, and it fails exactly when the run reaches the end of the source (the `unwrap` at line 90) |
| Lexing.ReadWord | src/lexer.rs:100-104 | the identifier loop collects exactly the run up to the next whitespace or the end, and it never fails (`unwrap_or(' ')`) |
| Lexing.ReadRun | src/lexer.rs:84-110 | a run fails exactly when it is digit-led and reaches the end; otherwise it yields the classified run and where it ends |
| Lexing.NextToken | src/lexer.rs:60-113 | one round of the outer loop either fails as the whole scan from that cursor fails, or yields the token the scan puts first and moves the cursor past the single character after the run; on success the token is the classified run that starts where the whitespace skip stops, and the cursor is one past that run's end |
| Lexing.Tokenise | src/lexer.rs:36-118 | the imperative lexer returns exactly `Scan(source)` |
| Lexing.ScanSpaceFails | src/lexer.rs:64-68 | a whitespace skip that reaches the end fails the scan with `TrailingWhitespace` |
| Lexing.ScanRunFails | src/lexer.rs:87-91 | a digit-led run that reaches the end fails the scan with `UnterminatedNumeral` carrying the run |
| Lexing.ScanRunLexes | src/lexer.rs:84-112 | any other run becomes the next token, and the scan goes on one character after the run |
| LexerProperties.ScanFromOutcome | src/lexer.rs:60-113 | from every cursor inside the source, the scan agrees with the word-based description |
| LexerProperties.LexOutcome | src/lexer.rs:36-118 | for every source the lexer's result is the word-based `Outcome`: it fails on two or more trailing whitespace characters or an all-whitespace source; it fails on a digit-led last word with nothing after it; otherwise it yields one classified token per word, then `Eof` |
| LexerProperties.EmptySource | src/lexer.rs:60-115 | the empty source yields exactly `[Eof]` |
| LexerProperties.SuccessShape | src/lexer.rs:36-118 | a successful result has one token per whitespace-separated word, in source order, each classified from its word, then `Eof` with no text; no earlier token is `Eof`, and each carries a non-empty text without whitespace |
| LexerProperties.TrailingWhitespaceFails | src/lexer.rs:64-66 | the lexer fails with `TrailingWhitespace` if and only if the source ends in two or more whitespace characters or is non-empty and all whitespace |
| LexerProperties.UnterminatedNumeralFails | src/lexer.rs:87-90 | the lexer fails on a numeral if and only if the last word is digit-led with no whitespace after it, and the failure carries that word |
| LexerProperties.WordAtEndSucceeds | src/lexer.rs:100-104 | a last word that is not digit-led may end the source |
| LexerProperties.TextIsSourceWithoutWhitespace | src/lexer.rs:60-113 | on success, the token texts joined together give the source with all whitespace removed, so the character that ends a run never makes a token |
| LexerProperties.SpacedWords | src/lexer.rs:60-113 | the whitespace-separated words of texts that each carry one trailing space are exactly those texts, in order, for any texts that are non-empty and free of whitespace |
| LexerProperties.RelexSpaced | src/lexer.rs:36-118 | texts that are non-empty and free of whitespace, each followed by one space, lex to one classified token per text and then `Eof`, whether or not the last text is digit-led |
| LexerProperties.Relex | src/lexer.rs:36-118 | lexing is idempotent: on a successful result, the texts of the tokens before `Eof`, each followed by one space, lex to the same tokens again |
| LexerProperties.TableRoundTrip | src/lexer.rs:37-51 | the spelling table is one-to-one: each kind in it is found under its spelling, and any text found is the spelling of its kind, which is never `Identifier`, `IntLiteral` or `Eof` |
| LexerProperties.LongRunIsIdentifier | src/lexer.rs:106-108 | a run that is not digit-led and is longer than five characters misses the table and becomes an `Identifier` |
| LexerProperties.ClassifyNotEof | src/lexer.rs:106-110 | no run is classified as `Eof` |
| LexerExamples.NumeralRunExample | src/lexer.rs:84-94 | `12ab ` lexes to one `IntLiteral "12ab"` and `Eof`: later characters are not checked to be digits |
| LexerExamples.NoSplitExample | src/lexer.rs:100-110 | `x=1 == ` lexes to `Identifier "x=1"`, `DoubleEq "=="`, `Eof`: runs are not split at operator characters, and `==` is one token |
| LexerExamples.MissingNewlineExample | src/lexer.rs:87-90 | `let x = 5` without a final newline fails on the numeral `5` |
| LexerExamples.TwoNewlinesExample | src/lexer.rs:64-66 | `x` followed by two newlines fails the whitespace skip |
| Parsing.Operand | src/parser.rs:98-102 | an operand succeeds only on an `Identifier` or `IntLiteral` token |
| Parsing.LetAt | src/parser.rs:64-82 | a successful `parse_let` stops three tokens on, before the final `Eof` |
| Parsing.ConditionAt | src/parser.rs:84-109 | a successful `parse_condition` stops two tokens on, on an operand, before the final `Eof` |
| Parsing.StatementAt | src/parser.rs:111-148 | a successful `parse_statement` stops two tokens on, on its right operand, before the final `Eof` |
| Parsing.BodyAt | src/parser.rs:164-172 | a successful `parse_body` stops on a `}` at or after its start, before the final `Eof` |
| Parsing.WhileAt | src/parser.rs:174-187 | a successful `parse_while` stops at least five tokens on, before the final `Eof` |
| Parsing.NodeAt | src/parser.rs:192-196 | one round of `parse` leaves the cursor inside the tokens |
| Parsing.ProgramStep | src/parser.rs:191-198 | a successful round of `parse` adds its node after the nodes so far and goes on one token after the cursor |
| Parsing.Parser.FromTokens | src/parser.rs:13-16 | a parser starts at the first token of a sequence that ends with `Eof` |
| Parsing.Parser.Advance | src/parser.rs:44-46 | `advance` moves the cursor exactly one token on and changes nothing else |
| Parsing.Parser.ParseLet | src/parser.rs:64-82 | `parse_let` returns what `LetAt` gives and leaves the cursor where `LetAt` says; all its indexing stays in bounds |
| Parsing.Parser.ParseCondition | src/parser.rs:84-109 | `parse_condition` returns what `ConditionAt` gives and leaves the cursor where `ConditionAt` says |
| Parsing.Parser.ParseStatement | src/parser.rs:111-148 | `parse_statement` returns what `StatementAt` gives and leaves the cursor where `StatementAt` says |
| Parsing.Parser.ParseBody | src/parser.rs:164-172 | the loop of `parse_body` returns what `BodyAt` gives and leaves the cursor where `BodyAt` says |
| Parsing.Parser.ParseWhile | src/parser.rs:174-187 | `parse_while` returns what `WhileAt` gives and leaves the cursor where `WhileAt` says |
| Parsing.Parser.ParseNode | src/parser.rs:192-196 | the `match` in the loop of `parse` returns what `NodeAt` gives and leaves the cursor where `NodeAt` says |
| Parsing.Parser.Parse | src/parser.rs:189-201 | the loop of `parse` returns `ParseFrom(tokens, idx)`, with every index into `tokens` in bounds, and on success the cursor has passed the last token |
| Parsing.New | src/parser.rs:13-16 | creating a parser succeeds exactly when lexing succeeds, and then holds the lexer's tokens, which end with `Eof`, with the cursor at 0 |
| ParserProperties.ChecksAgreeWithMatches | src/parser.rs:18-42 | `expect` fails exactly when `match_single` is false, and then reports the expected and found kinds; the same holds for `expect_multiple` and `match_multiple`; a one-kind `expect_multiple` is `expect`; `match_multiple` holds exactly when some listed kind matches |
| ParserProperties.OperandShape | src/parser.rs:98-102 | an operand succeeds exactly on an `Identifier` with text, or an `IntLiteral` whose text parses, and becomes `Variable` or `IntLiteral` accordingly; any other kind fails with the rule's own error |
| ParserProperties.LetShape | src/parser.rs:64-82 | `parse_let` succeeds exactly on `let`, a name, `=` and a literal in range; it builds the declaration of that name and value, and stops on the literal three tokens on |
| ParserProperties.LetWithoutName | src/parser.rs:64-67 | `let` followed by `=` fails, expecting `Identifier` and finding `Eq` |
| ParserProperties.LexedIntLiteral | src/parser.rs:54-62 | on a token lexed from a digit-led run, `parse_int_literal` succeeds exactly when the run is all digits and at most the largest `i64`, and yields its value; otherwise it fails with the run |
| ParserProperties.ConditionShape | src/parser.rs:84-109 | `parse_condition` succeeds exactly on operand, `==`, operand; it builds an `Equal` comparison and stops on the right operand two tokens on |
| ParserProperties.StatementShape | src/parser.rs:111-148 | `parse_statement` succeeds exactly on operand, `+` or `-`, operand; it builds the binary operation and stops on the right operand two tokens on |
| ParserProperties.BodyFromOperandFails | src/parser.rs:164-172 | a body that starts on an operand never parses, since each statement stops on an operand where the next statement starts |
| ParserProperties.BodyOnlyEmpty | src/parser.rs:164-172 | `parse_body` succeeds if and only if it starts on `}`; the body is then empty and the cursor does not move |
| ParserProperties.WhileOnlyEmpty | src/parser.rs:174-187 | `parse_while` succeeds exactly on `while`, a condition, `{` and `}` at once; it builds a loop with an empty body and stops on the `}` five tokens on |
| ParserProperties.ProgramRound | src/parser.rs:191-198 | a successful round of `parse` builds a declaration, an `Equal` loop with an empty body, or `IntLiteral(1)`; a round that ends on the final `Eof` builds `IntLiteral(1)` and is the last |
| ParserProperties.ProgramShape | src/parser.rs:189-201 | every successful parse from inside the tokens ends with `IntLiteral(1)`, the node the final `Eof` becomes; every node is a declaration, an `Equal` loop with an empty body, or `IntLiteral(1)` |
| ParserExamples.EmptyProgramExample | src/parser.rs:189-201 | the tokens of an empty source parse to the single node `IntLiteral(1)` |
| ParserExamples.EmptyLoopExample | src/parser.rs:174-201 | the tokens of `while x == 1 { }` parse to the loop and then `IntLiteral(1)` |
| ParserExamples.BusyLoopExample | src/parser.rs:164-187 | the tokens of `while x == 1 { x + 1 }` fail to parse: the second statement starts on `1` and finds `}` where it expects `+` or `-` |

## Left out

- src/main.rs reads a file and prints the tree. That I/O is not part of this model.
- `parse_assignment` (src/parser.rs:150-162) is not modelled. It uses an unbound `value`, so it does not compile, and nothing calls it. The `Assignment` node is kept, but no modelled operation builds it.
- The string-literal lexing at src/lexer.rs:70-82 is commented out in the source and is not modelled.
- Panic messages and their `{:?}` formatting are not modelled. An error carries the expected and found token kinds instead.
- Rust's `source.len()` counts bytes, while `chars().nth(idx)` counts characters. For a source that is not ASCII, the original mixes the two measures. The model takes the source as a sequence of characters and uses one character index throughout.
- `char::is_whitespace` is written out as the fixed list of Unicode White_Space code points.
- The spelling `HashMap` is written as a lookup by `match`. `LexerProperties.TableRoundTrip` shows the lookup holds the same thirteen pairs.
- The inner loops of `tokenise` and the `match` inside the loop of `parse` are factored into their own methods, with the same control flow:
  - `Lexing.SkipWhitespace`, `Lexing.ReadNumeral`, `Lexing.ReadWord`, `Lexing.ReadRun` and `Lexing.NextToken`;
  - `Parsing.Parser.ParseNode`.
- The read-only helpers `expect`, `expect_multiple`, `match_single`, `match_multiple`, `parse_variable` and `parse_int_literal` read only `tokens[idx]`. They are modelled as functions of the token sequence and the cursor, not as members of the class.
- `tokens` is a constant field, since no method changes it.
- After a failure the original has panicked, so the model says nothing about where the cursor is then.
- `Parser::new` panics when `tokenise` panics. `Parsing.New` returns the lexer's error instead.
- Parsing.Parser.Parse: on success, the cursor is stated only as having passed the last token. Starting from 0 it ends exactly one past the last token, but that is not stated.
- The texts of a result joined by single spaces with nothing after the last one do not always lex again: a digit-led last text then fails (`LexerProperties.UnterminatedNumeralFails`). `LexerProperties.Relex` therefore puts one space after every text. Relexing texts joined in any other way is not stated.
- In four places the code does not do what a reader of the language would expect. The model follows the code:
  - One might expect a non-empty all-whitespace source to yield only `Eof`. The code fails with `TrailingWhitespace` (`LexerProperties.TrailingWhitespaceFails`).
  - One might expect a numeral at the very end of the source to lex. The code fails with `UnterminatedNumeral` (`LexerExamples.MissingNewlineExample`).
  - One might expect a loop with a statement in its body to parse. The code fails, because each statement stops on its right operand (`ParserExamples.BusyLoopExample`).
  - One might expect the lexer to reject a digit-led run that is not a number. The code lexes it as an integer literal, and the parser reports it with `BadIntLiteral`.
