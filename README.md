# Monkey front end: single-character lexer and two-token parser

A Dafny model of the front end of a small Monkey-style interpreter written in
Rust: the token kinds, the syntax-tree types, the character predicates, the
lexer and the parser.

- **Tokens** (`tokens.dfy`): the fourteen token kinds (`Ident` carries a
  name, `Int` a `usize`), the `Token` record and `NewToken`.
- **Syntax tree** (`ast.dfy`): closed variants `Statement` (let, return,
  expression statement) and `Expression` (identifier, literal), the
  `Program` root, and the `TokenLiteral`/`ToString` accessors.
- **Character predicates** (`utils.dfy`, `unicode.dfy`): `IsLetter`,
  `IsDigit`, and models of Rust's `char::is_whitespace` (the full Unicode
  White_Space set) and `char::is_numeric` (a partial table, see below).
- **Lexer** (`lexer.dfy`): the class `Lexer` with the fields `input`,
  `position` and `currentChar`. `NextToken` reads the one character at the
  cursor. It maps `= ; ( ) , + { }` to their kinds and every other
  character, letters, digits and whitespace included, to `Illegal`. Past
  the end it returns `Eof` with an empty literal. It always moves the cursor
  one place on. `SkipWhitespace` and `Peek` exist but `NextToken` never calls
  them. So the lexer never produces `Let`, `Ident`, `Int` or `Function`
  tokens. The spec function `TokenAt(input, p)` is the token a call at
  cursor `p` returns. `Calls(input, n)` lists the tokens of `n` calls, and
  `NextTokens` proves that a new `Lexer` returns exactly these.
- **Token source** (`token_streams.dfy`): the parser reads tokens from a
  `TokenSource`. It hands out a fixed token sequence one token per call and
  then `Eof` forever. `LexerIsTokenSource` proves that a `Lexer` over `s`
  and a `TokenSource` over `LexAll(s)` return the same token at every call.
  So the concrete lexer is one instance, and hand-built streams with `Let`
  and `Ident` tokens are others.
- **Parser** (`parser.dfy`): the class `Parser` holds the owned source, the
  `currentToken`/`peekToken` window and the error list. Its methods are
  proved against spec functions over the padded stream:
  - `LetAt` is the let rule;
  - `StatementAt` is the dispatch;
  - `ParseFrom` is the program loop.
  `ParserExamples` (`parser_examples.dfy`) holds the parser's own test and
  the consequences for the concrete lexer.

The skip loop of the let rule (src/parser/mod.rs:110-112) stops only on a
`Semicolon`. On a stream with no semicolon after the `Assign`, it spins
forever on `Eof`. The parser methods therefore require the predicates
`LetHalts`/`StatementHalts`/`Halts`. Each states that the corresponding
loop ends: `Halts` is defined by following the program loop itself.
`HaltsWhenEveryLetHalts` gives callers a simple sufficient condition.
Conversely, `StuckAtLet` shows that when `Halts` fails, the loop reaches a
`Let` whose skip loop has no `Semicolon` ahead, and `SkipNeverEnds` shows
that such a skip loop never ends. `UnterminatedLet` is one such input.

The model follows the code as written:
- `expect_peek` records no error, and nothing ever appends to `errors`;
- only `let` statements are parsed, and a let statement's `token` is the
  `Assign` token;
- the value is always the placeholder literal `"0"`;
- the lexer skips no whitespace and scans no keywords, identifiers or numbers.

The code also has four places that do not type-check, and the model takes
their evident intent:
- `TokenType` has no `PartialEq`, so kinds are compared structurally,
  payload included;
- `Token` has no `Clone`;
- `Token`'s fields `kind` and `literal` are private (src/token.rs:25-28),
  yet the parser, the lexer's test and the syntax tree read them. The model
  makes them public fields of the `Token` record;
- `Token::new_token` takes a `char`, but the lexer passes a `String`.
  `NewToken` keeps the `char` signature of src/token.rs:31. The lexer's
  `Eof` case builds `Token(Eof, "")` directly.

One consequence is proved by `ParseLexedInput` and `LexedProgramIsEmpty`:
driven by this lexer, `parse_program` returns the empty program for
every input. So on the input of `test_let_statements` the expectation of
three statements does not hold. On a hand-built token stream it does hold
(`LetStatementsParse`, `TestLetStatements`).

## Model

| member | source | states |
|---|---|---|
| `Unicode.AsciiWhitespace` | src/lexer.rs:32-34 | space, tab, newline and carriage return are whitespace; on ASCII, whitespace is exactly space and U+0009..U+000D |
| `Utils.DigitsAndBlanksAreNotLetters` | src/utils.rs:1-3 | `is_letter` is false for `'0'..'9'`, space, tab, newline and carriage return |
| `Utils.LettersAreAscii` | src/utils.rs:1-3 | every letter is an ASCII character |
| `Utils.AsciiDigitsAreDigits` | src/utils.rs:5-8 | `is_digit` holds for every `'0'..'9'` |
| `Utils.IsDigitOnAscii` | src/utils.rs:5-8 | on ASCII, `is_digit` holds exactly for `'0'..'9'`, the test in the comment beside it |
| `Utils.IsDigitBeyondAscii` | src/utils.rs:5-6 | `is_digit` also accepts non-ASCII numerals (superscript two) |
| `Utils.LetterAndDigitDisjoint` | src/utils.rs:1-8 | no character is both a letter and a digit |
| `Unicode.IsWhitespace` | src/lexer.rs:33 | `char::is_whitespace` (the Unicode White_Space set); space, tab, newline and carriage return are in it |
| `Utils.IsLetter` | src/utils.rs:1-3 | ASCII letters and `_`; every letter is ASCII |
| `Utils.IsDigit` | src/utils.rs:5-8 | `char::is_numeric`; holds for every `'0'..'9'` |
| `Tokens.NewToken` | src/token.rs:31-36 | the token has exactly the given kind, and its literal is the one-character string of the given character |
| `Ast.Expression.Text` | src/ast/mod.rs:63-66 | an identifier shows its name, a literal its value |
| `Ast.LetStatement.TokenLiteral` | src/ast/mod.rs:57-59 | the literal of the statement's token |
| `Ast.LetStatement.ToString` | src/ast/mod.rs:61-67 | the value's identifier name or literal value |
| `Ast.ReturnStatement.TokenLiteral` | src/ast/mod.rs:77-79 | the literal of the statement's token |
| `Ast.ReturnStatement.ToString` | src/ast/mod.rs:81-86 | the return value's identifier name or literal value |
| `Ast.ExpressionStatement.TokenLiteral` | src/ast/mod.rs:96-98 | the literal of the statement's token |
| `Ast.ExpressionStatement.ToString` | src/ast/mod.rs:100-105 | the expression's identifier name or literal value |
| `Lexing.CharAt` | src/lexer.rs:23-26 | a character exactly when the index is inside the input, and then the input's character there |
| `Lexing.Classify` | src/lexer.rs:54-64 | a character becomes a kind other than `Illegal` exactly when it is one of `= ; ( ) , + { }` |
| `Lexing.TokenAt` | src/lexer.rs:50-72 | the token a call at a cursor returns: `Eof` exactly past the end, a one-character literal inside and an empty one past the end, never a `Let`, `Ident`, `Int` or `Function` kind |
| `Lexing.ClassifyTable` | src/lexer.rs:54-64 | the eight-entry table in both directions; every other character is `Illegal` |
| `Lexing.TokenAtShape` | src/lexer.rs:50-72 | inside the input, the token is the character itself with the table's kind; past the end, `Eof` with an empty literal; never a `Let`, `Ident`, `Int` or `Function` kind |
| `Lexing.WhitespaceEnd` | src/lexer.rs:36-43 | the stop position is not before the start, everything skipped is whitespace, it rests on a non-whitespace character or at the end, and it does not move when already past the end |
| `Lexing.LexAll` | src/lexer.rs:50-72 | one token per character, the `i`-th being the token a call at cursor `i` returns |
| `Lexing.CallsAt` | src/lexer.rs:50-72 | the `i`-th entry of `Calls(s, n)` is the token at cursor `i` |
| `Lexing.CallsThenEof` | src/lexer.rs:67-70 | `Calls(s, \|s\| + k)` is one token per character in order, then `k` `Eof` tokens |
| `Lexing.NextTokens` | src/lexer.rs:50-72 | `n` calls of `NextToken` on a new lexer over `s` return `Calls(s, n)`; when `n = \|s\| + k`, one token per character in order, then `k` `Eof` tokens |
| `Lexing.Lexer.IsWhitespace` | src/lexer.rs:32-34 | the same as `char::is_whitespace`: the extra newline and carriage-return tests add nothing |
| `Lexing.Lexer.constructor` | src/lexer.rs:15-21 | a new lexer is at position 0 over the given input, with current character `'\0'` |
| `Lexing.Lexer.GetCurrentChar` | src/lexer.rs:23-26 | stores and returns the character at the position, nothing past the end |
| `Lexing.Lexer.Advance` | src/lexer.rs:28-30 | the position grows by one |
| `Lexing.Lexer.SkipWhitespace` | src/lexer.rs:36-43 | the new position is `WhitespaceEnd` of the old one, and the current character is the one there |
| `Lexing.Lexer.Peek` | src/lexer.rs:46-48 | the character after the position, nothing past the end; no state changes |
| `Lexing.Lexer.NextToken` | src/lexer.rs:50-72 | returns `TokenAt(input, old position)` and the position grows by exactly one, at or past the end too |
| `Lexing.TestNextToken` | src/lexer.rs:75-95 | `"=+(){}"` gives ASSIGN, PLUS, LPAREN, RPAREN, LBRACE, RBRACE, EOF with the expected literals |
| `TokenStreams.TokenSource.constructor` | src/lexer.rs:15-21 | a new source starts at position 0 |
| `TokenStreams.TokenSource.NextToken` | src/lexer.rs:67-70 | returns the token at the position, `Eof` past the end, and the position grows by one |
| `TokenStreams.LexerIsTokenSource` | src/lexer.rs:50-72 | a lexer over `s` and a source over `LexAll(s)` return the same token at every call count |
| `TokenStreams.LexedStreamKinds` | src/lexer.rs:53-68 | no token of a lexed stream has kind `Let`, `Ident`, `Int` or `Function` |
| `Parsing.SemicolonIndex` | src/parser/mod.rs:110-112 | where the skip loop stops: a `Semicolon` at or after the start, with none before it |
| `Parsing.SkipNeverEnds` | src/parser/mod.rs:110-112 | without a semicolon after the start, the skip loop's guard holds at every later index |
| `Parsing.LetAt` | src/parser/mod.rs:82-119 | the let rule always moves past the `Let` |
| `Parsing.LetAtMeaning` | src/parser/mod.rs:82-119 | succeeds exactly on `Ident` then `Assign`; gives up on the `Ident` position or the `Assign` position otherwise; on success it binds the identifier's name, keeps the `Assign` token, holds `Literal "0"` and stops on the first `Semicolon` after the `Assign` |
| `Parsing.StatementAt` | src/parser/mod.rs:65-76 | the let rule on `Let`; no statement and no movement for every other kind |
| `Parsing.ParseFrom` | src/parser/mod.rs:49-63 | the loop stops on an `Eof` current token, never before its start, and every statement it collects is a let statement from the let rule |
| `Parsing.HaltsWhenEveryLetHalts` | src/parser/mod.rs:49-63 | the program loop ends when every `Let` at or after its start begins a let rule that ends |
| `Parsing.StuckAtLet` | src/parser/mod.rs:49-119 | when the program loop does not end, it reaches a `Let` followed by `Ident` and `Assign` with no `Semicolon` after the `Assign` |
| `Parsing.StatementsBoundedByLets` | src/parser/mod.rs:49-76 | a program has no more statements than the stream has `Let` tokens |
| `Parsing.NoLetsNoStatements` | src/parser/mod.rs:49-76 | a stream without `Let` tokens always parses, to no statements |
| `Parsing.LexedProgramIsEmpty` | src/parser/mod.rs:49-63 | driven by the concrete lexer, the program loop ends and yields no statements |
| `Parsing.Parser.constructor` | src/parser/mod.rs:19-29 | the current token is the source's next token, the peek token the one after, and the error list is empty |
| `Parsing.Parser.NextToken` | src/parser/mod.rs:31-33 | the new current token is the old peek token, the new peek token is the source's next token |
| `Parsing.Parser.Errors` | src/parser/mod.rs:35-38 | always the empty list |
| `Parsing.Parser.ExpectPeek` | src/parser/mod.rs:40-47 | true exactly when the peek token has the given kind, and then one shift; otherwise window and source unchanged |
| `Parsing.Parser.ParseProgram` | src/parser/mod.rs:49-63 | returns `Some` of the statements `ParseFrom` gives, in order, and leaves the current token on `Eof` |
| `Parsing.Parser.ParseStatement` | src/parser/mod.rs:65-76 | result and new window as `StatementAt` says |
| `Parsing.Parser.ParseLetStatement` | src/parser/mod.rs:82-119 | result and new window as `LetAt` says |
| `ParserExamples.LetStatementsParse` | src/parser/mod.rs:128-160 | the token stream of the three let statements parses to exactly three let statements named `x`, `y`, `foobar` |
| `ParserExamples.TestLetStatements` | src/parser/mod.rs:128-160 | the parser test's checks hold on that token stream |
| `ParserExamples.ParseLexedInput` | src/parser/mod.rs:134-137 | with the concrete lexer, any input gives `Some` of the empty program and no errors |
| `ParserExamples.ParseTwice` | src/parser/mod.rs:49-63 | a second `parse_program` call on the same parser gives the empty program |
| `ParserExamples.MissingIdentifier` | src/parser/mod.rs:87-93 | `let = 5;` gives no statement and the loop ends on `Eof` |
| `ParserExamples.UnterminatedLet` | src/parser/mod.rs:110-112 | `let x = 5` without a semicolon does not terminate |

## Left out

- src/repl.rs (the terminal loop) and src/main.rs (start-up): terminal I/O only.
- src/lexer/lexer.rs and src/token/token.rs are not part of this model. They are drafts outside the module tree and do not compile.
- The `Node` trait's default `token_literal` and `Program`'s `Node` impl (src/ast/mod.rs:3-8, 28-47): they only panic (`todo!`, `unimplemented!`).
- The `println!` diagnostics of the parser: logging only.
- `Unicode.IsNumeric`: the table holds the ASCII digits and a few non-ASCII ranges of the Nd, Nl and No categories, not all of those characters; `Utils.IsDigit` inherits this.
- `Lexing.Lexer.NextToken`: the position is an unbounded `nat`; the `usize` overflow after 2^64 calls is not modelled.
- `Parsing.Parser.constructor`: the parser holds a reference to its token source instead of owning a `Lexer`; `LexerIsTokenSource` relates the two, but exclusive ownership is not captured.
- `Parsing.Parser.ParseProgram`: requires `Halts`, because the source's loop runs forever on other streams (a let statement whose `Assign` has no later `Semicolon`).
- `Parsing.Parser.ParseStatement`: requires `StatementHalts`, for the same reason.
- `Parsing.Parser.ParseLetStatement`: requires `LetHalts`, for the same reason.
- Keyword, identifier and number scanning, two-character operators, return and expression statements, and error messages: this version of the code does not implement them.
