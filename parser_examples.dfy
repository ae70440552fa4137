/** The parser's own test and further consequences of the parser's contracts. */
module ParserExamples {
  import opened Wrappers
  import opened Tokens
  import opened Ast
  import opened TokenStreams
  import opened Parsing

  /** The tokens of `let x = 5; let y = 10; let foobar = 838383;` as a lexer
      that recognises keywords, identifiers and integers would produce them. */
  const LetTokens: seq<Token> := [
    Token(Let, "let"), Token(Ident("x"), "x"), Token(Assign, "="), Token(Int(5), "5"), Token(Semicolon, ";"),
    Token(Let, "let"), Token(Ident("y"), "y"), Token(Assign, "="), Token(Int(10), "10"), Token(Semicolon, ";"),
    Token(Let, "let"), Token(Ident("foobar"), "foobar"), Token(Assign, "="), Token(Int(838383), "838383"),
    Token(Semicolon, ";")
  ]

  /** The names bound by the let statements among `statements`, in order. */
  function LetNames(statements: seq<Statement>): seq<string> {
    if statements == [] then []
    else
      (if statements[0].LetStmt? then [statements[0].letStatement.name.name] else [])
      + LetNames(statements[1..])
  }

  /** The let statement `let <name> = ...;` becomes. */
  function Bound(name: string): Statement {
    LetStmt(LetStatement(Token(Assign, "="), Identifier(name), Placeholder()))
  }

  lemma ParseThird()
    ensures Halts(LetTokens, 10) && ParseFrom(LetTokens, 10) == Parse([Bound("foobar")], 15)
  {
    var t := LetTokens;
    assert t[14].kind == Semicolon;
    assert SemicolonIndex(t, 12) == 14;
    assert Halts(t, 15);
  }

  lemma ParseSecond()
    ensures Halts(LetTokens, 5) && ParseFrom(LetTokens, 5) == Parse([Bound("y"), Bound("foobar")], 15)
  {
    var t := LetTokens;
    assert t[9].kind == Semicolon;
    assert SemicolonIndex(t, 7) == 9;
    ParseThird();
  }

  lemma ParseFirst()
    ensures Halts(LetTokens, 0) && ParseFrom(LetTokens, 0) == Parse([Bound("x"), Bound("y"), Bound("foobar")], 15)
  {
    var t := LetTokens;
    assert t[4].kind == Semicolon;
    assert SemicolonIndex(t, 2) == 4;
    ParseSecond();
  }

  /** The three let statements parse to three let statements named `x`, `y`
      and `foobar`, in that order. */
  lemma LetStatementsParse()
    ensures Halts(LetTokens, 0)
    ensures |ParseFrom(LetTokens, 0).statements| == 3
    ensures forall s :: s in ParseFrom(LetTokens, 0).statements ==> s.LetStmt?
    ensures LetNames(ParseFrom(LetTokens, 0).statements) == ["x", "y", "foobar"]
  {
    ParseFirst();
    var ss := [Bound("x"), Bound("y"), Bound("foobar")];
    assert ss[1..] == [Bound("y"), Bound("foobar")] && ss[1..][1..] == [Bound("foobar")];
  }

  /** The parser's test, checked on a source of `LetTokens`. */
  method TestLetStatements() returns (passed: bool)
    ensures passed
  {
    var source := new TokenSource(LetTokens);
    var parser := new Parser(source);
    ParseFirst();
    var program := parser.ParseProgram();
    var expected := ["x", "y", "foobar"];
    assert program == Some(Program([Bound(expected[0]), Bound(expected[1]), Bound(expected[2])]));
    passed := program.Some? && |program.value.statements| == 3;
    for i := 0 to 3
      invariant passed
    {
      var stmt := program.value.statements[i];
      match stmt {
        case LetStmt(letStatement) =>
          passed := passed && letStatement.name.name == expected[i];
        case _ =>
          passed := false;
      }
    }
  }

  /** Driven by the concrete lexer, `ParseProgram` yields the empty program
      whatever the input, with no errors. */
  method ParseLexedInput(input: string) returns (program: Option<Program>, errors: seq<string>)
    ensures program == Some(Program([]))
    ensures errors == []
  {
    var source := new TokenSource(Lexing.LexAll(input));
    var parser := new Parser(source);
    LexedProgramIsEmpty(input);
    program := parser.ParseProgram();
    errors := parser.Errors();
  }

  /** A second `ParseProgram` on a parser whose first one returned gives the
      empty program. */
  method ParseTwice(tokens: seq<Token>) returns (first: Option<Program>, second: Option<Program>)
    requires Halts(tokens, 0)
    ensures first == Some(Program(ParseFrom(tokens, 0).statements))
    ensures second == Some(Program([]))
  {
    var source := new TokenSource(tokens);
    var parser := new Parser(source);
    first := parser.ParseProgram();
    second := parser.ParseProgram();
  }

  /** `let = 5;`: the missing identifier makes the let rule give up; the
      program is empty and no error is recorded. */
  lemma MissingIdentifier()
    ensures var t := [Token(Let, "let"), Token(Assign, "="), Token(Int(5), "5"), Token(Semicolon, ";")];
      Halts(t, 0) && ParseFrom(t, 0) == Parse([], 4)
  {
    var t := [Token(Let, "let"), Token(Assign, "="), Token(Int(5), "5"), Token(Semicolon, ";")];
    assert LetAt(t, 0) == Attempt(None, 1);
    assert Halts(t, 4);
    assert Halts(t, 2);
  }

  /** `let x = 5` without a semicolon: the skip loop never ends, so the
      program loop does not either. */
  lemma UnterminatedLet()
    ensures var t := [Token(Let, "let"), Token(Ident("x"), "x"), Token(Assign, "="), Token(Int(5), "5")];
      !Halts(t, 0)
  {
    var t := [Token(Let, "let"), Token(Ident("x"), "x"), Token(Assign, "="), Token(Int(5), "5")];
    assert !SemicolonFrom(t, 2) by {
      forall k | 2 <= k < |t| ensures t[k].kind != Semicolon {
      }
    }
  }
}
