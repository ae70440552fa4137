/**
  The parser: a window of two tokens (current and peek) over a token source,
  a list of error messages, and the statement rules. The spec functions
  below describe, on the padded token stream, where a parse attempt that
  starts with the current token at index `i` leaves the window and what it
  produces; the `Parser` class is proved against them.
 */
module Parsing {
  import opened Wrappers
  import opened Tokens
  import opened Ast
  import opened TokenStreams

  /** The outcome of one statement attempt: the statement, if any, and the
      index of the current token when the attempt returns. */
  datatype Attempt = Attempt(statement: Option<Statement>, stop: nat)

  /** The outcome of a program parse: the statements, and the index of the
      `Eof` token the loop stopped at. */
  datatype Parse = Parse(statements: seq<Statement>, stop: nat)

  /** A `Semicolon` occurs at some index `>= j` of the stream: exactly when
      the loop that skips to the next semicolon, started at `j`, ends. */
  ghost predicate SemicolonFrom(tokens: seq<Token>, j: nat) {
    exists k :: j <= k < |tokens| && tokens[k].kind == Semicolon
  }

  /** The index of the first `Semicolon` at or after `j`. */
  ghost function SemicolonIndex(tokens: seq<Token>, j: nat): (k: nat)
    requires SemicolonFrom(tokens, j)
    ensures j <= k < |tokens| && tokens[k].kind == Semicolon
    ensures forall m :: j <= m < k ==> tokens[m].kind != Semicolon
    decreases |tokens| - j
  {
    if tokens[j].kind == Semicolon then j
    else
      assert SemicolonFrom(tokens, j + 1) by {
        var k :| j <= k < |tokens| && tokens[k].kind == Semicolon;
        assert j + 1 <= k;
      }
      SemicolonIndex(tokens, j + 1)
  }

  /** Without a `Semicolon` at or after `j` the skip loop's guard holds at
      every later index, so the loop runs forever. */
  lemma SkipNeverEnds(tokens: seq<Token>, j: nat, m: nat)
    requires !SemicolonFrom(tokens, j) && j <= m
    ensures At(tokens, m).kind != Semicolon
  {
  }

  /** The let rule started at `i` returns: either it gives up before the skip
      loop, or a semicolon follows the `Assign` at `i + 2`. */
  ghost predicate LetHalts(tokens: seq<Token>, i: nat) {
    At(tokens, i + 1).kind.Ident? && At(tokens, i + 2).kind == Assign ==> SemicolonFrom(tokens, i + 2)
  }

  function Placeholder(): Expression {
    LiteralExpr(Literal("0"))
  }

  /** The let rule, with the current token at `i`. */
  ghost function LetAt(tokens: seq<Token>, i: nat): (a: Attempt)
    requires LetHalts(tokens, i)
    ensures i < a.stop
  {
    var name := At(tokens, i + 1);
    if !name.kind.Ident? then Attempt(None, i + 1)
    else if At(tokens, i + 2).kind != Assign then Attempt(None, i + 2)
    else
      var stmt := LetStatement(At(tokens, i + 2), Identifier(name.kind.name), Placeholder());
      Attempt(Some(LetStmt(stmt)), SemicolonIndex(tokens, i + 2))
  }

  /** The let rule succeeds exactly on `Ident` then `Assign`; it then binds the
      identifier's name, keeps the `Assign` token, holds the placeholder value
      and stops on the first `Semicolon` after the `Assign`. */
  lemma LetAtMeaning(tokens: seq<Token>, i: nat)
    requires LetHalts(tokens, i)
    ensures LetAt(tokens, i).statement.Some? <==> At(tokens, i + 1).kind.Ident? && At(tokens, i + 2).kind == Assign
    ensures !At(tokens, i + 1).kind.Ident? ==> LetAt(tokens, i).stop == i + 1
    ensures At(tokens, i + 1).kind.Ident? && At(tokens, i + 2).kind != Assign ==> LetAt(tokens, i).stop == i + 2
    ensures LetAt(tokens, i).statement.Some? ==>
      var a := LetAt(tokens, i);
      && a.statement.value.LetStmt?
      && a.statement.value.letStatement.name.name == At(tokens, i + 1).kind.name
      && a.statement.value.letStatement.token == At(tokens, i + 2)
      && a.statement.value.letStatement.value == LiteralExpr(Literal("0"))
      && i + 2 < a.stop && At(tokens, a.stop).kind == Semicolon
      && forall m :: i + 2 <= m < a.stop ==> At(tokens, m).kind != Semicolon
  {
  }

  /** The statement rule started at `i` returns. */
  ghost predicate StatementHalts(tokens: seq<Token>, i: nat) {
    At(tokens, i).kind == Let ==> LetHalts(tokens, i)
  }

  /** Statement dispatch: the let rule on `Let`, nothing for any other kind. */
  ghost function StatementAt(tokens: seq<Token>, i: nat): (a: Attempt)
    requires StatementHalts(tokens, i)
    ensures i <= a.stop
    ensures At(tokens, i).kind != Let ==> a == Attempt(None, i)
    ensures a.statement.Some? ==> At(tokens, i).kind == Let && a.statement.value.LetStmt?
  {
    if At(tokens, i).kind == Let then LetAt(tokens, i) else Attempt(None, i)
  }

  /** The program loop started with the current token at `i` ends. */
  ghost predicate Halts(tokens: seq<Token>, i: nat)
    decreases |tokens| - i
  {
    At(tokens, i).kind == Eof ||
    (StatementHalts(tokens, i) && Halts(tokens, StatementAt(tokens, i).stop + 1))
  }

  /** The program loop started at `i` has its current token at `j` at the
      head of some iteration. */
  ghost predicate Reaches(tokens: seq<Token>, i: nat, j: nat)
    decreases |tokens| - i
  {
    j == i ||
    (At(tokens, i).kind != Eof && StatementHalts(tokens, i) && Reaches(tokens, StatementAt(tokens, i).stop + 1, j))
  }

  /** The loop ends when every `Let` at or after `i` starts a let rule that ends. */
  lemma {:induction false} HaltsWhenEveryLetHalts(tokens: seq<Token>, i: nat)
    requires forall j :: i <= j && At(tokens, j).kind == Let ==> LetHalts(tokens, j)
    ensures Halts(tokens, i)
    decreases |tokens| - i
  {
    if At(tokens, i).kind != Eof {
      HaltsWhenEveryLetHalts(tokens, StatementAt(tokens, i).stop + 1);
    }
  }

  /** When the loop does not end, it reaches a `Let` whose let rule gets to
      the skip loop with no `Semicolon` ahead, so that loop never ends
      (`SkipNeverEnds`). */
  lemma {:induction false} StuckAtLet(tokens: seq<Token>, i: nat) returns (j: nat)
    requires !Halts(tokens, i)
    ensures Reaches(tokens, i, j) && At(tokens, j).kind == Let && !LetHalts(tokens, j)
    ensures At(tokens, j + 1).kind.Ident? && At(tokens, j + 2).kind == Assign && !SemicolonFrom(tokens, j + 2)
    decreases |tokens| - i
  {
    if !StatementHalts(tokens, i) {
      j := i;
    } else {
      j := StuckAtLet(tokens, StatementAt(tokens, i).stop + 1);
    }
  }

  /** A let statement as the let rule builds it. */
  ghost predicate PlaceholderLet(s: Statement) {
    s.LetStmt? && s.letStatement.token.kind == Assign && s.letStatement.value == Placeholder()
  }

  /** The program loop started at `i`: it stops on an `Eof` current token and
      every statement it collected is a let statement from the let rule. */
  ghost function ParseFrom(tokens: seq<Token>, i: nat): (p: Parse)
    requires Halts(tokens, i)
    ensures i <= p.stop && At(tokens, p.stop).kind == Eof
    ensures forall s :: s in p.statements ==> PlaceholderLet(s)
    decreases |tokens| - i
  {
    if At(tokens, i).kind == Eof then Parse([], i)
    else
      var a := StatementAt(tokens, i);
      var rest := ParseFrom(tokens, a.stop + 1);
      if a.statement.Some? then
        LetAtMeaning(tokens, i);
        Parse([a.statement.value] + rest.statements, rest.stop)
      else
        Parse(rest.statements, rest.stop)
  }

  /** The number of `Let` tokens at indices `>= i`. */
  function LetCount(tokens: seq<Token>, i: nat): nat
    decreases |tokens| - i
  {
    if |tokens| <= i then 0
    else (if tokens[i].kind == Let then 1 else 0) + LetCount(tokens, i + 1)
  }

  lemma {:induction false} LetCountMonotone(tokens: seq<Token>, i: nat, j: nat)
    requires i <= j
    ensures LetCount(tokens, j) <= LetCount(tokens, i)
    decreases j - i
  {
    if i < j {
      LetCountMonotone(tokens, i + 1, j);
    }
  }

  /** Each statement consumes a `Let` token of its own, so a program never has
      more statements than the stream has `Let` tokens. */
  lemma {:induction false} StatementsBoundedByLets(tokens: seq<Token>, i: nat)
    requires Halts(tokens, i)
    ensures |ParseFrom(tokens, i).statements| <= LetCount(tokens, i)
    decreases |tokens| - i
  {
    if At(tokens, i).kind != Eof {
      var a := StatementAt(tokens, i);
      StatementsBoundedByLets(tokens, a.stop + 1);
      LetCountMonotone(tokens, i + 1, a.stop + 1);
    }
  }

  /** A stream without `Let` tokens always parses, to no statements. */
  lemma {:induction false} NoLetsNoStatements(tokens: seq<Token>, i: nat)
    requires forall k :: 0 <= k < |tokens| ==> tokens[k].kind != Let
    ensures Halts(tokens, i)
    ensures ParseFrom(tokens, i).statements == []
    decreases |tokens| - i
  {
    if At(tokens, i).kind != Eof {
      NoLetsNoStatements(tokens, i + 1);
    }
  }

  /** Parsing the output of the concrete lexer terminates and always yields
      the empty program. */
  lemma LexedProgramIsEmpty(s: string)
    ensures Halts(Lexing.LexAll(s), 0)
    ensures ParseFrom(Lexing.LexAll(s), 0).statements == []
  {
    var tokens := Lexing.LexAll(s);
    forall k | 0 <= k < |tokens| ensures tokens[k].kind != Let {
      LexedStreamKinds(s, k);
    }
    NoLetsNoStatements(tokens, 0);
  }

  class Parser {
    const lexer: TokenSource
    var currentToken: Token
    var peekToken: Token
    var errors: seq<string>

    /** The window holds the two tokens before the source's position, and no
        error is ever recorded. */
    ghost predicate Valid()
      reads this, lexer
    {
      && 2 <= lexer.position
      && currentToken == At(lexer.tokens, lexer.position - 2)
      && peekToken == At(lexer.tokens, lexer.position - 1)
      && errors == []
    }

    /** The stream index of the current token. */
    ghost function Cursor(): nat
      reads this, lexer
      requires Valid()
    {
      lexer.position - 2
    }

    /** Primes the window with the source's next two tokens. */
    constructor (lexer: TokenSource)
      modifies lexer
      ensures Valid() && this.lexer == lexer
      ensures Cursor() == old(lexer.position)
      ensures currentToken == At(lexer.tokens, old(lexer.position))
      ensures peekToken == At(lexer.tokens, old(lexer.position) + 1)
      ensures errors == []
    {
      var current := lexer.NextToken();
      var peek := lexer.NextToken();
      this.lexer := lexer;
      currentToken := current;
      peekToken := peek;
      errors := [];
    }

    /** Shifts the window by one token. */
    method NextToken()
      requires Valid()
      modifies this, lexer
      ensures Valid()
      ensures currentToken == old(peekToken)
      ensures peekToken == At(lexer.tokens, old(lexer.position))
      ensures lexer.position == old(lexer.position) + 1
      ensures Cursor() == old(Cursor()) + 1
    {
      var next := lexer.NextToken();
      currentToken, peekToken := peekToken, next;
    }

    /** The recorded errors: always none. */
    function Errors(): (r: seq<string>)
      reads this, lexer
      requires Valid()
      ensures r == []
    {
      errors
    }

    /** Shifts once when the peek token has kind `kind`; otherwise changes nothing. */
    method ExpectPeek(kind: TokenType) returns (ok: bool)
      requires Valid()
      modifies this, lexer
      ensures Valid()
      ensures ok <==> old(peekToken).kind == kind
      ensures ok ==> currentToken == old(peekToken) && Cursor() == old(Cursor()) + 1
      ensures !ok ==> currentToken == old(currentToken) && peekToken == old(peekToken)
      ensures !ok ==> lexer.position == old(lexer.position)
    {
      if peekToken.kind == kind {
        NextToken();
        return true;
      } else {
        return false;
      }
    }

    /** The program loop: statements in source order, until the current token is `Eof`. */
    method ParseProgram() returns (program: Option<Program>)
      requires Valid() && Halts(lexer.tokens, Cursor())
      modifies this, lexer
      ensures Valid()
      ensures program == Some(Program(ParseFrom(lexer.tokens, old(Cursor())).statements))
      ensures Cursor() == ParseFrom(lexer.tokens, old(Cursor())).stop
      ensures currentToken.kind == Eof
    {
      ghost var start := Cursor();
      var root := Program([]);
      while currentToken.kind != Eof
        invariant Valid() && Halts(lexer.tokens, Cursor())
        invariant root.statements + ParseFrom(lexer.tokens, Cursor()).statements
                  == ParseFrom(lexer.tokens, start).statements
        invariant ParseFrom(lexer.tokens, Cursor()).stop == ParseFrom(lexer.tokens, start).stop
        decreases |lexer.tokens| - Cursor()
      {
        var stm := ParseStatement();
        if stm.Some? {
          root := Program(root.statements + [stm.value]);
        }
        NextToken();
      }
      assert ParseFrom(lexer.tokens, Cursor()).statements == [];
      assert root.statements + [] == root.statements;
      return Some(root);
    }

    /** Dispatches on the current token: the let rule on `Let`, nothing otherwise. */
    method ParseStatement() returns (stmt: Option<Statement>)
      requires Valid() && StatementHalts(lexer.tokens, Cursor())
      modifies this, lexer
      ensures Valid()
      ensures stmt == StatementAt(lexer.tokens, old(Cursor())).statement
      ensures Cursor() == StatementAt(lexer.tokens, old(Cursor())).stop
    {
      if currentToken.kind == Let {
        stmt := ParseLetStatement();
      } else {
        stmt := None;
      }
    }

    /** `let <ident> = ... ;`: on success the current token is the `Semicolon`. */
    method ParseLetStatement() returns (stmt: Option<Statement>)
      requires Valid() && LetHalts(lexer.tokens, Cursor())
      modifies this, lexer
      ensures Valid()
      ensures stmt == LetAt(lexer.tokens, old(Cursor())).statement
      ensures Cursor() == LetAt(lexer.tokens, old(Cursor())).stop
    {
      ghost var start := Cursor();
      NextToken();
      if !currentToken.kind.Ident? {
        return None;
      }
      var ident := Identifier(currentToken.kind.name);
      NextToken();
      if currentToken.kind != Assign {
        return None;
      }
      var let := LetStatement(currentToken, ident, Placeholder());
      ghost var semicolon := SemicolonIndex(lexer.tokens, start + 2);
      while currentToken.kind != Semicolon
        invariant Valid() && start + 2 <= Cursor() <= semicolon
        decreases semicolon - Cursor()
      {
        NextToken();
      }
      return Some(LetStmt(let));
    }
  }
}
