/** The syntax tree the parser builds: closed variants of statements and
    expressions, each node owning its children. */
module Ast {
  import opened Tokens

  datatype Identifier = Identifier(name: string)

  datatype Literal = Literal(value: string)

  /** An expression is an identifier or a literal, nothing else. */
  datatype Expression =
    | IdentifierExpr(identifier: Identifier)
    | LiteralExpr(literal: Literal)
  {
    /** The text every statement's `ToString` shows for its expression:
        an identifier's name or a literal's value. */
    function Text(): (s: string)
      ensures IdentifierExpr? ==> s == identifier.name
      ensures LiteralExpr? ==> s == literal.value
    {
      match this
      case IdentifierExpr(ident) => ident.name
      case LiteralExpr(lit) => lit.value
    }
  }

  /** A statement is a let, a return or an expression statement, nothing else. */
  datatype Statement =
    | LetStmt(letStatement: LetStatement)
    | ReturnStmt(returnStatement: ReturnStatement)
    | ExpressionStmt(expressionStatement: ExpressionStatement)

  /** The root: statements in source order. */
  datatype Program = Program(statements: seq<Statement>)

  /** `let <name> = <value>;` with exactly one name and one value. */
  datatype LetStatement = LetStatement(token: Token, name: Identifier, value: Expression)
  {
    function TokenLiteral(): (s: string)
      ensures s == token.literal
    {
      token.literal
    }

    function ToString(): (s: string)
      ensures value.IdentifierExpr? ==> s == value.identifier.name
      ensures value.LiteralExpr? ==> s == value.literal.value
    {
      value.Text()
    }
  }

  datatype ReturnStatement = ReturnStatement(token: Token, returnValue: Expression)
  {
    function TokenLiteral(): (s: string)
      ensures s == token.literal
    {
      token.literal
    }

    function ToString(): (s: string)
      ensures returnValue.IdentifierExpr? ==> s == returnValue.identifier.name
      ensures returnValue.LiteralExpr? ==> s == returnValue.literal.value
    {
      returnValue.Text()
    }
  }

  datatype ExpressionStatement = ExpressionStatement(token: Token, expression: Expression)
  {
    function TokenLiteral(): (s: string)
      ensures s == token.literal
    {
      token.literal
    }

    function ToString(): (s: string)
      ensures expression.IdentifierExpr? ==> s == expression.identifier.name
      ensures expression.LiteralExpr? ==> s == expression.literal.value
    {
      expression.Text()
    }
  }
}
