/** Token kinds and tokens. */
module Tokens {

  /** Rust's `usize` on a 64-bit target. */
  type Usize = x: nat | x < 0x1_0000_0000_0000_0000

  /** The fourteen token kinds; only `Ident` and `Int` carry a payload.
      Kinds are compared structurally, payload included. */
  datatype TokenType =
    | Illegal
    | Eof
    | Ident(name: string)
    | Int(value: Usize)
    | Plus
    | Assign
    | Comma
    | Semicolon
    | LParen
    | RParen
    | LBrace
    | RBrace
    | Function
    | Let

  /** A token: its kind and the source text it stands for. Neither field
      changes after construction. */
  datatype Token = Token(kind: TokenType, literal: string)

  /** A token of the given kind spelled by the single character `ch`. */
  function NewToken(tokenType: TokenType, ch: char): (t: Token)
    ensures t.kind == tokenType
    ensures |t.literal| == 1 && t.literal[0] == ch
  {
    Token(tokenType, [ch])
  }
}
