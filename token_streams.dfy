/**
  The token source the parser reads from: a finite run of tokens followed by
  an endless run of `Eof` tokens, handed out one per call. The concrete
  lexer is one such source (`LexerIsTokenSource`).
 */
module TokenStreams {
  import opened Tokens
  import Lexing

  /** The token at index `i` of the padded stream. */
  function At(tokens: seq<Token>, i: nat): Token {
    if i < |tokens| then tokens[i] else Token(Eof, "")
  }

  class TokenSource {
    const tokens: seq<Token>
    var position: nat

    constructor (tokens: seq<Token>)
      ensures this.tokens == tokens && position == 0
    {
      this.tokens := tokens;
      position := 0;
    }

    /** The token at the position; the position always moves one on. */
    method NextToken() returns (tok: Token)
      modifies this`position
      ensures tok == At(tokens, old(position))
      ensures position == old(position) + 1
    {
      tok := At(tokens, position);
      position := position + 1;
    }
  }

  /** At every call count, a lexer over `s` and a token source over
      `LexAll(s)` return the same token: the lexer is the source whose finite
      part is one token per character. */
  lemma LexerIsTokenSource(s: string, i: nat)
    ensures At(Lexing.LexAll(s), i) == Lexing.TokenAt(s, i)
  {
  }

  /** Hence the lexer never hands the parser a `Let`, `Ident`, `Int` or
      `Function` token. */
  lemma LexedStreamKinds(s: string, i: nat)
    ensures Lexing.Producible(At(Lexing.LexAll(s), i).kind)
  {
    Lexing.TokenAtShape(s, i);
  }
}
