/**
  The single-character lexer: a cursor over a fixed input. Each call of
  `NextToken` classifies the character under the cursor and moves the cursor
  one place on, past the end as well.
 */
module Lexing {
  import opened Wrappers
  import opened Tokens
  import Unicode

  /** The character at index `i`, or nothing past the end (`chars().nth(i)`). */
  function CharAt(input: string, i: nat): (c: Option<char>)
    ensures c.Some? <==> i < |input|
    ensures c.Some? ==> c.value == input[i]
  {
    if i < |input| then Some(input[i]) else None
  }

  /** The kind of the token a present character becomes. */
  function Classify(ch: char): (k: TokenType)
    ensures k != Illegal <==> ch in "=;(),+{}"
  {
    match ch
    case '=' => Assign
    case ';' => Semicolon
    case '(' => LParen
    case ')' => RParen
    case ',' => Comma
    case '+' => Plus
    case '{' => LBrace
    case '}' => RBrace
    case _ => Illegal
  }

  /** The token `NextToken` returns when called with the cursor at `p`. */
  function TokenAt(input: string, p: nat): (t: Token)
    ensures Producible(t.kind)
    ensures t.kind == Eof <==> |input| <= p
    ensures |t.literal| == if p < |input| then 1 else 0
  {
    match CharAt(input, p)
    case Some(ch) => NewToken(Classify(ch), ch)
    case None => Token(Eof, "")
  }

  /** The kinds the lexer can produce: never Let, Ident, Int or Function. */
  predicate Producible(k: TokenType) {
    k in {Illegal, Eof, Plus, Assign, Comma, Semicolon, LParen, RParen, LBrace, RBrace}
  }

  /** The eight-entry table, read in both directions. */
  lemma ClassifyTable(ch: char)
    ensures Classify(ch) == Assign <==> ch == '='
    ensures Classify(ch) == Semicolon <==> ch == ';'
    ensures Classify(ch) == LParen <==> ch == '('
    ensures Classify(ch) == RParen <==> ch == ')'
    ensures Classify(ch) == Comma <==> ch == ','
    ensures Classify(ch) == Plus <==> ch == '+'
    ensures Classify(ch) == LBrace <==> ch == '{'
    ensures Classify(ch) == RBrace <==> ch == '}'
    ensures Classify(ch) == Illegal <==> ch !in "=;(),+{}"
  {
  }

  /** Inside the input the token is the character itself, of the table's kind;
      past the end it is `Eof` with an empty literal. */
  lemma TokenAtShape(input: string, p: nat)
    ensures p < |input| ==> TokenAt(input, p) == Token(Classify(input[p]), [input[p]])
    ensures |input| <= p ==> TokenAt(input, p) == Token(Eof, "")
    ensures Producible(TokenAt(input, p).kind)
  {
  }

  /** The first position at or after `p` that does not hold whitespace
      (or `p` itself when `p` is already at or past the end). */
  function WhitespaceEnd(input: string, p: nat): (q: nat)
    ensures p <= q && (q == p || q <= |input|)
    ensures forall k :: p <= k < q ==> Lexer.IsWhitespace(input[k])
    ensures q < |input| ==> !Lexer.IsWhitespace(input[q])
    ensures |input| <= p ==> q == p
    decreases |input| - p
  {
    if p < |input| && Lexer.IsWhitespace(input[p]) then WhitespaceEnd(input, p + 1) else p
  }

  /** The tokens of the input, one per character (`Eof` excluded). */
  function LexAll(input: string): (ts: seq<Token>)
    ensures |ts| == |input|
    ensures forall i :: 0 <= i < |input| ==> ts[i] == TokenAt(input, i)
  {
    if input == [] then [] else [TokenAt(input, 0)] + LexAll(input[1..])
  }

  /** The tokens returned by `n` successive `NextToken` calls on a new lexer. */
  function Calls(input: string, n: nat): seq<Token> {
    if n == 0 then [] else Calls(input, n - 1) + [TokenAt(input, n - 1)]
  }

  function Eofs(k: nat): seq<Token> {
    seq(k, _ => Token(Eof, ""))
  }

  /** The `i`-th call returns the token at `i`. */
  lemma {:induction false} CallsAt(input: string, n: nat)
    ensures |Calls(input, n)| == n
    ensures forall i :: 0 <= i < n ==> Calls(input, n)[i] == TokenAt(input, i)
  {
    if n > 0 {
      CallsAt(input, n - 1);
    }
  }

  /** `|s| + k` calls give one token per character, in order, then `k` times `Eof`. */
  lemma CallsThenEof(input: string, k: nat)
    ensures Calls(input, |input| + k) == LexAll(input) + Eofs(k)
  {
    CallsAt(input, |input| + k);
    var lhs, all, eofs := Calls(input, |input| + k), LexAll(input), Eofs(k);
    assert |lhs| == |all + eofs|;
    forall i | 0 <= i < |lhs| ensures lhs[i] == (all + eofs)[i] {
      if i < |input| {
        assert (all + eofs)[i] == all[i];
      } else {
        assert (all + eofs)[i] == eofs[i - |input|] == Token(Eof, "");
        assert lhs[i] == TokenAt(input, i);
      }
    }
  }

  /** Drives a new lexer over `input` through `n` calls of `NextToken`. */
  method NextTokens(input: string, n: nat) returns (toks: seq<Token>)
    ensures toks == Calls(input, n)
    ensures |input| <= n ==> toks == LexAll(input) + Eofs(n - |input|)
  {
    var lexer := new Lexer(input);
    toks := [];
    for i := 0 to n
      invariant lexer.input == input && lexer.position == i
      invariant toks == Calls(input, i)
    {
      var tok := lexer.NextToken();
      toks := toks + [tok];
    }
    if |input| <= n {
      CallsThenEof(input, n - |input|);
    }
  }

  class Lexer {
    const input: string
    var position: nat
    var currentChar: Option<char>

    /** A lexer over `input`, at position 0. */
    constructor (input: string)
      ensures this.input == input && position == 0 && currentChar == Some('\0')
    {
      this.input := input;
      currentChar := Some('\0');
      position := 0;
    }

    method GetCurrentChar() returns (c: Option<char>)
      modifies this`currentChar
      ensures c == CharAt(input, position) && currentChar == c
    {
      currentChar := CharAt(input, position);
      c := currentChar;
    }

    method Advance()
      modifies this`position
      ensures position == old(position) + 1
    {
      position := position + 1;
    }

    /** Whitespace in the Unicode sense; newline and carriage return are
        named once more, though they are already in it. */
    static predicate IsWhitespace(ch: char)
      ensures IsWhitespace(ch) <==> Unicode.IsWhitespace(ch)
    {
      Unicode.IsWhitespace(ch) || ch == '\n' || ch == '\r'
    }

    /** Moves the cursor forward over whitespace, onto the first character
        that is not whitespace or to the end. */
    method SkipWhitespace()
      modifies this
      ensures position == WhitespaceEnd(input, old(position))
      ensures currentChar == CharAt(input, position)
    {
      while true
        invariant old(position) <= position
        invariant WhitespaceEnd(input, position) == WhitespaceEnd(input, old(position))
        decreases |input| - position
      {
        var c := GetCurrentChar();
        if c.None? {
          break;
        }
        if !IsWhitespace(c.value) {
          break;
        }
        Advance();
      }
    }

    /** The character after the cursor, if there is one; changes nothing. */
    function Peek(): (c: Option<char>)
      reads this
      ensures c.Some? <==> position + 1 < |input|
      ensures c.Some? ==> c.value == input[position + 1]
    {
      CharAt(input, position + 1)
    }

    /** The token for the character under the cursor; the cursor always moves one on. */
    method NextToken() returns (tok: Token)
      modifies this
      ensures tok == TokenAt(input, old(position))
      ensures position == old(position) + 1
      ensures currentChar == CharAt(input, old(position))
    {
      var c := GetCurrentChar();
      if c.Some? {
        tok := NewToken(Classify(c.value), c.value);
      } else {
        tok := Token(Eof, "");
      }
      Advance();
    }
  }

  /** The lexer's own test: `"=+(){}"` gives the six punctuation tokens, then `Eof`. */
  method TestNextToken() returns (passed: bool)
    ensures passed
  {
    var lexer := new Lexer("=+(){}");
    var tests := [
      Token(Assign, "="), Token(Plus, "+"), Token(LParen, "("), Token(RParen, ")"),
      Token(LBrace, "{"), Token(RBrace, "}"), Token(Eof, "")
    ];
    passed := true;
    for i := 0 to |tests|
      invariant lexer.input == "=+(){}" && lexer.position == i
      invariant passed
    {
      var tok := lexer.NextToken();
      passed := passed && tok.kind == tests[i].kind && tok.literal == tests[i].literal;
    }
  }
}
