/** Character predicates of the lexer's helper module. */
module Utils {
  import Unicode

  /** ASCII letters and the underscore. */
  predicate IsLetter(ch: char)
    ensures IsLetter(ch) ==> ch < '\U{80}'
  {
    'a' <= ch <= 'z' || 'A' <= ch <= 'Z' || ch == '_'
  }

  /** Defined through `char::is_numeric`, so it is wider than the ASCII digits. */
  predicate IsDigit(ch: char)
    ensures '0' <= ch <= '9' ==> IsDigit(ch)
  {
    Unicode.IsNumeric(ch)
  }

  /** Digits and the ASCII whitespace characters are not letters. */
  lemma DigitsAndBlanksAreNotLetters(ch: char)
    ensures '0' <= ch <= '9' ==> !IsLetter(ch)
    ensures ch == ' ' || ch == '\t' || ch == '\n' || ch == '\r' ==> !IsLetter(ch)
  {
  }

  /** Every letter is ASCII. */
  lemma LettersAreAscii(ch: char)
    ensures IsLetter(ch) ==> ch < '\U{80}'
  {
  }

  /** Every ASCII digit is a digit. */
  lemma AsciiDigitsAreDigits(ch: char)
    ensures '0' <= ch <= '9' ==> IsDigit(ch)
  {
  }

  /** On ASCII, `IsDigit` is exactly `'0'..'9'`, the test written in the
      comment beside it. */
  lemma IsDigitOnAscii(ch: char)
    requires ch < '\U{80}'
    ensures IsDigit(ch) <==> '0' <= ch <= '9'
  {
  }

  /** Beyond ASCII `IsDigit` also accepts other numerals, here superscript two. */
  lemma IsDigitBeyondAscii()
    ensures IsDigit('\U{B2}') && !('0' <= '\U{B2}' <= '9')
  {
  }

  /** No character is both a letter and a digit. */
  lemma LetterAndDigitDisjoint(ch: char)
    ensures !(IsLetter(ch) && IsDigit(ch))
  {
  }
}
