/**
  Models of the two character classes the lexer and the utility module borrow from Rust's standard
  library (`char::is_whitespace` and `char::is_numeric`).
 */
module Unicode {

  /** `char::is_whitespace`: the Unicode White_Space property, all
      twenty-five code points of it. */
  predicate IsWhitespace(ch: char)
    ensures ch == ' ' || ch == '\t' || ch == '\n' || ch == '\r' ==> IsWhitespace(ch)
  {
    || ('\t' <= ch <= '\r')            // U+0009 .. U+000D
    || ch == ' '
    || ch == '\U{85}' || ch == '\U{A0}' || ch == '\U{1680}'
    || ('\U{2000}' <= ch <= '\U{200A}')
    || ch == '\U{2028}' || ch == '\U{2029}'
    || ch == '\U{202F}' || ch == '\U{205F}' || ch == '\U{3000}'
  }

  /** `char::is_numeric`: characters of the general categories Nd, Nl and No.
      Only the ASCII digits and a few non-ASCII ranges of those categories are
      listed here; every listed character is numeric in Unicode. */
  predicate IsNumeric(ch: char) {
    || ('0' <= ch <= '9')
    || ch == '\U{B2}' || ch == '\U{B3}' || ch == '\U{B9}'                // superscript two, three, one
    || ('\U{BC}' <= ch <= '\U{BE}')                                      // vulgar fractions
    || ('\U{660}' <= ch <= '\U{669}')                                    // Arabic-Indic digits
    || ('\U{6F0}' <= ch <= '\U{6F9}')                                    // extended Arabic-Indic digits
    || ('\U{966}' <= ch <= '\U{96F}')                                    // Devanagari digits
    || ('\U{2160}' <= ch <= '\U{2182}')                                  // Roman numerals
    || ('\U{2185}' <= ch <= '\U{2188}')                                  // Roman numerals six late form .. one hundred thousand
    || ('\U{FF10}' <= ch <= '\U{FF19}')                                  // fullwidth digits
  }

  /** The ASCII whitespace characters the lexer cares about are all there. */
  lemma AsciiWhitespace(ch: char)
    ensures ch == ' ' || ch == '\t' || ch == '\n' || ch == '\r' ==> IsWhitespace(ch)
    ensures ch < '\U{80}' ==> (IsWhitespace(ch) <==> ch == ' ' || ('\t' <= ch <= '\r'))
  {
  }
}
