/**
 * The character classes of the lexer (`Is` in src/util/mod.rs). The Unicode
 * library predicates `is_alphabetic` and `is_whitespace` are given by their
 * ASCII tables; the lexer only accepts ASCII input.
 */
module Is {

  /** A 7-bit character. */
  predicate Ascii(c: char) {
    c < 128 as char
  }

  /** `char::is_whitespace` on ASCII: tab, line feed, vertical tab, form feed, carriage return, space. */
  predicate Whitespace(c: char) {
    c == ' ' || '\t' <= c <= '\r'
  }

  /** `char::is_alphabetic` on ASCII. */
  predicate Letter(c: char) {
    'a' <= c <= 'z' || 'A' <= c <= 'Z'
  }

  predicate Symbol(c: char) {
    c == '_' || c == '-'
  }

  /** `is_digit(10)`. */
  predicate Digit(c: char) {
    '0' <= c <= '9'
  }

  predicate Operator(c: char) {
    c in "+-*/^%"
  }

  predicate Brace(c: char) {
    c in "{}"
  }

  /** May the character appear in a runtime keyword's (macro's) name? */
  predicate RtkCompatible(c: char) {
    Letter(c) || Digit(c) || Symbol(c)
  }

  /** The value of a decimal digit. */
  function DigitValue(c: char): (d: nat)
    requires Digit(c)
    ensures d < 10
  {
    (c as int) - ('0' as int)
  }

  /** The operator class is exactly the six characters `+ - * / ^ %`. */
  lemma OperatorExactly(c: char)
    ensures Operator(c) <==> c == '+' || c == '-' || c == '*' || c == '/' || c == '^' || c == '%'
  {
  }

  /** The brace class is exactly `{` and `}`. */
  lemma BraceExactly(c: char)
    ensures Brace(c) <==> c == '{' || c == '}'
  {
  }

  /** The line feed is whitespace, which is why the lexer never emits a newline token. */
  lemma NewLineIsWhitespace()
    ensures Whitespace('\n')
  {
  }

  /** The classes the lexer dispatches on do not overlap, except `-`, both a symbol and an operator. */
  lemma ClassesDisjoint(c: char)
    ensures !(Whitespace(c) && (Letter(c) || Digit(c) || Operator(c) || Brace(c)))
    ensures !(Letter(c) && (Digit(c) || Operator(c) || Brace(c) || Symbol(c)))
    ensures !(Digit(c) && (Operator(c) || Brace(c) || Symbol(c)))
    ensures Symbol(c) && Operator(c) <==> c == '-'
  {
  }
}
