/** The token model of src/tokenize/token.rs. */
module Tokens {
  import opened Types

  datatype Token =
    | OpenBrace
    | CloseBrace
    | Data(n: Number)
    | Keyword(k: Types.Keyword)
    | OpToken(op: Operator)
    /** An identifier that is not a reserved word (a macro name). */
    | RTKeyword(name: string)
    | NewLine
}
