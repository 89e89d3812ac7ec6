/**
 * The lexer of src/tokenize/tokenizer.rs: one left-to-right pass over the
 * characters of the source text that produces the token list.
 *
 * `Scan` is the specification of the pass; `Tokenizer.Tokenize` is the loop
 * itself, over the `pos` and `row` fields, proved to compute `Scan`.
 */
module Lexer {
  import opened Results
  import opened Types
  import opened Tokens
  import Is

  datatype LexError =
    | NotAKeyword(word: string)
    | BadInteger(text: string, row: nat)
    | BadFloat(text: string, row: nat)

  /**
   * What the pass does with a text: a token list, an error, or `Stuck` when it
   * reaches a character that no branch recognises. The source never consumes
   * such a character and loops on it forever.
   */
  datatype LexOutcome = Lexed(tokens: seq<Token>) | Failed(error: LexError) | Stuck(pos: nat)

  predicate AsciiText(s: string) {
    forall i :: 0 <= i < |s| ==> Is.Ascii(s[i])
  }

  /** A character some branch of the pass acts on when it stands at the cursor. */
  predicate Recognized(c: char) {
    Is.Whitespace(c) || Is.Letter(c) || Is.Digit(c) || c == '-' || Is.Brace(c) || Is.Operator(c)
  }

  predicate AllDigits(s: string) {
    forall i :: 0 <= i < |s| ==> Is.Digit(s[i])
  }

  /** The end of the maximal run of letters that starts at `i`. */
  function LetterRunEnd(s: string, i: nat): (e: nat)
    requires i <= |s|
    ensures i <= e <= |s|
    ensures forall j :: i <= j < e ==> Is.Letter(s[j])
    ensures e == |s| || !Is.Letter(s[e])
    decreases |s| - i
  {
    if i < |s| && Is.Letter(s[i]) then LetterRunEnd(s, i + 1) else i
  }

  /**
   * The end of the numeric run continuing at `i`, and whether it holds a
   * decimal point: digits, and one `.` if none was seen yet.
   */
  function NumberRunEnd(s: string, i: nat, seenDot: bool): (r: (nat, bool))
    requires i <= |s|
    ensures i <= r.0 <= |s|
    decreases |s| - i
  {
    if i < |s| && Is.Digit(s[i]) then NumberRunEnd(s, i + 1, seenDot)
    else if i < |s| && s[i] == '.' && !seenDot then NumberRunEnd(s, i + 1, true)
    else (i, seenDot)
  }

  /**
   * The numeric run holds only digits and at most one `.` (none if one was
   * already seen), the flag says whether it holds one, and the run is
   * maximal.
   */
  lemma {:induction false} NumberRunShape(s: string, i: nat, seenDot: bool)
    requires i <= |s|
    ensures var r := NumberRunEnd(s, i, seenDot);
            && (forall j :: i <= j < r.0 ==> Is.Digit(s[j]) || s[j] == '.')
            && (r.1 <==> seenDot || exists j :: i <= j < r.0 && s[j] == '.')
            && (seenDot ==> forall j :: i <= j < r.0 ==> s[j] != '.')
            && (forall j, k :: i <= j < k < r.0 && s[j] == '.' ==> s[k] != '.')
            && (r.0 == |s| || !(Is.Digit(s[r.0]) || (s[r.0] == '.' && !r.1)))
    decreases |s| - i
  {
    if i < |s| && Is.Digit(s[i]) {
      NumberRunShape(s, i + 1, seenDot);
    } else if i < |s| && s[i] == '.' && !seenDot {
      NumberRunShape(s, i + 1, true);
    }
  }

  /** The value of a string of decimal digits, most significant first. */
  function DigitsValue(s: string): nat
    requires AllDigits(s)
  {
    if s == [] then 0 else 10 * DigitsValue(s[..|s| - 1]) + Is.DigitValue(s[|s| - 1])
  }

  function Pow10(n: nat): (p: nat)
    ensures p >= 1
  {
    if n == 0 then 1 else 10 * Pow10(n - 1)
  }

  /** The index of the first `.`, or the length when there is none. */
  function DotIndex(s: string): (d: nat)
    ensures d <= |s|
    ensures forall j :: 0 <= j < d ==> s[j] != '.'
    ensures d < |s| ==> s[d] == '.'
  {
    if s == [] then 0 else if s[0] == '.' then 0 else 1 + DotIndex(s[1..])
  }

  /** The sign-less part of a numeric run and whether a `-` precedes it. */
  function Unsigned(text: string): (string, bool) {
    if |text| > 0 && text[0] == '-' then (text[1..], true) else (text, false)
  }

  /** `str::parse::<i64>` on a numeric run: digits after an optional `-`, within range. */
  function ParseInt(text: string): Option<int> {
    var (digits, negative) := Unsigned(text);
    if digits == [] || !AllDigits(digits) then None
    else
      var v: int := DigitsValue(digits);
      var n := if negative then -v else v;
      if MinI64 <= n <= MaxI64 then Some(n) else None
  }

  /**
   * `str::parse::<f32>` on a numeric run, as an exact real: digits around one
   * `.`, with at least one digit, after an optional `-`.
   */
  function ParseFloat(text: string): Option<real> {
    var (body, negative) := Unsigned(text);
    var d := DotIndex(body);
    var whole := body[..d];
    var fraction := if d < |body| then body[d + 1..] else [];
    if |whole| + |fraction| == 0 || !AllDigits(whole) || !AllDigits(fraction) then None
    else
      var x := DigitsValue(whole) as real + (DigitsValue(fraction) as real) / (Pow10(|fraction|) as real);
      Some(if negative then -x else x)
  }

  /** The literal a numeric run stands for: `Float` when it holds a point, else `Int`. */
  function NumberToken(text: string, hasDecimal: bool, row: nat): Result<Token, LexError> {
    if hasDecimal then
      match ParseFloat(text)
      case Some(x) => Ok(Data(Float(x)))
      case None => Err(BadFloat(text, row))
    else
      match ParseInt(text)
      case Some(n) => Ok(Data(Int(n)))
      case None => Err(BadInteger(text, row))
  }

  /** The token for a reserved word: `thought` is a literal, the others are keywords. */
  function WordToken(k: Types.Keyword): Token {
    if k == Types.Keyword.Thought then Data(Number.Thought) else Token.Keyword(k)
  }

  /**
   * The pass from position `pos` on, having emitted `acc` so far and counted
   * `row` line feeds.
   */
  function Scan(s: string, pos: nat, row: nat, acc: seq<Token>): LexOutcome
    decreases |s| - pos
  {
    if pos >= |s| then Lexed(acc)
    else
      var c := s[pos];
      if Is.Whitespace(c) then
        Scan(s, pos + 1, if c == '\n' then row + 1 else row, acc)
      else if Is.Letter(c) then
        var end := LetterRunEnd(s, pos);
        var word := s[pos..end];
        match KeywordFrom(word)
        case None => Failed(NotAKeyword(word))
        case Some(k) => Scan(s, end, row, acc + [WordToken(k)])
      else if Is.Digit(c) || c == '-' then
        var (end, hasDecimal) := NumberRunEnd(s, pos + 1, false);
        var text := s[pos..end];
        if c == '-' && |text| == 1 then
          Scan(s, end, row, acc + [OpToken(Sub)])
        else
          match NumberToken(text, hasDecimal, row)
          case Err(e) => Failed(e)
          case Ok(t) => Scan(s, end, row, acc + [t])
      else if Is.Brace(c) then
        Scan(s, pos + 1, row, acc + [if c == '{' then OpenBrace else CloseBrace])
      else if Is.Operator(c) then
        Scan(s, pos + 1, row, acc + [OpToken(OperatorFrom(c))])
      else
        Stuck(pos)
  }

  /** The whole pass over a text. */
  function Tokenize(s: string): LexOutcome {
    Scan(s, 0, 0, [])
  }

  /** The `Tokenizer` struct: the text, the cursor and the line counter. */
  class Tokenizer {
    var pos: nat
    var row: nat
    const input: string

    constructor (input: string)
      ensures this.input == input && pos == 0 && row == 0
    {
      this.input := input;
      pos := 0;
      row := 0;
    }

    /** `go`: step the cursor. */
    method Go()
      modifies this`pos
      ensures pos == old(pos) + 1
    {
      pos := pos + 1;
    }

    /** The inner loop over a run of letters. */
    method LetterRun()
      requires pos <= |input|
      modifies this`pos
      ensures pos == LetterRunEnd(input, old(pos))
    {
      while pos < |input| && Is.Letter(input[pos])
        invariant old(pos) <= pos <= |input|
        invariant LetterRunEnd(input, pos) == LetterRunEnd(input, old(pos))
        decreases |input| - pos
      {
        Go();
      }
    }

    /** The inner loop over the rest of a numeric run. */
    method NumberRun() returns (hasDecimal: bool)
      requires pos <= |input|
      modifies this`pos
      ensures (pos, hasDecimal) == NumberRunEnd(input, old(pos), false)
    {
      hasDecimal := false;
      while pos < |input|
        invariant old(pos) <= pos <= |input|
        invariant NumberRunEnd(input, pos, hasDecimal) == NumberRunEnd(input, old(pos), false)
        decreases |input| - pos
      {
        var ch := input[pos];
        if Is.Digit(ch) {
          assert NumberRunEnd(input, pos, hasDecimal) == NumberRunEnd(input, pos + 1, hasDecimal);
          Go();
        } else if ch == '.' && !hasDecimal {
          assert NumberRunEnd(input, pos, hasDecimal) == NumberRunEnd(input, pos + 1, true);
          hasDecimal := true;
          Go();
        } else {
          break;
        }
      }
    }

    /** The letter branch of `tokenize`: the word is a keyword, or the pass stops. */
    method Word(tokens: seq<Token>) returns (r: Result<seq<Token>, LexError>)
      requires pos < |input| && !Is.Whitespace(input[pos]) && Is.Letter(input[pos])
      modifies this`pos
      ensures old(pos) < pos <= |input|
      ensures r.Ok? ==> Scan(input, pos, row, r.value) == Scan(input, old(pos), row, tokens)
      ensures r.Err? ==> Scan(input, old(pos), row, tokens) == Failed(r.error)
    {
      var startPos := pos;
      LetterRun();
      var word := input[startPos..pos];
      var k := KeywordFrom(word);
      if k.None? {
        return Err(NotAKeyword(word));
      }
      if k.value == Types.Keyword.Thought {
        r := Ok(tokens + [Data(Number.Thought)]);
      } else {
        r := Ok(tokens + [Token.Keyword(k.value)]);
      }
    }

    /**
     * The number branch of `tokenize`: a lone `-` is the operator, any other
     * run a float (with a `.`) or an integer literal, or a formatting error.
     */
    method NumberLiteral(tokens: seq<Token>) returns (r: Result<seq<Token>, LexError>)
      requires pos < |input| && !Is.Whitespace(input[pos]) && !Is.Letter(input[pos])
      requires Is.Digit(input[pos]) || input[pos] == '-'
      modifies this`pos
      ensures old(pos) < pos <= |input|
      ensures r.Ok? ==> Scan(input, pos, row, r.value) == Scan(input, old(pos), row, tokens)
      ensures r.Err? ==> Scan(input, old(pos), row, tokens) == Failed(r.error)
    {
      var c := input[pos];
      var startPos := pos;
      Go();
      var hasDecimal := NumberRun();
      var numberStr := input[startPos..pos];
      if c == '-' && |numberStr| == 1 {
        return Ok(tokens + [OpToken(Sub)]);
      }
      var t := NumberToken(numberStr, hasDecimal, row);
      if t.Err? {
        return Err(t.error);
      }
      r := Ok(tokens + [t.value]);
    }

    /**
     * `tokenize`. The text must be ASCII (the character classes are their
     * ASCII tables), and the pass must not reach an unrecognised character,
     * on which the source loops forever.
     */
    method Tokenize() returns (r: Result<seq<Token>, LexError>)
      requires AsciiText(input)
      requires !Scan(input, pos, row, []).Stuck?
      modifies this`pos, this`row
      ensures r.Ok? ==> Scan(input, old(pos), old(row), []) == Lexed(r.value)
      ensures r.Err? ==> Scan(input, old(pos), old(row), []) == Failed(r.error)
    {
      var tokens: seq<Token> := [];
      while pos < |input|
        invariant Scan(input, pos, row, tokens) == Scan(input, old(pos), old(row), [])
        decreases |input| - pos
      {
        var c := input[pos];
        if Is.Whitespace(c) {
          assert Scan(input, pos, row, tokens) == Scan(input, pos + 1, if c == '\n' then row + 1 else row, tokens);
          if c == '\n' {
            row := row + 1;
          }
          Go();
        } else if Is.Letter(c) {
          var next := Word(tokens);
          if next.Err? {
            return Err(next.error);
          }
          tokens := next.value;
        } else if Is.Digit(c) || c == '-' {
          var next := NumberLiteral(tokens);
          if next.Err? {
            return Err(next.error);
          }
          tokens := next.value;
        } else if Is.Brace(c) {
          assert Scan(input, pos, row, tokens) == Scan(input, pos + 1, row, tokens + [if c == '{' then OpenBrace else CloseBrace]);
          if c == '{' {
            tokens := tokens + [OpenBrace];
          } else {
            tokens := tokens + [CloseBrace];
          }
          Go();
        } else if Is.Operator(c) {
          assert Scan(input, pos, row, tokens) == Scan(input, pos + 1, row, tokens + [OpToken(OperatorFrom(c))]);
          tokens := tokens + [OpToken(OperatorFrom(c))];
          Go();
        } else {
          assert false;
        }
      }
      return Ok(tokens);
    }
  }
}
