/** Properties of the lexer pass. */
module LexerProperties {
  import opened Results
  import opened Types
  import opened Tokens
  import opened Lexer
  import Is

  /**
   * A token the pass can emit: never a newline, never an identifier, only
   * listed keywords other than `thought`, and integers within the i64 range.
   */
  predicate LexerToken(t: Token) {
    && !t.NewLine?
    && !t.RTKeyword?
    && (t.Keyword? ==> t.k.Listed() && t.k != Types.Keyword.Thought)
    && (t.Data? && t.n.Int? ==> MinI64 <= t.n.i <= MaxI64)
  }

  /** Tokens are only ever appended: what was emitted stays, in order, at the front. */
  lemma {:induction false} ScanOnlyAppends(s: string, pos: nat, row: nat, acc: seq<Token>)
    ensures Scan(s, pos, row, acc).Lexed? ==> acc <= Scan(s, pos, row, acc).tokens
    decreases |s| - pos
  {
    if pos < |s| {
      var c := s[pos];
      if Is.Whitespace(c) {
        ScanOnlyAppends(s, pos + 1, if c == '\n' then row + 1 else row, acc);
      } else if Is.Letter(c) {
        var end := LetterRunEnd(s, pos);
        var k := KeywordFrom(s[pos..end]);
        if k.Some? {
          ScanOnlyAppends(s, end, row, acc + [WordToken(k.value)]);
        }
      } else if Is.Digit(c) || c == '-' {
        var (end, hasDecimal) := NumberRunEnd(s, pos + 1, false);
        var text := s[pos..end];
        if c == '-' && |text| == 1 {
          ScanOnlyAppends(s, end, row, acc + [OpToken(Sub)]);
        } else if NumberToken(text, hasDecimal, row).Ok? {
          ScanOnlyAppends(s, end, row, acc + [NumberToken(text, hasDecimal, row).value]);
        }
      } else if Is.Brace(c) {
        ScanOnlyAppends(s, pos + 1, row, acc + [if c == '{' then OpenBrace else CloseBrace]);
      } else if Is.Operator(c) {
        ScanOnlyAppends(s, pos + 1, row, acc + [OpToken(OperatorFrom(c))]);
      }
    }
  }

  /**
   * The pass emits only lexer tokens: in particular it never emits `NewLine`
   * (a line feed is whitespace) and never an identifier (an unknown word is an error).
   */
  lemma {:induction false} ScanEmitsLexerTokens(s: string, pos: nat, row: nat, acc: seq<Token>)
    requires forall t <- acc :: LexerToken(t)
    ensures Scan(s, pos, row, acc).Lexed? ==> forall t <- Scan(s, pos, row, acc).tokens :: LexerToken(t)
    decreases |s| - pos
  {
    if pos < |s| {
      var c := s[pos];
      if Is.Whitespace(c) {
        ScanEmitsLexerTokens(s, pos + 1, if c == '\n' then row + 1 else row, acc);
      } else if Is.Letter(c) {
        var end := LetterRunEnd(s, pos);
        var k := KeywordFrom(s[pos..end]);
        if k.Some? {
          KeywordFromExactly(s[pos..end]);
          ScanEmitsLexerTokens(s, end, row, acc + [WordToken(k.value)]);
        }
      } else if Is.Digit(c) || c == '-' {
        var (end, hasDecimal) := NumberRunEnd(s, pos + 1, false);
        var text := s[pos..end];
        if c == '-' && |text| == 1 {
          ScanEmitsLexerTokens(s, end, row, acc + [OpToken(Sub)]);
        } else if NumberToken(text, hasDecimal, row).Ok? {
          ScanEmitsLexerTokens(s, end, row, acc + [NumberToken(text, hasDecimal, row).value]);
        }
      } else if Is.Brace(c) {
        ScanEmitsLexerTokens(s, pos + 1, row, acc + [if c == '{' then OpenBrace else CloseBrace]);
      } else if Is.Operator(c) {
        ScanEmitsLexerTokens(s, pos + 1, row, acc + [OpToken(OperatorFrom(c))]);
      }
    }
  }

  /** A whole text lexes to lexer tokens only. */
  lemma TokenizeEmitsLexerTokens(s: string)
    ensures Tokenize(s).Lexed? ==> forall t <- Tokenize(s).tokens :: LexerToken(t)
  {
    ScanEmitsLexerTokens(s, 0, 0, []);
  }

  /** The pass gets stuck only on a character it does not recognise, and then at that character. */
  lemma {:induction false} StuckOnlyOnUnrecognized(s: string, pos: nat, row: nat, acc: seq<Token>)
    ensures Scan(s, pos, row, acc).Stuck? ==>
              var p := Scan(s, pos, row, acc).pos; pos <= p < |s| && !Recognized(s[p])
    decreases |s| - pos
  {
    if pos < |s| {
      var c := s[pos];
      if Is.Whitespace(c) {
        StuckOnlyOnUnrecognized(s, pos + 1, if c == '\n' then row + 1 else row, acc);
      } else if Is.Letter(c) {
        var end := LetterRunEnd(s, pos);
        var k := KeywordFrom(s[pos..end]);
        if k.Some? {
          StuckOnlyOnUnrecognized(s, end, row, acc + [WordToken(k.value)]);
        }
      } else if Is.Digit(c) || c == '-' {
        var (end, hasDecimal) := NumberRunEnd(s, pos + 1, false);
        var text := s[pos..end];
        if c == '-' && |text| == 1 {
          StuckOnlyOnUnrecognized(s, end, row, acc + [OpToken(Sub)]);
        } else if NumberToken(text, hasDecimal, row).Ok? {
          StuckOnlyOnUnrecognized(s, end, row, acc + [NumberToken(text, hasDecimal, row).value]);
        }
      } else if Is.Brace(c) {
        StuckOnlyOnUnrecognized(s, pos + 1, row, acc + [if c == '{' then OpenBrace else CloseBrace]);
      } else if Is.Operator(c) {
        StuckOnlyOnUnrecognized(s, pos + 1, row, acc + [OpToken(OperatorFrom(c))]);
      }
    }
  }

  /** A text made of recognised characters only never makes the pass loop forever. */
  lemma RecognizedTextNeverStuck(s: string)
    requires forall i :: 0 <= i < |s| ==> Recognized(s[i])
    ensures !Tokenize(s).Stuck?
  {
    StuckOnlyOnUnrecognized(s, 0, 0, []);
  }

  /** Whitespace emits nothing; it moves the cursor by one and counts a line only for `\n`. */
  lemma WhitespaceEmitsNothing(s: string, pos: nat, row: nat, acc: seq<Token>)
    requires pos < |s| && Is.Whitespace(s[pos])
    ensures Scan(s, pos, row, acc) == Scan(s, pos + 1, if s[pos] == '\n' then row + 1 else row, acc)
  {
  }

  /** A `-` that no digit or point follows is the subtraction operator. */
  lemma LoneMinusIsSub(s: string, pos: nat, row: nat, acc: seq<Token>)
    requires pos < |s| && s[pos] == '-'
    requires pos + 1 == |s| || !(Is.Digit(s[pos + 1]) || s[pos + 1] == '.')
    ensures Scan(s, pos, row, acc) == Scan(s, pos + 1, row, acc + [OpToken(Sub)])
  {
  }

  /** A run of digits only is read to its end, with no point seen. */
  lemma {:induction false} NumberRunOverDigits(s: string, i: nat)
    requires i <= |s|
    requires forall j :: i <= j < |s| ==> Is.Digit(s[j])
    ensures NumberRunEnd(s, i, false) == (|s|, false)
    decreases |s| - i
  {
    if i < |s| {
      NumberRunOverDigits(s, i + 1);
    }
  }

  /** A `-` followed by digits is folded into one negative integer literal. */
  lemma NegativeLiteral(digits: string)
    requires |digits| > 0 && AllDigits(digits)
    requires DigitsValue(digits) <= -MinI64
    ensures Tokenize("-" + digits) == Lexed([Data(Int(-(DigitsValue(digits) as int)))])
  {
    var s := "-" + digits;
    NegatedDigits(digits);
    NumberRunOverDigits(s, 1);
    SingleNumber(s, Data(Int(-(DigitsValue(digits) as int))));
  }

  /** `-` followed by digits parses to the negated value while that stays within i64. */
  lemma NegatedDigits(digits: string)
    requires |digits| > 0 && AllDigits(digits)
    requires DigitsValue(digits) <= -MinI64
    ensures ParseInt("-" + digits) == Some(-(DigitsValue(digits) as int))
  {
    var s := "-" + digits;
    assert s[1..] == digits;
    assert Unsigned(s) == (digits, true);
  }

  /** A text that is one numeric run without a point, starting with `-` or a digit, lexes to its token. */
  lemma SingleNumber(s: string, t: Token)
    requires |s| > 1 && (s[0] == '-' || Is.Digit(s[0]))
    requires NumberRunEnd(s, 1, false) == (|s|, false)
    requires NumberToken(s, false, 0) == Ok(t)
    ensures Tokenize(s) == Lexed([t])
  {
    assert !Is.Whitespace(s[0]) && !Is.Letter(s[0]);
    assert s[0..|s|] == s;
    assert [] + [t] == [t];
    assert Scan(s, 0, 0, []) == Scan(s, |s|, 0, [] + [t]);
  }

  /** A digit string whose value leaves the i64 range is an integer formatting error. */
  lemma IntegerOutOfRange(digits: string)
    requires |digits| > 0 && AllDigits(digits)
    requires DigitsValue(digits) > MaxI64
    ensures Tokenize(digits) == Failed(BadInteger(digits, 0))
  {
    NumberRunOverDigits(digits, 1);
    assert digits[0..|digits|] == digits;
    assert Unsigned(digits) == (digits, false);
  }

  /** A numeric run gives a `Float` when it holds a point and an `Int` otherwise. */
  lemma NumberTokenTag(text: string, hasDecimal: bool, row: nat)
    ensures NumberToken(text, hasDecimal, row).Ok? ==>
              var t := NumberToken(text, hasDecimal, row).value;
              t.Data? && (t.n.Float? <==> hasDecimal) && (t.n.Int? <==> !hasDecimal)
  {
  }

  /** The name of every listed keyword lexes back to that keyword's token. */
  lemma KeywordLexesBack(k: Types.Keyword)
    requires k.Listed()
    ensures Tokenize(k.ToStr()) == Lexed([WordToken(k)])
  {
    var s := k.ToStr();
    assert forall j :: 0 <= j < |s| ==> Is.Letter(s[j]);
    assert LetterRunEnd(s, 0) == |s|;
    assert s[0..|s|] == s;
    KeywordRoundTrip(k);
    assert |s| > 0 && !Is.Whitespace(s[0]) && Is.Letter(s[0]);
    assert Scan(s, 0, 0, []) == Scan(s, |s|, 0, [WordToken(k)]);
  }

  /** The character of every operator lexes back to that operator. */
  lemma OperatorLexesBack(o: Operator)
    ensures Tokenize([o.ToChar()]) == Lexed([OpToken(o)])
  {
    OperatorRoundTrip(o);
    var s := [o.ToChar()];
    if o == Sub {
      assert NumberRunEnd(s, 1, false) == (1, false);
      assert s[0..1] == s;
      assert Scan(s, 0, 0, []) == Scan(s, 1, 0, [OpToken(Sub)]);
    } else {
      assert !Is.Whitespace(s[0]) && !Is.Letter(s[0]) && !Is.Digit(s[0]) && !Is.Brace(s[0]) && Is.Operator(s[0]);
      assert Scan(s, 0, 0, []) == Scan(s, 1, 0, [OpToken(o)]);
    }
  }

  /** Without spaces `5-3` is two integer literals: the `-` is folded into `-3`. */
  lemma MinusWithoutSpaces()
    ensures Tokenize("5-3") == Lexed([Data(Int(5)), Data(Int(-3))])
  {
    var s := "5-3";
    assert NumberRunEnd(s, 1, false) == (1, false);
    assert s[0..1] == "5";
    assert DigitsValue("5") == 5;
    NumberRunOverDigits(s, 3);
    assert s[1..3] == "-3";
    assert Unsigned("-3") == ("3", true);
    assert DigitsValue("3") == 3;
  }

  /** A run of letters that names no keyword stops the pass with "not a keyword". */
  lemma UnknownWordFails(w: string)
    requires |w| > 0 && forall j :: 0 <= j < |w| ==> Is.Letter(w[j])
    requires w !in KeywordNames
    ensures Tokenize(w) == Failed(NotAKeyword(w))
  {
    assert LetterRunEnd(w, 0) == |w|;
    assert w[0..|w|] == w;
    KeywordFromExactly(w);
    assert !Is.Whitespace(w[0]);
  }

  /** Each brace is one token of its own. */
  lemma BracesLex(s: string, pos: nat, row: nat, acc: seq<Token>)
    requires pos < |s| && (s[pos] == '{' || s[pos] == '}')
    ensures Scan(s, pos, row, acc) == Scan(s, pos + 1, row, acc + [if s[pos] == '{' then OpenBrace else CloseBrace])
  {
    assert !Is.Whitespace(s[pos]) && !Is.Letter(s[pos]) && !Is.Digit(s[pos]) && s[pos] != '-' && Is.Brace(s[pos]);
  }

}
