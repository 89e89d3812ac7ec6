/**
 * The shared value, operator and keyword types of the interpreter
 * (src/util/types.rs), plus the evaluation result type of src/runtime/eval.rs,
 * which types.rs refers to.
 */
module Types {
  import opened Results

  /**
   * A literal number. `Float` stands for the source's f32 payload and is
   * modelled as an exact real; `Thought` is the placeholder for "the current
   * thought register", resolved only during evaluation.
   */
  datatype Number = Int(i: int) | Float(f: real) | Thought
  {
    /** `Number::thought`. */
    predicate IsThought() {
      match this
      case Thought => true
      case _ => false
    }

    /** `Number::int`: the integer payload, if any. */
    function IntValue(): Option<int> {
      match this
      case Int(n) => Some(n)
      case _ => None
    }

    /** `Number::float`: the payload as a float, converting an integer. */
    function FloatValue(): Option<real> {
      match this
      case Float(x) => Some(x)
      case Int(n) => Some(n as real)
      case Thought => None
    }

    /** `Number::eval_type`: the resolved evaluation value, if any. */
    function ToEvalType(): Option<EvalType> {
      match this
      case Int(n) => Some(IntVal(n))
      case Float(x) => Some(FloatVal(x))
      case _ => None
    }
  }

  /** The range of the source's `i64` payloads. */
  const MinI64: int := -0x8000_0000_0000_0000
  const MaxI64: int := 0x7FFF_FFFF_FFFF_FFFF

  /** The result of evaluating an expression (`EvalType` of eval.rs). */
  datatype EvalType = IntVal(i: int) | FloatVal(f: real) | CharVal(c: char)
  {
    /** `EvalType::to_num`: a number again, except for a character. */
    function ToNum(): Option<Number> {
      match this
      case IntVal(n) => Some(Int(n))
      case FloatVal(x) => Some(Float(x))
      case CharVal(_) => None
    }
  }

  /** The four arithmetic operators. */
  datatype Operator = Add | Sub | Mul | Div
  {
    /** `Operator::to_char`. */
    function ToChar(): char {
      match this
      case Add => '+'
      case Sub => '-'
      case Mul => '*'
      case Div => '/'
    }
  }

  /** `Operator::from`: every character outside `+ - * /` falls back to `Add`. */
  function OperatorFrom(c: char): Operator {
    match c
    case '+' => Add
    case '-' => Sub
    case '*' => Mul
    case '/' => Div
    case _ => Add
  }

  /**
   * Reserved words. The first nine are the variants of the source's enum;
   * `Run`, `Define` and `Spawn` are the three the parser dispatches on.
   */
  datatype Keyword = Think | Thought | In | Out | Print | If | Loop | Break | Char
                   | Run | Define | Spawn
  {
    /** The nine keywords that have a name in the keyword tables. */
    predicate Listed() {
      !(Run? || Define? || Spawn?)
    }

    /** `Keyword::to_str`, whose table only covers the listed keywords. */
    function ToStr(): string
      requires Listed()
    {
      match this
      case Think => "think"
      case Thought => "thought"
      case In => "in"
      case Out => "out"
      case Print => "print"
      case If => "if"
      case Loop => "loop"
      case Break => "break"
      case Char => "char"
    }
  }

  /** `Keyword::from`: the keyword a word names, if any. */
  function KeywordFrom(word: string): Option<Keyword> {
    if word == "think" then Some(Think)
    else if word == "thought" then Some(Keyword.Thought)
    else if word == "print" then Some(Print)
    else if word == "if" then Some(If)
    else if word == "loop" then Some(Loop)
    else if word == "break" then Some(Break)
    else if word == "in" then Some(In)
    else if word == "out" then Some(Out)
    else if word == "char" then Some(Char)
    else None
  }

  /** The nine reserved names of the keyword tables. */
  const KeywordNames: set<string> :=
    {"think", "thought", "print", "if", "loop", "break", "in", "out", "char"}

  /** `int()` is present exactly for `Int`, `thought()` holds exactly for `Thought`. */
  lemma IntAndThoughtAccessors(n: Number)
    ensures n.IntValue().Some? <==> n.Int?
    ensures n.Int? ==> n.IntValue() == Some(n.i)
    ensures n.IsThought() <==> n.Thought?
  {
  }

  /** `float()` and `eval_type()` are absent exactly for `Thought`; `eval_type` keeps the tag and payload. */
  lemma FloatAndEvalTypeAccessors(n: Number)
    ensures n.FloatValue().None? <==> n.Thought?
    ensures n.ToEvalType().None? <==> n.Thought?
    ensures n.Int? ==> n.ToEvalType() == Some(IntVal(n.i)) && n.FloatValue() == Some(n.i as real)
    ensures n.Float? ==> n.ToEvalType() == Some(FloatVal(n.f)) && n.FloatValue() == Some(n.f)
  {
  }

  /** `to_num` and `eval_type` are inverse on numbers; characters have no number. */
  lemma EvalTypeNumberRoundTrip(n: Number, v: EvalType)
    ensures n.ToEvalType() == Some(v) <==> v.ToNum() == Some(n)
    ensures v.ToNum().None? <==> v.CharVal?
  {
  }

  /** `Operator::from` inverts `to_char`. */
  lemma OperatorRoundTrip(o: Operator)
    ensures OperatorFrom(o.ToChar()) == o
  {
  }

  /** Every character other than `+ - * /` (such as `^` and `%`) reads as `Add`. */
  lemma OperatorFromFallback(c: char)
    ensures c !in "+-*/" ==> OperatorFrom(c) == Add
    ensures OperatorFrom(c).ToChar() == c <==> c in "+-*/"
  {
  }

  /** `Keyword::from` inverts `to_str` on every listed keyword. */
  lemma KeywordRoundTrip(k: Keyword)
    requires k.Listed()
    ensures KeywordFrom(k.ToStr()) == Some(k)
  {
  }

  /**
   * `Keyword::from` knows exactly the nine names, only ever yields a listed
   * keyword, and yields the keyword whose name the word is.
   */
  lemma KeywordFromExactly(word: string)
    ensures KeywordFrom(word).Some? <==> word in KeywordNames
    ensures KeywordFrom(word).Some? ==>
              KeywordFrom(word).value.Listed() && KeywordFrom(word).value.ToStr() == word
  {
  }
}
