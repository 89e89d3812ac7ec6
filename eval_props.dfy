/** Properties of expression evaluation. */
module EvaluationProperties {
  import opened Results
  import opened Types
  import opened Evaluation
  import Ast

  /** The number a non-character evaluation result stands for. */
  function RealOf(v: EvalType): real
    requires !v.CharVal?
  {
    match v
    case IntVal(i) => i as real
    case FloatVal(f) => f
  }

  /** The operation on exact numbers, as a reference for `op_eval`. */
  function RealOp(op: Operator, a: real, b: real): real
    requires op == Div ==> b != 0.0
  {
    match op
    case Add => a + b
    case Sub => a - b
    case Mul => a * b
    case Div => a / b
  }

  /**
   * `op_eval`'s arithmetic fails exactly on a zero divisor, and stays
   * integral exactly when both operands are integers and the operator is no
   * division.
   */
  lemma ArithOutcome(l: Number, op: Operator, r: Number)
    requires !l.Thought? && !r.Thought?
    ensures Arith(l, op, r).Err? <==> op == Div && r.FloatValue().value == 0.0
    ensures Arith(l, op, r).Err? ==> Arith(l, op, r).error == DivisionByZero
    ensures Arith(l, op, r).Ok? ==> (Arith(l, op, r).value.IntVal? <==> l.Int? && r.Int? && op != Div)
  {
  }

  /** `op_eval`'s arithmetic computes the operation on the operands' values. */
  lemma ArithMeaning(l: Number, op: Operator, r: Number)
    requires !l.Thought? && !r.Thought?
    ensures Arith(l, op, r).Ok? ==>
              RealOf(Arith(l, op, r).value) == RealOp(op, l.FloatValue().value, r.FloatValue().value)
  {
    if l.Int? && r.Int? {
      var a, b := l.FloatValue().value, r.FloatValue().value;
      assert a == l.i as real && b == r.i as real;
      match op
      case Add => assert (l.i + r.i) as real == a + b;
      case Sub => assert (l.i - r.i) as real == a - b;
      case Mul => assert (l.i * r.i) as real == a * b;
      case Div =>
    }
  }

  /** `charify` gives back every code point below its modulus. */
  lemma CharifyInverse(c: char)
    requires (c as int) < CharModulus
    ensures Charify(c as int) == Ok(c)
  {
  }

  /**
   * `charify` yields code points below 0x10FFFF only, panics exactly on a
   * surrogate, and maps 0x10FFFF itself (the last code point) to U+0000.
   */
  lemma CharifyRange(i: int)
    ensures Charify(i).Ok? ==> (Charify(i).value as int) == i % CharModulus < CharModulus
    ensures Charify(i).Err? <==> Surrogate(i % CharModulus)
    ensures Charify(CharModulus) == Ok(0 as char)
  {
  }

  /** Expressions whose evaluation cannot fail: no `char`, no division. */
  predicate Total(node: Ast.Node)
    decreases node, 1
  {
    match node
    case Char(_) => false
    case Eval(l, op, r) => op != Div && OperandTotal(l) && OperandTotal(r)
    case Out(x) => Total(x)
    case _ => true
  }

  /** In operand position any node but `out`/an operation counts as 0, so only those two can fail. */
  predicate OperandTotal(x: Ast.Node)
    decreases x, 2
  {
    match x
    case Out(_) => Total(x)
    case Eval(_, _, _) => Total(x)
    case _ => true
  }

  lemma {:induction false} TotalEvaluates(st: State, node: Ast.Node)
    requires Resolved(st) && Total(node)
    ensures Eval(st, node).Ok?
    decreases node, 1
  {
    match node
    case Eval(l, _, r) =>
      OperandEvaluates(st, l);
      OperandEvaluates(st, r);
    case Out(x) =>
      TotalEvaluates(st, x);
    case _ =>
  }

  lemma {:induction false} OperandEvaluates(st: State, x: Ast.Node)
    requires Resolved(st) && OperandTotal(x)
    ensures Operand(st, x).Ok?
    decreases x, 2
  {
    match x
    case Out(_) => TotalEvaluates(st, x);
    case Eval(_, _, _) => TotalEvaluates(st, x);
    case _ =>
  }

  /** A literal evaluates to its own number (the thought for `Thought`): `to_num` inverts `eval`. */
  lemma LiteralRoundTrip(st: State, n: Number)
    requires Resolved(st)
    ensures Eval(st, Ast.Literal(n)).Ok?
    ensures Eval(st, Ast.Literal(n)).value.ToNum() == Some(Resolve(st, n))
  {
  }

  /** `out i` reads index `i` of the stack, 0 where nothing was stored. */
  lemma OutReadsStack(st: State, i: int)
    requires Resolved(st)
    ensures Eval(st, Ast.Out(Ast.Literal(Int(i)))) ==
              Ok(if i in st.stack then st.stack[i].ToEvalType().value else IntVal(0))
  {
  }

  /** A float index is truncated toward zero when read, unlike the floor used when storing. */
  lemma FloatIndexTruncates(st: State)
    requires Resolved(st)
    ensures Eval(st, Ast.Out(Ast.Literal(Float(-1.5)))) == Eval(st, Ast.Out(Ast.Literal(Int(-1))))
  {
    assert (1.5).Floor == 1;
  }
}
