/**
 * Expression evaluation of src/runtime/eval.rs and src/runtime/op_eval.rs.
 * The source's `eval` and `op_eval` take `&mut self` but only read the
 * runner's stack and thought, so they are functions of a `State` here.
 */
module Evaluation {
  import opened Results
  import opened Types
  import Ast

  /** The runtime's messages; `Panic` stands for a Rust panic that aborts the run. */
  datatype RuntimeError =
    | NotANumber      // `Node::to_num` of a node that is no literal
    | Unevaluable     // "Unable to evaluate!": a character cannot become the thought
    | EvalFailed      // the empty message of a character assigned through an operator
    | NonDataAssign   // "Unable to assign a non-data type to a stack index!"
    | MacroNotFound   // "Macro '{}' not found!" (the name is never filled in)
    | DivisionByZero  // "Attempted division by zero!"
    | Panic           // `from_u32(..).unwrap()` on a surrogate, `float().unwrap()` of `Thought`

  /** What `exec` and `eval` see and change: the stack, the thought, and what was printed. */
  datatype State = State(stack: map<int, Number>, thought: Number, output: seq<EvalType>)

  /**
   * The runner's invariant: neither the thought nor any stack entry is the
   * `Thought` placeholder, so the source's `unwrap`s on them never panic.
   */
  predicate Resolved(st: State) {
    !st.thought.Thought? && forall k :: k in st.stack ==> !st.stack[k].Thought?
  }

  /** Rust's saturating conversion of an integral float to `i64`. */
  function SaturateI64(n: int): (r: int)
    ensures MinI64 <= r <= MaxI64
    ensures MinI64 <= n <= MaxI64 ==> r == n
    ensures n < MinI64 ==> r == MinI64
    ensures n > MaxI64 ==> r == MaxI64
  {
    if n < MinI64 then MinI64 else if n > MaxI64 then MaxI64 else n
  }

  /** `x.floor() as i64`. */
  function FloorToI64(x: real): int {
    SaturateI64(x.Floor)
  }

  /** `x as i64`: rounds toward zero, then saturates. */
  function TruncToI64(x: real): int {
    SaturateI64(if x >= 0.0 then x.Floor else -((-x).Floor))
  }

  /** `charify`'s modulus: one less than the number of code points. */
  const CharModulus: int := 0x10FFFF

  predicate Surrogate(n: int) {
    0xD800 <= n < 0xE000
  }

  /** `charify`: the code point `i.rem_euclid(0x10FFFF)`; a surrogate panics. */
  function Charify(i: int): (r: Result<char, RuntimeError>) {
    var m := i % CharModulus;
    if Surrogate(m) then Err(Panic) else Ok(m as char)
  }

  /** `stack.get(&index).unwrap_or(&Number::Int(0))`. */
  function StackValue(st: State, index: int): (n: Number)
    requires Resolved(st)
    ensures !n.Thought?
  {
    if index in st.stack then st.stack[index] else Int(0)
  }

  /** The literal's number, `Thought` standing for the current thought. */
  function Resolve(st: State, n: Number): (r: Number)
    requires Resolved(st)
    ensures !r.Thought?
  {
    if n.Thought? then st.thought else n
  }

  /**
   * `Runner::eval`. `Char` turns a number into the character `charify`
   * gives; `Out` reads the stack at the evaluated index; nodes that are no
   * expression evaluate to 0.
   */
  function Eval(st: State, node: Ast.Node): (r: Result<EvalType, RuntimeError>)
    requires Resolved(st)
    ensures r.Ok? && (node.Out? || node.Eval? || node.Literal?) ==> !r.value.CharVal?
    decreases node, 1
  {
    match node
    case Literal(n) => Ok(Resolve(st, n).ToEvalType().value)
    case Char(x) =>
      var v :- Eval(st, x);
      (match v
       case IntVal(i) =>
         var c :- Charify(i);
         Ok(CharVal(c))
       case FloatVal(f) =>
         var c :- Charify(FloorToI64(f));
         Ok(CharVal(c))
       case CharVal(c) => Ok(CharVal(c)))
    case Eval(_, _, _) => OpEval(st, node)
    case Out(x) =>
      var v :- Eval(st, x);
      var index := match v
        case IntVal(i) => i
        case FloatVal(f) => TruncToI64(f)
        case CharVal(c) => c as int;
      Ok(StackValue(st, index).ToEvalType().value)
    case _ => Ok(IntVal(0))
  }

  /**
   * The operand closure of `op_eval`: a stack read, a literal, a nested
   * operation; any other node counts as 0.
   */
  function Operand(st: State, x: Ast.Node): (r: Result<Number, RuntimeError>)
    requires Resolved(st)
    ensures r.Ok? ==> !r.value.Thought?
    decreases x, 2
  {
    match x
    case Out(_) =>
      var v :- Eval(st, x);
      Ok(v.ToNum().value)
    case Literal(n) => Ok(Resolve(st, n))
    case Eval(_, _, _) =>
      var v :- OpEval(st, x);
      Ok(v.ToNum().value)
    case _ => Ok(Int(0))
  }

  /** `Runner::op_eval` on an `Eval` node: both operands, left first, then the arithmetic. */
  function OpEval(st: State, node: Ast.Node): (r: Result<EvalType, RuntimeError>)
    requires Resolved(st) && node.Eval?
    ensures r.Ok? ==> !r.value.CharVal?
    decreases node, 0
  {
    var l :- Operand(st, node.left);
    var r :- Operand(st, node.right);
    Arith(l, node.op, r)
  }

  /**
   * The arithmetic of `op_eval`: two integers add, subtract and multiply
   * as integers; division, and any operation with a float, is done on
   * floats; a zero divisor is an error.
   */
  function Arith(l: Number, op: Operator, r: Number): (v: Result<EvalType, RuntimeError>)
    requires !l.Thought? && !r.Thought?
    ensures v.Ok? ==> !v.value.CharVal?
  {
    if l.Int? && r.Int? then
      match op
      case Add => Ok(IntVal(l.i + r.i))
      case Sub => Ok(IntVal(l.i - r.i))
      case Mul => Ok(IntVal(l.i * r.i))
      case Div => if r.i == 0 then Err(DivisionByZero) else Ok(FloatVal(l.i as real / r.i as real))
    else
      var a := l.FloatValue().value;
      var b := r.FloatValue().value;
      match op
      case Add => Ok(FloatVal(a + b))
      case Sub => Ok(FloatVal(a - b))
      case Mul => Ok(FloatVal(a * b))
      case Div => if b == 0.0 then Err(DivisionByZero) else Ok(FloatVal(a / b))
  }
}
