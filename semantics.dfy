/**
 * Statement execution of src/runtime/runtime.rs (`exec`, `stack_get`,
 * `run`) as functions of the macro table and the state. The source's
 * `loop` statement and macro calls can run forever, so every function takes
 * a `fuel` bound: one unit is spent per loop iteration and per macro call,
 * and `Exhausted` reports that the bound was reached.
 */
module Semantics {
  import opened Results
  import opened Types
  import opened Evaluation
  import Ast

  /**
   * How a statement ended: normally (`exec` returned `false`), by `break`
   * (`true`), with an error, or by running out of fuel.
   */
  datatype Signal = Continue | Broke | Failed(error: RuntimeError) | Exhausted

  datatype Outcome = Outcome(st: State, signal: Signal)

  /** The index of an assignment: integers as they are, floats (and the thought) floored. */
  function AssignIndex(st: State, n: Number): (i: int)
    requires Resolved(st)
  {
    match n
    case Int(k) => k
    case Float(f) => FloorToI64(f)
    case Thought => FloorToI64(st.thought.FloatValue().value)
  }

  /** `stack_get`: the entry at the (floored) index; a `Thought` index panics. */
  function StackGet(st: State, i: Number): (r: Result<Number, RuntimeError>)
    requires Resolved(st)
    ensures r.Ok? ==> !r.value.Thought?
  {
    match i
    case Int(k) => Ok(StackValue(st, k))
    case Float(f) => Ok(StackValue(st, FloorToI64(f)))
    case Thought => Err(Panic)
  }

  /** The value an assignment stores: a stack read, a literal or an operation. */
  function AssignValue(st: State, val: Ast.Node): (r: Result<Number, RuntimeError>)
    requires Resolved(st)
    ensures r.Ok? ==> !r.value.Thought?
  {
    match val
    case Out(n) =>
      (match n.ToNum()
       case Err(_) => Err(NotANumber)
       case Ok(k) => StackGet(st, k))
    case Literal(n) => Ok(Resolve(st, n))
    case Eval(_, _, _) =>
      var v :- Eval(st, val);
      if v.CharVal? then Err(EvalFailed) else Ok(v.ToNum().value)
    case _ => Err(NonDataAssign)
  }

  /**
   * `Runner::exec` with `fuel` left. `print` appends the value to the output;
   * `think` sets the thought; an assignment stores into the stack; `if`
   * runs its body when the condition literal equals the thought (same tag
   * and value); `loop` repeats its body until a `break`; `run` executes a
   * macro body, and a `break` inside it breaks the caller; every other node
   * does nothing.
   */
  function Exec(macros: map<string, seq<Ast.Node>>, st: State, node: Ast.Node, fuel: nat): (o: Outcome)
    requires Resolved(st)
    ensures Resolved(o.st)
    ensures |st.output| <= |o.st.output| && o.st.output[..|st.output|] == st.output
    decreases fuel, node
  {
    match node
    case Print(d) =>
      (match Eval(st, d)
       case Err(e) => Outcome(st, Failed(e))
       case Ok(v) => Outcome(st.(output := st.output + [v]), Continue))
    case Think(d) =>
      (match Eval(st, d)
       case Err(e) => Outcome(st, Failed(e))
       case Ok(v) =>
         if v.CharVal? then Outcome(st, Failed(Unevaluable))
         else Outcome(st.(thought := v.ToNum().value), Continue))
    case Assign(i, val) =>
      (match i.ToNum()
       case Err(_) => Outcome(st, Failed(NotANumber))
       case Ok(n) =>
         var index := AssignIndex(st, n);
         (match AssignValue(st, val)
          case Err(e) => Outcome(st, Failed(e))
          case Ok(value) => Outcome(st.(stack := st.stack[index := value]), Continue)))
    case Run(name) =>
      if name !in macros then Outcome(st, Failed(MacroNotFound))
      else if fuel == 0 then Outcome(st, Exhausted)
      else ExecBlock(macros, st, macros[name], fuel - 1)
    case If(cond, body) =>
      (match cond.ToNum()
       case Err(_) => Outcome(st, Failed(NotANumber))
       case Ok(n) => if n == st.thought then ExecBlock(macros, st, body, fuel) else Outcome(st, Continue))
    case Loop(body) =>
      if fuel == 0 then Outcome(st, Exhausted)
      else
        var pass := ExecBlock(macros, st, body, fuel - 1);
        (match pass.signal
         case Continue => Exec(macros, pass.st, node, fuel - 1)
         case Broke => Outcome(pass.st, Continue)
         case _ => pass)
    case Break => Outcome(st, Broke)
    case _ => Outcome(st, Continue)
  }

  /** The body loops of `exec`: statements in order until one does not end normally. */
  function ExecBlock(macros: map<string, seq<Ast.Node>>, st: State, nodes: seq<Ast.Node>, fuel: nat): (o: Outcome)
    requires Resolved(st)
    ensures Resolved(o.st)
    ensures |st.output| <= |o.st.output| && o.st.output[..|st.output|] == st.output
    decreases fuel, nodes
  {
    if nodes == [] then Outcome(st, Continue)
    else
      var first := Exec(macros, st, nodes[0], fuel);
      if first.signal.Continue? then ExecBlock(macros, first.st, nodes[1..], fuel) else first
  }

  /**
   * The loop of `run`: each top-level statement with `fuel`; a `break` at
   * top level is ignored, an error or exhaustion stops the run.
   */
  function RunNodes(macros: map<string, seq<Ast.Node>>, st: State, nodes: seq<Ast.Node>, fuel: nat): (o: Outcome)
    requires Resolved(st)
    ensures Resolved(o.st)
    ensures o.signal.Continue? || o.signal.Failed? || o.signal.Exhausted?
    ensures |st.output| <= |o.st.output| && o.st.output[..|st.output|] == st.output
    decreases nodes
  {
    if nodes == [] then Outcome(st, Continue)
    else
      var first := Exec(macros, st, nodes[0], fuel);
      if first.signal.Failed? || first.signal.Exhausted? then first
      else RunNodes(macros, first.st, nodes[1..], fuel)
  }

  /** `Runner::run`: a missing macro table is an empty one. */
  function Run(macros: Option<map<string, seq<Ast.Node>>>, st: State, nodes: seq<Ast.Node>, fuel: nat): (o: Outcome)
    requires Resolved(st)
    ensures Resolved(o.st)
    ensures o.signal.Continue? || o.signal.Failed? || o.signal.Exhausted?
  {
    RunNodes(if macros.Some? then macros.value else map[], st, nodes, fuel)
  }

  /** The state of a new `Runner`: an empty stack, thought 0, nothing printed. */
  const Initial: State := State(map[], Int(0), [])
}
