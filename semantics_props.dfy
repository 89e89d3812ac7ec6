/** Properties of statement execution. */
module SemanticsProperties {
  import opened Results
  import opened Types
  import opened Evaluation
  import opened Semantics
  import Ast

  /**
   * Fuel only bounds the run: an execution that did not run out gives the
   * same outcome with any larger bound.
   */
  lemma {:induction false} ExecFuelMonotone(m: map<string, seq<Ast.Node>>, st: State, node: Ast.Node, f: nat, g: nat)
    requires Resolved(st) && f <= g
    requires !Exec(m, st, node, f).signal.Exhausted?
    ensures Exec(m, st, node, g) == Exec(m, st, node, f)
    decreases f, node, 1
  {
    match node
    case Run(name) =>
      if name in m && f > 0 {
        ExecBlockFuelMonotone(m, st, m[name], f - 1, g - 1);
      }
    case If(cond, body) =>
      if cond.ToNum().Ok? && cond.ToNum().value == st.thought {
        ExecBlockFuelMonotone(m, st, body, f, g);
      }
    case Loop(body) =>
      LoopFuelMonotone(m, st, body, f, g);
    case _ =>
  }

  lemma {:induction false} LoopFuelMonotone(m: map<string, seq<Ast.Node>>, st: State, body: seq<Ast.Node>, f: nat, g: nat)
    requires Resolved(st) && f <= g
    requires !Exec(m, st, Ast.Loop(body), f).signal.Exhausted?
    ensures Exec(m, st, Ast.Loop(body), g) == Exec(m, st, Ast.Loop(body), f)
    decreases f, Ast.Loop(body), 0
  {
    var pass := ExecBlock(m, st, body, f - 1);
    ExecBlockFuelMonotone(m, st, body, f - 1, g - 1);
    assert ExecBlock(m, st, body, g - 1) == pass;
    if pass.signal.Continue? {
      ExecFuelMonotone(m, pass.st, Ast.Loop(body), f - 1, g - 1);
    }
  }

  lemma {:induction false} ExecBlockFuelMonotone(m: map<string, seq<Ast.Node>>, st: State, nodes: seq<Ast.Node>, f: nat, g: nat)
    requires Resolved(st) && f <= g
    requires !ExecBlock(m, st, nodes, f).signal.Exhausted?
    ensures ExecBlock(m, st, nodes, g) == ExecBlock(m, st, nodes, f)
    decreases f, nodes, 1
  {
    if nodes != [] {
      var first := Exec(m, st, nodes[0], f);
      ExecFuelMonotone(m, st, nodes[0], f, g);
      if first.signal.Continue? {
        ExecBlockFuelMonotone(m, first.st, nodes[1..], f, g);
      }
    }
  }

  /**
   * Statements that cannot signal `break` to their enclosing block: a
   * `loop` absorbs the breaks of its body, and macro bodies are checked
   * once for the whole table.
   */
  predicate NoBreak(node: Ast.Node) {
    match node
    case Break => false
    case If(_, body) => forall k :: 0 <= k < |body| ==> NoBreak(body[k])
    case _ => true
  }

  predicate TableBreakFree(m: map<string, seq<Ast.Node>>) {
    forall name :: name in m ==> forall k :: 0 <= k < |m[name]| ==> NoBreak(m[name][k])
  }

  lemma {:induction false} ExecNeverBreaks(m: map<string, seq<Ast.Node>>, st: State, node: Ast.Node, f: nat)
    requires Resolved(st) && TableBreakFree(m) && NoBreak(node)
    ensures !Exec(m, st, node, f).signal.Broke?
    decreases f, node
  {
    match node
    case Run(name) =>
      if name in m && f > 0 {
        BlockNeverBreaks(m, st, m[name], f - 1);
      }
    case If(cond, body) =>
      if cond.ToNum().Ok? && cond.ToNum().value == st.thought {
        BlockNeverBreaks(m, st, body, f);
      }
    case Loop(body) =>
      if f > 0 {
        var pass := ExecBlock(m, st, body, f - 1);
        if pass.signal.Continue? {
          ExecNeverBreaks(m, pass.st, node, f - 1);
        }
      }
    case _ =>
  }

  lemma {:induction false} BlockNeverBreaks(m: map<string, seq<Ast.Node>>, st: State, nodes: seq<Ast.Node>, f: nat)
    requires Resolved(st) && TableBreakFree(m)
    requires forall k :: 0 <= k < |nodes| ==> NoBreak(nodes[k])
    ensures !ExecBlock(m, st, nodes, f).signal.Broke?
    decreases f, nodes
  {
    if nodes != [] {
      var first := Exec(m, st, nodes[0], f);
      ExecNeverBreaks(m, st, nodes[0], f);
      if first.signal.Continue? {
        BlockNeverBreaks(m, first.st, nodes[1..], f);
      }
    }
  }

  /**
   * `loop` ends normally only through `break`: with no break reachable in
   * its body it ends with an error or runs until the fuel is gone.
   */
  lemma {:induction false} LoopEndsOnlyByBreak(m: map<string, seq<Ast.Node>>, st: State, body: seq<Ast.Node>, f: nat)
    requires Resolved(st) && TableBreakFree(m)
    requires forall k :: 0 <= k < |body| ==> NoBreak(body[k])
    ensures Exec(m, st, Ast.Loop(body), f).signal.Failed? || Exec(m, st, Ast.Loop(body), f).signal.Exhausted?
    decreases f
  {
    if f > 0 {
      var pass := ExecBlock(m, st, body, f - 1);
      BlockNeverBreaks(m, st, body, f - 1);
      if pass.signal.Continue? {
        LoopEndsOnlyByBreak(m, pass.st, body, f - 1);
      }
    }
  }

  /** `think 5` then `loop { if 5 { break } }`: the loop ends after one pass. */
  lemma BreakOnMatchingThought(m: map<string, seq<Ast.Node>>, st: State, f: nat)
    requires Resolved(st) && f >= 1
    ensures var thought := Exec(m, st, Ast.Think(Ast.Literal(Int(5))), f);
            thought == Outcome(st.(thought := Int(5)), Continue) &&
            Exec(m, thought.st, Ast.Loop([Ast.If(Ast.Literal(Int(5)), [Ast.Break])]), f) == Outcome(thought.st, Continue)
  {
    var st1 := st.(thought := Int(5));
    assert ExecBlock(m, st1, [Ast.Break], f - 1) == Outcome(st1, Broke);
    assert ExecBlock(m, st1, [Ast.If(Ast.Literal(Int(5)), [Ast.Break])], f - 1) == Outcome(st1, Broke);
  }

  /** `if` compares tag and value: an integer condition never matches a float thought, even an equal one. */
  lemma IfComparesTags(m: map<string, seq<Ast.Node>>, st: State, n: int, body: seq<Ast.Node>, f: nat)
    requires Resolved(st) && st.thought == Float(n as real)
    ensures Exec(m, st, Ast.If(Ast.Literal(Int(n)), body), f) == Outcome(st, Continue)
  {
  }

  /** An assignment stores into one index; reading it back gives the value, every other index is unchanged. */
  lemma ReadAfterAssign(m: map<string, seq<Ast.Node>>, st: State, i: int, v: Number, f: nat)
    requires Resolved(st) && !v.Thought?
    ensures var o := Exec(m, st, Ast.Assign(Ast.Literal(Int(i)), Ast.Literal(v)), f);
            o.signal == Continue &&
            Eval(o.st, Ast.Out(Ast.Literal(Int(i)))) == Ok(v.ToEvalType().value) &&
            (forall j :: j != i ==> Eval(o.st, Ast.Out(Ast.Literal(Int(j)))) == Eval(st, Ast.Out(Ast.Literal(Int(j))))) &&
            o.st.thought == st.thought && o.st.output == st.output
  {
  }

  /** A `break` inside a macro body breaks the loop that called the macro. */
  lemma BreakInMacroLeavesCallerLoop(m: map<string, seq<Ast.Node>>, st: State, name: string, f: nat)
    requires Resolved(st) && f >= 2 && name in m && m[name] == [Ast.Break]
    ensures Exec(m, st, Ast.Loop([Ast.Run(name)]), f) == Outcome(st, Continue)
  {
    assert ExecBlock(m, st, m[name], f - 2) == Outcome(st, Broke);
    assert Exec(m, st, Ast.Run(name), f - 1) == Outcome(st, Broke);
    assert ExecBlock(m, st, [Ast.Run(name)], f - 1) == Outcome(st, Broke);
  }

  /** A `break` at top level does not stop `run`. */
  lemma TopLevelBreakIgnored(m: map<string, seq<Ast.Node>>, st: State, rest: seq<Ast.Node>, f: nat)
    requires Resolved(st)
    ensures RunNodes(m, st, [Ast.Break] + rest, f) == RunNodes(m, st, rest, f)
  {
    assert ([Ast.Break] + rest)[1..] == rest;
  }

  /**
   * `spawn`, a macro definition and a bare expression do nothing when
   * executed: the state is unchanged and execution goes on.
   */
  lemma InertNodes(m: map<string, seq<Ast.Node>>, st: State, node: Ast.Node, f: nat)
    requires Resolved(st)
    requires node.Spawn? || node.Define? || node.Literal? || node.Char? || node.Out? || node.Eval?
    ensures Exec(m, st, node, f) == Outcome(st, Continue)
  {
  }

  /** `run` of a name the table lacks is an error that changes nothing. */
  lemma MissingMacroFails(m: map<string, seq<Ast.Node>>, st: State, name: string, f: nat)
    requires Resolved(st) && name !in m
    ensures Exec(m, st, Ast.Run(name), f) == Outcome(st, Failed(MacroNotFound))
  {
  }
}
