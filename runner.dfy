/**
 * The `Runner` struct of src/runtime/runtime.rs: the stack, the thought and
 * the macro table it updates in place while it executes the statements.
 * What `print!` writes is kept in `output`. Every method is proved to leave
 * the state and signal that the functions of `Semantics` describe.
 */
module Runtime {
  import opened Results
  import opened Types
  import opened Evaluation
  import opened Semantics
  import Ast

  class Runner {
    var stack: map<int, Number>
    var thought: Number
    var macros: map<string, seq<Ast.Node>>
    /** Never advanced by the source, so every runtime message reports expression #0. */
    var expr: nat
    var output: seq<EvalType>

    /** The part of the runner that execution reads and writes. */
    function Snapshot(): State
      reads this
    {
      State(stack, thought, output)
    }

    /** `Runner::new`. */
    constructor()
      ensures Snapshot() == Initial && Resolved(Snapshot())
      ensures macros == map[] && expr == 0
    {
      stack := map[];
      thought := Int(0);
      macros := map[];
      expr := 0;
      output := [];
    }

    /**
     * `Runner::run`: installs the macro table (an empty one for `None`) and
     * executes the statements in order, stopping at the first error.
     */
    method Run(nodes: seq<Ast.Node>, table: Option<map<string, seq<Ast.Node>>>, fuel: nat) returns (signal: Signal)
      requires Resolved(Snapshot())
      modifies this`stack, this`thought, this`output, this`macros
      ensures Outcome(Snapshot(), signal) == Semantics.Run(table, old(Snapshot()), nodes, fuel)
      ensures macros == (if table.Some? then table.value else map[])
    {
      macros := if table.Some? then table.value else map[];
      for i := 0 to |nodes|
        invariant Resolved(Snapshot())
        invariant macros == (if table.Some? then table.value else map[])
        invariant RunNodes(macros, Snapshot(), nodes[i..], fuel) == RunNodes(macros, old(Snapshot()), nodes, fuel)
      {
        assert nodes[i..][1..] == nodes[i + 1..];
        signal := Exec(nodes[i], fuel);
        if signal.Failed? || signal.Exhausted? {
          return;
        }
      }
      return Continue;
    }

    /** `Runner::exec`; the returned `Broke` is the source's `Ok(true)`. */
    method Exec(node: Ast.Node, fuel: nat) returns (signal: Signal)
      requires Resolved(Snapshot())
      modifies this`stack, this`thought, this`output
      ensures Resolved(Snapshot())
      ensures Outcome(Snapshot(), signal) == Semantics.Exec(macros, old(Snapshot()), node, fuel)
      decreases fuel, node, 1
    {
      match node {
        case Print(d) =>
          var v := Eval(Snapshot(), d);
          if v.Err? {
            return Failed(v.error);
          }
          output := output + [v.value];
          return Continue;
        case Think(d) =>
          var v := Eval(Snapshot(), d);
          if v.Err? {
            return Failed(v.error);
          }
          if v.value.CharVal? {
            return Failed(Unevaluable);
          }
          thought := v.value.ToNum().value;
          return Continue;
        case Assign(i, val) =>
          var n := i.ToNum();
          if n.Err? {
            return Failed(NotANumber);
          }
          var index := AssignIndex(Snapshot(), n.value);
          var value := AssignValue(Snapshot(), val);
          if value.Err? {
            return Failed(value.error);
          }
          stack := stack[index := value.value];
          return Continue;
        case Run(name) =>
          if name !in macros {
            return Failed(MacroNotFound);
          }
          if fuel == 0 {
            return Exhausted;
          }
          signal := ExecBlock(macros[name], fuel - 1);
        case If(cond, body) =>
          var n := cond.ToNum();
          if n.Err? {
            return Failed(NotANumber);
          }
          if n.value == thought {
            signal := ExecBlock(body, fuel);
          } else {
            signal := Continue;
          }
        case Loop(body) =>
          signal := ExecLoop(body, fuel);
        case Break =>
          return Broke;
        case _ =>
          return Continue;
      }
    }

    /** The `loop` arm of `exec`: repeats the body until it breaks, fails or runs out of fuel. */
    method ExecLoop(body: seq<Ast.Node>, fuel: nat) returns (signal: Signal)
      requires Resolved(Snapshot())
      modifies this`stack, this`thought, this`output
      ensures Resolved(Snapshot())
      ensures Outcome(Snapshot(), signal) == Semantics.Exec(macros, old(Snapshot()), Ast.Loop(body), fuel)
      decreases fuel, Ast.Loop(body), 0
    {
      var f: nat := fuel;
      while true
        invariant f <= fuel && Resolved(Snapshot())
        invariant Semantics.Exec(macros, Snapshot(), Ast.Loop(body), f) == Semantics.Exec(macros, old(Snapshot()), Ast.Loop(body), fuel)
        decreases f
      {
        if f == 0 {
          return Exhausted;
        }
        var pass := ExecBlock(body, f - 1);
        if pass.Broke? {
          return Continue;
        }
        if !pass.Continue? {
          return pass;
        }
        f := f - 1;
      }
    }

    /** The `for node in ...` loops of `exec`: stops at the first statement that breaks or fails. */
    method ExecBlock(nodes: seq<Ast.Node>, fuel: nat) returns (signal: Signal)
      requires Resolved(Snapshot())
      modifies this`stack, this`thought, this`output
      ensures Resolved(Snapshot())
      ensures Outcome(Snapshot(), signal) == Semantics.ExecBlock(macros, old(Snapshot()), nodes, fuel)
      decreases fuel, nodes, 1
    {
      for i := 0 to |nodes|
        invariant Resolved(Snapshot())
        invariant Semantics.ExecBlock(macros, Snapshot(), nodes[i..], fuel)
               == Semantics.ExecBlock(macros, old(Snapshot()), nodes, fuel)
      {
        assert nodes[i..][1..] == nodes[i + 1..];
        signal := Exec(nodes[i], fuel);
        if !signal.Continue? {
          return;
        }
      }
      return Continue;
    }
  }
}
