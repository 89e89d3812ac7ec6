/** The syntax tree and parser result types of src/parse/mod.rs. */
module Ast {
  import opened Results
  import Types

  datatype Node =
    | Literal(n: Types.Number)
    | Char(e: Node)
    | Print(e: Node)
    | If(cond: Node, body: seq<Node>)
    | Loop(body: seq<Node>)
    | Assign(index: Node, value: Node)
    | Eval(left: Node, op: Types.Operator, right: Node)
    | Define(name: string, body: seq<Node>)
    | Think(e: Node)
    | Out(e: Node)
    | Run(name: string)
    | Spawn(name: string)
    | Break
  {
    /** `Node::to_num`: the number of a literal; any other node is an error. */
    function ToNum(): Result<Types.Number, ConversionError> {
      match this
      case Literal(n) => Ok(n)
      case _ => Err(NonNumberNode)
    }
  }

  /** The static error of `to_num` ("Unable to convert a non-number node to a number!"). */
  datatype ConversionError = NonNumberNode

  /**
   * What one parsed unit is (`ExprType`): a statement, possibly empty
   * (`ExprType::Node`), or a macro definition's name and body (`ExprType::Macro`).
   */
  datatype ExprType = Stmt(node: Option<Node>) | Macro(name: string, body: seq<Node>)

  /** The statements in order, and the macro table when there is a definition. */
  datatype ParserResult = ParserResult(nodes: seq<Node>, macros: Option<map<string, seq<Node>>>)

  /** `to_num` succeeds exactly on literals, with their number. */
  lemma ToNumExactlyLiterals(node: Node)
    ensures node.ToNum().Ok? <==> node.Literal?
    ensures node.Literal? ==> node.ToNum() == Ok(node.n)
  {
  }
}
