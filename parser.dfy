/**
 * The `Parser` struct of src/parse/parser.rs and the `parse_*` methods of
 * src/parse/num_parse.rs, keyword_parse.rs and rel_parse.rs, over the
 * cursor field `pos`. Every method is proved to leave the result and the
 * cursor that the matching function of `ParseSpec` describes.
 */
module Parsing {
  import opened Results
  import opened Tokens
  import opened Ast
  import opened ParseSpec
  import Types

  class Parser {
    const tokens: seq<Token>
    var pos: nat
    var expr: nat

    constructor(tokens: seq<Token>)
      ensures this.tokens == tokens && pos == 0 && expr == 0
    {
      this.tokens := tokens;
      pos := 0;
      expr := 0;
    }

    function Peek(): Option<Token>
      reads this
    {
      PeekAt(tokens, pos)
    }

    method Advance()
      modifies this`pos
      ensures pos == old(pos) + 1
    {
      pos := pos + 1;
    }

    /** `undo`: the source's unsigned cursor cannot step back from 0. */
    method Undo()
      requires pos > 0
      modifies this`pos
      ensures pos == old(pos) - 1
    {
      pos := pos - 1;
    }

    method SkipNewlines()
      modifies this`pos
      ensures pos == SkipNewLines(tokens, old(pos))
    {
      while Peek() == Some(NewLine)
        invariant SkipNewLines(tokens, pos) == SkipNewLines(tokens, old(pos))
        decreases Rem(tokens, pos)
      {
        Advance();
      }
    }

    method ParseOut() returns (r: Result<Option<Node>, ParseError>)
      modifies this`pos
      ensures Parsed(r, pos) == ParseSpec.ParseOut(tokens, old(pos), expr)
    {
      Advance();
      var t := Peek();
      if t == Some(NewLine) {
        Advance();
        r := Ok(None);
      } else if t.Some? && t.value.Data? {
        if t.value.n.Int? {
          r := Ok(Some(Out(Literal(t.value.n))));
        } else {
          r := Err(At(NonIntegerIndex, expr));
        }
      } else if t.Some? {
        r := Err(At(NonDataIndex, expr));
      } else {
        r := Err(At(MissingIndex, expr));
      }
    }

    /** The first part of `parse_num`: a literal, or `out` and its index. */
    method ParsePrimary(token: Token) returns (r: Result<Node, ParseError>)
      modifies this`pos
      ensures Parsed(r, pos) == NumPrimary(tokens, old(pos), token, expr)
    {
      if token.Data? {
        r := Ok(Literal(token.n));
        Advance();
      } else if token == Keyword(Types.Keyword.Out) {
        var o := ParseOut();
        if o.Err? {
          return Err(o.error);
        }
        if o.value.None? {
          return Err(At(OutNotParsed, expr));
        }
        r := Ok(o.value.value);
        Advance();
      } else {
        r := Err(At(NonNumberToken, expr));
      }
    }

    /** The `char` check that ends `parse_num`. */
    method CharCheck(node: Node) returns (r: Result<Option<Node>, ParseError>)
      modifies this`pos
      ensures Parsed(r, pos) == CharSuffix(tokens, node, old(pos))
    {
      Advance();
      var after := Peek();
      if after == Some(NewLine) {
        r := Ok(Some(node));
      } else if after == Some(Keyword(Types.Keyword.Char)) {
        r := Ok(Some(Char(node)));
      } else {
        Undo();
        r := Ok(Some(node));
      }
    }

    method ParseNum(token: Token) returns (r: Result<Option<Node>, ParseError>)
      modifies this`pos
      ensures Parsed(r, pos) == Num(tokens, old(pos), token, expr)
      decreases Rem(tokens, pos), 1
    {
      var node :- ParsePrimary(token);
      var next := Peek();
      if next == Some(NewLine) {
        Undo();
        return Ok(Some(node));
      } else if next.Some? && next.value.OpToken? {
        Advance();
        var operand := Peek();
        if operand.Some? && (operand.value.Data? || operand.value == Keyword(Types.Keyword.Out)) {
          // `parse_num` always yields a node, so the source's "Unable to
          // parse a number after an operator" arm is never taken.
          var rest := ParseNum(operand.value);
          if rest.Err? {
            return Err(rest.error);
          }
          node := Eval(node, next.value.op, rest.value.value);
        } else {
          return Err(At(NoNumberAfterOperator, expr));
        }
      } else {
        Undo();
      }
      r := CharCheck(node);
    }

    /** `parse_num_head`; the source unwraps the peeked token. */
    method ParseNumHead() returns (r: Result<Option<Node>, ParseError>)
      requires pos < |tokens|
      modifies this`pos
      ensures Parsed(r, pos) == NumHead(tokens, old(pos), expr)
      decreases Rem(tokens, pos), 2
    {
      var first := Peek().value;
      if !first.Data? {
        return Err(Code(102));
      }
      if first.n.IntValue().None? {
        return Err(At(FloatIndex, expr));
      }
      var head := ParseNum(Data(first.n));
      if head.Err? {
        return Err(head.error);
      }
      Advance();
      r := ParseHeadTail(head.value.value);
    }

    /** The rest of `parse_num_head`, the cursor at the token after the heading number. */
    method ParseHeadTail(index: Node) returns (r: Result<Option<Node>, ParseError>)
      requires NumShape(index)
      modifies this`pos
      ensures Parsed(r, pos) == HeadTail(tokens, old(pos), index, expr)
      decreases Rem(tokens, pos), 2
    {
      var next := Peek();
      if next.None? {
        return Err(At(LoneNumber, expr));
      }
      var t := next.value;
      if t == NewLine {
        Advance();
        r := Ok(None);
      } else if t == Keyword(Types.Keyword.In) {
        Advance();
        var v := Peek();
        if v.Some? {
          var value := ParseNum(v.value);
          r := match value
            case Ok(Some(x)) => Ok(Some(Assign(index, x)))
            case Ok(None) => Err(At(AssignNothing, expr))
            case Err(e) => Err(e);
        } else {
          r := Err(At(AssignNothing, expr));
        }
      } else if t == Keyword(Types.Keyword.Out) {
        var o := ParseOut();
        r := match o
          case Ok(Some(m)) => Ok(Some(Out(m)))
          case Ok(None) => Err(At(OutOfNothing, expr))
          case Err(e) => Err(e);
      } else if t.Data? {
        Advance();
        r := Err(At(NotAfterHead(t), expr));
      } else {
        r := Err(At(NotAfterHead(t), expr));
      }
      Advance();
    }

    /** `parse_think` (`kind == ThinkStmt`) and `parse_print` (`kind == PrintStmt`). */
    method ParseOperand(kind: OperandKind) returns (r: Result<Option<Node>, ParseError>)
      modifies this`pos
      ensures Parsed(r, pos) == Operand(tokens, old(pos), kind, expr)
      decreases Rem(tokens, pos), 2
    {
      Advance();
      var t := Peek();
      if t == Some(NewLine) {
        Advance();
        r := Ok(None);
      } else if t.Some? && (t.value.Data? || t.value == Keyword(Types.Keyword.Out)) {
        var v := ParseNum(t.value);
        if v.Err? {
          return Err(v.error);
        }
        r := Ok(Some(Wrap(kind, v.value.value)));
      } else if t.Some? {
        r := Err(At(NonDataOperand(kind), expr));
      } else {
        r := Err(At(MissingOperand(kind), expr));
      }
      Advance();
    }

    /** `parse_run` (`kind == RunCall`) and `parse_spawn` (`kind == SpawnCall`). */
    method ParseCall(kind: CallKind) returns (r: Result<Option<Node>, ParseError>)
      modifies this`pos
      ensures Parsed(r, pos) == MacroCall(tokens, old(pos), kind, expr)
    {
      Advance();
      var t := Peek();
      if t == Some(NewLine) {
        Advance();
        r := Ok(None);
      } else if t.Some? && t.value.RTKeyword? {
        r := Ok(Some(if kind == RunCall then Run(t.value.name) else Spawn(t.value.name)));
      } else if t.Some? && t.value.Keyword? {
        r := Err(At(ReservedMacroName, expr));
      } else if t.Some? && t.value.Data? {
        r := Err(At(DataAsMacro, expr));
      } else {
        r := Err(At(MissingMacro, expr));
      }
      Advance();
    }

    /**
     * The body loop of `parse_if` and `parse_loop`, the cursor just after
     * the opening brace.
     */
    method ScanBlock(kind: BlockKind) returns (r: Result<seq<Node>, ParseError>)
      modifies this`pos
      ensures Parsed(r, pos) == Scan(tokens, old(pos), 1, [], kind, expr)
      decreases Rem(tokens, pos), 4, 1
    {
      var count: nat := 1;
      var body: seq<Node> := [];
      while Peek().Some?
        invariant count >= 1 && pos >= old(pos)
        invariant Scan(tokens, pos, count, body, kind, expr) == Scan(tokens, old(pos), 1, [], kind, expr)
        decreases Rem(tokens, pos), count
      {
        var t := Peek().value;
        if t == OpenBrace {
          count := count + 1;
          Advance();
        } else if t == CloseBrace {
          count := count - 1;
          if count == 0 {
            Advance();
            return Ok(body);
          }
        } else if t == NewLine && kind == IfBlock {
          Advance();
        } else {
          var stop;
          stop, body := ScanStatement(count, body, kind);
          if stop.Some? {
            return stop.value;
          }
        }
      }
      return Err(At(MismatchedBraces(kind), expr));
    }

    /**
     * One statement inside a block: either the block fails here (`stop`) or
     * the statement is kept and the cursor has moved past it.
     */
    method ScanStatement(count: nat, body: seq<Node>, kind: BlockKind) returns (stop: Option<Result<seq<Node>, ParseError>>, body': seq<Node>)
      requires count >= 1
      requires PeekAt(tokens, pos).Some?
      requires PeekAt(tokens, pos) != Some(OpenBrace) && PeekAt(tokens, pos) != Some(CloseBrace)
      requires !(PeekAt(tokens, pos) == Some(NewLine) && kind == IfBlock)
      modifies this`pos
      ensures stop.Some? ==> Parsed(stop.value, pos) == Scan(tokens, old(pos), count, body, kind, expr)
      ensures stop.None? ==> pos > old(pos) && Scan(tokens, pos, count, body', kind, expr) == Scan(tokens, old(pos), count, body, kind, expr)
      decreases Rem(tokens, pos), 4, 0
    {
      var start := pos;
      var e := ParseExpression();
      if e.Err? {
        return Some(Err(e.error)), body;
      }
      if pos <= start {
        return Some(Err(At(Diverges, expr))), body;
      }
      return None, body + Kept(e.value);
    }

    method ParseIf() returns (r: Result<Option<Node>, ParseError>)
      modifies this`pos
      ensures Parsed(r, pos) == ParseSpec.ParseIf(tokens, old(pos), expr)
      decreases Rem(tokens, pos), 2
    {
      Advance();
      var c := Peek();
      if c.None? {
        Undo();
        return Err(At(MissingCondition, expr));
      }
      if !c.value.Data? {
        return Err(At(CompareNonData, expr));
      }
      // `parse_num` always yields a node: `err_code(101)` is never returned.
      var cond := ParseNum(c.value);
      if cond.Err? {
        return Err(cond.error);
      }
      Advance();
      if Peek() != Some(OpenBrace) {
        return Err(At(ExpectedOpenBrace(IfBlock), expr));
      }
      Advance();
      var body := ScanBlock(IfBlock);
      if body.Err? {
        return Err(body.error);
      }
      return Ok(Some(If(cond.value.value, body.value)));
    }

    method ParseLoop() returns (r: Result<Option<Node>, ParseError>)
      modifies this`pos
      ensures Parsed(r, pos) == ParseSpec.ParseLoop(tokens, old(pos), expr)
      decreases Rem(tokens, pos), 2
    {
      Advance();
      if Peek() != Some(OpenBrace) {
        return Err(At(ExpectedOpenBrace(LoopBlock), expr));
      }
      Advance();
      var body := ScanBlock(LoopBlock);
      if body.Err? {
        return Err(body.error);
      }
      return Ok(Some(Loop(body.value)));
    }

    method ParseExpression() returns (r: Result<Option<ExprType>, ParseError>)
      modifies this`pos
      ensures Parsed(r, pos) == Expression(tokens, old(pos), expr)
      decreases Rem(tokens, pos), 3
    {
      SkipNewlines();
      var t := Peek();
      if t.None? {
        return Ok(None);
      }
      match t.value {
        case Keyword(k) =>
          match k {
            case Think =>
              var n :- ParseOperand(ThinkStmt);
              r := Ok(Some(Stmt(n)));
            case In =>
              r := Err(At(InWithoutIndex, expr));
            case Out =>
              var n :- ParseOut();
              r := Ok(Some(Stmt(n)));
            case Print =>
              var n :- ParseOperand(PrintStmt);
              r := Ok(Some(Stmt(n)));
            case If =>
              var n :- ParseIf();
              r := Ok(Some(Stmt(n)));
            case Loop =>
              var n :- ParseLoop();
              r := Ok(Some(Stmt(n)));
            case Run =>
              var n :- ParseCall(RunCall);
              r := Ok(Some(Stmt(n)));
            case Define =>
              r := Err(At(DefineUnsupported, expr));
            case Break =>
              Advance();
              r := Ok(Some(Stmt(Some(Break))));
            case Spawn =>
              var n :- ParseCall(SpawnCall);
              r := Ok(Some(Stmt(n)));
            case _ =>
              r := Err(At(KeywordNotRecognized, expr));
          }
        case Data(_) =>
          var n :- ParseNumHead();
          r := Ok(Some(Stmt(n)));
        case OpToken(o) =>
          r := Err(At(UnexpectedOperator(o), expr));
        case _ =>
          r := Ok(None);
      }
    }

    /** The loop of `parse`: units until there is none, counted in `expr`. */
    method ParseUnits() returns (r: Result<Units, ParseError>)
      modifies this`pos, this`expr
      ensures Progress(r, pos, expr) == ParseSpec.ParseUnits(tokens, old(pos), old(expr), Units([], []))
    {
      var nodes: seq<Node> := [];
      var macros: seq<(string, seq<Node>)> := [];
      while true
        invariant ParseSpec.ParseUnits(tokens, pos, expr, Units(nodes, macros))
               == ParseSpec.ParseUnits(tokens, old(pos), old(expr), Units([], []))
        decreases Rem(tokens, pos)
      {
        ghost var before := pos;
        var e := ParseExpression();
        assert ParseSpec.ParseUnits(tokens, before, expr, Units(nodes, macros))
            == match e
               case Err(err) => Progress(Err(err), pos, expr)
               case Ok(None) => Progress(Ok(Units(nodes, macros)), pos, expr)
               case Ok(Some(x)) =>
                 ParseSpec.ParseUnits(tokens, pos, expr + 1, Units(nodes + Kept(Some(x)), macros + Defined(Some(x))));
        if e.Err? {
          return Err(e.error);
        }
        if e.value.None? {
          return Ok(Units(nodes, macros));
        }
        nodes := nodes + Kept(e.value);
        macros := macros + Defined(e.value);
        expr := expr + 1;
      }
    }

    /** `parse`: the statements and the macro table collected. */
    method Parse() returns (r: Result<ParserResult, ParseError>)
      modifies this`pos, this`expr
      ensures r == ParseSpec.Parse(tokens, old(pos), old(expr))
      ensures var u := ParseSpec.ParseUnits(tokens, old(pos), old(expr), Units([], []));
              pos == u.pos && expr == u.expr
    {
      var units :- ParseUnits();
      var table := BuildMacroMap(units.defs);
      return Ok(ParserResult(units.nodes, table));
    }
  }

  /** The `HashMap` that `parse` fills from the definitions, in order; `None` if empty. */
  method BuildMacroMap(defs: seq<(string, seq<Node>)>) returns (m: Option<map<string, seq<Node>>>)
    ensures m == MacroTable(defs)
  {
    var table: map<string, seq<Node>> := map[];
    for i := 0 to |defs|
      invariant table == InsertAll(defs[..i])
    {
      assert defs[..i + 1][..i] == defs[..i];
      table := table[defs[i].0 := defs[i].1];
    }
    assert defs[..|defs|] == defs;
    if table == map[] {
      return None;
    }
    return Some(table);
  }
}
