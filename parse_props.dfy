/** Properties of the parser specification in parse_spec.dfy. */
module ParseProperties {
  import opened Results
  import opened Tokens
  import opened Ast
  import opened ParseSpec
  import Types

  /**
   * A `}` ends the block body however many braces are open: the body loop
   * re-reads it, one brace fewer each time, until the count reaches zero.
   */
  lemma {:induction false} CloseBraceEndsBlock(toks: seq<Token>, p: nat, count: nat, body: seq<Node>, kind: BlockKind, expr: nat)
    requires count >= 1
    requires p < |toks| && toks[p] == CloseBrace
    ensures Scan(toks, p, count, body, kind, expr) == Parsed(Ok(body), p + 1)
    decreases count
  {
    if count > 1 {
      CloseBraceEndsBlock(toks, p, count - 1, body, kind, expr);
    }
  }

  /** So a bare `{ }` pair inside a loop body closes the loop itself. */
  lemma InnerBracesCloseLoop(x: Types.Number, expr: nat)
    ensures var toks := [Keyword(Types.Keyword.Loop), OpenBrace, OpenBrace, CloseBrace, Keyword(Types.Keyword.Print), Data(x), CloseBrace];
            ParseLoop(toks, 0, expr) == Parsed(Ok(Some(Loop([]))), 4)
  {
    var toks := [Keyword(Types.Keyword.Loop), OpenBrace, OpenBrace, CloseBrace, Keyword(Types.Keyword.Print), Data(x), CloseBrace];
    CloseBraceEndsBlock(toks, 3, 2, [], LoopBlock, expr);
    assert Scan(toks, 2, 1, [], LoopBlock, expr) == Scan(toks, 3, 2, [], LoopBlock, expr);
  }

  /** The macro map holds exactly the defined names. */
  lemma {:induction false} MacroNames(defs: seq<(string, seq<Node>)>)
    ensures InsertAll(defs).Keys == set i | 0 <= i < |defs| :: defs[i].0
  {
    if defs != [] {
      var init := defs[..|defs| - 1];
      MacroNames(init);
      assert forall i :: 0 <= i < |init| ==> init[i] == defs[i];
    }
  }

  /** A name defined more than once maps to its last definition. */
  lemma {:induction false} LastDefinitionWins(defs: seq<(string, seq<Node>)>, j: nat)
    requires j < |defs|
    requires forall k :: j < k < |defs| ==> defs[k].0 != defs[j].0
    ensures defs[j].0 in InsertAll(defs) && InsertAll(defs)[defs[j].0] == defs[j].1
  {
    if j < |defs| - 1 {
      var init := defs[..|defs| - 1];
      LastDefinitionWins(init, j);
    }
  }

  /** `macros` is `None` exactly when there is no definition. */
  lemma MacroTableNoneIffNoDefinitions(defs: seq<(string, seq<Node>)>)
    ensures MacroTable(defs).None? <==> defs == []
  {
    if defs != [] {
      LastDefinitionWins(defs, |defs| - 1);
    }
  }

  /** `a o1 b o2 c` groups to the right: `a o1 (b o2 c)`. */
  lemma ArithmeticNestsRight(a: Types.Number, o1: Types.Operator, b: Types.Number, o2: Types.Operator, c: Types.Number, expr: nat)
    ensures var toks := [Data(a), OpToken(o1), Data(b), OpToken(o2), Data(c)];
            Num(toks, 0, Data(a), expr) == Parsed(Ok(Some(Eval(Literal(a), o1, Eval(Literal(b), o2, Literal(c))))), 4)
  {
    var toks := [Data(a), OpToken(o1), Data(b), OpToken(o2), Data(c)];
    assert Num(toks, 4, Data(c), expr) == Parsed(Ok(Some(Literal(c))), 4);
    assert Num(toks, 2, Data(b), expr) == Parsed(Ok(Some(Eval(Literal(b), o2, Literal(c)))), 4);
  }

  /** `i in v` assigns the value `v` to the index `i`. */
  lemma AssignmentStatement(i: int, v: Types.Number, expr: nat)
    ensures var toks := [Data(Types.Int(i)), Keyword(Types.Keyword.In), Data(v)];
            Expression(toks, 0, expr) == Parsed(Ok(Some(Stmt(Some(Assign(Literal(Types.Int(i)), Literal(v)))))), 3)
  {
    var toks := [Data(Types.Int(i)), Keyword(Types.Keyword.In), Data(v)];
    assert Num(toks, 0, Data(Types.Int(i)), expr) == Parsed(Ok(Some(Literal(Types.Int(i)))), 0);
    assert Num(toks, 2, Data(v), expr) == Parsed(Ok(Some(Literal(v))), 2);
  }

  /**
   * A number alone on its line is no statement, and the parser moves past
   * the newline and also past the token that follows it.
   */
  lemma BareIndexSkipsNextToken(i: int, t: Token, rest: seq<Token>, expr: nat)
    ensures var toks := [Data(Types.Int(i)), NewLine, t] + rest;
            Expression(toks, 0, expr) == Parsed(Ok(Some(Stmt(None))), 3)
  {
    var toks := [Data(Types.Int(i)), NewLine, t] + rest;
    assert Num(toks, 0, Data(Types.Int(i)), expr) == Parsed(Ok(Some(Literal(Types.Int(i)))), 0);
  }

  /** After a heading number, `out j` reads index `j`; the heading number is dropped. */
  lemma HeadOutDropsHead(i: int, j: int, expr: nat)
    ensures var toks := [Data(Types.Int(i)), Keyword(Types.Keyword.Out), Data(Types.Int(j))];
            Expression(toks, 0, expr) == Parsed(Ok(Some(Stmt(Some(Out(Out(Literal(Types.Int(j)))))))), 3)
  {
    var toks := [Data(Types.Int(i)), Keyword(Types.Keyword.Out), Data(Types.Int(j))];
    assert Num(toks, 0, Data(Types.Int(i)), expr) == Parsed(Ok(Some(Literal(Types.Int(i)))), 0);
  }

  /** Only an integer can start a statement: a float or `thought` is no stack index. */
  lemma FloatHeadRejected(n: Types.Number, rest: seq<Token>, expr: nat)
    requires !n.Int?
    ensures Expression([Data(n)] + rest, 0, expr).result == Err(At(FloatIndex, expr))
  {
  }

  /** `if 3 { print 1 }` over several lines. */
  lemma IfBlockStatement(expr: nat)
    ensures var toks := [Keyword(Types.Keyword.If), Data(Types.Int(3)), OpenBrace, NewLine,
                         Keyword(Types.Keyword.Print), Data(Types.Int(1)), NewLine, CloseBrace];
            ParseIf(toks, 0, expr) == Parsed(Ok(Some(If(Literal(Types.Int(3)), [Print(Literal(Types.Int(1)))]))), 8)
  {
    var toks := [Keyword(Types.Keyword.If), Data(Types.Int(3)), OpenBrace, NewLine,
                 Keyword(Types.Keyword.Print), Data(Types.Int(1)), NewLine, CloseBrace];
    assert PeekAt(toks, 1) == Some(Data(Types.Int(3))) && PeekAt(toks, 2) == Some(OpenBrace);
    assert Num(toks, 1, Data(Types.Int(3)), expr) == Parsed(Ok(Some(Literal(Types.Int(3)))), 1);
    IfBlockBody(toks, expr);
  }

  /** The block of `if 3 { print 1 }`: blank lines are skipped inside an `if` block. */
  lemma IfBlockBody(toks: seq<Token>, expr: nat)
    requires toks == [Keyword(Types.Keyword.If), Data(Types.Int(3)), OpenBrace, NewLine,
                      Keyword(Types.Keyword.Print), Data(Types.Int(1)), NewLine, CloseBrace]
    ensures Scan(toks, 3, 1, [], IfBlock, expr) == Parsed(Ok([Print(Literal(Types.Int(1)))]), 8)
  {
    assert Num(toks, 5, Data(Types.Int(1)), expr) == Parsed(Ok(Some(Literal(Types.Int(1)))), 5);
    assert Expression(toks, 4, expr) == Parsed(Ok(Some(Stmt(Some(Print(Literal(Types.Int(1))))))), 6);
    assert Scan(toks, 6, 1, [Print(Literal(Types.Int(1)))], IfBlock, expr) == Parsed(Ok([Print(Literal(Types.Int(1)))]), 8);
    var empty: seq<Node> := [];
    assert empty + Kept(Some(Stmt(Some(Print(Literal(Types.Int(1))))))) == [Print(Literal(Types.Int(1)))];
    assert Scan(toks, 4, 1, [], IfBlock, expr) == Scan(toks, 6, 1, [Print(Literal(Types.Int(1)))], IfBlock, expr);
  }

  /** A macro name where a loop body expects a statement: the source spins; here an error. */
  lemma NameInLoopBodyDiverges(name: string, expr: nat)
    ensures var toks := [Keyword(Types.Keyword.Loop), OpenBrace, RTKeyword(name), CloseBrace];
            ParseLoop(toks, 0, expr).result == Err(At(Diverges, expr))
  {
    var toks := [Keyword(Types.Keyword.Loop), OpenBrace, RTKeyword(name), CloseBrace];
    assert Expression(toks, 2, expr) == Parsed(Ok(None), 2);
    assert Scan(toks, 2, 1, [], LoopBlock, expr).result == Err(At(Diverges, expr));
  }

  /** Only keywords that start statements are accepted at statement position. */
  lemma KeywordsThatStartNoStatement(k: Types.Keyword, rest: seq<Token>, expr: nat)
    requires k == Types.Keyword.Char || k == Types.Keyword.Thought || k == Types.Keyword.In
    ensures Expression([Keyword(k)] + rest, 0, expr).result.Err?
  {
  }

  /** `run name` is a call of the macro `name`; the cursor ends after the name. */
  lemma RunCallsByName(name: string, expr: nat)
    ensures var toks := [Keyword(Types.Keyword.Run), RTKeyword(name)];
            Expression(toks, 0, expr) == Parsed(Ok(Some(Stmt(Some(Run(name))))), 2)
  {
  }

  /** `think` of a number followed by a newline sets the thought to that literal. */
  lemma ThinkStatement(x: Types.Number, expr: nat)
    ensures var toks := [Keyword(Types.Keyword.Think), Data(x), NewLine];
            Expression(toks, 0, expr).result == Ok(Some(Stmt(Some(Think(Literal(x))))))
  {
  }

  /** A brace or a macro name where a statement should start means there is no statement. */
  lemma HeadsThatEndParsing(t: Token, rest: seq<Token>, expr: nat)
    requires t.OpenBrace? || t.CloseBrace? || t.RTKeyword?
    ensures Expression([t] + rest, 0, expr) == Parsed(Ok(None), 0)
  {
  }

  /** An operator where a statement should start is an error. */
  lemma OperatorHeadRejected(o: Types.Operator, rest: seq<Token>, expr: nat)
    ensures Expression([OpToken(o)] + rest, 0, expr).result == Err(At(UnexpectedOperator(o), expr))
  {
  }

  /** A stray `}` at top level silently ends the program: nothing after it is parsed. */
  lemma {:induction false} StrayBraceEndsProgram(rest: seq<Token>, expr: nat)
    ensures Parse([CloseBrace] + rest, 0, expr) == Ok(ParserResult([], None))
  {
    HeadsThatEndParsing(CloseBrace, rest, expr);
  }

  /** `parse` counts one statement number per unit: two `break`s take numbers `expr` and `expr + 1`. */
  lemma CountsUnits(expr: nat)
    ensures var toks := [Keyword(Types.Keyword.Break), Keyword(Types.Keyword.Break)];
            ParseUnits(toks, 0, expr, Units([], [])) == Progress(Ok(Units([Break, Break], [])), 2, expr + 2)
  {
    var toks := [Keyword(Types.Keyword.Break), Keyword(Types.Keyword.Break)];
    assert Expression(toks, 0, expr) == Parsed(Ok(Some(Stmt(Some(Break)))), 1);
    assert Expression(toks, 1, expr + 1) == Parsed(Ok(Some(Stmt(Some(Break)))), 2);
    assert Expression(toks, 2, expr + 2) == Parsed(Ok(None), 2);
    var unit := Some(Stmt(Some(Break)));
    var none: seq<(string, seq<Node>)> := [];
    var empty: seq<Node> := [];
    assert Kept(unit) == [Break] && Defined(unit) == [];
    assert empty + Kept(unit) == [Break] && [Break] + Kept(unit) == [Break, Break] && none + Defined(unit) == [];
    assert ParseUnits(toks, 2, expr + 2, Units([Break, Break], [])) == Progress(Ok(Units([Break, Break], [])), 2, expr + 2);
    assert ParseUnits(toks, 1, expr + 1, Units([Break], [])) == ParseUnits(toks, 2, expr + 2, Units([Break, Break], []));
  }

  /**
   * `parse_out`: an integer index gives `out` of it, a newline gives no
   * statement, anything else (or nothing) is an error.
   */
  lemma ParseOutCases(toks: seq<Token>, p: nat, expr: nat)
    ensures var r := ParseOut(toks, p, expr);
            (r.result == Ok(None) <==> PeekAt(toks, p + 1) == Some(NewLine)) &&
            (r.result.Ok? && r.result.value.Some? <==> PeekAt(toks, p + 1).Some? && toks[p + 1].Data? && toks[p + 1].n.Int?) &&
            (r.result.Ok? && r.result.value.Some? ==> r.result.value.value == Out(Literal(toks[p + 1].n)))
  {
  }

  /** The primary of a number: a literal for data, `out` of the next integer, an error for anything else. */
  lemma NumPrimaryCases(toks: seq<Token>, p: nat, token: Token, expr: nat)
    ensures var r := NumPrimary(toks, p, token, expr);
            (token.Data? ==> r == Parsed(Ok(Literal(token.n)), p + 1)) &&
            (token == Keyword(Types.Keyword.Out) && r.result.Ok? ==>
               PeekAt(toks, p + 1).Some? && toks[p + 1].Data? && r.result.value == Out(Literal(toks[p + 1].n))) &&
            (!token.Data? && token != Keyword(Types.Keyword.Out) ==> r.result == Err(At(NonNumberToken, expr)))
  {
    ParseOutCases(toks, p, expr);
  }

  /** The `char` check wraps the node exactly when `char` follows, and steps onto a following `char` or newline only. */
  lemma CharSuffixCases(toks: seq<Token>, node: Node, p: nat)
    ensures var r := CharSuffix(toks, node, p);
            (PeekAt(toks, p + 1) == Some(Keyword(Types.Keyword.Char)) ==> r.result.value.value == Char(node)) &&
            (PeekAt(toks, p + 1) != Some(Keyword(Types.Keyword.Char)) ==> r.result.value.value == node) &&
            (r.pos == p + 1 <==> PeekAt(toks, p + 1) == Some(NewLine) || PeekAt(toks, p + 1) == Some(Keyword(Types.Keyword.Char)))
  {
  }

  /**
   * After a heading index only a newline, `in` or `out` can succeed: a
   * newline gives no statement, `in` an assignment to the index, `out` an
   * `out` of an `out`. End of input and a number are their own errors.
   */
  lemma HeadTailCases(toks: seq<Token>, p1: nat, index: Node, expr: nat)
    requires NumShape(index)
    ensures var r := HeadTail(toks, p1, index, expr);
            (r.result.Ok? ==> PeekAt(toks, p1) in {Some(NewLine), Some(Keyword(Types.Keyword.In)), Some(Keyword(Types.Keyword.Out))}) &&
            (PeekAt(toks, p1).None? ==> r.result == Err(At(LoneNumber, expr))) &&
            (PeekAt(toks, p1).Some? && toks[p1].Data? ==> r.result == Err(At(NotAfterHead(toks[p1]), expr))) &&
            (PeekAt(toks, p1) == Some(NewLine) ==> r == Parsed(Ok(None), p1 + 2)) &&
            (r.result.Ok? && r.result.value.Some? && PeekAt(toks, p1) == Some(Keyword(Types.Keyword.In)) ==>
               r.result.value.value.Assign? && r.result.value.value.index == index) &&
            (r.result.Ok? && PeekAt(toks, p1) == Some(Keyword(Types.Keyword.Out)) ==>
               r.result.value.Some? && r.result.value.value.Out? && r.result.value.value.e.Out?)
  {
  }

  /**
   * `parse_think` yields `Think` and `parse_print` yields `Print`; a newline
   * gives no statement; no operand, or one that is not data, is an error.
   */
  lemma OperandCases(toks: seq<Token>, q: nat, kind: OperandKind, expr: nat)
    ensures var r := Operand(toks, q, kind, expr);
            (r.result == Ok(None) <==> PeekAt(toks, q + 1) == Some(NewLine)) &&
            (r.result.Ok? && r.result.value.Some? ==>
               (r.result.value.value.Think? || r.result.value.value.Print?) && r.result.value.value == Wrap(kind, r.result.value.value.e)) &&
            (PeekAt(toks, q + 1).None? ==> r.result == Err(At(MissingOperand(kind), expr))) &&
            (PeekAt(toks, q + 1).Some? && toks[q + 1] != NewLine && !toks[q + 1].Data? && toks[q + 1] != Keyword(Types.Keyword.Out) ==>
               r.result == Err(At(NonDataOperand(kind), expr)))
  {
  }

  /** `run`/`spawn` call the name that follows; a newline gives no statement; anything else is an error. */
  lemma MacroCallCases(toks: seq<Token>, q: nat, kind: CallKind, expr: nat)
    ensures var r := MacroCall(toks, q, kind, expr);
            (r.result == Ok(None) <==> PeekAt(toks, q + 1) == Some(NewLine)) &&
            (r.result.Ok? && r.result.value.Some? <==> PeekAt(toks, q + 1).Some? && toks[q + 1].RTKeyword?) &&
            (r.result.Ok? && r.result.value.Some? ==>
               r.result.value.value == (if kind == RunCall then Run(toks[q + 1].name) else Spawn(toks[q + 1].name)))
  {
  }

  /** `parse_if` succeeds only with an `If`, and `parse_loop` only with a `Loop`; `loop` without `{` is an error. */
  lemma BlockStatementCases(toks: seq<Token>, q: nat, expr: nat)
    ensures ParseIf(toks, q, expr).result.Ok? ==> ParseIf(toks, q, expr).result.value.Some? && ParseIf(toks, q, expr).result.value.value.If?
    ensures ParseLoop(toks, q, expr).result.Ok? ==> ParseLoop(toks, q, expr).result.value.Some? && ParseLoop(toks, q, expr).result.value.value.Loop?
    ensures PeekAt(toks, q + 1) != Some(OpenBrace) ==> ParseLoop(toks, q, expr) == Parsed(Err(At(ExpectedOpenBrace(LoopBlock), expr)), q + 1)
  {
  }

  /** A chain of literals joined by operators: what `parse_num` reads when no `out` or `char` occurs. */
  predicate LiteralChain(n: Node)
    decreases n
  {
    n.Literal? || (n.Eval? && n.left.Literal? && LiteralChain(n.right))
  }

  /** The tokens a literal chain is written as. */
  function ChainTokens(n: Node): (ts: seq<Token>)
    requires LiteralChain(n)
    ensures |ts| >= 1 && ts[0].Data?
    decreases n
  {
    if n.Literal? then [Data(n.n)]
    else [Data(n.left.n), OpToken(n.op)] + ChainTokens(n.right)
  }

  /** The chain `n` is written at `p`, one literal and operator at a time. */
  predicate ChainAt(toks: seq<Token>, p: nat, n: Node)
    requires LiteralChain(n)
    ensures ChainAt(toks, p, n) ==> p + |ChainTokens(n)| <= |toks|
    decreases n
  {
    p < |toks| &&
    if n.Literal? then toks[p] == Data(n.n)
    else p + 1 < |toks| && toks[p] == Data(n.left.n) && toks[p + 1] == OpToken(n.op) && ChainAt(toks, p + 2, n.right)
  }

  /** `ChainAt` says exactly that the tokens from `p` on are `ChainTokens(n)`. */
  lemma {:induction false} ChainAtIsSlice(toks: seq<Token>, p: nat, n: Node)
    requires LiteralChain(n)
    ensures ChainAt(toks, p, n) <==> p + |ChainTokens(n)| <= |toks| && toks[p..p + |ChainTokens(n)|] == ChainTokens(n)
    decreases n
  {
    var ts := ChainTokens(n);
    if n.Eval? {
      var rs := ChainTokens(n.right);
      ChainAtIsSlice(toks, p + 2, n.right);
      assert ts == [Data(n.left.n), OpToken(n.op)] + rs;
      if p + |ts| <= |toks| && toks[p..p + |ts|] == ts {
        assert toks[p] == ts[0] && toks[p + 1] == ts[1];
        assert toks[p + 2..p + 2 + |rs|] == ts[2..];
      }
      if ChainAt(toks, p, n) {
        assert toks[p..p + |ts|] == [toks[p], toks[p + 1]] + toks[p + 2..p + 2 + |rs|];
      }
    }
  }

  /** A cursor where a number expression ends: no newline, operator or `char` follows it. */
  predicate EndsNumber(toks: seq<Token>, q: nat) {
    match PeekAt(toks, q)
    case None => true
    case Some(t) => !t.NewLine? && !t.OpToken? && t != Keyword(Types.Keyword.Char)
  }

  /** A literal that ends the expression is read as that literal, the cursor left on it. */
  lemma NumLiteralStep(toks: seq<Token>, p: nat, x: Types.Number, expr: nat)
    requires p < |toks| && toks[p] == Data(x) && EndsNumber(toks, p + 1)
    ensures Num(toks, p, Data(x), expr) == Parsed(Ok(Some(Literal(x))), p)
  {
    assert NumPrimary(toks, p, Data(x), expr) == Parsed(Ok(Literal(x)), p + 1);
    assert CharSuffix(toks, Literal(x), p) == Parsed(Ok(Some(Literal(x))), p);
  }

  /** A literal, an operator and an expression `r` ending the whole expression read as `x o r`. */
  lemma NumOperatorStep(toks: seq<Token>, p: nat, x: Types.Number, o: Types.Operator, r: Node, e: nat, expr: nat)
    requires p + 2 < |toks| && toks[p] == Data(x) && toks[p + 1] == OpToken(o) && toks[p + 2].Data?
    requires Num(toks, p + 2, toks[p + 2], expr) == Parsed(Ok(Some(r)), e)
    requires EndsNumber(toks, e + 1)
    ensures Num(toks, p, Data(x), expr) == Parsed(Ok(Some(Eval(Literal(x), o, r))), e)
  {
    assert NumPrimary(toks, p, Data(x), expr) == Parsed(Ok(Literal(x)), p + 1);
    assert PeekAt(toks, p + 1) == Some(OpToken(o)) && PeekAt(toks, p + 2) == Some(toks[p + 2]);
    assert CharSuffix(toks, Eval(Literal(x), o, r), e) == Parsed(Ok(Some(Eval(Literal(x), o, r))), e);
  }

  /**
   * `parse_num` reads every literal chain back from its tokens, nesting to
   * the right, and leaves the cursor on the chain's last token.
   */
  lemma {:induction false} NumReadsChain(toks: seq<Token>, p: nat, n: Node, expr: nat)
    requires LiteralChain(n) && ChainAt(toks, p, n)
    requires EndsNumber(toks, p + |ChainTokens(n)|)
    ensures Num(toks, p, toks[p], expr) == Parsed(Ok(Some(n)), p + |ChainTokens(n)| - 1)
    decreases n
  {
    if n.Literal? {
      assert ChainTokens(n) == [Data(n.n)];
      assert toks[p] == ChainTokens(n)[0];
      NumLiteralStep(toks, p, n.n, expr);
    } else {
      ChainSplit(toks, p, n);
      NumReadsChain(toks, p + 2, n.right, expr);
      NumOperatorStep(toks, p, n.left.n, n.op, n.right, p + |ChainTokens(n)| - 1, expr);
    }
  }

  /** The tokens of `x o r` are `x`, `o` and then the tokens of `r`. */
  lemma ChainSplit(toks: seq<Token>, p: nat, n: Node)
    requires LiteralChain(n) && n.Eval? && ChainAt(toks, p, n)
    ensures |ChainTokens(n)| == |ChainTokens(n.right)| + 2
    ensures toks[p] == Data(n.left.n) && toks[p + 1] == OpToken(n.op)
    ensures ChainAt(toks, p + 2, n.right) && toks[p + 2] == ChainTokens(n.right)[0]
  {
    ChainStart(toks, p + 2, n.right);
  }

  /** `think` and `print` of a literal chain keep exactly that chain, and step past its last token. */
  lemma OperandReadsChain(toks: seq<Token>, q: nat, kind: OperandKind, n: Node, expr: nat)
    requires LiteralChain(n) && ChainAt(toks, q + 1, n)
    requires EndsNumber(toks, q + 1 + |ChainTokens(n)|)
    ensures Operand(toks, q, kind, expr) == Parsed(Ok(Some(Wrap(kind, n))), q + 1 + |ChainTokens(n)|)
  {
    NumReadsChain(toks, q + 1, n, expr);
    assert toks[q + 1] == ChainTokens(n)[0];
  }

  /** At statement position, `think c` and `print c` parse to `Think(c)` and `Print(c)` for any literal chain `c`. */
  lemma StatementReadsChain(toks: seq<Token>, q: nat, kind: OperandKind, n: Node, expr: nat)
    requires q < |toks| && toks[q] == Keyword(if kind == ThinkStmt then Types.Keyword.Think else Types.Keyword.Print)
    requires LiteralChain(n) && ChainAt(toks, q + 1, n)
    requires EndsNumber(toks, q + 1 + |ChainTokens(n)|)
    ensures Expression(toks, q, expr) == Parsed(Ok(Some(Stmt(Some(Wrap(kind, n))))), q + 1 + |ChainTokens(n)|)
  {
    OperandReadsChain(toks, q, kind, n, expr);
    assert SkipNewLines(toks, q) == q;
  }

  /** `i in v`, for literal chains `i` (starting with an integer) and `v`, assigns `v` to index `i`. */
  lemma AssignReadsChains(toks: seq<Token>, q: nat, i: Node, v: Node, expr: nat)
    requires LiteralChain(i) && ChainTokens(i)[0].n.Int? && ChainAt(toks, q, i)
    requires q + |ChainTokens(i)| < |toks| && toks[q + |ChainTokens(i)|] == Keyword(Types.Keyword.In)
    requires LiteralChain(v) && ChainAt(toks, q + |ChainTokens(i)| + 1, v)
    requires EndsNumber(toks, q + |ChainTokens(i)| + 1 + |ChainTokens(v)|)
    ensures Expression(toks, q, expr) == Parsed(Ok(Some(Stmt(Some(Assign(i, v))))), q + |ChainTokens(i)| + |ChainTokens(v)| + 1)
  {
    var m := |ChainTokens(i)|;
    var end := q + m + |ChainTokens(v)| + 1;
    IndexChainBeforeIn(toks, q, i, expr);
    ValueChainAfterIn(toks, q + m, i, v, expr);
    AssignAt(toks, q, i, v, q + m - 1, end, expr);
  }

  /** A heading integer index whose tail is `in v` makes the statement that assigns `v` to it. */
  lemma AssignAt(toks: seq<Token>, q: nat, i: Node, v: Node, e1: nat, end: nat, expr: nat)
    requires q < |toks| && toks[q].Data? && toks[q].n.Int?
    requires Num(toks, q, toks[q], expr) == Parsed(Ok(Some(i)), e1)
    requires NumShape(i) && HeadTail(toks, e1 + 1, i, expr) == Parsed(Ok(Some(Assign(i, v))), end)
    ensures Expression(toks, q, expr) == Parsed(Ok(Some(Stmt(Some(Assign(i, v))))), end)
  {
    AssignStatement(toks, q, i, e1, Parsed(Ok(Some(Assign(i, v))), end), expr);
  }

  /** `in` and a literal chain after a heading index assign that chain to the index. */
  lemma ValueChainAfterIn(toks: seq<Token>, p1: nat, i: Node, v: Node, expr: nat)
    requires NumShape(i) && p1 < |toks| && toks[p1] == Keyword(Types.Keyword.In)
    requires LiteralChain(v) && ChainAt(toks, p1 + 1, v)
    requires EndsNumber(toks, p1 + 1 + |ChainTokens(v)|)
    ensures HeadTail(toks, p1, i, expr) == Parsed(Ok(Some(Assign(i, v))), p1 + |ChainTokens(v)| + 1)
  {
    ChainReadsAt(toks, p1 + 1, v, expr);
    HeadTailAssign(toks, p1, i, v, p1 + |ChainTokens(v)|, expr);
  }

  /** An index chain followed by `in` is read whole, the cursor left on its last token. */
  lemma IndexChainBeforeIn(toks: seq<Token>, q: nat, i: Node, expr: nat)
    requires LiteralChain(i) && ChainTokens(i)[0].n.Int? && ChainAt(toks, q, i)
    requires q + |ChainTokens(i)| < |toks| && toks[q + |ChainTokens(i)|] == Keyword(Types.Keyword.In)
    ensures toks[q].Data? && toks[q].n.Int?
    ensures Num(toks, q, toks[q], expr) == Parsed(Ok(Some(i)), q + |ChainTokens(i)| - 1)
  {
    assert PeekAt(toks, q + |ChainTokens(i)|) == Some(Keyword(Types.Keyword.In));
    ChainReadsAt(toks, q, i, expr);
  }

  /** A literal chain that the number ends after is read whole, starting at its first token. */
  lemma ChainReadsAt(toks: seq<Token>, p: nat, n: Node, expr: nat)
    requires LiteralChain(n) && ChainAt(toks, p, n)
    requires EndsNumber(toks, p + |ChainTokens(n)|)
    ensures p < |toks| && toks[p] == ChainTokens(n)[0] && toks[p].Data?
    ensures Num(toks, p, toks[p], expr) == Parsed(Ok(Some(n)), p + |ChainTokens(n)| - 1)
  {
    ChainStart(toks, p, n);
    NumReadsChain(toks, p, n, expr);
  }

  /** An integer heading index followed by a tail makes the statement that tail yields. */
  lemma AssignStatement(toks: seq<Token>, q: nat, i: Node, e1: nat, tail: Parsed<Option<Node>>, expr: nat)
    requires q < |toks| && toks[q].Data? && toks[q].n.Int?
    requires Num(toks, q, toks[q], expr) == Parsed(Ok(Some(i)), e1)
    requires NumShape(i) && HeadTail(toks, e1 + 1, i, expr) == tail
    ensures Expression(toks, q, expr) == Lift(tail)
  {
    NumHeadAtInt(toks, q, i, e1, expr);
    ExpressionAtData(toks, q, expr);
  }

  /** A statement that starts with a number is a heading-number statement. */
  lemma ExpressionAtData(toks: seq<Token>, q: nat, expr: nat)
    requires q < |toks| && toks[q].Data?
    ensures Expression(toks, q, expr) == Lift(NumHead(toks, q, expr))
  {
    assert SkipNewLines(toks, q) == q;
  }

  /** An integer heading expression is followed by the rest of the statement. */
  lemma NumHeadAtInt(toks: seq<Token>, q: nat, i: Node, e: nat, expr: nat)
    requires q < |toks| && toks[q].Data? && toks[q].n.Int?
    requires Num(toks, q, toks[q], expr) == Parsed(Ok(Some(i)), e)
    ensures NumShape(i) && NumHead(toks, q, expr) == HeadTail(toks, e + 1, i, expr)
  {
  }

  /** A chain starts with its first literal. */
  lemma ChainStart(toks: seq<Token>, p: nat, n: Node)
    requires LiteralChain(n) && ChainAt(toks, p, n)
    ensures p < |toks| && toks[p] == ChainTokens(n)[0] && toks[p].Data?
  {
  }

  /** After a heading index, `in` and a value expression assign that value to the index. */
  lemma HeadTailAssign(toks: seq<Token>, p1: nat, index: Node, v: Node, e: nat, expr: nat)
    requires NumShape(index)
    requires p1 + 1 < |toks| && toks[p1] == Keyword(Types.Keyword.In)
    requires Num(toks, p1 + 1, toks[p1 + 1], expr) == Parsed(Ok(Some(v)), e)
    ensures HeadTail(toks, p1, index, expr) == Parsed(Ok(Some(Assign(index, v))), e + 1)
  {
    assert PeekAt(toks, p1) == Some(Keyword(Types.Keyword.In)) && PeekAt(toks, p1 + 1) == Some(toks[p1 + 1]);
  }

  /** `if c {`, for a literal chain `c`, compares with `c` and takes the block that `Scan` reads as its body. */
  lemma IfReadsChain(toks: seq<Token>, q: nat, n: Node, expr: nat)
    requires LiteralChain(n) && ChainAt(toks, q + 1, n)
    requires PeekAt(toks, q + 1 + |ChainTokens(n)|) == Some(OpenBrace)
    ensures var b := Scan(toks, q + 2 + |ChainTokens(n)|, 1, [], IfBlock, expr);
            ParseIf(toks, q, expr) == (if b.result.Ok? then Parsed(Ok(Some(If(n, b.result.value))), b.pos) else Parsed(Err(b.result.error), b.pos))
  {
    assert EndsNumber(toks, q + 1 + |ChainTokens(n)|);
    ChainStart(toks, q + 1, n);
    NumReadsChain(toks, q + 1, n, expr);
    ParseIfStep(toks, q, n, q + |ChainTokens(n)|, expr);
  }

  /** A data condition followed by `{` is compared with, and the block scanned as the body. */
  lemma ParseIfStep(toks: seq<Token>, q: nat, n: Node, e: nat, expr: nat)
    requires q + 1 < |toks| && toks[q + 1].Data?
    requires Num(toks, q + 1, toks[q + 1], expr) == Parsed(Ok(Some(n)), e)
    requires PeekAt(toks, e + 1) == Some(OpenBrace)
    ensures var b := Scan(toks, e + 1 + 1, 1, [], IfBlock, expr);
            ParseIf(toks, q, expr) == (if b.result.Ok? then Parsed(Ok(Some(If(n, b.result.value))), b.pos) else Parsed(Err(b.result.error), b.pos))
  {
    assert PeekAt(toks, q + 1) == Some(toks[q + 1]);
    var b := Scan(toks, e + 1 + 1, 1, [], IfBlock, expr);
    if b.result.Ok? {
      assert ParseIf(toks, q, expr) == Parsed(Ok(Some(If(n, b.result.value))), b.pos);
    } else {
      assert ParseIf(toks, q, expr) == Parsed(Err(b.result.error), b.pos);
    }
  }

  /** `if` with nothing after it, or with a condition that is not data, is an error. */
  lemma IfConditionErrors(toks: seq<Token>, q: nat, expr: nat)
    ensures PeekAt(toks, q + 1).None? ==> ParseIf(toks, q, expr).result == Err(At(MissingCondition, expr))
    ensures PeekAt(toks, q + 1).Some? && !toks[q + 1].Data? ==> ParseIf(toks, q, expr).result == Err(At(CompareNonData, expr))
  {
  }

  /** `if c` not followed by `{` is the error "Expected opening brace". */
  lemma IfWithoutBrace(toks: seq<Token>, q: nat, n: Node, expr: nat)
    requires LiteralChain(n) && ChainAt(toks, q + 1, n)
    requires EndsNumber(toks, q + 1 + |ChainTokens(n)|) && PeekAt(toks, q + 1 + |ChainTokens(n)|) != Some(OpenBrace)
    ensures ParseIf(toks, q, expr) == Parsed(Err(At(ExpectedOpenBrace(IfBlock), expr)), q + 1 + |ChainTokens(n)|)
  {
    ChainReadsAt(toks, q + 1, n, expr);
    IfNoBraceStep(toks, q, n, q + |ChainTokens(n)|, expr);
  }

  /** A data condition not followed by `{` is the error "Expected opening brace", one token past the condition. */
  lemma IfNoBraceStep(toks: seq<Token>, q: nat, n: Node, e: nat, expr: nat)
    requires q + 1 < |toks| && toks[q + 1].Data?
    requires Num(toks, q + 1, toks[q + 1], expr) == Parsed(Ok(Some(n)), e)
    requires PeekAt(toks, e + 1) != Some(OpenBrace)
    ensures ParseIf(toks, q, expr) == Parsed(Err(At(ExpectedOpenBrace(IfBlock), expr)), e + 1)
  {
    assert PeekAt(toks, q + 1) == Some(toks[q + 1]);
  }

  /** `loop {` takes the block that `Scan` reads as its body, or fails with `Scan`'s error, at `Scan`'s cursor. */
  lemma LoopReadsBlock(toks: seq<Token>, q: nat, expr: nat)
    requires PeekAt(toks, q + 1) == Some(OpenBrace)
    ensures var b := Scan(toks, q + 2, 1, [], LoopBlock, expr);
            ParseLoop(toks, q, expr) == (if b.result.Ok? then Parsed(Ok(Some(Loop(b.result.value))), b.pos) else Parsed(Err(b.result.error), b.pos))
  {
  }

  /** A block whose tokens run out before its `}` is the error "Mismatched braces". */
  lemma {:induction false} UnclosedBlock(toks: seq<Token>, p: nat, count: nat, body: seq<Node>, kind: BlockKind, expr: nat)
    requires count >= 1
    requires forall i :: p <= i < |toks| ==> toks[i] == OpenBrace
    ensures Scan(toks, p, count, body, kind, expr).result == Err(At(MismatchedBraces(kind), expr))
    decreases Rem(toks, p)
  {
    if p < |toks| {
      UnclosedBlock(toks, p + 1, count + 1, body, kind, expr);
    }
  }

  /**
   * How a block scan fails without its `}`: the braces run out, the body
   * spins, or a body statement from `p` on fails with `err`.
   */
  predicate BlockFailure(toks: seq<Token>, p: nat, kind: BlockKind, expr: nat, err: ParseError) {
    err == At(MismatchedBraces(kind), expr) || err == At(Diverges, expr) ||
    exists k :: p <= k < |toks| && Expression(toks, k, expr).result == Err(err)
  }

  /**
   * A block with no `}` left never closes: it fails with "Mismatched braces",
   * with the spin, or with the error of one of its statements.
   */
  lemma {:induction false} NoCloseNoBlock(toks: seq<Token>, p: nat, count: nat, body: seq<Node>, kind: BlockKind, expr: nat)
    requires count >= 1
    requires forall i :: p <= i < |toks| ==> toks[i] != CloseBrace
    ensures var r := Scan(toks, p, count, body, kind, expr);
            r.result.Err? && BlockFailure(toks, p, kind, expr, r.result.error)
    decreases Rem(toks, p)
  {
    var r := Scan(toks, p, count, body, kind, expr);
    if p < |toks| {
      var t := toks[p];
      assert PeekAt(toks, p) == Some(t);
      if t == OpenBrace {
        assert r == Scan(toks, p + 1, count + 1, body, kind, expr);
        NoCloseNoBlock(toks, p + 1, count + 1, body, kind, expr);
        FailureFromLater(toks, p, p + 1, kind, expr, r.result.error);
      } else if t == NewLine && kind == IfBlock {
        assert r == Scan(toks, p + 1, count, body, kind, expr);
        NoCloseNoBlock(toks, p + 1, count, body, kind, expr);
        FailureFromLater(toks, p, p + 1, kind, expr, r.result.error);
      } else {
        var e := Expression(toks, p, expr);
        if e.result.Ok? && e.pos > p {
          assert r == Scan(toks, e.pos, count, body + Kept(e.result.value), kind, expr);
          NoCloseNoBlock(toks, e.pos, count, body + Kept(e.result.value), kind, expr);
          FailureFromLater(toks, p, e.pos, kind, expr, r.result.error);
        } else if e.result.Err? {
          assert r.result == Err(e.result.error);
          assert Expression(toks, p, expr).result == Err(r.result.error);
        }
      }
    }
  }

  /** A failure from a later cursor is a failure from an earlier one. */
  lemma FailureFromLater(toks: seq<Token>, p: nat, p': nat, kind: BlockKind, expr: nat, err: ParseError)
    requires p <= p' && BlockFailure(toks, p', kind, expr, err)
    ensures BlockFailure(toks, p, kind, expr, err)
  {
    if exists k :: p' <= k < |toks| && Expression(toks, k, expr).result == Err(err) {
      var k :| p' <= k < |toks| && Expression(toks, k, expr).result == Err(err);
      assert p <= k;
    }
  }

}
