/**
 * The recursive-descent parser of src/parse/ as functions of the token list
 * and the cursor. Each `parse_*` method of the source moves one shared cursor
 * (`pos`) and returns a result; here each is a function from the cursor it
 * starts at to a `Parsed` value that holds the result and the cursor it
 * leaves. The `Parser` class in parser.dfy runs the same steps on its `pos`
 * field and is proved to agree with these functions.
 *
 * An error returned through the source's `?` leaves the cursor where the
 * failing callee left it; the functions below return that cursor too.
 */
module ParseSpec {
  import opened Results
  import opened Tokens
  import opened Ast
  import Types

  datatype BlockKind = IfBlock | LoopBlock

  /** The statements that take one numeric operand: `think` and `print`. */
  datatype OperandKind = ThinkStmt | PrintStmt

  /** The statements that name a macro: `run` and `spawn`. */
  datatype CallKind = RunCall | SpawnCall

  /** The parser's messages, one constructor per distinct message. */
  datatype ParseErrorKind =
    | InWithoutIndex                     // "'in' must follow a stack index!"
    | KeywordNotRecognized
    | UnexpectedOperator(op: Types.Operator)
    | DefineUnsupported                  // `parse_def` is not part of this model
    | NonNumberToken                     // "Unable to parse a non-number token!"
    | OutNotParsed                       // "Unable to parse an out token!"
    | NumberAfterOperatorMissing         // "Unable to parse a number after an operator!"
    | NoNumberAfterOperator              // "Unable to find a number after an operator!"
    | FloatIndex                         // "Floats are not valid indices!"
    | LoneNumber
    | AssignNothing
    | OutOfNothing                       // "Unable to retrieve from a non-existent stack index!"
    | NotAfterHead(token: Token)         // "... is not allowed to follow a heading number!"
    | NonIntegerIndex                    // "Only integers can be used as stack indices!"
    | NonDataIndex                       // "Unable to get a non-integer index!"
    | MissingIndex                       // "Unable to retrieve data from a non-existent index!"
    | NonDataOperand(kind: OperandKind)  // "Only data types can be imagined/printed!"
    | MissingOperand(kind: OperandKind)  // "Unable to imagine/print nothing!"
    | ReservedMacroName
    | DataAsMacro
    | MissingMacro
    | CompareNonData                     // "Only data types can be compared to thoughts!"
    | MissingCondition
    | MismatchedBraces(block: BlockKind)
    | ExpectedOpenBrace(block: BlockKind)
    | Diverges                           // a block body scan that would never advance

  /** A message with the number of the statement being parsed, or an `err_code`. */
  datatype ParseError = At(kind: ParseErrorKind, expr: nat) | Code(code: int)

  /** A parse step's result and the cursor it leaves. */
  datatype Parsed<T> = Parsed(result: Result<T, ParseError>, pos: nat)

  function PeekAt(toks: seq<Token>, p: nat): (t: Option<Token>)
    ensures t.Some? <==> p < |toks|
    ensures t.Some? ==> t.value == toks[p]
  {
    if p < |toks| then Some(toks[p]) else None
  }

  /** The tokens left from the cursor on; the parser's termination measure. */
  function Rem(toks: seq<Token>, p: nat): nat {
    if p < |toks| then |toks| - p else 0
  }

  /** `skip_newlines`: the first cursor from `p` on that is not at a newline. */
  function SkipNewLines(toks: seq<Token>, p: nat): (q: nat)
    ensures p <= q
    ensures forall i :: p <= i < q ==> PeekAt(toks, i) == Some(NewLine)
    ensures PeekAt(toks, q) != Some(NewLine)
    decreases Rem(toks, p)
  {
    if PeekAt(toks, p) == Some(NewLine) then SkipNewLines(toks, p + 1) else p
  }

  /**
   * `parse_out`, the cursor at `out`: reads the index token after it. An
   * integer gives `out` of that integer, a newline gives no statement, and
   * anything else, or nothing, is an error.
   */
  function ParseOut(toks: seq<Token>, p: nat, expr: nat): (r: Parsed<Option<Node>>)
    ensures r.result.Ok? && r.result.value.Some? ==> r.result.value.value.Out? && IntLiteral(r.result.value.value.e)
    ensures r.pos >= p + 1
  {
    var q := p + 1;
    match PeekAt(toks, q)
    case Some(NewLine) => Parsed(Ok(None), q + 1)
    case Some(Data(n)) =>
      if n.Int? then Parsed(Ok(Some(Out(Literal(n)))), q)
      else Parsed(Err(At(NonIntegerIndex, expr)), q)
    case Some(_) => Parsed(Err(At(NonDataIndex, expr)), q)
    case None => Parsed(Err(At(MissingIndex, expr)), q)
  }

  /** A numeric primary: a literal, or `out` of an integer literal. */
  predicate Primary(n: Node) {
    n.Literal? || (n.Out? && n.e.Literal? && n.e.n.Int?)
  }

  /**
   * The nodes `parse_num` builds: a primary, or a primary, an operator and
   * another chain (the chain nests to the right), optionally wrapped in
   * `Char`.
   */
  predicate Chain(n: Node)
    decreases n, 0
  {
    Primary(n) || (n.Eval? && Primary(n.left) && NumShape(n.right))
  }

  predicate NumShape(n: Node)
    decreases n, 1
  {
    Chain(n) || (n.Char? && Chain(n.e))
  }

  /** An integer literal: the only index `out` accepts. */
  predicate IntLiteral(n: Node) {
    n.Literal? && n.n.Int?
  }

  /**
   * The statements the parser can produce: `think`/`print` of a numeric
   * expression, `out` of an index (or, after a heading number, of an `out`),
   * an assignment between numeric expressions, `if` and `loop` over
   * statements, `run`, `spawn` and `break`.
   */
  predicate StatementNode(n: Node)
    decreases n
  {
    match n
    case Think(x) => NumShape(x)
    case Print(x) => NumShape(x)
    case Out(x) => IntLiteral(x) || (x.Out? && IntLiteral(x.e))
    case Assign(i, v) => NumShape(i) && NumShape(v)
    case If(c, body) => NumShape(c) && forall k :: 0 <= k < |body| ==> StatementNode(body[k])
    case Loop(body) => forall k :: 0 <= k < |body| ==> StatementNode(body[k])
    case Run(_) => true
    case Spawn(_) => true
    case Break => true
    case _ => false
  }

  /** The node a statement parser returns, if any, is a statement. */
  predicate YieldsStatement(r: Parsed<Option<Node>>) {
    r.result.Ok? && r.result.value.Some? ==> StatementNode(r.result.value.value)
  }

  /**
   * The first part of `parse_num`: the primary that `token` starts, the
   * cursor left just after it.
   */
  function NumPrimary(toks: seq<Token>, p: nat, token: Token, expr: nat): (r: Parsed<Node>)
    ensures r.pos >= p
    ensures r.result.Ok? ==> r.pos >= p + 1 && Primary(r.result.value)
  {
    match token
    case Data(n) => Parsed(Ok(Literal(n)), p + 1)
    case Keyword(Out) =>
      var o := ParseOut(toks, p, expr);
      (match o.result
       case Err(e) => Parsed(Err(e), o.pos)
       case Ok(None) => Parsed(Err(At(OutNotParsed, expr)), o.pos)
       case Ok(Some(x)) => Parsed(Ok(x), o.pos + 1))
    case _ => Parsed(Err(At(NonNumberToken, expr)), p)
  }

  /**
   * `parse_num`, the cursor at `token`: a primary, then optionally an
   * operator and (recursively) the rest of the expression, then the `char`
   * check.
   */
  function Num(toks: seq<Token>, p: nat, token: Token, expr: nat): (r: Parsed<Option<Node>>)
    ensures r.pos >= p
    ensures r.result.Ok? ==> r.result.value.Some? && NumShape(r.result.value.value)
    decreases Rem(toks, p), 1
  {
    var head := NumPrimary(toks, p, token, expr);
    if head.result.Err? then Parsed(Err(head.result.error), head.pos)
    else
      var node := head.result.value;
      var p1 := head.pos;
      match PeekAt(toks, p1)
      case Some(NewLine) => Parsed(Ok(Some(node)), p1 - 1)
      case Some(OpToken(o)) =>
        var p2 := p1 + 1;
        var operand := PeekAt(toks, p2);
        if operand.Some? && (operand.value.Data? || operand.value == Keyword(Types.Keyword.Out)) then
          var sub := Num(toks, p2, operand.value, expr);
          (match sub.result
           case Err(e) => Parsed(Err(e), sub.pos)
           case Ok(None) => Parsed(Err(At(NumberAfterOperatorMissing, expr)), sub.pos)
           case Ok(Some(next)) => CharSuffix(toks, Eval(node, o, next), sub.pos))
        else Parsed(Err(At(NoNumberAfterOperator, expr)), p2)
      case _ => CharSuffix(toks, node, p1 - 1)
  }

  /**
   * The `char` check that ends `parse_num`, the cursor at the expression's
   * last token: a following newline is consumed, a following `char` wraps
   * the node, anything else is left in place.
   */
  function CharSuffix(toks: seq<Token>, node: Node, p: nat): (r: Parsed<Option<Node>>)
    ensures r.result.Ok? && r.result.value.Some?
    ensures r.result.value.value == node || r.result.value.value == Char(node)
    ensures r.pos == p || r.pos == p + 1
  {
    var q := p + 1;
    match PeekAt(toks, q)
    case Some(NewLine) => Parsed(Ok(Some(node)), q)
    case Some(Keyword(Char)) => Parsed(Ok(Some(Char(node))), q)
    case _ => Parsed(Ok(Some(node)), p)
  }

  /**
   * `parse_num_head`, the cursor at a number that starts a statement: an
   * integer index expression followed by a newline, `in` and a value, or
   * `out` and an index.
   */
  function NumHead(toks: seq<Token>, q: nat, expr: nat): (r: Parsed<Option<Node>>)
    ensures YieldsStatement(r)
    requires q < |toks|
    ensures r.pos >= q
    ensures r.result.Ok? ==> r.pos > q
    decreases Rem(toks, q), 2
  {
    match toks[q]
    case Data(num) =>
      if num.IntValue().None? then Parsed(Err(At(FloatIndex, expr)), q)
      else
        var head := Num(toks, q, Data(num), expr);
        if head.result.Err? then Parsed(Err(head.result.error), head.pos)
        else HeadTail(toks, head.pos + 1, head.result.value.value, expr)
    case _ => Parsed(Err(Code(102)), q)
  }

  /**
   * The rest of `parse_num_head`, the cursor at the token after the heading
   * number `index`: `in` and a value, `out` and an index, or a newline, then
   * the final step past the statement.
   */
  function HeadTail(toks: seq<Token>, p1: nat, index: Node, expr: nat): (r: Parsed<Option<Node>>)
    requires NumShape(index)
    ensures YieldsStatement(r)
    ensures r.pos >= p1
    decreases Rem(toks, p1), 2
  {
    match PeekAt(toks, p1)
    case None => Parsed(Err(At(LoneNumber, expr)), p1)
    case Some(next) =>
      var tail: Parsed<Option<Node>> :=
        match next
        case NewLine => Parsed(Ok(None), p1 + 1)
        case Keyword(In) =>
          var p3 := p1 + 1;
          (match PeekAt(toks, p3)
           case Some(t) =>
             var v := Num(toks, p3, t, expr);
             (match v.result
              case Ok(Some(x)) => Parsed(Ok(Some(Assign(index, x))), v.pos)
              case Ok(None) => Parsed(Err(At(AssignNothing, expr)), v.pos)
              case Err(e) => Parsed(Err(e), v.pos))
           case None => Parsed(Err(At(AssignNothing, expr)), p3))
        case Keyword(Out) =>
          var o := ParseOut(toks, p1, expr);
          (match o.result
           case Ok(Some(m)) => Parsed(Ok(Some(Out(m))), o.pos)
           case Ok(None) => Parsed(Err(At(OutOfNothing, expr)), o.pos)
           case Err(e) => Parsed(Err(e), o.pos))
        case Data(_) => Parsed(Err(At(NotAfterHead(next), expr)), p1 + 1)
        case _ => Parsed(Err(At(NotAfterHead(next), expr)), p1);
      Parsed(tail.result, tail.pos + 1)
  }

  function Wrap(kind: OperandKind, n: Node): Node {
    match kind
    case ThinkStmt => Think(n)
    case PrintStmt => Print(n)
  }

  /** `parse_think` and `parse_print`, the cursor at the keyword. */
  function Operand(toks: seq<Token>, q: nat, kind: OperandKind, expr: nat): (r: Parsed<Option<Node>>)
    ensures YieldsStatement(r)
    ensures r.pos > q
    decreases Rem(toks, q), 2
  {
    var p1 := q + 1;
    match PeekAt(toks, p1)
    case Some(t) =>
      if t == NewLine then Parsed(Ok(None), p1 + 2)
      else if t.Data? || t == Keyword(Types.Keyword.Out) then
        // `parse_num` never returns `Ok(None)`, so the source's arms for it
        // (`Ok(None)` after data, the "non-existent stack index" error after
        // `out`) cannot be taken.
        var v := Num(toks, p1, t, expr);
        if v.result.Err? then Parsed(Err(v.result.error), v.pos)
        else Parsed(Ok(Some(Wrap(kind, v.result.value.value))), v.pos + 1)
      else Parsed(Err(At(NonDataOperand(kind), expr)), p1 + 1)
    case None => Parsed(Err(At(MissingOperand(kind), expr)), p1 + 1)
  }

  /** `parse_run` and `parse_spawn`, the cursor at the keyword. */
  function MacroCall(toks: seq<Token>, q: nat, kind: CallKind, expr: nat): (r: Parsed<Option<Node>>)
    ensures YieldsStatement(r)
    ensures r.pos == q + 2 || r.pos == q + 3
  {
    var p1 := q + 1;
    match PeekAt(toks, p1)
    case Some(NewLine) => Parsed(Ok(None), p1 + 2)
    case Some(RTKeyword(s)) => Parsed(Ok(Some(if kind == RunCall then Run(s) else Spawn(s))), p1 + 1)
    case Some(Keyword(_)) => Parsed(Err(At(ReservedMacroName, expr)), p1 + 1)
    case Some(Data(_)) => Parsed(Err(At(DataAsMacro, expr)), p1 + 1)
    case _ => Parsed(Err(At(MissingMacro, expr)), p1 + 1)
  }

  /** The node a block body keeps for one parsed unit. */
  function Kept(x: Option<ExprType>): seq<Node> {
    if x.Some? && x.value.Stmt? && x.value.node.Some? then [x.value.node.value] else []
  }

  /** The macro definition `parse` records for one parsed unit. */
  function Defined(x: Option<ExprType>): seq<(string, seq<Node>)> {
    match x
    case Some(Macro(name, body)) => [(name, body)]
    case _ => []
  }

  /**
   * The body loop of `parse_if` and `parse_loop`, the cursor inside the
   * block, `count` braces open and `body` parsed so far. A `}` that does
   * not close the block is read again with one brace fewer; only the `if`
   * body skips newlines itself.
   */
  function Scan(toks: seq<Token>, p: nat, count: nat, body: seq<Node>, kind: BlockKind, expr: nat): (r: Parsed<seq<Node>>)
    ensures r.result.Ok? ==> forall k :: |body| <= k < |r.result.value| ==> StatementNode(r.result.value[k])
    requires count >= 1
    ensures r.pos >= p
    ensures r.result.Ok? ==> p < r.pos <= |toks| && toks[r.pos - 1] == CloseBrace
    ensures r.result.Ok? ==> body <= r.result.value
    decreases Rem(toks, p), 4, count
  {
    match PeekAt(toks, p)
    case None => Parsed(Err(At(MismatchedBraces(kind), expr)), p)
    case Some(t) =>
      if t == OpenBrace then Scan(toks, p + 1, count + 1, body, kind, expr)
      else if t == CloseBrace then
        if count == 1 then Parsed(Ok(body), p + 1)
        else Scan(toks, p, count - 1, body, kind, expr)
      else if t == NewLine && kind == IfBlock then Scan(toks, p + 1, count, body, kind, expr)
      else
        var e := Expression(toks, p, expr);
        match e.result
        case Err(err) => Parsed(Err(err), e.pos)
        case Ok(x) =>
          if e.pos <= p then Parsed(Err(At(Diverges, expr)), p)
          else Scan(toks, e.pos, count, body + Kept(x), kind, expr)
  }

  /** `parse_if`, the cursor at `if`: a condition expression, then a block. */
  function ParseIf(toks: seq<Token>, q: nat, expr: nat): (r: Parsed<Option<Node>>)
    ensures YieldsStatement(r)
    ensures r.pos >= q
    ensures r.result.Ok? ==> r.pos > q
    decreases Rem(toks, q), 2
  {
    var p1 := q + 1;
    match PeekAt(toks, p1)
    case None => Parsed(Err(At(MissingCondition, expr)), q)
    case Some(c) =>
      if !c.Data? then Parsed(Err(At(CompareNonData, expr)), p1)
      else
        var cond := Num(toks, p1, c, expr);
        match cond.result
        case Err(e) => Parsed(Err(e), cond.pos)
        case Ok(None) => Parsed(Err(Code(101)), cond.pos)
        case Ok(Some(n)) =>
          var p2 := cond.pos + 1;
          if PeekAt(toks, p2) == Some(OpenBrace) then
            var b := Scan(toks, p2 + 1, 1, [], IfBlock, expr);
            (match b.result
             case Err(e) => Parsed(Err(e), b.pos)
             case Ok(body) => Parsed(Ok(Some(If(n, body))), b.pos))
          else Parsed(Err(At(ExpectedOpenBrace(IfBlock), expr)), p2)
  }

  /** `parse_loop`, the cursor at `loop`: a block. */
  function ParseLoop(toks: seq<Token>, q: nat, expr: nat): (r: Parsed<Option<Node>>)
    ensures YieldsStatement(r)
    ensures r.pos > q
    decreases Rem(toks, q), 2
  {
    var p1 := q + 1;
    if PeekAt(toks, p1) == Some(OpenBrace) then
      var b := Scan(toks, p1 + 1, 1, [], LoopBlock, expr);
      match b.result
      case Err(e) => Parsed(Err(e), b.pos)
      case Ok(body) => Parsed(Ok(Some(Loop(body))), b.pos)
    else Parsed(Err(At(ExpectedOpenBrace(LoopBlock), expr)), p1)
  }

  function Lift(r: Parsed<Option<Node>>): (l: Parsed<Option<ExprType>>)
    ensures l.pos == r.pos
    ensures r.result.Err? <==> l.result.Err?
    ensures r.result.Ok? ==> l.result == Ok(Some(Stmt(r.result.value)))
  {
    match r.result
    case Err(e) => Parsed(Err(e), r.pos)
    case Ok(n) => Parsed(Ok(Some(Stmt(n))), r.pos)
  }

  /**
   * `parse_expression`: skips newlines and dispatches on the token found.
   * `Ok(None)` (end of input, a brace or a macro name) means there is no
   * statement here.
   */
  function Expression(toks: seq<Token>, p: nat, expr: nat): (r: Parsed<Option<ExprType>>)
    ensures r.result.Ok? && r.result.value.Some? && r.result.value.value.Stmt? && r.result.value.value.node.Some? ==> StatementNode(r.result.value.value.node.value)
    ensures r.pos >= p
    ensures r.result.Ok? && r.result.value.Some? ==> p < |toks| && r.pos > p && r.result.value.value.Stmt?
    decreases Rem(toks, p), 3
  {
    var q := SkipNewLines(toks, p);
    match PeekAt(toks, q)
    case None => Parsed(Ok(None), q)
    case Some(Keyword(k)) =>
      (match k
       case Think => Lift(Operand(toks, q, ThinkStmt, expr))
       case In => Parsed(Err(At(InWithoutIndex, expr)), q)
       case Out => Lift(ParseOut(toks, q, expr))
       case Print => Lift(Operand(toks, q, PrintStmt, expr))
       case If => Lift(ParseIf(toks, q, expr))
       case Loop => Lift(ParseLoop(toks, q, expr))
       case Run => Lift(MacroCall(toks, q, RunCall, expr))
       case Define => Parsed(Err(At(DefineUnsupported, expr)), q)
       case Break => Parsed(Ok(Some(Stmt(Some(Break)))), q + 1)
       case Spawn => Lift(MacroCall(toks, q, SpawnCall, expr))
       case _ => Parsed(Err(At(KeywordNotRecognized, expr)), q))
    case Some(Data(_)) => Lift(NumHead(toks, q, expr))
    case Some(OpToken(o)) => Parsed(Err(At(UnexpectedOperator(o), expr)), q)
    case Some(_) => Parsed(Ok(None), q)
  }

  /** The statements and macro definitions `parse` collects, in order. */
  datatype Units = Units(nodes: seq<Node>, defs: seq<(string, seq<Node>)>)

  /** The outcome of `parse`, with the cursor and statement counter it leaves. */
  datatype Progress = Progress(result: Result<Units, ParseError>, pos: nat, expr: nat)

  /** The loop of `parse`: one unit after another until there is none. */
  function ParseUnits(toks: seq<Token>, p: nat, expr: nat, acc: Units): (r: Progress)
    ensures r.result.Ok? ==> forall k :: |acc.nodes| <= k < |r.result.value.nodes| ==> StatementNode(r.result.value.nodes[k])
    ensures r.pos >= p && r.expr >= expr
    ensures r.expr + p <= expr + r.pos
    ensures r.result.Ok? ==> |r.result.value.nodes| + |r.result.value.defs| + expr <= r.expr + |acc.nodes| + |acc.defs|
    ensures r.result.Ok? ==> acc.nodes <= r.result.value.nodes && acc.defs <= r.result.value.defs
    decreases Rem(toks, p)
  {
    var e := Expression(toks, p, expr);
    match e.result
    case Err(err) => Progress(Err(err), e.pos, expr)
    case Ok(None) => Progress(Ok(acc), e.pos, expr)
    case Ok(Some(x)) =>
      ParseUnits(toks, e.pos, expr + 1, Units(acc.nodes + Kept(Some(x)), acc.defs + Defined(Some(x))))
  }

  /** The map `parse` builds from the definitions: a later one replaces an earlier one. */
  function InsertAll(defs: seq<(string, seq<Node>)>): map<string, seq<Node>> {
    if defs == [] then map[]
    else InsertAll(defs[..|defs| - 1])[defs[|defs| - 1].0 := defs[|defs| - 1].1]
  }

  /** The `macros` field of `ParserResult`: `None` when the map is empty. */
  function MacroTable(defs: seq<(string, seq<Node>)>): Option<map<string, seq<Node>>> {
    var m := InsertAll(defs);
    if m == map[] then None else Some(m)
  }

  /** `Parser::parse` from cursor `p` and statement number `expr`. */
  function Parse(toks: seq<Token>, p: nat, expr: nat): Result<ParserResult, ParseError> {
    var r := ParseUnits(toks, p, expr, Units([], []));
    match r.result
    case Err(e) => Err(e)
    case Ok(u) => Ok(ParserResult(u.nodes, MacroTable(u.defs)))
  }
}
