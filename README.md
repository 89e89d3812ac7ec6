# naqua interpreter core in Dafny

A model of the language pipeline of naqua: the lexer, the parser and the
tree-walking runner.

- **Lexer:** the tokenizer turns program text into tokens.
- **Parser:** a recursive-descent parser with a token cursor turns the tokens
  into statement nodes and a macro table.
- **Runner:** it executes the nodes over a sparse integer-indexed stack and a
  single `thought` register, and prints values.

The parts of the source that change state step by step are modelled as Dafny
classes with methods and loops:

- the tokenizer's `pos`/`row` fields;
- the parser's cursor;
- the runner's stack, thought and macro table.

Each such method is proved to compute a pure specification function, and the
properties of the language are proved as lemmas about those functions.

| file | module | models |
|---|---|---|
| results.dfy | `Results` | `Option` and a `Result` usable with `:-` |
| types.dfy | `Types` | `Number`, `Operator`, `Keyword` and their conversions; `EvalType` |
| is.dfy | `Is` | the character classes of `Is` |
| tokens.dfy | `Tokens` | `Token` |
| lexer.dfy | `Lexer` | `Scan`, the pass as a function; `class Tokenizer`, the loop |
| lexer_props.dfy | `LexerProperties` | what the pass emits and when it fails |
| ast.dfy | `Ast` | `Node`, `ExprType`, `ParserResult`, `Node::to_num` |
| parse_spec.dfy | `ParseSpec` | every `parse_*` function as a function of tokens and cursor |
| parser.dfy | `Parsing` | `class Parser` and its methods over the cursor field |
| parse_props.dfy | `ParseProperties` | brace counting, right nesting, macro table, statement heads |
| eval.dfy | `Evaluation` | `eval`, `op_eval`, `charify` as functions of the runner state |
| eval_props.dfy | `EvaluationProperties` | arithmetic meaning, `charify` range, totality, stack reads |
| semantics.dfy | `Semantics` | `exec`, `stack_get`, `run` as functions with a fuel bound |
| semantics_props.dfy | `SemanticsProperties` | break propagation, fuel monotonicity, read-after-write |
| runner.dfy | `Runtime` | `class Runner` and its methods over the stack, thought and output |

### Modelling choices

- **Errors.** An error is a constructor that names the message, not its text:
  - `LexError` for the lexer;
  - `ParseError.At(kind, expr)` for the parser, which carries the statement
    number the message reports;
  - `Code(n)` for `err_code`;
  - `RuntimeError` for the runner.
- **Panics.** A Rust panic is the runtime error `Panic`. This covers a
  surrogate code point in `charify` and `stack_get` of a `thought` index.
- **Output.** What `print!` writes is kept as a sequence of `EvalType` values
  in the runner's `output` field.
- **Fuel.** The source's `loop` statement and macro calls may run forever.
  Execution therefore takes a fuel bound: one unit per loop iteration and one
  per macro call. The signal `Exhausted` reports that the bound was reached.
  `ExecFuelMonotone` shows that any outcome other than `Exhausted` is
  independent of the bound.
- **Stuck lexer.** The lexer's loop never consumes a character that no branch
  recognises, and then loops forever. `Scan` reports this as `Stuck(pos)`;
  `StuckOnlyOnUnrecognized` and `RecognizedTextNeverStuck` characterise it.
- **Diverging body scan.** A block body holding a token that `parse_expression`
  answers with `Ok(None)` without moving makes the source's body loop spin.
  An example is a macro name inside a `loop`. The model reports this as the
  error `Diverges`; see `NameInLoopBodyDiverges`.
- **Keywords.** The nine keywords of `Keyword` in src/util/types.rs have names.
  The parser also dispatches on `Run`, `Define` and `Spawn`, which that enum
  lacks, so the model's `Keyword` has all twelve. Only the nine have names,
  as `Keyword::from`/`to_str` are written.
- **Non-compiling code.** Where the shown files do not compile together, the
  model follows the evident intent:
  - `parse_num` takes only the token;
  - `is_int()` is `int().is_some()`;
  - `float()` is unwrapped where it is used as a number;
  - block bodies keep the node of a `Node(Some(..))` unit.

### Behaviour of the code as written

The lemma named with an item proves it. Where the code and its documentation
differ, the model follows the code.

- `'\n'` is whitespace, so the lexer never emits `NewLine`, although the
  parser branches on it everywhere (`ScanEmitsLexerTokens`).
- `5-3` lexes as `5` and `-3`, not as a subtraction (`MinusWithoutSpaces`).
- A `}` inside a block body closes the whole block. The loop re-reads it with
  one brace fewer each time until the count is zero (`CloseBraceEndsBlock`,
  `InnerBracesCloseLoop`).
- A bare number followed by a newline consumes the token after the newline as
  well (`BareIndexSkipsNextToken`).
- `i out j` reads index `j` twice and ignores `i` (`HeadOutDropsHead`).
- A stray `}` at top level ends the program; nothing after it is parsed
  (`StrayBraceEndsProgram`).
- `charify` reduces modulo 0x10FFFF, so U+10FFFF is unreachable and
  0x10FFFF itself maps to U+0000 (`CharifyRange`).
- A float index is floored when stored and truncated toward zero when read
  (`FloatIndexTruncates`).
- `if` compares tag and value, so `2` never matches a thought of `2.0`
  (`IfComparesTags`).
- A `break` at top level is ignored (`TopLevelBreakIgnored`).
- A `break` in a macro body breaks the loop that called the macro
  (`BreakInMacroLeavesCallerLoop`).
- `Runner.expr` is never advanced, so every runtime message reports
  expression 0.

## Model

| member | source | states |
|---|---|---|
| Types.IntAndThoughtAccessors | src/util/types.rs:12-17 | `int()` is present exactly for `Int` and carries its payload; `thought()` holds exactly for `Thought` |
| Types.FloatAndEvalTypeAccessors | src/util/types.rs:18-29 | `float()` and `eval_type()` are absent exactly for `Thought`; both keep the tag and payload of `Int` and `Float` |
| Types.EvalTypeNumberRoundTrip | src/runtime/eval.rs:54-62 | `EvalType::to_num` inverts `eval_type` on numbers and fails exactly on a character |
| Types.OperatorRoundTrip | src/util/types.rs:39-55 | `Operator::from(o.to_char()) == o` for every operator |
| Types.OperatorFromFallback | src/util/types.rs:39-47 | every character other than `+ - * /` (such as `^` and `%`) reads as `Add`; `to_char` inverts `from` exactly on the four |
| Types.KeywordRoundTrip | src/util/types.rs:75-101 | `Keyword::from(k.to_str()) == Some(k)` for every named keyword |
| Types.KeywordFromExactly | src/util/types.rs:75-88 | `Keyword::from` knows exactly the nine names and returns the keyword whose name the word is |
| Is.DigitValue | src/tokenize/tokenizer.rs:69 | the value a decimal digit contributes to `parse::<i64>` is below 10 |
| Is.OperatorExactly | src/util/mod.rs:11 | `operator(c)` holds exactly for `+ - * / ^ %` |
| Is.BraceExactly | src/util/mod.rs:12 | `brace(c)` holds exactly for `{` and `}` |
| Is.NewLineIsWhitespace | src/util/mod.rs:7 | a line feed is whitespace |
| Is.ClassesDisjoint | src/util/mod.rs:7-14 | whitespace, letters, digits, operators and braces are disjoint; `-` is the one character that is both symbol and operator |
| Lexer.LetterRunEnd | src/tokenize/tokenizer.rs:31-34 | the letter run from a position is maximal: all letters, then the end of text or a non-letter |
| Lexer.NumberRunEnd | src/tokenize/tokenizer.rs:44-57 | the end of the numeric run lies within the text, at or after where it starts |
| Lexer.NumberRunShape | src/tokenize/tokenizer.rs:44-57 | the run holds only digits and at most one `.` (none if one was already seen); the flag is set exactly when a `.` was seen; the run stops at the first character that cannot extend it |
| Lexer.Tokenizer.Word | src/tokenize/tokenizer.rs:30-40 | reading a word moves the cursor forward, never past the end of the text, and either continues the scan of `Scan` with the keyword's token or fails exactly as `Scan` fails on a word that is not a keyword |
| Lexer.Tokenizer.NumberLiteral | src/tokenize/tokenizer.rs:42-71 | reading a numeric run moves the cursor forward, never past the end of the text, and either continues `Scan` with the literal (or `Sub` for a lone `-`) or fails exactly as `Scan` fails on a badly formatted number |
| Lexer.DotIndex | src/tokenize/tokenizer.rs:66-67 | the first `.` of a numeric text, or its length |
| Lexer.Tokenizer.constructor | src/tokenize/tokenizer.rs:12-14 | a new tokenizer starts at position 0, row 0 |
| Lexer.Tokenizer.Go | src/tokenize/tokenizer.rs:91-93 | `go` advances the position by one |
| Lexer.Tokenizer.LetterRun | src/tokenize/tokenizer.rs:31-34 | the word loop stops at the end of the maximal letter run |
| Lexer.Tokenizer.NumberRun | src/tokenize/tokenizer.rs:44-57 | the number loop stops at the end of the numeric run and reports whether it saw a `.` |
| Lexer.Tokenizer.Tokenize | src/tokenize/tokenizer.rs:15-90 | the loop returns the tokens or the error that `Scan` describes for the input |
| LexerProperties.ScanOnlyAppends | src/tokenize/tokenizer.rs:17-87 | tokens are only appended, in text order; the emitted list extends what was emitted before |
| LexerProperties.ScanEmitsLexerTokens | src/tokenize/tokenizer.rs:20-87 | the pass never emits `NewLine` or a macro name; keywords are named and not `thought`; integers are within i64 |
| LexerProperties.TokenizeEmitsLexerTokens | src/tokenize/tokenizer.rs:15-90 | the same for the whole text |
| LexerProperties.StuckOnlyOnUnrecognized | src/tokenize/tokenizer.rs:20-87 | the pass stops making progress only at a character no branch recognises |
| LexerProperties.RecognizedTextNeverStuck | src/tokenize/tokenizer.rs:20-87 | a text of recognised characters is lexed to tokens or an error |
| LexerProperties.WhitespaceEmitsNothing | src/tokenize/tokenizer.rs:23-28 | whitespace emits no token, moves one character and counts a row only for `\n` |
| LexerProperties.LoneMinusIsSub | src/tokenize/tokenizer.rs:61-64 | a `-` not followed by a digit or `.` is the operator `Sub` |
| LexerProperties.NumberRunOverDigits | src/tokenize/tokenizer.rs:47-57 | a run of digits extends to the end of the text and has no `.` |
| LexerProperties.NegativeLiteral | src/tokenize/tokenizer.rs:42-70 | `-` and digits lex as one negative integer literal |
| LexerProperties.NegatedDigits | src/tokenize/tokenizer.rs:69 | `-` followed by digits parses as the negated value when it fits in an `i64` |
| LexerProperties.SingleNumber | src/tokenize/tokenizer.rs:42-71 | a text made of one integer run lexes to exactly that run's literal |
| LexerProperties.IntegerOutOfRange | src/tokenize/tokenizer.rs:68-70 | digits beyond i64 are an integer formatting error at row 0 |
| LexerProperties.NumberTokenTag | src/tokenize/tokenizer.rs:66-70 | a numeric run is `Float` exactly when it held a `.`, else `Int` |
| LexerProperties.KeywordLexesBack | src/tokenize/tokenizer.rs:30-40 | every keyword name lexes to its keyword token, and `thought` to `Data(Thought)` |
| LexerProperties.UnknownWordFails | src/tokenize/tokenizer.rs:35-36 | a word that names no keyword fails with "not a keyword" |
| LexerProperties.OperatorLexesBack | src/tokenize/tokenizer.rs:82-86 | every operator character lexes to its operator token |
| LexerProperties.BracesLex | src/tokenize/tokenizer.rs:73-81 | at any position of any text, `{` and `}` give one `OpenBrace` or `CloseBrace` token and the scan goes on one character later |
| LexerProperties.MinusWithoutSpaces | src/tokenize/tokenizer.rs:42-64 | `5-3` lexes as the literals `5` and `-3` |
| Ast.ToNumExactlyLiterals | src/parse/mod.rs:25-32 | `to_num` succeeds exactly on a literal and returns its number |
| ParseSpec.PeekAt | src/parse/parser.rs:100-105 | `peek` is the token at the cursor, absent exactly past the end |
| ParseSpec.SkipNewLines | src/parse/parser.rs:95-99 | `skip_newlines` passes only newlines and stops where the next token is not one |
| ParseSpec.ParseOut | src/parse/num_parse.rs:132-159 | `parse_out` moves the cursor at least one token; a node it returns is `Out` of an integer literal |
| ParseSpec.NumPrimary | src/parse/num_parse.rs:11-23 | the operand that starts a number is a literal or `out` of an integer index, and moves the cursor on success |
| ParseSpec.Num | src/parse/num_parse.rs:10-73 | `parse_num` succeeds only with a node: a right-nested operator chain of operands, optionally wrapped in `Char` |
| ParseSpec.CharSuffix | src/parse/num_parse.rs:56-69 | the node is returned as is or wrapped in `Char`, consuming at most the `char` keyword or a newline |
| ParseSpec.NumHead | src/parse/num_parse.rs:75-130 | `parse_num_head` yields a statement node and consumes at least the head on success |
| ParseSpec.HeadTail | src/parse/num_parse.rs:90-129 | what follows a heading index yields a statement node or nothing and never moves the cursor back |
| ParseSpec.Operand | src/parse/keyword_parse.rs:7-34 | `parse_think`/`parse_print` always move the cursor and yield a statement node or nothing |
| ParseSpec.MacroCall | src/parse/keyword_parse.rs:64-82 | `parse_run`/`parse_spawn` move the cursor two or three tokens and yield a statement node or nothing |
| ParseSpec.Scan | src/parse/rel_parse.rs:33-57 | a body scan that succeeds ends just after a `}`, extends the body and adds only statement nodes |
| ParseSpec.ParseIf | src/parse/rel_parse.rs:7-66 | `parse_if` yields a statement node and moves the cursor on success, and never moves it back |
| ParseSpec.ParseLoop | src/parse/rel_parse.rs:67-106 | `parse_loop` always moves the cursor and yields a statement node or nothing |
| ParseSpec.Lift | src/parse/parser.rs:65-93 | a statement result becomes `ExprType::Node` at the same cursor; errors stay errors |
| ParseSpec.Expression | src/parse/parser.rs:53-94 | `parse_expression` yields a unit only when tokens remain and it moved the cursor; the unit is a statement node |
| ParseSpec.ParseUnits | src/parse/parser.rs:23-37 | `parse`'s loop only appends to the nodes and definitions and adds only statement nodes; the counter rises at least once per kept node or definition and at most once per consumed token |
| Parsing.Parser.constructor | src/parse/parser.rs:16-18 | a new parser is at cursor 0 and statement 0 |
| Parsing.Parser.Advance | src/parse/parser.rs:106-113 | `advance` raises the cursor by exactly one |
| Parsing.Parser.Undo | src/parse/parser.rs:114-121 | `undo` lowers the cursor by exactly one |
| Parsing.Parser.SkipNewlines | src/parse/parser.rs:95-99 | the loop leaves the cursor where `SkipNewLines` says |
| Parsing.Parser.ParseOut | src/parse/num_parse.rs:132-159 | result and cursor are those of `ParseSpec.ParseOut` |
| Parsing.Parser.ParsePrimary | src/parse/num_parse.rs:11-23 | result and cursor are those of `NumPrimary` |
| Parsing.Parser.CharCheck | src/parse/num_parse.rs:56-69 | result and cursor are those of `CharSuffix` |
| Parsing.Parser.ParseNum | src/parse/num_parse.rs:10-73 | result and cursor are those of `Num` |
| Parsing.Parser.ParseNumHead | src/parse/num_parse.rs:75-130 | result and cursor are those of `NumHead` |
| Parsing.Parser.ParseHeadTail | src/parse/num_parse.rs:90-129 | what follows a heading index leaves the result and cursor of `HeadTail` |
| Parsing.Parser.ParseOperand | src/parse/keyword_parse.rs:7-63 | result and cursor are those of `Operand` |
| Parsing.Parser.ParseCall | src/parse/keyword_parse.rs:64-101 | result and cursor are those of `MacroCall` |
| Parsing.Parser.ScanBlock | src/parse/rel_parse.rs:33-60 | the brace-counting loop leaves the result and cursor of `Scan` from count 1 |
| Parsing.Parser.ScanStatement | src/parse/rel_parse.rs:49-55 | a statement inside a block either ends the scan with the result `Scan` gives there, or moves the cursor forward and leaves `Scan`'s outcome unchanged with the statement kept |
| Parsing.Parser.ParseIf | src/parse/rel_parse.rs:7-66 | result and cursor are those of `ParseSpec.ParseIf` |
| Parsing.Parser.ParseLoop | src/parse/rel_parse.rs:67-106 | result and cursor are those of `ParseSpec.ParseLoop` |
| Parsing.Parser.ParseExpression | src/parse/parser.rs:53-94 | result and cursor are those of `Expression` |
| Parsing.Parser.ParseUnits | src/parse/parser.rs:23-37 | the loop of `parse` returns the units of `ParseSpec.ParseUnits` and leaves the cursor and the statement counter where `ParseSpec.ParseUnits` ends them |
| Parsing.Parser.Parse | src/parse/parser.rs:19-52 | `parse` returns what `ParseSpec.Parse` describes, and leaves the cursor and the statement counter at `ParseSpec.ParseUnits`'s final values |
| Parsing.BuildMacroMap | src/parse/parser.rs:39-50 | the map-building loop returns `MacroTable` of the definitions |
| ParseProperties.CloseBraceEndsBlock | src/parse/rel_parse.rs:39-45 | a `}` ends the body with however many braces open, just after that `}` |
| ParseProperties.InnerBracesCloseLoop | src/parse/rel_parse.rs:76-88 | `loop { { } print x }` ends at the inner `}` with an empty body |
| ParseProperties.MacroNames | src/parse/parser.rs:39-42 | the macro map's names are exactly the defined names |
| ParseProperties.LastDefinitionWins | src/parse/parser.rs:39-42 | the body of a name is the one of its last definition |
| ParseProperties.MacroTableNoneIffNoDefinitions | src/parse/parser.rs:44-50 | `macros` is `None` exactly when there were no definitions |
| ParseProperties.ArithmeticNestsRight | src/parse/num_parse.rs:31-46 | `a o1 b o2 c` parses as `a o1 (b o2 c)` |
| ParseProperties.AssignmentStatement | src/parse/num_parse.rs:101-112 | `i in v` parses as `Assign(i, v)` |
| ParseProperties.BareIndexSkipsNextToken | src/parse/num_parse.rs:96-100 | a number and a newline yield no node and also consume the next token |
| ParseProperties.HeadOutDropsHead | src/parse/num_parse.rs:113-119 | `i out j` parses as `out (out j)`, dropping `i` |
| ParseProperties.FloatHeadRejected | src/parse/num_parse.rs:82-84 | a heading number that is not an integer (a float or `thought`) is the error "Floats are not valid indices" |
| ParseProperties.IfBlockStatement | src/parse/rel_parse.rs:7-66 | `if 3 { print 1 }` parses as `If(3, [Print(1)])` over the whole input |
| ParseProperties.IfBlockBody | src/parse/rel_parse.rs:33-57 | inside an `if` block the newlines are skipped and the body is `[Print(1)]`, ending after the closing brace |
| ParseProperties.NameInLoopBodyDiverges | src/parse/rel_parse.rs:89-95 | a macro name in a loop body makes the body scan spin |
| ParseProperties.KeywordsThatStartNoStatement | src/parse/parser.rs:66-86 | `char`, `thought` and `in` at a statement head are errors |
| ParseProperties.RunCallsByName | src/parse/keyword_parse.rs:64-82 | `run name` parses as `Run(name)` |
| ParseProperties.ThinkStatement | src/parse/keyword_parse.rs:7-34 | `think x` parses as `Think(x)` |
| ParseProperties.HeadsThatEndParsing | src/parse/parser.rs:88-90 | a brace or a macro name at a statement head means no statement, cursor unmoved |
| ParseProperties.OperatorHeadRejected | src/parse/parser.rs:89 | an operator at a statement head is the "Unexpected operator" error |
| ParseProperties.StrayBraceEndsProgram | src/parse/parser.rs:23-37 | a program starting with `}` parses to no nodes and no macros |
| ParseProperties.CountsUnits | src/parse/parser.rs:23-37 | on `break break` the statement counter rises by exactly two |
| ParseProperties.ParseOutCases | src/parse/num_parse.rs:132-159 | `parse_out` gives no node exactly on a newline; it gives a node exactly when an integer `i` follows, and that node is `Out(Literal(i))`; anything else, or nothing, is an error |
| ParseProperties.NumPrimaryCases | src/parse/num_parse.rs:11-23 | a data token `n` gives `Literal(n)` one token on; `out` gives `Out` of the number after it; any other token is the "non-number token" error |
| ParseProperties.CharSuffixCases | src/parse/num_parse.rs:56-69 | the node is wrapped in `Char` exactly when `char` follows, returned unchanged otherwise; the cursor moves exactly when `char` or a newline follows |
| ParseProperties.HeadTailCases | src/parse/num_parse.rs:90-129 | after a heading index only a newline, `in` or `out` can succeed; end of input is the "lone number" error and a number the "not allowed to follow" error; a newline gives no node two tokens on; `in` assigns to that index; `out` gives `Out` of an `Out` |
| ParseProperties.OperandCases | src/parse/keyword_parse.rs:7-34 | `parse_think` yields `Think` and `parse_print` yields `Print`; no node exactly on a newline; a missing operand and a non-data operand are their errors |
| ParseProperties.MacroCallCases | src/parse/keyword_parse.rs:64-82 | `run`/`spawn` give a node exactly when a name follows, `Run(name)` or `Spawn(name)`; no node exactly on a newline |
| ParseProperties.BlockStatementCases | src/parse/rel_parse.rs:7-106 | `parse_if` succeeds only with an `If` and `parse_loop` only with a `Loop`; `loop` without `{` is the "expected opening brace" error one token on |
| ParseProperties.ChainAtIsSlice | src/parse/num_parse.rs:10-73 | a chain is written at a cursor exactly when the tokens from there on are the chain's tokens |
| ParseProperties.NumLiteralStep | src/parse/num_parse.rs:10-73 | a literal that nothing continues is read as that literal, the cursor left on it |
| ParseProperties.NumOperatorStep | src/parse/num_parse.rs:31-46 | a literal, an operator and a number expression `r` read as `Eval(literal, operator, r)` |
| ParseProperties.ChainSplit | src/parse/num_parse.rs:31-46 | the tokens of `x o r` are `x`, `o` and then the tokens of `r` |
| ParseProperties.ChainReadsAt | src/parse/num_parse.rs:10-73 | a chain that nothing continues is read whole from its first token |
| ParseProperties.IndexChainBeforeIn | src/parse/num_parse.rs:75-95 | a heading index chain followed by `in` is read whole |
| ParseProperties.ValueChainAfterIn | src/parse/num_parse.rs:101-112 | `in` and a literal chain after a heading index assign that chain to the index |
| ParseProperties.HeadTailAssign | src/parse/num_parse.rs:101-112 | `in` and any number after a heading index assign that number to the index, one token past it |
| ParseProperties.NumHeadAtInt | src/parse/num_parse.rs:75-95 | after an integer heading number, the rest of the statement is read from the token after it |
| ParseProperties.AssignStatement | src/parse/num_parse.rs:75-130 | an integer heading number and its tail make the statement the tail yields |
| ParseProperties.AssignAt | src/parse/num_parse.rs:75-112 | an integer heading index whose tail is `in v` makes the statement that assigns `v` to that index, ending where the tail ends |
| ParseProperties.ExpressionAtData | src/parse/parser.rs:66-72 | a statement that starts with a number is read as a heading-number statement |
| ParseProperties.ParseIfStep | src/parse/rel_parse.rs:7-32 | a number condition followed by `{` gives `If` of that condition and the block `Scan` reads, or `Scan`'s error |
| ParseProperties.IfConditionErrors | src/parse/rel_parse.rs:10-22 | `if` with nothing after it is the "missing condition" error and a non-data condition the "compared to thoughts" error |
| ParseProperties.LoopReadsBlock | src/parse/rel_parse.rs:67-106 | `loop {` gives `Loop` of the block `Scan` reads, or `Scan`'s error, at `Scan`'s cursor |
| ParseProperties.NumReadsChain | src/parse/num_parse.rs:10-73 | for every chain of literals and operators, `parse_num` reads its tokens back to that chain, nested to the right, ending on its last token |
| ParseProperties.OperandReadsChain | src/parse/keyword_parse.rs:7-34 | `think`/`print` followed by any literal chain give `Think`/`Print` of exactly that chain |
| ParseProperties.StatementReadsChain | src/parse/parser.rs:66-72 | at statement position `think c` and `print c` parse to `Think(c)` and `Print(c)` |
| ParseProperties.AssignReadsChains | src/parse/num_parse.rs:75-112 | `i in v` for any literal chains `i` (starting with an integer) and `v` parses to `Assign(i, v)` |
| ParseProperties.IfReadsChain | src/parse/rel_parse.rs:7-32 | `if c {` for any literal chain `c` gives `If(c, body)` with the body `Scan` reads, or `Scan`'s error |
| ParseProperties.IfWithoutBrace | src/parse/rel_parse.rs:61-63 | `if c` not followed by `{` is the "expected opening brace" error |
| ParseProperties.IfNoBraceStep | src/parse/rel_parse.rs:7-63 | a data condition that ends where no `{` follows gives the "expected opening brace" error, one token past the condition |
| ParseProperties.UnclosedBlock | src/parse/rel_parse.rs:58-60 | a block whose tokens run out is the "mismatched braces" error |
| ParseProperties.NoCloseNoBlock | src/parse/rel_parse.rs:33-60 | with no `}` left, a block never closes: the scan fails with "mismatched braces", with the spin (`Diverges`), or with the error of a body statement from that position on |
| Evaluation.SaturateI64 | src/runtime/eval.rs:34 | the conversion to `i64` clamps to the i64 range and keeps values inside it |
| Evaluation.StackValue | src/runtime/eval.rs:38 | a stack read is never the `Thought` placeholder |
| Evaluation.Resolve | src/runtime/eval.rs:18 | a literal resolves to a number, never the placeholder |
| Evaluation.Eval | src/runtime/eval.rs:8-43 | `eval` of a literal, `out` or operation is never a character |
| Evaluation.Operand | src/runtime/op_eval.rs:9-24 | an operand resolves to a number, never the placeholder |
| Evaluation.OpEval | src/runtime/op_eval.rs:8-50 | `op_eval` never yields a character |
| Evaluation.Arith | src/runtime/op_eval.rs:29-49 | the arithmetic never yields a character |
| EvaluationProperties.ArithOutcome | src/runtime/op_eval.rs:29-49 | the arithmetic fails exactly on a division by zero, with `DivisionByZero`; its result is an integer exactly when both operands are integers and the operator is not division |
| EvaluationProperties.ArithMeaning | src/runtime/op_eval.rs:29-49 | a successful arithmetic step computes the exact sum, difference, product or quotient of the operands' values |
| EvaluationProperties.CharifyInverse | src/runtime/eval.rs:45-47 | `charify` gives back every character below its modulus |
| EvaluationProperties.CharifyRange | src/runtime/eval.rs:45-47 | `charify` yields code points below 0x10FFFF, panics exactly on a surrogate, and maps 0x10FFFF to U+0000 |
| EvaluationProperties.TotalEvaluates | src/runtime/eval.rs:8-43 | an expression without `char` or division always evaluates |
| EvaluationProperties.OperandEvaluates | src/runtime/op_eval.rs:9-24 | such an operand always resolves |
| EvaluationProperties.LiteralRoundTrip | src/runtime/eval.rs:10-20 | a literal evaluates to its own number, or to the thought for `thought` |
| EvaluationProperties.OutReadsStack | src/runtime/eval.rs:31-39 | `out i` reads index `i`, or 0 where nothing was stored |
| EvaluationProperties.FloatIndexTruncates | src/runtime/eval.rs:34 | a float index is truncated toward zero when read |
| Semantics.StackGet | src/runtime/runtime.rs:98-106 | `stack_get` never yields the placeholder |
| Semantics.AssignValue | src/runtime/runtime.rs:46-55 | an assigned value is never the placeholder |
| Semantics.Exec | src/runtime/runtime.rs:28-97 | `exec` keeps the runner invariant (no placeholder in the thought or stack) and only appends to the output |
| Semantics.ExecBlock | src/runtime/runtime.rs:61-65 | a body keeps the invariant and only appends to the output |
| Semantics.RunNodes | src/runtime/runtime.rs:23-25 | the top-level loop keeps the invariant, only appends output, and never ends in a break |
| Semantics.Run | src/runtime/runtime.rs:21-27 | `run` keeps the invariant and ends normally, with an error, or out of fuel |
| SemanticsProperties.ExecFuelMonotone | src/runtime/runtime.rs:78-90 | an execution that did not run out of fuel has the same outcome with more fuel |
| SemanticsProperties.ExecBlockFuelMonotone | src/runtime/runtime.rs:61-65 | the same for a body |
| SemanticsProperties.LoopFuelMonotone | src/runtime/runtime.rs:78-90 | the same for a `loop` statement |
| SemanticsProperties.ExecNeverBreaks | src/runtime/runtime.rs:68-93 | a statement with no reachable `break` never signals one |
| SemanticsProperties.BlockNeverBreaks | src/runtime/runtime.rs:70-74 | the same for a body |
| SemanticsProperties.LoopEndsOnlyByBreak | src/runtime/runtime.rs:78-90 | a loop with no reachable `break` ends only with an error or never |
| SemanticsProperties.BreakOnMatchingThought | src/runtime/runtime.rs:68-90 | `think 5` then `loop { if 5 { break } }` ends after one pass |
| SemanticsProperties.IfComparesTags | src/runtime/runtime.rs:69 | an integer condition never matches a float thought of equal value |
| SemanticsProperties.ReadAfterAssign | src/runtime/runtime.rs:39-58 | after `i in v` index `i` reads `v`, every other index reads as before, thought and output unchanged |
| SemanticsProperties.BreakInMacroLeavesCallerLoop | src/runtime/runtime.rs:59-67 | a `break` in a macro body ends the caller's loop |
| SemanticsProperties.TopLevelBreakIgnored | src/runtime/runtime.rs:23-25 | a `break` at top level does not stop `run` |
| SemanticsProperties.InertNodes | src/runtime/runtime.rs:94-96 | `spawn`, a definition and a bare expression change nothing |
| SemanticsProperties.MissingMacroFails | src/runtime/runtime.rs:60 | `run` of an unknown name is an error that changes nothing |
| Runtime.Runner.constructor | src/runtime/runtime.rs:13-20 | a new runner has an empty stack, thought `Int(0)`, no macros, statement 0 |
| Runtime.Runner.Run | src/runtime/runtime.rs:21-27 | installs the table (empty for `None`) and leaves the state and signal of `Semantics.Run` |
| Runtime.Runner.Exec | src/runtime/runtime.rs:28-97 | leaves the stack, thought, output and signal of `Semantics.Exec` |
| Runtime.Runner.ExecBlock | src/runtime/runtime.rs:61-65 | the body loop leaves the state and signal of `Semantics.ExecBlock` |
| Runtime.Runner.ExecLoop | src/runtime/runtime.rs:78-90 | repeating the body leaves the state and signal of `Semantics.Exec` on the `loop` statement |

## Left out

- I/O.
  - src/main.rs and src/poll.rs read arguments and files and report errors.
  - The parser's `log` tracing and `display` are debug output.
  - `println!("Tokenizing...")` is console output.
  - None of these are part of this model.
- Message texts. Errors are constructors, not the formatted strings of
  src/util/err.rs. The runtime message for a missing macro is one
  constructor; its never-filled `{}` is not modelled.
- Float payloads are exact reals. This leaves out:
  - `f32`/`f64` rounding, NaN and infinities;
  - the `f32`→`f64` widening between `Number` and `EvalType`;
  - the rounding of a float literal to the nearest `f32`; the model keeps
    its exact decimal value.

  Saturating `as i64` casts are modelled.
- Evaluation.Arith: integer `+ - *` are exact. The i64 overflow panic of the
  source is not modelled.
- Display formatting. `print` appends the value, not its text.
- Unicode. `is_alphabetic`/`is_whitespace` are modelled on ASCII
  (`Is.Letter`, `Is.Whitespace`).
- ParseProperties.NumReadsChain: the whole-chain read-back covers chains of
  literal operands. Chains with an `out` operand or a `char` suffix are
  covered one step at a time, by `NumPrimaryCases` and `CharSuffixCases`.
- Lexer.Tokenizer.Tokenize: it requires ASCII input, because the source slices
  by byte while counting characters. It also requires that the pass does not
  get `Stuck`, the case where the source loops forever. It does not state the
  final cursor and row: the tokenizer is dropped after the pass
  (src/poll.rs:32-33), so nothing reads them.
- `parse_def` and the `Define` node's parsing are not part of this model.
  In the source a `define` head is handed to `parse_def`
  (src/parse/parser.rs:75-77). Its `ExprType::Macro` unit is recorded
  (src/parse/parser.rs:29) and ends up in the macro table
  (src/parse/parser.rs:39-50), which `run` executes
  (src/runtime/runtime.rs:59-66). In the model a `define` head is the
  model-only error `DefineUnsupported`. So no parsed program has a definition
  or a macro table, and `run` of a parsed program's macro is not covered.
- ParseProperties.MacroNames, ParseProperties.LastDefinitionWins and
  ParseProperties.MacroTableNoneIffNoDefinitions hold for any list of
  definitions (`InsertAll`, `MacroTable`). No program parsed by this model
  supplies such a list, because `parse_def` is missing.
- ParseSpec.ParseUnits: the counter is bounded on both sides. It rises at
  least once per kept node or definition and at most once per consumed token.
  A unit that yields nothing, such as `think` followed by a newline, is still
  counted but leaves no trace in the result, so no exact count is stated for
  all inputs. `CountsUnits` shows the exact count on one input.
- Spawning. `spawn` parses to `Spawn(name)` and executes as a no-op, as in the
  source; there is no task or thread code to model.
- Termination.
  - Looping forever in `loop` and in recursive macro calls is cut off by the
    fuel bound (`Exhausted`).
  - Spinning in a block body is reported as `Diverges`.
  - Neither is an outcome the source produces; the source does not return.
- Parsing.Parser.Undo: requires a cursor above 0. The source's `usize`
  subtraction would panic at 0, and no caller reaches that.
- The parser's `Diverges` check compares the cursor before and after one
  body statement. It is the model's way to report the source's infinite loop.
