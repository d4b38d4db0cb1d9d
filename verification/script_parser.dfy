/** The parser of the interpreted dialect, `src/parser.js`, over the token list its lexer
    produced. The source's `currentToken` is the result of the last `getNextToken()`; since
    that call hands out the lexed tokens in order and `undefined` once they are used up
    (`ScriptLexer.ReadsInOrder`), the current token is `At(ts, p)` for a position `p <= |ts|`, and
    `p == |ts|` is the end of the stream, where `currentToken` is `undefined`.

    The functions `...At(ts, p)` say what each parsing routine yields from position `p`: the
    node and the position of the next unread token, or the fatal error (`error(...)` ends
    the process, a read of a field of `undefined` throws). The class `Parser` holds the
    cursor the source advances; each of its methods is proved to agree with the matching
    function. */
module ScriptParser {
  import opened Results
  import opened Tokens
  import ScriptLexer

  /** The nodes `src/parser.js` builds, by their `type` field. `Undefined` stands for the
      `undefined` the parser returns where a node is expected: an expression at the end of
      the stream, or a statement for a skipped token. */
  datatype ScriptNode =
    | Undefined
    | VariableReference(id: string)
    | UnaryOperator(operator: string, operand: ScriptNode)
    | IntegerLiteral(raw: string)
    | StringLiteral(raw: string)
    | BooleanLiteral(raw: string)
    | BinaryOperator(operator: string, left: ScriptNode, right: ScriptNode)
    | VariableDeclaration(kind: string, id: string, init: ScriptNode)
    | IfStatement(condition: ScriptNode, body: seq<ScriptNode>)
    | CallExpression(callee: string, arguments: seq<ScriptNode>)
    | VariableAssignment(id: string, value: ScriptNode)
    | FunctionDeclaration(callee: string, arguments: seq<ScriptNode>, body: seq<ScriptNode>)

  /** The `Program` node `parse()` returns. */
  datatype Program = Program(body: seq<ScriptNode>)

  /** An entry of the array `expect(...)` returns: a token (the current one, or the one an
      `eat` left current) or the node of an `EXPR`. */
  datatype Entry = TokenEntry(token: Option<Token>) | NodeEntry(node: ScriptNode)

  /** Operator texts folded by the loop of `term`, by the loop of `defaultExpr`, and the two
      that make `defaultExpr` recurse. */
  const MulOps: set<string> := {"/", "*"}
  const AddOps: set<string> := {"+", "-", ">", "<", "<=", ">=", "==", "!="}
  const LogicOps: set<string> := {"&&", "||"}

  /** The current token is defined and its text is one of `ops`. */
  predicate ValueIn(ts: seq<Token>, p: nat, ops: set<string>)
  {
    p < |ts| && ts[p].raw in ops
  }

  /** `variable()`: the current token's text as a variable reference, after an IDENTIFIER
      is eaten. */
  function VariableAt(ts: seq<Token>, p: nat): (r: Result<Parsed<ScriptNode>>)
    requires p <= |ts|
    ensures r.Ok? <==> p < |ts| && ts[p].kind == "IDENTIFIER"
    ensures r.Ok? ==> r.value == Parsed(VariableReference(ts[p].raw), p + 1)
  {
    if p == |ts| then Err(UndefinedRead)
    else
      var q :- EatAt(ts, p, "IDENTIFIER");
      Ok(Parsed(VariableReference(ts[p].raw), q))
  }

  /** `factor()`: a signed factor, a literal, a parenthesized expression, or a variable. */
  function FactorAt(ts: seq<Token>, p: nat): (r: Result<Parsed<ScriptNode>>)
    requires p <= |ts|
    ensures r.Ok? ==> p < r.value.pos <= |ts|
    decreases |ts| - p, 1
  {
    if p == |ts| then Err(UndefinedRead)
    else
      var t := ts[p];
      if t.raw == "+" || t.raw == "-" then
        var f :- FactorAt(ts, p + 1);
        Ok(Parsed(UnaryOperator(t.raw, f.node), f.pos))
      else if t.kind == "INTEGER_LITERAL" then Ok(Parsed(IntegerLiteral(t.raw), p + 1))
      else if t.kind == "STRING_LITERAL" then Ok(Parsed(StringLiteral(t.raw), p + 1))
      else if t.kind == "BOOLEAN_LITERAL" then Ok(Parsed(BooleanLiteral(t.raw), p + 1))
      else if t.kind == "LEFT_PARENTHESIS" then
        var e :- DefaultExprAt(ts, p + 1);
        var q :- EatAt(ts, e.pos, "RIGHT_PARENTHESIS");
        Ok(Parsed(e.node, q))
      else VariableAt(ts, p)
  }

  /** `term()`: a factor followed by the `*`/`/` loop. */
  function TermAt(ts: seq<Token>, p: nat): (r: Result<Parsed<ScriptNode>>)
    requires p <= |ts|
    ensures r.Ok? ==> p < r.value.pos <= |ts|
    decreases |ts| - p, 2
  {
    var f :- FactorAt(ts, p);
    TermTail(ts, f.node, f.pos)
  }

  /** The loop of `term()` with `acc` as the node built so far. */
  function TermTail(ts: seq<Token>, acc: ScriptNode, p: nat): (r: Result<Parsed<ScriptNode>>)
    requires p <= |ts|
    ensures r.Ok? ==> p <= r.value.pos <= |ts|
    decreases |ts| - p, 0
  {
    if ValueIn(ts, p, MulOps) then
      var f :- FactorAt(ts, p + 1);
      TermTail(ts, BinaryOperator(ts[p].raw, acc, f.node), f.pos)
    else Ok(Parsed(acc, p))
  }

  /** `defaultExpr()`: `undefined` at the end of the stream; otherwise terms joined
      left-associatively by the additive and comparison operators, then an optional
      `&&`/`||` whose right operand is a whole expression. */
  function DefaultExprAt(ts: seq<Token>, p: nat): (r: Result<Parsed<ScriptNode>>)
    requires p <= |ts|
    ensures p == |ts| ==> r == Ok(Parsed(Undefined, p))
    ensures r.Ok? && p < |ts| ==> p < r.value.pos <= |ts|
    decreases |ts| - p, 3
  {
    if p == |ts| then Ok(Parsed(Undefined, p))
    else
      var t :- TermAt(ts, p);
      var l :- AdditiveTail(ts, t.node, t.pos);
      if ValueIn(ts, l.pos, LogicOps) then
        var q :- EatAt(ts, l.pos, "RELATIONAL_OPERATOR");
        var right :- DefaultExprAt(ts, q);
        Ok(Parsed(BinaryOperator(ts[l.pos].raw, l.node, right.node), right.pos))
      else Ok(l)
  }

  /** The additive loop of `defaultExpr()` with `acc` as the node built so far. */
  function AdditiveTail(ts: seq<Token>, acc: ScriptNode, p: nat): (r: Result<Parsed<ScriptNode>>)
    requires p <= |ts|
    ensures r.Ok? ==> p <= r.value.pos <= |ts|
    decreases |ts| - p, 0
  {
    if ValueIn(ts, p, AddOps) then
      var t :- TermAt(ts, p + 1);
      AdditiveTail(ts, BinaryOperator(ts[p].raw, acc, t.node), t.pos)
    else Ok(Parsed(acc, p))
  }

  /** The `forEach` of `expect(...syntax)` over the items left, with `acc` as the entries
      pushed so far: `eat` for a token type, pushing the token it leaves current, and
      `defaultExpr()` for `EXPR`, pushing its node. */
  function ExpectFrom(ts: seq<Token>, p: nat, items: seq<string>, acc: seq<Entry>): (r: Result<Parsed<seq<Entry>>>)
    requires p <= |ts|
    ensures r.Ok? ==> p <= r.value.pos <= |ts| && |r.value.node| == |acc| + |items| && r.value.node[..|acc|] == acc
    ensures r.Ok? ==> forall i :: 0 <= i < |items| ==> (r.value.node[|acc| + i].NodeEntry? <==> items[i] == "EXPR")
    ensures r.Ok? && p < |ts| && |items| > 0 && items[0] != "EXPR" ==> p < r.value.pos
    decreases |items|
  {
    if |items| == 0 then Ok(Parsed(acc, p))
    else if items[0] == "EXPR" then
      var e :- DefaultExprAt(ts, p);
      ExpectFrom(ts, e.pos, items[1..], acc + [NodeEntry(e.node)])
    else
      var q :- EatAt(ts, p, items[0]);
      ExpectFrom(ts, q, items[1..], acc + [TokenEntry(ScriptLexer.At(ts, q))])
  }

  /** `expect(...syntax)`: the current token, then one entry per item of `syntax`. */
  function ExpectAt(ts: seq<Token>, p: nat, syntax: seq<string>): (r: Result<Parsed<seq<Entry>>>)
    requires p <= |ts|
    ensures r.Ok? ==> p <= r.value.pos <= |ts| && |r.value.node| == |syntax| + 1
    ensures r.Ok? ==> r.value.node[0] == TokenEntry(ScriptLexer.At(ts, p))
    ensures r.Ok? ==> forall i :: 0 <= i < |syntax| ==> (r.value.node[i + 1].NodeEntry? <==> syntax[i] == "EXPR")
    ensures r.Ok? && p < |ts| && |syntax| > 0 && syntax[0] != "EXPR" ==> p < r.value.pos
  {
    var r := ExpectFrom(ts, p, syntax, [TokenEntry(ScriptLexer.At(ts, p))]);
    if r.Ok? then
      assert r.value.node[0] == r.value.node[..1][0];
      r
    else r
  }

  /** `variableDefinition()`: `expect("VARIABLE_DEFINITION", "IDENTIFIER", "EQUALS", "EXPR")`,
      whose entry 0 is the keyword, entry 1 the name (the token the first `eat` left
      current) and entry 4 the initializer. */
  function VariableDefinitionAt(ts: seq<Token>, p: nat): (r: Result<Parsed<ScriptNode>>)
    requires p < |ts|
    ensures r.Ok? ==> p < r.value.pos <= |ts| && r.value.node.VariableDeclaration?
  {
    var e :- ExpectAt(ts, p, ["VARIABLE_DEFINITION", "IDENTIFIER", "EQUALS", "EXPR"]);
    var definition := e.node[0].token;
    var variableName := e.node[1].token;
    if definition.None? || variableName.None? then Err(UndefinedRead)
    else Ok(Parsed(VariableDeclaration(definition.value.raw, variableName.value.raw, e.node[4].node), e.pos))
  }

  /** `ifStatement()`: `expect("IF_STATEMENT", "EXPR")`, whose entry 2 is the condition,
      then a `{`, the statements up to a `}`, and the `}`. */
  function IfStatementAt(ts: seq<Token>, p: nat): (r: Result<Parsed<ScriptNode>>)
    requires p < |ts|
    ensures r.Ok? ==> p < r.value.pos <= |ts| && r.value.node.IfStatement?
    decreases |ts| - p, 5
  {
    var e :- ExpectAt(ts, p, ["IF_STATEMENT", "EXPR"]);
    var q :- EatAt(ts, e.pos, "LEFT_BRACE");
    var body :- BodyAt(ts, q, []);
    // the body stopped at a RIGHT_BRACE or at the end, so this `eat` succeeds
    var end := EatAt(ts, body.pos, "RIGHT_BRACE").value;
    Ok(Parsed(IfStatement(e.node[2].node, body.node), end))
  }

  /** `identifier()`: a call when the token after the name has the text `(`, an assignment
      otherwise. */
  function IdentifierAt(ts: seq<Token>, p: nat): (r: Result<Parsed<ScriptNode>>)
    requires p <= |ts|
    ensures r.Ok? ==> p < r.value.pos <= |ts|
    ensures r.Ok? ==> r.value.node.CallExpression? || r.value.node.VariableAssignment?
    ensures r.Ok? ==> (r.value.node.CallExpression? <==> p + 1 < |ts| && ts[p + 1].raw == "(")
    ensures r.Ok? && r.value.node.CallExpression? ==> r.value.node.callee == ts[p].raw
    ensures r.Ok? && r.value.node.VariableAssignment? ==> r.value.node.id == ts[p].raw
    decreases |ts| - p, 5
  {
    if p == |ts| then Err(UndefinedRead)
    else
      var name := ts[p].raw;
      var q :- EatAt(ts, p, "IDENTIFIER");
      if q < |ts| && ts[q].raw == "(" then
        var l :- EatAt(ts, q, "LEFT_PARENTHESIS");
        var a :- ArgumentsAt(ts, l, []);
        // the arguments stopped at a RIGHT_PARENTHESIS or at the end
        var end := EatAt(ts, a.pos, "RIGHT_PARENTHESIS").value;
        Ok(Parsed(CallExpression(name, a.node), end))
      else
        var e :- EatAt(ts, q, "EQUALS");
        var v :- DefaultExprAt(ts, e);
        Ok(Parsed(VariableAssignment(name, v.node), v.pos))
  }

  /** The argument loop of `identifier()` and `functionDefinition()`: expressions until a
      RIGHT_PARENTHESIS, each optionally followed by a TRIM (comma) token; reading the
      kind of the token after an argument throws at the end of the stream. */
  function ArgumentsAt(ts: seq<Token>, p: nat, acc: seq<ScriptNode>): (r: Result<Parsed<seq<ScriptNode>>>)
    requires p <= |ts|
    ensures r.Ok? ==> p <= r.value.pos <= |ts| && acc <= r.value.node
    ensures r.Ok? ==> r.value.pos == |ts| || ts[r.value.pos].kind == "RIGHT_PARENTHESIS"
    decreases |ts| - p, 4
  {
    if p < |ts| && ts[p].kind != "RIGHT_PARENTHESIS" then
      var e :- DefaultExprAt(ts, p);
      if e.pos == |ts| then Err(UndefinedRead)
      else if ts[e.pos].kind == "TRIM" then ArgumentsAt(ts, e.pos + 1, acc + [e.node])
      else ArgumentsAt(ts, e.pos, acc + [e.node])
    else Ok(Parsed(acc, p))
  }

  /** `functionDefinition()`: `expect("FUNCTION_DEFINITION", "IDENTIFIER")`, whose entry 1
      is the name, then the parameters as expressions between parentheses and the body
      between braces. */
  function FunctionDefinitionAt(ts: seq<Token>, p: nat): (r: Result<Parsed<ScriptNode>>)
    requires p < |ts|
    ensures r.Ok? ==> p < r.value.pos <= |ts| && r.value.node.FunctionDeclaration?
    decreases |ts| - p, 5
  {
    var e :- ExpectAt(ts, p, ["FUNCTION_DEFINITION", "IDENTIFIER"]);
    var name := e.node[1].token;
    var l :- EatAt(ts, e.pos, "LEFT_PARENTHESIS");
    var a :- ArgumentsAt(ts, l, []);
    var c := EatAt(ts, a.pos, "RIGHT_PARENTHESIS").value;
    var b :- EatAt(ts, c, "LEFT_BRACE");
    var body :- BodyAt(ts, b, []);
    var end := EatAt(ts, body.pos, "RIGHT_BRACE").value;
    if name.None? then Err(UndefinedRead)
    else Ok(Parsed(FunctionDeclaration(name.value.raw, a.node, body.node), end))
  }

  /** The token kinds `scopeTest()` starts a statement at. */
  predicate IsStatementStart(kind: string)
  {
    kind in {"VARIABLE_DEFINITION", "IF_STATEMENT", "IDENTIFIER", "FUNCTION_DEFINITION"}
  }

  /** `scopeTest()`: the current token's kind selects a statement; any other token is
      skipped and yields `undefined`. */
  function ScopeTestAt(ts: seq<Token>, p: nat): (r: Result<Parsed<ScriptNode>>)
    requires p <= |ts|
    ensures r.Ok? ==> p < r.value.pos <= |ts|
    ensures r.Ok? ==> (r.value.node == Undefined <==> !IsStatementStart(ts[p].kind))
    ensures p < |ts| && !IsStatementStart(ts[p].kind) ==> r == Ok(Parsed(Undefined, p + 1))
    decreases |ts| - p, 6
  {
    if p == |ts| then Err(UndefinedRead)
    else
      var kind := ts[p].kind;
      if kind == "VARIABLE_DEFINITION" then VariableDefinitionAt(ts, p)
      else if kind == "IF_STATEMENT" then IfStatementAt(ts, p)
      else if kind == "IDENTIFIER" then IdentifierAt(ts, p)
      else if kind == "FUNCTION_DEFINITION" then FunctionDefinitionAt(ts, p)
      else Ok(Parsed(Undefined, p + 1))
  }

  /** The body loop of `ifStatement()` and `functionDefinition()`: `scopeTest()` until a
      RIGHT_BRACE or the end, pushing every result, `undefined` included. */
  function BodyAt(ts: seq<Token>, p: nat, acc: seq<ScriptNode>): (r: Result<Parsed<seq<ScriptNode>>>)
    requires p <= |ts|
    ensures r.Ok? ==> p <= r.value.pos <= |ts| && acc <= r.value.node
    ensures r.Ok? ==> r.value.pos == |ts| || ts[r.value.pos].kind == "RIGHT_BRACE"
    decreases |ts| - p, 7
  {
    if p < |ts| && ts[p].kind != "RIGHT_BRACE" then
      var d :- ScopeTestAt(ts, p);
      BodyAt(ts, d.pos, acc + [d.node])
    else Ok(Parsed(acc, p))
  }

  /** The loop of `parse()` from position `p`, with `acc` as the statements pushed so far:
      `scopeTest()` until the end of the stream. Every statement takes at least one token. */
  function ProgramFrom(ts: seq<Token>, p: nat, acc: seq<ScriptNode>): (r: Result<seq<ScriptNode>>)
    requires p <= |ts|
    ensures r.Ok? ==> acc <= r.value && |r.value| <= |acc| + |ts| - p
    decreases |ts| - p
  {
    if p == |ts| then Ok(acc)
    else
      var d :- ScopeTestAt(ts, p);
      ProgramFrom(ts, d.pos, acc + [d.node])
  }

  /** `parse()`: the program of a token list, with at most one statement per token. */
  function ParseOf(ts: seq<Token>): (r: Result<Program>)
    ensures r.Ok? ==> |r.value.body| <= |ts|
  {
    var body :- ProgramFrom(ts, 0, []);
    Ok(Program(body))
  }

  /** A declaration `kind name = expression` is the keyword's and the name's texts with the
      expression that starts after the `=`; the entries `expect` collects are not shifted. */
  lemma DeclarationEntries(ts: seq<Token>, p: nat)
    requires p + 2 < |ts|
    requires ts[p].kind == "VARIABLE_DEFINITION" && ts[p + 1].kind == "IDENTIFIER" && ts[p + 2].kind == "EQUALS"
    ensures VariableDefinitionAt(ts, p)
         == (var e :- DefaultExprAt(ts, p + 3); Ok(Parsed(VariableDeclaration(ts[p].raw, ts[p + 1].raw, e.node), e.pos)))
  {
    var syntax := ["VARIABLE_DEFINITION", "IDENTIFIER", "EQUALS", "EXPR"];
    var e0 := [TokenEntry(Some(ts[p]))];
    var e1 := e0 + [TokenEntry(Some(ts[p + 1]))];
    var e2 := e1 + [TokenEntry(Some(ts[p + 2]))];
    var e3 := e2 + [TokenEntry(ScriptLexer.At(ts, p + 3))];
    assert syntax[1..] == ["IDENTIFIER", "EQUALS", "EXPR"];
    assert syntax[1..][1..] == ["EQUALS", "EXPR"];
    assert syntax[1..][1..][1..] == ["EXPR"];
    assert ExpectAt(ts, p, syntax) == ExpectFrom(ts, p + 3, ["EXPR"], e3);
    var d := DefaultExprAt(ts, p + 3);
    if d.Ok? {
      assert ExpectFrom(ts, p + 3, ["EXPR"], e3) == ExpectFrom(ts, d.value.pos, [], e3 + [NodeEntry(d.value.node)]);
    }
  }

  /** A statement list in which no token starts a statement parses to one `undefined` per
      token: `scopeTest()` skips each of them. */
  lemma {:induction false} SkippedTokensUndefined(ts: seq<Token>, p: nat, acc: seq<ScriptNode>)
    requires p <= |ts|
    requires forall i :: p <= i < |ts| ==> !IsStatementStart(ts[i].kind)
    ensures ProgramFrom(ts, p, acc) == Ok(acc + seq(|ts| - p, _ => Undefined))
    decreases |ts| - p
  {
    if p < |ts| {
      SkippedTokensUndefined(ts, p + 1, acc + [Undefined]);
      assert (acc + [Undefined]) + seq(|ts| - (p + 1), _ => Undefined) == acc + seq(|ts| - p, _ => Undefined);
    } else {
      assert acc + seq(0, _ => Undefined) == acc;
    }
  }

  /** A token of the given kind and text. */
  function Tok(kind: string, raw: string): Token
  {
    Token(0, 0, 0, raw, kind)
  }

  /** The token kinds `factor()` turns into a node of one token. */
  const OperandKinds: set<string> := {"INTEGER_LITERAL", "STRING_LITERAL", "BOOLEAN_LITERAL", "IDENTIFIER"}
  const AllOps: set<string> := MulOps + AddOps + LogicOps

  /** A token `factor()` reads on its own: a literal or an identifier that is no sign. */
  predicate IsOperand(t: Token)
  {
    t.kind in OperandKinds && t.raw != "+" && t.raw != "-"
  }

  /** The node `factor()` makes of such a token. */
  function OperandOf(t: Token): (n: ScriptNode)
    requires IsOperand(t)
    ensures n.IntegerLiteral? || n.StringLiteral? || n.BooleanLiteral? || n.VariableReference?
    ensures n.VariableReference? <==> t.kind == "IDENTIFIER"
  {
    if t.kind == "INTEGER_LITERAL" then IntegerLiteral(t.raw)
    else if t.kind == "STRING_LITERAL" then StringLiteral(t.raw)
    else if t.kind == "BOOLEAN_LITERAL" then BooleanLiteral(t.raw)
    else VariableReference(t.raw)
  }

  lemma OperandFactor(ts: seq<Token>, p: nat)
    requires p < |ts| && IsOperand(ts[p])
    ensures FactorAt(ts, p) == Ok(Parsed(OperandOf(ts[p]), p + 1))
  {
  }

  /** An operand not followed by `*` or `/` is a whole term. */
  lemma OperandTerm(ts: seq<Token>, p: nat)
    requires p < |ts| && IsOperand(ts[p]) && !ValueIn(ts, p + 1, MulOps)
    ensures TermAt(ts, p) == Ok(Parsed(OperandOf(ts[p]), p + 1))
  {
    OperandFactor(ts, p);
  }

  /** An operand followed by no operator is a whole expression. */
  lemma OperandExpression(ts: seq<Token>, p: nat)
    requires p < |ts| && IsOperand(ts[p]) && !ValueIn(ts, p + 1, AllOps)
    ensures DefaultExprAt(ts, p) == Ok(Parsed(OperandOf(ts[p]), p + 1))
  {
    OperandTerm(ts, p);
    assert AdditiveTail(ts, OperandOf(ts[p]), p + 1) == Ok(Parsed(OperandOf(ts[p]), p + 1));
  }

  /** `a - b - c` groups to the left, `(a - b) - c`, for any operands and any two operators
      of the additive and comparison level. */
  lemma SubtractionGroupsLeft(ts: seq<Token>, p: nat)
    requires p + 5 <= |ts| && IsOperand(ts[p]) && IsOperand(ts[p + 2]) && IsOperand(ts[p + 4])
    requires ts[p + 1].raw in AddOps && ts[p + 3].raw in AddOps && !ValueIn(ts, p + 5, AllOps)
    ensures DefaultExprAt(ts, p) == Ok(Parsed(
      BinaryOperator(ts[p + 3].raw, BinaryOperator(ts[p + 1].raw, OperandOf(ts[p]), OperandOf(ts[p + 2])), OperandOf(ts[p + 4])),
      p + 5))
  {
    OperandTerm(ts, p);
    OperandTerm(ts, p + 2);
    OperandTerm(ts, p + 4);
    var ab := BinaryOperator(ts[p + 1].raw, OperandOf(ts[p]), OperandOf(ts[p + 2]));
    var abc := BinaryOperator(ts[p + 3].raw, ab, OperandOf(ts[p + 4]));
    assert AdditiveTail(ts, abc, p + 5) == Ok(Parsed(abc, p + 5));
    assert AdditiveTail(ts, ab, p + 3) == Ok(Parsed(abc, p + 5));
    assert AdditiveTail(ts, OperandOf(ts[p]), p + 1) == Ok(Parsed(abc, p + 5));
  }

  /** `a + b * c` binds the product first, `a + (b * c)`, for any operands, any operator of
      the additive level and either of `*` and `/`. */
  lemma ProductBindsTighter(ts: seq<Token>, p: nat)
    requires p + 5 <= |ts| && IsOperand(ts[p]) && IsOperand(ts[p + 2]) && IsOperand(ts[p + 4])
    requires ts[p + 1].raw in AddOps && ts[p + 3].raw in MulOps && !ValueIn(ts, p + 5, AllOps)
    ensures DefaultExprAt(ts, p) == Ok(Parsed(
      BinaryOperator(ts[p + 1].raw, OperandOf(ts[p]), BinaryOperator(ts[p + 3].raw, OperandOf(ts[p + 2]), OperandOf(ts[p + 4]))),
      p + 5))
  {
    OperandTerm(ts, p);
    OperandFactor(ts, p + 2);
    OperandFactor(ts, p + 4);
    var bc := BinaryOperator(ts[p + 3].raw, OperandOf(ts[p + 2]), OperandOf(ts[p + 4]));
    var abc := BinaryOperator(ts[p + 1].raw, OperandOf(ts[p]), bc);
    assert TermTail(ts, bc, p + 5) == Ok(Parsed(bc, p + 5));
    assert TermAt(ts, p + 2) == Ok(Parsed(bc, p + 5));
    assert AdditiveTail(ts, abc, p + 5) == Ok(Parsed(abc, p + 5));
    assert AdditiveTail(ts, OperandOf(ts[p]), p + 1) == Ok(Parsed(abc, p + 5));
  }

  /** `a && b || c` nests to the right, `a && (b || c)`, for any operands and any two of
      `&&` and `||`: the two bind alike. */
  lemma LogicNestsRight(ts: seq<Token>, p: nat)
    requires p + 5 <= |ts| && IsOperand(ts[p]) && IsOperand(ts[p + 2]) && IsOperand(ts[p + 4])
    requires ts[p + 1].raw in LogicOps && ts[p + 1].kind == "RELATIONAL_OPERATOR"
    requires ts[p + 3].raw in LogicOps && ts[p + 3].kind == "RELATIONAL_OPERATOR"
    requires !ValueIn(ts, p + 5, AllOps)
    ensures DefaultExprAt(ts, p) == Ok(Parsed(
      BinaryOperator(ts[p + 1].raw, OperandOf(ts[p]), BinaryOperator(ts[p + 3].raw, OperandOf(ts[p + 2]), OperandOf(ts[p + 4]))),
      p + 5))
  {
    OperandExpression(ts, p + 4);
    OperandTerm(ts, p + 2);
    var b := OperandOf(ts[p + 2]);
    assert AdditiveTail(ts, b, p + 3) == Ok(Parsed(b, p + 3));
    assert EatAt(ts, p + 3, "RELATIONAL_OPERATOR") == Ok(p + 4);
    assert DefaultExprAt(ts, p + 2) == Ok(Parsed(BinaryOperator(ts[p + 3].raw, b, OperandOf(ts[p + 4])), p + 5));
    OperandTerm(ts, p);
    var a := OperandOf(ts[p]);
    assert AdditiveTail(ts, a, p + 1) == Ok(Parsed(a, p + 1));
    assert EatAt(ts, p + 1, "RELATIONAL_OPERATOR") == Ok(p + 2);
  }

  /** A lone identifier, followed by a token that continues no expression, is a variable
      reference. */
  lemma IdentifierExpression(ts: seq<Token>, p: nat)
    requires p + 1 < |ts| && ts[p].kind == "IDENTIFIER" && ts[p].raw !in {"+", "-"}
    requires ts[p].kind !in {"INTEGER_LITERAL", "STRING_LITERAL", "BOOLEAN_LITERAL", "LEFT_PARENTHESIS"}
    requires ts[p + 1].raw !in MulOps && ts[p + 1].raw !in AddOps && ts[p + 1].raw !in LogicOps
    ensures DefaultExprAt(ts, p) == Ok(Parsed(VariableReference(ts[p].raw), p + 1))
  {
    var v := VariableReference(ts[p].raw);
    assert FactorAt(ts, p) == Ok(Parsed(v, p + 1));
    assert TermAt(ts, p) == Ok(Parsed(v, p + 1));
    assert AdditiveTail(ts, v, p + 1) == Ok(Parsed(v, p + 1));
  }

  /** `f(a, b)` is a call to `f` whose arguments are the expressions between the TRIM
      tokens, in order, for any callee position and any two operands. */
  lemma CallArgumentsSeparated(ts: seq<Token>, p: nat)
    requires p + 6 <= |ts| && ts[p].kind == "IDENTIFIER"
    requires ts[p + 1].kind == "LEFT_PARENTHESIS" && ts[p + 1].raw == "("
    requires IsOperand(ts[p + 2]) && IsOperand(ts[p + 4])
    requires ts[p + 3].kind == "TRIM" && !ValueIn(ts, p + 3, AllOps)
    requires ts[p + 5].kind == "RIGHT_PARENTHESIS" && !ValueIn(ts, p + 5, AllOps)
    ensures IdentifierAt(ts, p)
      == Ok(Parsed(CallExpression(ts[p].raw, [OperandOf(ts[p + 2]), OperandOf(ts[p + 4])]), p + 6))
  {
    var a, b := OperandOf(ts[p + 2]), OperandOf(ts[p + 4]);
    OperandExpression(ts, p + 2);
    OperandExpression(ts, p + 4);
    assert ArgumentsAt(ts, p + 5, [a, b]) == Ok(Parsed([a, b], p + 5));
    assert [a] + [b] == [a, b];
    assert ArgumentsAt(ts, p + 4, [a]) == ArgumentsAt(ts, p + 5, [a] + [b]);
    assert [] + [a] == [a];
    assert ArgumentsAt(ts, p + 2, []) == ArgumentsAt(ts, p + 4, [] + [a]);
  }

  /** `Parser`: the lexed tokens it pulls with `getNextToken()`, and the position of its
      `currentToken`. */
  class Parser {
    const tokens: seq<Token>
    var pos: nat

    /** `new Parser(lexer)`, whose first `getNextToken()` makes the first token current. */
    constructor(tokens: seq<Token>)
      ensures this.tokens == tokens && pos == 0
    {
      this.tokens := tokens;
      pos := 0;
    }

    /** `currentToken`. */
    function Current(): Option<Token>
      reads this
    {
      ScriptLexer.At(tokens, pos)
    }

    /** `eat(tokenType)`: the result is the token it leaves current. */
    method Eat(kind: string) returns (r: Result<Option<Token>>)
      requires pos <= |tokens|
      modifies this
      ensures pos <= |tokens|
      ensures Snap(r, pos) == (var q :- EatAt(tokens, old(pos), kind); Ok(Parsed(ScriptLexer.At(tokens, q), q)))
    {
      if pos == |tokens| {
        return Ok(None);
      }
      if tokens[pos].kind == kind {
        pos := pos + 1;
        return Ok(Current());
      }
      return Err(Unexpected(kind, tokens[pos].kind));
    }

    /** `expect(...syntax)`. */
    method Expect(syntax: seq<string>) returns (r: Result<seq<Entry>>)
      requires pos <= |tokens|
      modifies this
      ensures pos <= |tokens|
      ensures Snap(r, pos) == ExpectAt(tokens, old(pos), syntax)
    {
      var result := [TokenEntry(Current())];
      for i := 0 to |syntax|
        invariant old(pos) <= pos <= |tokens|
        invariant ExpectFrom(tokens, pos, syntax[i..], result) == ExpectAt(tokens, old(pos), syntax)
      {
        assert syntax[i..][1..] == syntax[i + 1..];
        if syntax[i] != "EXPR" {
          var token :- Eat(syntax[i]);
          result := result + [TokenEntry(token)];
        } else {
          var node :- DefaultExpr();
          result := result + [NodeEntry(node)];
        }
      }
      assert syntax[|syntax|..] == [];
      return Ok(result);
    }

    method Variable() returns (r: Result<ScriptNode>)
      requires pos <= |tokens|
      modifies this
      ensures pos <= |tokens|
      ensures Snap(r, pos) == VariableAt(tokens, old(pos))
    {
      var token := Current();
      var _ :- Eat("IDENTIFIER");
      if token.None? {
        return Err(UndefinedRead);
      }
      return Ok(VariableReference(token.value.raw));
    }

    method Factor() returns (r: Result<ScriptNode>)
      requires pos <= |tokens|
      modifies this
      ensures pos <= |tokens|
      ensures Snap(r, pos) == FactorAt(tokens, old(pos))
      decreases |tokens| - pos, 1
    {
      if pos == |tokens| {
        return Err(UndefinedRead);
      }
      var tokenValue := tokens[pos].raw;
      var tokenName := tokens[pos].kind;
      if tokenValue == "+" || tokenValue == "-" {
        var _ := Eat(tokenName);
        var operand :- Factor();
        return Ok(UnaryOperator(tokenValue, operand));
      } else if tokenName == "INTEGER_LITERAL" {
        var _ := Eat(tokenName);
        return Ok(IntegerLiteral(tokenValue));
      } else if tokenName == "STRING_LITERAL" {
        var _ := Eat(tokenName);
        return Ok(StringLiteral(tokenValue));
      } else if tokenName == "BOOLEAN_LITERAL" {
        var _ := Eat(tokenName);
        return Ok(BooleanLiteral(tokenValue));
      } else if tokenName == "LEFT_PARENTHESIS" {
        var _ := Eat("LEFT_PARENTHESIS");
        var result :- DefaultExpr();
        var _ :- Eat("RIGHT_PARENTHESIS");
        return Ok(result);
      }
      r := Variable();
    }

    method Term() returns (r: Result<ScriptNode>)
      requires pos <= |tokens|
      modifies this
      ensures pos <= |tokens|
      ensures Snap(r, pos) == TermAt(tokens, old(pos))
      decreases |tokens| - pos, 2
    {
      var node :- Factor();
      r := TermLoop(node);
    }

    /** The loop of `term()`, from the node its first factor built. */
    method TermLoop(first: ScriptNode) returns (r: Result<ScriptNode>)
      requires pos <= |tokens|
      modifies this
      ensures pos <= |tokens|
      ensures Snap(r, pos) == TermTail(tokens, first, old(pos))
      decreases |tokens| - pos, 0
    {
      var node := first;
      while ValueIn(tokens, pos, MulOps)
        invariant old(pos) <= pos <= |tokens|
        invariant TermTail(tokens, node, pos) == TermTail(tokens, first, old(pos))
        decreases |tokens| - pos
      {
        var operator := tokens[pos].raw;
        var _ := Eat(tokens[pos].kind);
        var right :- Factor();
        node := BinaryOperator(operator, node, right);
      }
      return Ok(node);
    }

    method DefaultExpr() returns (r: Result<ScriptNode>)
      requires pos <= |tokens|
      modifies this
      ensures pos <= |tokens|
      ensures Snap(r, pos) == DefaultExprAt(tokens, old(pos))
      decreases |tokens| - pos, 3
    {
      if pos == |tokens| {
        return Ok(Undefined);
      }
      var first :- Term();
      var expr :- AdditiveLoop(first);
      if ValueIn(tokens, pos, LogicOps) {
        var operator := tokens[pos].raw;
        var _ :- Eat("RELATIONAL_OPERATOR");
        var right :- DefaultExpr();
        return Ok(BinaryOperator(operator, expr, right));
      }
      return Ok(expr);
    }

    /** The additive loop of `defaultExpr()`, from the node its first term built. */
    method AdditiveLoop(first: ScriptNode) returns (r: Result<ScriptNode>)
      requires pos <= |tokens|
      modifies this
      ensures pos <= |tokens| && (r.Ok? ==> old(pos) <= pos)
      ensures Snap(r, pos) == AdditiveTail(tokens, first, old(pos))
      decreases |tokens| - pos, 0
    {
      var node := first;
      while ValueIn(tokens, pos, AddOps)
        invariant old(pos) <= pos <= |tokens|
        invariant AdditiveTail(tokens, node, pos) == AdditiveTail(tokens, first, old(pos))
        decreases |tokens| - pos
      {
        var operator := tokens[pos].raw;
        var _ := Eat(tokens[pos].kind);
        var right :- Term();
        node := BinaryOperator(operator, node, right);
      }
      return Ok(node);
    }

    method VariableDefinition() returns (r: Result<ScriptNode>)
      requires pos < |tokens|
      modifies this
      ensures pos <= |tokens|
      ensures Snap(r, pos) == VariableDefinitionAt(tokens, old(pos))
    {
      var expectation :- Expect(["VARIABLE_DEFINITION", "IDENTIFIER", "EQUALS", "EXPR"]);
      var definition := expectation[0].token;
      var variableName := expectation[1].token;
      var expression := expectation[4].node;
      if definition.None? || variableName.None? {
        return Err(UndefinedRead);
      }
      return Ok(VariableDeclaration(definition.value.raw, variableName.value.raw, expression));
    }

    method IfStatement() returns (r: Result<ScriptNode>)
      requires pos < |tokens|
      modifies this
      ensures pos <= |tokens|
      ensures Snap(r, pos) == IfStatementAt(tokens, old(pos))
      decreases |tokens| - pos, 5
    {
      var expectation :- Expect(["IF_STATEMENT", "EXPR"]);
      var _ :- Eat("LEFT_BRACE");
      var body :- Body();
      var _ := Eat("RIGHT_BRACE");
      return Ok(ScriptNode.IfStatement(expectation[2].node, body));
    }

    method Identifier() returns (r: Result<ScriptNode>)
      requires pos <= |tokens|
      modifies this
      ensures pos <= |tokens|
      ensures Snap(r, pos) == IdentifierAt(tokens, old(pos))
      decreases |tokens| - pos, 5
    {
      var token := Current();
      if token.None? {
        return Err(UndefinedRead);
      }
      var _ :- Eat("IDENTIFIER");
      if pos < |tokens| && tokens[pos].raw == "(" {
        var _ :- Eat("LEFT_PARENTHESIS");
        var args :- Arguments();
        var _ := Eat("RIGHT_PARENTHESIS");
        return Ok(CallExpression(token.value.raw, args));
      }
      var _ :- Eat("EQUALS");
      var value :- DefaultExpr();
      return Ok(VariableAssignment(token.value.raw, value));
    }

    /** The argument loop shared by `identifier()` and `functionDefinition()`. */
    method Arguments() returns (r: Result<seq<ScriptNode>>)
      requires pos <= |tokens|
      modifies this
      ensures pos <= |tokens|
      ensures Snap(r, pos) == ArgumentsAt(tokens, old(pos), [])
      decreases |tokens| - pos, 4
    {
      var args: seq<ScriptNode> := [];
      while pos < |tokens| && tokens[pos].kind != "RIGHT_PARENTHESIS"
        invariant old(pos) <= pos <= |tokens|
        invariant ArgumentsAt(tokens, pos, args) == ArgumentsAt(tokens, old(pos), [])
        decreases |tokens| - pos
      {
        var arg :- DefaultExpr();
        args := args + [arg];
        if pos == |tokens| {
          return Err(UndefinedRead);
        }
        if tokens[pos].kind == "TRIM" {
          var _ := Eat("TRIM");
        }
      }
      return Ok(args);
    }

    method FunctionDefinition() returns (r: Result<ScriptNode>)
      requires pos < |tokens|
      modifies this
      ensures pos <= |tokens|
      ensures Snap(r, pos) == FunctionDefinitionAt(tokens, old(pos))
      decreases |tokens| - pos, 5
    {
      var expectation :- Expect(["FUNCTION_DEFINITION", "IDENTIFIER"]);
      var name := expectation[1].token;
      var _ :- Eat("LEFT_PARENTHESIS");
      var args :- Arguments();
      var _ := Eat("RIGHT_PARENTHESIS");
      var _ :- Eat("LEFT_BRACE");
      var body :- Body();
      var _ := Eat("RIGHT_BRACE");
      if name.None? {
        return Err(UndefinedRead);
      }
      return Ok(FunctionDeclaration(name.value.raw, args, body));
    }

    /** The body loop shared by `ifStatement()` and `functionDefinition()`. */
    method Body() returns (r: Result<seq<ScriptNode>>)
      requires pos <= |tokens|
      modifies this
      ensures pos <= |tokens|
      ensures Snap(r, pos) == BodyAt(tokens, old(pos), [])
      decreases |tokens| - pos, 7
    {
      var body: seq<ScriptNode> := [];
      while pos < |tokens| && tokens[pos].kind != "RIGHT_BRACE"
        invariant old(pos) <= pos <= |tokens|
        invariant BodyAt(tokens, pos, body) == BodyAt(tokens, old(pos), [])
        decreases |tokens| - pos
      {
        var node :- ScopeTest();
        body := body + [node];
      }
      return Ok(body);
    }

    method ScopeTest() returns (r: Result<ScriptNode>)
      requires pos <= |tokens|
      modifies this
      ensures pos <= |tokens|
      ensures Snap(r, pos) == ScopeTestAt(tokens, old(pos))
      decreases |tokens| - pos, 6
    {
      if pos == |tokens| {
        return Err(UndefinedRead);
      }
      var kind := tokens[pos].kind;
      if kind == "VARIABLE_DEFINITION" {
        r := VariableDefinition();
      } else if kind == "IF_STATEMENT" {
        r := IfStatement();
      } else if kind == "IDENTIFIER" {
        r := Identifier();
      } else if kind == "FUNCTION_DEFINITION" {
        r := FunctionDefinition();
      } else {
        pos := pos + 1;
        r := Ok(Undefined);
      }
    }

    /** `parse()`: from a fresh parser, the program of the whole token list. */
    method Parse() returns (r: Result<Program>)
      requires pos <= |tokens|
      modifies this
      ensures r == (var body :- ProgramFrom(tokens, old(pos), []); Ok(Program(body)))
      ensures old(pos) == 0 ==> r == ParseOf(tokens)
    {
      var body: seq<ScriptNode> := [];
      while pos < |tokens|
        invariant old(pos) <= pos <= |tokens|
        invariant ProgramFrom(tokens, pos, body) == ProgramFrom(tokens, old(pos), [])
        decreases |tokens| - pos
      {
        var node :- ScopeTest();
        body := body + [node];
      }
      return Ok(Program(body));
    }
  }
}
