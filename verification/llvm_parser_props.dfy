/** Properties of the parser of `source/parser/parser.ts`: operator precedence and
    associativity, the identifier lookahead, dropped statements, function headers and
    `return`. */
module LlvmParserProperties {
  import opened Results
  import opened Text
  import opened Tokens
  import opened Ast
  import opened LlvmParser

  const LiteralKinds: set<string> := {"INTEGER_LITERAL", "FLOAT_LITERAL", "STRING_LITERAL", "BOOLEAN_LITERAL"}
  const AllOps: set<string> := MulOps + AddOps + LogicOps

  predicate IsLiteral(t: Token)
  {
    t.kind in LiteralKinds
  }

  /** The node `factor()` makes of a literal token. */
  function LiteralOf(t: Token): (n: Node)
    requires IsLiteral(t)
    ensures n.IntegerLiteral? || n.FloatLiteral? || n.StringLiteral? || n.BooleanLiteral?
  {
    if t.kind == "INTEGER_LITERAL" then IntegerLiteral(ParseInt(t.raw))
    else if t.kind == "FLOAT_LITERAL" then FloatLiteral(t.raw)
    else if t.kind == "STRING_LITERAL" then StringLiteral(t.raw)
    else BooleanLiteral(t.raw == "true")
  }

  lemma LiteralFactor(ts: seq<Token>, p: nat)
    requires p < |ts| && IsLiteral(ts[p])
    ensures FactorAt(ts, p) == Ok(Parsed(LiteralOf(ts[p]), p + 1))
  {
  }

  /** A literal not followed by `*` or `/` is a whole term. */
  lemma LiteralTerm(ts: seq<Token>, p: nat)
    requires p < |ts| && IsLiteral(ts[p]) && !RawIn(ts, p + 1, MulOps)
    ensures TermAt(ts, p) == Ok(Parsed(LiteralOf(ts[p]), p + 1))
  {
    LiteralFactor(ts, p);
  }

  /** `a * b / c` is `(a * b) / c`. */
  lemma TermLeftAssociative(ts: seq<Token>, p: nat)
    requires p + 5 <= |ts|
    requires IsLiteral(ts[p]) && IsLiteral(ts[p + 2]) && IsLiteral(ts[p + 4])
    requires ts[p + 1].raw in MulOps && ts[p + 3].raw in MulOps && !RawIn(ts, p + 5, MulOps)
    ensures TermAt(ts, p) == Ok(Parsed(
      Expression(Expression(LiteralOf(ts[p]), LiteralOf(ts[p + 2]), ts[p + 1].raw), LiteralOf(ts[p + 4]), ts[p + 3].raw),
      p + 5))
  {
    LiteralFactor(ts, p);
    LiteralFactor(ts, p + 2);
    LiteralFactor(ts, p + 4);
    var ab := Expression(LiteralOf(ts[p]), LiteralOf(ts[p + 2]), ts[p + 1].raw);
    var abc := Expression(ab, LiteralOf(ts[p + 4]), ts[p + 3].raw);
    assert TermTail(ts, abc, p + 5) == Ok(Parsed(abc, p + 5));
    assert TermTail(ts, ab, p + 3) == Ok(Parsed(abc, p + 5));
    assert TermTail(ts, LiteralOf(ts[p]), p + 1) == Ok(Parsed(abc, p + 5));
  }

  /** `a - b - c` is `(a - b) - c`, for every operator of the additive level. */
  lemma ExpressionLeftAssociative(ts: seq<Token>, p: nat)
    requires p + 5 <= |ts|
    requires IsLiteral(ts[p]) && IsLiteral(ts[p + 2]) && IsLiteral(ts[p + 4])
    requires ts[p + 1].raw in AddOps && ts[p + 3].raw in AddOps && !RawIn(ts, p + 5, AllOps)
    ensures ExpressionAt(ts, p) == Ok(Parsed(
      Expression(Expression(LiteralOf(ts[p]), LiteralOf(ts[p + 2]), ts[p + 1].raw), LiteralOf(ts[p + 4]), ts[p + 3].raw),
      p + 5))
  {
    LiteralTerm(ts, p);
    LiteralTerm(ts, p + 2);
    LiteralTerm(ts, p + 4);
    var ab := Expression(LiteralOf(ts[p]), LiteralOf(ts[p + 2]), ts[p + 1].raw);
    var abc := Expression(ab, LiteralOf(ts[p + 4]), ts[p + 3].raw);
    assert ExpressionTail(ts, abc, p + 5) == Ok(Parsed(abc, p + 5));
    assert ExpressionTail(ts, ab, p + 3) == Ok(Parsed(abc, p + 5));
    assert ExpressionTail(ts, LiteralOf(ts[p]), p + 1) == Ok(Parsed(abc, p + 5));
  }

  /** `a + b * c` is `a + (b * c)`. */
  lemma MultiplicationBindsTighter(ts: seq<Token>, p: nat)
    requires p + 5 <= |ts|
    requires IsLiteral(ts[p]) && IsLiteral(ts[p + 2]) && IsLiteral(ts[p + 4])
    requires ts[p + 1].raw in AddOps && ts[p + 3].raw in MulOps && !RawIn(ts, p + 5, AllOps)
    ensures ExpressionAt(ts, p) == Ok(Parsed(
      Expression(LiteralOf(ts[p]), Expression(LiteralOf(ts[p + 2]), LiteralOf(ts[p + 4]), ts[p + 3].raw), ts[p + 1].raw),
      p + 5))
  {
    LiteralTerm(ts, p);
    LiteralFactor(ts, p + 2);
    LiteralFactor(ts, p + 4);
    var bc := Expression(LiteralOf(ts[p + 2]), LiteralOf(ts[p + 4]), ts[p + 3].raw);
    var abc := Expression(LiteralOf(ts[p]), bc, ts[p + 1].raw);
    assert TermTail(ts, bc, p + 5) == Ok(Parsed(bc, p + 5));
    assert TermAt(ts, p + 2) == Ok(Parsed(bc, p + 5));
    assert ExpressionTail(ts, abc, p + 5) == Ok(Parsed(abc, p + 5));
    assert ExpressionTail(ts, LiteralOf(ts[p]), p + 1) == Ok(Parsed(abc, p + 5));
  }

  /** `a % b * c` is `a % (b * c)`: `%` sits at the additive level. */
  lemma RemainderIsAdditive(ts: seq<Token>, p: nat)
    requires p + 5 <= |ts|
    requires IsLiteral(ts[p]) && IsLiteral(ts[p + 2]) && IsLiteral(ts[p + 4])
    requires ts[p + 1].raw == "%" && ts[p + 3].raw == "*" && !RawIn(ts, p + 5, AllOps)
    ensures ExpressionAt(ts, p) == Ok(Parsed(
      Expression(LiteralOf(ts[p]), Expression(LiteralOf(ts[p + 2]), LiteralOf(ts[p + 4]), "*"), "%"),
      p + 5))
  {
    MultiplicationBindsTighter(ts, p);
  }

  /** `a && b || c` is `a && (b || c)`: the logical operators recurse on the rest. */
  lemma LogicalRightRecursive(ts: seq<Token>, p: nat)
    requires p + 5 <= |ts|
    requires IsLiteral(ts[p]) && IsLiteral(ts[p + 2]) && IsLiteral(ts[p + 4])
    requires ts[p + 1].raw in LogicOps && ts[p + 1].kind == "RELATIONAL_OPERATOR"
    requires ts[p + 3].raw in LogicOps && ts[p + 3].kind == "RELATIONAL_OPERATOR"
    requires !RawIn(ts, p + 5, AllOps)
    ensures ExpressionAt(ts, p) == Ok(Parsed(
      Expression(LiteralOf(ts[p]), Expression(LiteralOf(ts[p + 2]), LiteralOf(ts[p + 4]), ts[p + 3].raw), ts[p + 1].raw),
      p + 5))
  {
    LiteralTerm(ts, p);
    LiteralTerm(ts, p + 2);
    LiteralTerm(ts, p + 4);
    var c := LiteralOf(ts[p + 4]);
    assert ExpressionTail(ts, c, p + 5) == Ok(Parsed(c, p + 5));
    assert ExpressionAt(ts, p + 4) == Ok(Parsed(c, p + 5));
    var b := LiteralOf(ts[p + 2]);
    assert ExpressionTail(ts, b, p + 3) == Ok(Parsed(b, p + 3));
    assert ExpressionAt(ts, p + 2) == Ok(Parsed(Expression(b, c, ts[p + 3].raw), p + 5));
    var a := LiteralOf(ts[p]);
    assert ExpressionTail(ts, a, p + 1) == Ok(Parsed(a, p + 1));
  }

  /** `a && b + c` is `a && (b + c)`: a logical operator takes everything after it. */
  lemma LogicalBindsLoosest(ts: seq<Token>, p: nat)
    requires p + 5 <= |ts|
    requires IsLiteral(ts[p]) && IsLiteral(ts[p + 2]) && IsLiteral(ts[p + 4])
    requires ts[p + 1].raw in LogicOps && ts[p + 1].kind == "RELATIONAL_OPERATOR"
    requires ts[p + 3].raw in AddOps && !RawIn(ts, p + 5, AllOps)
    ensures ExpressionAt(ts, p) == Ok(Parsed(
      Expression(LiteralOf(ts[p]), Expression(LiteralOf(ts[p + 2]), LiteralOf(ts[p + 4]), ts[p + 3].raw), ts[p + 1].raw),
      p + 5))
  {
    LiteralTerm(ts, p);
    ExpressionLeftAssociativeOne(ts, p + 2);
    var a := LiteralOf(ts[p]);
    var bc := Expression(LiteralOf(ts[p + 2]), LiteralOf(ts[p + 4]), ts[p + 3].raw);
    assert ExpressionTail(ts, a, p + 1) == Ok(Parsed(a, p + 1));
    assert ExpectAt(ts, p + 1, "RELATIONAL_OPERATOR") == Ok(p + 2);
    assert ExpressionAt(ts, p + 2) == Ok(Parsed(bc, p + 5));
  }

  /** `b + c` followed by no operator. */
  lemma ExpressionLeftAssociativeOne(ts: seq<Token>, p: nat)
    requires p + 3 <= |ts|
    requires IsLiteral(ts[p]) && IsLiteral(ts[p + 2])
    requires ts[p + 1].raw in AddOps && !RawIn(ts, p + 3, AllOps)
    ensures ExpressionAt(ts, p) == Ok(Parsed(Expression(LiteralOf(ts[p]), LiteralOf(ts[p + 2]), ts[p + 1].raw), p + 3))
  {
    LiteralTerm(ts, p);
    LiteralTerm(ts, p + 2);
    var bc := Expression(LiteralOf(ts[p]), LiteralOf(ts[p + 2]), ts[p + 1].raw);
    assert ExpressionTail(ts, bc, p + 3) == Ok(Parsed(bc, p + 3));
    assert ExpressionTail(ts, LiteralOf(ts[p]), p + 1) == Ok(Parsed(bc, p + 3));
  }

  /** After an identifier one token decides: `(` makes a call, `=` an assignment, and any
      other token a variable read that consumes only the name. */
  lemma IdentifierLookahead(ts: seq<Token>, p: nat)
    requires p + 1 < |ts| && ts[p].kind == "IDENTIFIER"
    ensures var r := IdentifierAt(ts, p);
      && (r.Ok? && ts[p + 1].kind == "LEFT_PARENTHESIS" ==> r.value.node.Call? && r.value.node.name == ts[p].raw)
      && (r.Ok? && ts[p + 1].kind == "EQUALS" ==> r.value.node.SetVariable? && r.value.node.name == ts[p].raw)
      && (ts[p + 1].kind != "LEFT_PARENTHESIS" && ts[p + 1].kind != "EQUALS" ==> r == Ok(Parsed(Variable(ts[p].raw), p + 1)))
  {
  }

  /** A literal followed by a token that is no operator is a whole expression. */
  lemma LiteralExpression(ts: seq<Token>, p: nat)
    requires p + 1 < |ts| && IsLiteral(ts[p]) && !RawIn(ts, p + 1, AllOps)
    ensures ExpressionAt(ts, p) == Ok(Parsed(LiteralOf(ts[p]), p + 1))
  {
    LiteralTerm(ts, p);
    assert ExpressionTail(ts, LiteralOf(ts[p]), p + 1) == Ok(Parsed(LiteralOf(ts[p]), p + 1));
  }

  /** An argument followed by a comma: the loop goes on after the comma. */
  lemma ArgThenComma(ts: seq<Token>, p: nat, acc: seq<Node>, e: Parsed<Node>)
    requires p < |ts| && ts[p].raw != ")" && ExpressionAt(ts, p) == Ok(e)
    requires e.pos < |ts| && ts[e.pos].kind == "COMMA" && ts[e.pos].raw == ","
    ensures ArgsAt(ts, p, acc) == ArgsAt(ts, e.pos + 1, acc + [e.node])
  {
    assert ExpectAt(ts, e.pos, "COMMA") == Ok(e.pos + 1);
  }

  /** An identifier followed by `(`, arguments and `)` is a call with those arguments. */
  lemma CallOfArgs(ts: seq<Token>, p: nat, args: seq<Node>, q: nat)
    requires p + 2 <= |ts| && ts[p].kind == "IDENTIFIER" && ts[p + 1].kind == "LEFT_PARENTHESIS"
    requires ArgsAt(ts, p + 2, []) == Ok(Parsed(args, q)) && q < |ts| && ts[q].kind == "RIGHT_PARENTHESIS"
    ensures IdentifierAt(ts, p) == Ok(Parsed(Call(ts[p].raw, args), q + 1))
  {
    assert ExpectAt(ts, p, "IDENTIFIER") == Ok(p + 1);
    assert ExpectAt(ts, q, "RIGHT_PARENTHESIS") == Ok(q + 1);
  }

  /** The last argument, followed by `)`: the loop ends before the `)`. */
  lemma ArgThenClose(ts: seq<Token>, p: nat, acc: seq<Node>, e: Parsed<Node>)
    requires p < |ts| && ts[p].raw != ")" && ExpressionAt(ts, p) == Ok(e)
    requires e.pos < |ts| && ts[e.pos].raw == ")"
    ensures ArgsAt(ts, p, acc) == Ok(Parsed(acc + [e.node], e.pos))
  {
  }

  /** `f(a, b)` is a call with the arguments in order. */
  lemma CallArgumentsInOrder(ts: seq<Token>, p: nat)
    requires p + 6 <= |ts|
    requires ts[p].kind == "IDENTIFIER" && ts[p + 1].kind == "LEFT_PARENTHESIS"
    requires IsLiteral(ts[p + 2]) && IsLiteral(ts[p + 4]) && ts[p + 2].raw != ")" && ts[p + 4].raw != ")"
    requires ts[p + 3].kind == "COMMA" && ts[p + 3].raw == ","
    requires ts[p + 5].kind == "RIGHT_PARENTHESIS" && ts[p + 5].raw == ")"
    ensures IdentifierAt(ts, p) == Ok(Parsed(Call(ts[p].raw, [LiteralOf(ts[p + 2]), LiteralOf(ts[p + 4])]), p + 6))
  {
    var a, b := LiteralOf(ts[p + 2]), LiteralOf(ts[p + 4]);
    LiteralExpression(ts, p + 2);
    LiteralExpression(ts, p + 4);
    ArgThenClose(ts, p + 4, [a], Parsed(b, p + 5));
    ArgThenComma(ts, p + 2, [], Parsed(a, p + 3));
    assert [] + [a] + [b] == [a, b];
    CallOfArgs(ts, p, [a, b], p + 5);
  }

  /** `while c { }` produces nothing, and `parse` moves past it without adding a node. */
  lemma EmptyWhileVanishes(ts: seq<Token>, p: nat, acc: seq<Node>)
    requires p + 4 <= |ts|
    requires ts[p].kind == "KEYWORD" && ts[p].raw == "while"
    requires IsLiteral(ts[p + 1]) && !RawIn(ts, p + 2, AllOps)
    requires ts[p + 2].kind == "LEFT_BRACE" && ts[p + 3].kind == "RIGHT_BRACE"
    ensures DecidePartAt(ts, p) == Ok(Parsed(None, p + 4))
    ensures ItemsAt(ts, p, acc) == ItemsAt(ts, p + 4, acc)
  {
    var c := LiteralOf(ts[p + 1]);
    LiteralTerm(ts, p + 1);
    assert ExpressionTail(ts, c, p + 2) == Ok(Parsed(c, p + 2));
    assert ExpressionAt(ts, p + 1) == Ok(Parsed(c, p + 2));
    assert BodyAt(ts, p + 3, []) == Ok(Parsed([], p + 3));
    assert BlockAt(ts, p + 2) == Ok(Parsed([], p + 4));
    assert WhileAt(ts, p + 1) == Ok(Parsed(None, p + 4));
    assert KeywordAt(ts, p) == Ok(Parsed(None, p + 4));
  }

  /** `if c { }` produces nothing, whatever else-part follows. */
  lemma EmptyIfVanishes(ts: seq<Token>, p: nat)
    requires p + 4 <= |ts|
    requires ts[p].kind == "KEYWORD" && ts[p].raw == "if"
    requires IsLiteral(ts[p + 1]) && !RawIn(ts, p + 2, AllOps)
    requires ts[p + 2].kind == "LEFT_BRACE" && ts[p + 3].kind == "RIGHT_BRACE"
    ensures DecidePartAt(ts, p).Ok? ==> DecidePartAt(ts, p).value.node == None
  {
    var c := LiteralOf(ts[p + 1]);
    LiteralTerm(ts, p + 1);
    assert ExpressionTail(ts, c, p + 2) == Ok(Parsed(c, p + 2));
    assert ExpressionAt(ts, p + 1) == Ok(Parsed(c, p + 2));
    assert BodyAt(ts, p + 3, []) == Ok(Parsed([], p + 3));
    assert BlockAt(ts, p + 2) == Ok(Parsed([], p + 4));
    assert IfAt(ts, p + 1).Ok? ==> IfAt(ts, p + 1).value.node == None;
    assert KeywordAt(ts, p) == IfAt(ts, p + 1);
  }

  /** `else` must be followed by `{`, so `else if` is fatal. */
  lemma ElseIfIsFatal(ts: seq<Token>, p: nat)
    requires p + 1 < |ts|
    requires ts[p].kind == "KEYWORD" && ts[p].raw == "else" && ts[p + 1].kind != "LEFT_BRACE"
    ensures ElseAt(ts, p).Err?
  {
  }

  /** A token that starts neither a keyword statement nor an expression is consumed and
      produces nothing, and `parse` keeps only the nodes it gets. */
  lemma SkippedToken(ts: seq<Token>, p: nat, acc: seq<Node>)
    requires p < |ts| && ts[p].kind != "KEYWORD" && ts[p].kind !in ExpressionKinds
    ensures DecidePartAt(ts, p) == Ok(Parsed(None, p + 1))
    ensures ItemsAt(ts, p, acc) == ItemsAt(ts, p + 1, acc)
  {
  }

  /** A boolean literal cannot start a statement: `true` on its own is skipped. */
  lemma BooleanStatementSkipped(ts: seq<Token>, p: nat)
    requires p < |ts| && ts[p].kind == "BOOLEAN_LITERAL"
    ensures DecidePartAt(ts, p) == Ok(Parsed(None, p + 1))
  {
    SkippedToken(ts, p, []);
  }

  /** `...` sets the vararg flag when `)` follows it and is fatal otherwise. */
  lemma VarArgMustBeLast(ts: seq<Token>, p: nat, acc: seq<Param>)
    requires p + 3 < |ts|
    requires ts[p].raw == "." && ts[p].kind == "DOT" && ts[p + 1].kind == "DOT" && ts[p + 2].kind == "DOT"
    ensures ts[p + 3].kind == "RIGHT_PARENTHESIS" ==> ParamsAt(ts, p, acc) == Ok(Parsed((acc, true), p + 3))
    ensures ts[p + 3].kind != "RIGHT_PARENTHESIS" ==> ParamsAt(ts, p, acc).Err?
  {
  }

  /** Without `: type` after the parameter list, the return type is "void". */
  lemma DefaultReturnType(ts: seq<Token>, p: nat)
    requires p < |ts| && ts[p].raw != ":"
    ensures ReturnTypeAt(ts, p) == Ok(Parsed("void", p))
  {
  }

  /** A function header always yields a `FunctionNode` carrying the `external` flag it was
      read with, and an external function has no body. */
  lemma FunctionShape(ts: seq<Token>, p: nat, isExternal: bool)
    requires p <= |ts|
    ensures var r := FunctionAt(ts, p, isExternal);
      r.Ok? ==>
        (r.value.node.Some? && r.value.node.value.Function?
         && r.value.node.value.isExternal == isExternal
         && (isExternal ==> r.value.node.value.scope == []))
  {
  }

  /** `return` carries a value exactly when the next token can start an expression. */
  lemma ReturnValueIff(ts: seq<Token>, p: nat)
    requires p < |ts|
    ensures ts[p].kind !in ExpressionKinds ==> ReturnAt(ts, p) == Ok(Parsed(Some(Return(None)), p))
    ensures var r := ReturnAt(ts, p);
      r.Ok? ==>
        (r.value.node.Some? && r.value.node.value.Return?
         && (r.value.node.value.result.Some? <==> ts[p].kind in ExpressionKinds))
  {
  }

  /** `return true`: the value-less return, then the literal is skipped as a statement. */
  lemma ReturnTrueHasNoValue(ts: seq<Token>, p: nat)
    requires p + 1 < |ts| && ts[p].kind == "KEYWORD" && ts[p].raw == "return"
    requires ts[p + 1].kind == "BOOLEAN_LITERAL"
    ensures KeywordAt(ts, p) == Ok(Parsed(Some(Return(None)), p + 1))
  {
    ReturnValueIff(ts, p + 1);
  }
}
