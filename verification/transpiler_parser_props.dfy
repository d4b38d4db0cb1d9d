/** Properties of the parser of `source/parser.ts`: what `factor` makes of each token,
    operator precedence and associativity, the identifier lookahead, call arguments,
    declarations, and the statements `codeBlock` and `work` skip. */
module TranspilerParserProperties {
  import opened Results
  import opened Text
  import opened Tokens
  import opened TranspilerAst
  import opened TranspilerParser

  const LiteralKinds: set<string> := {"INTEGER_LITERAL", "STRING_LITERAL", "BOOLEAN_LITERAL"}
  const AllOps: set<string> := MulOps + AddOps + LogicOps

  /** A token `factor()` reads as a literal: `+` and `-` are tested first, whatever the kind. */
  predicate IsLiteral(t: Token)
  {
    t.kind in LiteralKinds && t.raw != "+" && t.raw != "-"
  }

  /** The node `factor()` makes of a literal token. */
  function LiteralOf(t: Token): (n: Node)
    requires IsLiteral(t)
    ensures n.IntegerLiteral? || n.StringLiteral? || n.BooleanLiteral?
  {
    if t.kind == "INTEGER_LITERAL" then IntegerLiteral(ParseInt(t.raw))
    else if t.kind == "STRING_LITERAL" then StringLiteral(t.raw)
    else BooleanLiteral(t.raw == "true")
  }

  lemma LiteralFactor(ts: seq<Token>, p: nat)
    requires p < |ts| && IsLiteral(ts[p])
    ensures FactorAt(ts, p) == Ok(Parsed(LiteralOf(ts[p]), p + 1))
  {
  }

  /** A leading `+` or `-` applies to the factor after it, whatever the token's kind. */
  lemma SignedFactor(ts: seq<Token>, p: nat)
    requires p < |ts| && (ts[p].raw == "+" || ts[p].raw == "-")
    ensures var f := FactorAt(ts, p + 1);
      FactorAt(ts, p) == if f.Ok? then Ok(Parsed(Unary(f.value.node, ts[p].raw), f.value.pos)) else Err(f.msg)
  {
  }

  /** Any other token that opens no literal and no parenthesis must be an IDENTIFIER, and
      is read as a variable; so a FLOAT_LITERAL is fatal. */
  lemma VariableFactor(ts: seq<Token>, p: nat)
    requires p < |ts| && ts[p].raw != "+" && ts[p].raw != "-"
    requires ts[p].kind !in LiteralKinds && ts[p].kind != "LEFT_PARENTHESIS"
    ensures FactorAt(ts, p).Ok? <==> ts[p].kind == "IDENTIFIER"
    ensures FactorAt(ts, p).Ok? ==> FactorAt(ts, p).value == Parsed(VariableReference(ts[p].raw), p + 1)
  {
  }

  /** A literal not followed by `*` or `/` is a whole term. */
  lemma LiteralTerm(ts: seq<Token>, p: nat)
    requires p < |ts| && IsLiteral(ts[p]) && !RawIn(ts, p + 1, MulOps)
    ensures TermAt(ts, p) == Ok(Parsed(LiteralOf(ts[p]), p + 1))
  {
    LiteralFactor(ts, p);
  }

  /** A literal followed by no operator is a whole expression. */
  lemma LiteralExpression(ts: seq<Token>, p: nat)
    requires p < |ts| && IsLiteral(ts[p]) && !RawIn(ts, p + 1, AllOps)
    ensures ExpressionAt(ts, p) == Ok(Parsed(LiteralOf(ts[p]), p + 1))
  {
    LiteralTerm(ts, p);
    assert ExpressionTail(ts, LiteralOf(ts[p]), p + 1) == Ok(Parsed(LiteralOf(ts[p]), p + 1));
  }

  /** `(a)` is the node of `a` itself. */
  lemma ParenthesizedFactor(ts: seq<Token>, p: nat)
    requires p + 3 <= |ts|
    requires ts[p].kind == "LEFT_PARENTHESIS" && ts[p].raw != "+" && ts[p].raw != "-"
    requires IsLiteral(ts[p + 1]) && !RawIn(ts, p + 2, AllOps) && ts[p + 2].kind == "RIGHT_PARENTHESIS"
    ensures FactorAt(ts, p) == Ok(Parsed(LiteralOf(ts[p + 1]), p + 3))
  {
    LiteralExpression(ts, p + 1);
  }

  /** `a * b / c` is `(a * b) / c`. */
  lemma TermLeftAssociative(ts: seq<Token>, p: nat)
    requires p + 5 <= |ts|
    requires IsLiteral(ts[p]) && IsLiteral(ts[p + 2]) && IsLiteral(ts[p + 4])
    requires ts[p + 1].raw in MulOps && ts[p + 3].raw in MulOps && !RawIn(ts, p + 5, MulOps)
    ensures TermAt(ts, p) == Ok(Parsed(
      Expression(Expression(LiteralOf(ts[p]), LiteralOf(ts[p + 2]), ts[p + 1].raw), LiteralOf(ts[p + 4]), ts[p + 3].raw),
      p + 5))
  {
    LiteralFactor(ts, p);
    LiteralFactor(ts, p + 2);
    LiteralFactor(ts, p + 4);
    var ab := Expression(LiteralOf(ts[p]), LiteralOf(ts[p + 2]), ts[p + 1].raw);
    var abc := Expression(ab, LiteralOf(ts[p + 4]), ts[p + 3].raw);
    assert TermTail(ts, abc, p + 5) == Ok(Parsed(abc, p + 5));
    assert TermTail(ts, ab, p + 3) == Ok(Parsed(abc, p + 5));
    assert TermTail(ts, LiteralOf(ts[p]), p + 1) == Ok(Parsed(abc, p + 5));
  }

  /** `a - b - c` is `(a - b) - c`, for every operator of the additive level. */
  lemma ExpressionLeftAssociative(ts: seq<Token>, p: nat)
    requires p + 5 <= |ts|
    requires IsLiteral(ts[p]) && IsLiteral(ts[p + 2]) && IsLiteral(ts[p + 4])
    requires ts[p + 1].raw in AddOps && ts[p + 3].raw in AddOps && !RawIn(ts, p + 5, AllOps)
    ensures ExpressionAt(ts, p) == Ok(Parsed(
      Expression(Expression(LiteralOf(ts[p]), LiteralOf(ts[p + 2]), ts[p + 1].raw), LiteralOf(ts[p + 4]), ts[p + 3].raw),
      p + 5))
  {
    LiteralTerm(ts, p);
    LiteralTerm(ts, p + 2);
    LiteralTerm(ts, p + 4);
    var ab := Expression(LiteralOf(ts[p]), LiteralOf(ts[p + 2]), ts[p + 1].raw);
    var abc := Expression(ab, LiteralOf(ts[p + 4]), ts[p + 3].raw);
    assert ExpressionTail(ts, abc, p + 5) == Ok(Parsed(abc, p + 5));
    assert ExpressionTail(ts, ab, p + 3) == Ok(Parsed(abc, p + 5));
    assert ExpressionTail(ts, LiteralOf(ts[p]), p + 1) == Ok(Parsed(abc, p + 5));
  }

  /** `a + b * c` is `a + (b * c)`. */
  lemma MultiplicationBindsTighter(ts: seq<Token>, p: nat)
    requires p + 5 <= |ts|
    requires IsLiteral(ts[p]) && IsLiteral(ts[p + 2]) && IsLiteral(ts[p + 4])
    requires ts[p + 1].raw in AddOps && ts[p + 3].raw in MulOps && !RawIn(ts, p + 5, AllOps)
    ensures ExpressionAt(ts, p) == Ok(Parsed(
      Expression(LiteralOf(ts[p]), Expression(LiteralOf(ts[p + 2]), LiteralOf(ts[p + 4]), ts[p + 3].raw), ts[p + 1].raw),
      p + 5))
  {
    LiteralTerm(ts, p);
    LiteralFactor(ts, p + 2);
    LiteralFactor(ts, p + 4);
    var bc := Expression(LiteralOf(ts[p + 2]), LiteralOf(ts[p + 4]), ts[p + 3].raw);
    var abc := Expression(LiteralOf(ts[p]), bc, ts[p + 1].raw);
    assert TermTail(ts, bc, p + 5) == Ok(Parsed(bc, p + 5));
    assert TermAt(ts, p + 2) == Ok(Parsed(bc, p + 5));
    assert ExpressionTail(ts, abc, p + 5) == Ok(Parsed(abc, p + 5));
    assert ExpressionTail(ts, LiteralOf(ts[p]), p + 1) == Ok(Parsed(abc, p + 5));
  }

  /** `a && b || c` is `a && (b || c)`: the logical operators recurse on the rest. */
  lemma LogicalRightRecursive(ts: seq<Token>, p: nat)
    requires p + 5 <= |ts|
    requires IsLiteral(ts[p]) && IsLiteral(ts[p + 2]) && IsLiteral(ts[p + 4])
    requires ts[p + 1].raw in LogicOps && ts[p + 1].kind == "RELATIONAL_OPERATOR"
    requires ts[p + 3].raw in LogicOps && ts[p + 3].kind == "RELATIONAL_OPERATOR"
    requires !RawIn(ts, p + 5, AllOps)
    ensures ExpressionAt(ts, p) == Ok(Parsed(
      Expression(LiteralOf(ts[p]), Expression(LiteralOf(ts[p + 2]), LiteralOf(ts[p + 4]), ts[p + 3].raw), ts[p + 1].raw),
      p + 5))
  {
    var a, b, c := LiteralOf(ts[p]), LiteralOf(ts[p + 2]), LiteralOf(ts[p + 4]);
    LiteralExpression(ts, p + 4);
    LiteralTerm(ts, p + 2);
    assert ExpressionTail(ts, b, p + 3) == Ok(Parsed(b, p + 3));
    assert ExpressionAt(ts, p + 2) == Ok(Parsed(Expression(b, c, ts[p + 3].raw), p + 5));
    LiteralTerm(ts, p);
    assert ExpressionTail(ts, a, p + 1) == Ok(Parsed(a, p + 1));
  }

  /** One token of lookahead after the name: a `(` makes a call, always `integrated`, and
      anything else must be the `=` of an assignment. */
  lemma IdentifierLookahead(ts: seq<Token>, p: nat)
    requires p + 1 < |ts| && ts[p].kind == "IDENTIFIER"
    ensures var r := IdentifierAt(ts, p);
      r.Ok? ==> (r.value.node.CallExpression? <==> ts[p + 1].kind == "LEFT_PARENTHESIS")
    ensures var r := IdentifierAt(ts, p);
      r.Ok? && r.value.node.CallExpression? ==> r.value.node.integrated && r.value.node.functionName == ts[p].raw
    ensures ts[p + 1].kind != "LEFT_PARENTHESIS" && ts[p + 1].kind != "EQUALS" ==> IdentifierAt(ts, p).Err?
  {
  }

  /** `f(a, b)` is a call with the arguments in order. */
  lemma CallArgumentsInOrder(ts: seq<Token>, p: nat)
    requires p + 6 <= |ts|
    requires ts[p].kind == "IDENTIFIER" && ts[p + 1].kind == "LEFT_PARENTHESIS"
    requires IsLiteral(ts[p + 2]) && IsLiteral(ts[p + 4]) && ts[p + 2].raw != ")" && ts[p + 4].raw != ")"
    requires ts[p + 3].kind == "COMMA" && ts[p + 3].raw == ","
    requires ts[p + 5].kind == "RIGHT_PARENTHESIS" && ts[p + 5].raw == ")"
    ensures IdentifierAt(ts, p) == Ok(Parsed(CallExpression(ts[p].raw, [LiteralOf(ts[p + 2]), LiteralOf(ts[p + 4])], true), p + 6))
  {
    var a, b := LiteralOf(ts[p + 2]), LiteralOf(ts[p + 4]);
    LiteralExpression(ts, p + 2);
    LiteralExpression(ts, p + 4);
    assert ArgsAt(ts, p + 5, [a, b]) == Ok(Parsed([a, b], p + 5));
    assert [a] + [b] == [a, b];
    assert ArgsAt(ts, p + 4, [a]) == Ok(Parsed([a, b], p + 5));
    assert [] + [a] == [a];
    assert ArgsAt(ts, p + 2, []) == Ok(Parsed([a, b], p + 5));
  }

  /** The separator is optional: `f(a b)` is the same call as `f(a, b)`. */
  lemma ArgumentsWithoutSeparator(ts: seq<Token>, p: nat)
    requires p + 5 <= |ts|
    requires ts[p].kind == "IDENTIFIER" && ts[p + 1].kind == "LEFT_PARENTHESIS"
    requires IsLiteral(ts[p + 2]) && IsLiteral(ts[p + 3]) && ts[p + 2].raw != ")" && ts[p + 3].raw != ")"
    requires ts[p + 3].raw != "," && ts[p + 3].raw !in AllOps && ts[p + 2].raw !in AllOps
    requires ts[p + 4].kind == "RIGHT_PARENTHESIS" && ts[p + 4].raw == ")"
    ensures IdentifierAt(ts, p) == Ok(Parsed(CallExpression(ts[p].raw, [LiteralOf(ts[p + 2]), LiteralOf(ts[p + 3])], true), p + 5))
  {
    var a, b := LiteralOf(ts[p + 2]), LiteralOf(ts[p + 3]);
    LiteralExpression(ts, p + 2);
    LiteralExpression(ts, p + 3);
    assert ArgsAt(ts, p + 4, [a, b]) == Ok(Parsed([a, b], p + 4));
    assert [a] + [b] == [a, b];
    assert ArgsAt(ts, p + 3, [a]) == Ok(Parsed([a, b], p + 4));
    assert [] + [a] == [a];
    assert ArgsAt(ts, p + 2, []) == Ok(Parsed([a, b], p + 4));
  }

  /** A `,` after an argument must have kind COMMA; any other kind is fatal. */
  lemma SeparatorMustBeComma(ts: seq<Token>, p: nat, acc: seq<Node>)
    requires p + 1 < |ts| && IsLiteral(ts[p]) && ts[p].raw != ")"
    requires ts[p + 1].raw == "," && ts[p + 1].kind != "COMMA"
    ensures ArgsAt(ts, p, acc).Err?
  {
    LiteralExpression(ts, p);
  }

  /** `let x = a` declares `x` with the type "auto". */
  lemma UntypedDeclaration(ts: seq<Token>, p: nat)
    requires p + 4 <= |ts|
    requires ts[p].kind == "VARIABLE_DEFINITION" && ts[p + 1].kind == "IDENTIFIER" && ts[p + 2].kind == "EQUALS"
    requires IsLiteral(ts[p + 3]) && !RawIn(ts, p + 4, AllOps)
    ensures VariableDeclarationAt(ts, p) == Ok(Parsed(VariableDeclaration(ts[p + 1].raw, LiteralOf(ts[p + 3]), "auto"), p + 4))
  {
    LiteralExpression(ts, p + 3);
  }

  /** `let x : t = a` declares `x` with the type `t`, the text of the token after the colon. */
  lemma TypedDeclaration(ts: seq<Token>, p: nat)
    requires p + 6 <= |ts|
    requires ts[p].kind == "VARIABLE_DEFINITION" && ts[p + 1].kind == "IDENTIFIER" && ts[p + 2].kind == "COLON"
    requires ts[p + 3].kind == "IDENTIFIER" && ts[p + 4].kind == "EQUALS"
    requires IsLiteral(ts[p + 5]) && !RawIn(ts, p + 6, AllOps)
    ensures VariableDeclarationAt(ts, p) == Ok(Parsed(VariableDeclaration(ts[p + 1].raw, LiteralOf(ts[p + 5]), ts[p + 3].raw), p + 6))
  {
    LiteralExpression(ts, p + 5);
  }

  /** The `=` of a declaration is mandatory. */
  lemma DeclarationNeedsEquals(ts: seq<Token>, p: nat)
    requires p + 3 <= |ts|
    requires ts[p].kind == "VARIABLE_DEFINITION" && ts[p + 1].kind == "IDENTIFIER"
    requires ts[p + 2].kind != "COLON" && ts[p + 2].kind != "EQUALS"
    ensures VariableDeclarationAt(ts, p).Err?
  {
  }

  /** A token that starts no statement is consumed and yields `undefined`, and `work`
      moves past it without adding a node. */
  lemma SkippedToken(ts: seq<Token>, p: nat, acc: Block)
    requires p < |ts|
    requires ts[p].kind !in {"IF_STATEMENT", "VARIABLE_DEFINITION", "IDENTIFIER"} + ExpressionStarts
    ensures CodeBlockAt(ts, p) == Ok(Parsed(None, p + 1))
    ensures ItemsAt(ts, p, acc) == ItemsAt(ts, p + 1, acc)
  {
  }

  /** A float literal starts an expression statement, but `factor` has no case for it. */
  lemma FloatStatementFatal(ts: seq<Token>, p: nat)
    requires p < |ts| && ts[p].kind == "FLOAT_LITERAL" && ts[p].raw != "+" && ts[p].raw != "-"
    ensures CodeBlockAt(ts, p).Err?
  {
    VariableFactor(ts, p);
    assert TermAt(ts, p).Err?;
    assert ExpressionAt(ts, p).Err?;
  }

  /** Inside an `if` body every result of `codeBlock` is kept: `if c { true }` holds one
      `undefined` entry. */
  lemma IfBodyKeepsUndefined(ts: seq<Token>, p: nat)
    requires p + 5 <= |ts|
    requires ts[p].kind == "IF_STATEMENT" && IsLiteral(ts[p + 1]) && !RawIn(ts, p + 2, AllOps)
    requires ts[p + 2].kind == "LEFT_BRACE" && ts[p + 3].kind == "BOOLEAN_LITERAL" && ts[p + 4].kind == "RIGHT_BRACE"
    ensures IfStatementAt(ts, p) == Ok(Parsed(IfStatement(LiteralOf(ts[p + 1]), [None]), p + 5))
  {
    LiteralExpression(ts, p + 1);
    assert CodeBlockAt(ts, p + 3) == Ok(Parsed(None, p + 4));
    assert BodyAt(ts, p + 4, [None]) == Ok(Parsed([None], p + 4));
    var empty: Block := [];
    assert empty + [None] == [None];
    assert BodyAt(ts, p + 3, []) == Ok(Parsed([None], p + 4));
  }
}
