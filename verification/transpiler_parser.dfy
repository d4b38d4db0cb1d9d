/** The recursive-descent parser of `source/parser.ts`, over an abstract token sequence.
    The source pulls its tokens one at a time from the lexer of `source/lexer.ts`; since a
    peek there leaves the lexer as it was (`Lexer.PeekThenNext`), the stream is the sequence
    of tokens `next()` returns, the current token is `ts[p]`, and the peek of
    `variableDeclaration` is `ts[p + 1]`. `p == |ts|` is the end of the stream, where the
    source's `token` is `undefined`.

    The functions `...At(ts, p)` say what each parsing routine yields from position `p`: the
    node and the position of the next unread token, or the fatal error. The class `Parser`
    holds the cursor the source mutates; each of its methods is proved to agree with the
    matching function. */
module TranspilerParser {
  import opened Results
  import opened Text
  import opened Tokens
  import opened TranspilerAst

  /** Operators folded by the loop of `term` and by the loop of `expression`, and the two
      that make `expression` recurse. */
  const MulOps: set<string> := {"/", "*"}
  const AddOps: set<string> := {"+", "-", ">", "<", "<=", ">=", "==", "!="}
  const LogicOps: set<string> := {"&&", "||"}

  /** Token kinds with which `codeBlock` starts an expression statement. */
  const ExpressionStarts: set<string> := {"ARITHMETIC_OPERATOR", "FLOAT_LITERAL", "STRING_LITERAL", "INTEGER_LITERAL"}

  predicate RawIn(ts: seq<Token>, p: nat, ops: set<string>)
  {
    p < |ts| && ts[p].raw in ops
  }

  /** The nodes the expression routines build. */
  predicate IsExpressionNode(n: Node)
  {
    match n
    case Expression(l, r, op) => op in MulOps + AddOps + LogicOps && IsExpressionNode(l) && IsExpressionNode(r)
    case Unary(operand, op) => op in {"+", "-"} && IsExpressionNode(operand)
    case StringLiteral(_) => true
    case IntegerLiteral(_) => true
    case BooleanLiteral(_) => true
    case VariableReference(_) => true
    case _ => false
  }

  /** `factor()`: a signed factor, a literal, a parenthesized expression, or a variable. */
  function FactorAt(ts: seq<Token>, p: nat): (r: Result<Parsed<Node>>)
    requires p <= |ts|
    ensures r.Ok? ==> p < r.value.pos <= |ts| && IsExpressionNode(r.value.node)
    decreases |ts| - p, 3
  {
    if p == |ts| then Err(UndefinedRead)
    else if ts[p].raw == "+" || ts[p].raw == "-" then
      var f :- FactorAt(ts, p + 1);
      Ok(Parsed(Unary(f.node, ts[p].raw), f.pos))
    else LeafAt(ts, p)
  }

  /** The branches of `factor()` after the sign: a literal, a parenthesised expression, or
      an identifier. */
  function LeafAt(ts: seq<Token>, p: nat): (r: Result<Parsed<Node>>)
    requires p < |ts|
    ensures r.Ok? ==> p < r.value.pos <= |ts| && IsExpressionNode(r.value.node)
    decreases |ts| - p, 2
  {
    var t := ts[p];
    if t.kind == "INTEGER_LITERAL" then Ok(Parsed(IntegerLiteral(ParseInt(t.raw)), p + 1))
    else if t.kind == "STRING_LITERAL" then Ok(Parsed(StringLiteral(t.raw), p + 1))
    else if t.kind == "BOOLEAN_LITERAL" then Ok(Parsed(BooleanLiteral(t.raw == "true"), p + 1))
    else if t.kind == "LEFT_PARENTHESIS" then
      var e :- ExpressionAt(ts, p + 1);
      var q :- EatAt(ts, e.pos, "RIGHT_PARENTHESIS");
      Ok(Parsed(e.node, q))
    else
      var q :- EatAt(ts, p, "IDENTIFIER");
      Ok(Parsed(VariableReference(t.raw), q))
  }

  /** `term()`: a factor followed by the `*`/`/` loop. */
  function TermAt(ts: seq<Token>, p: nat): (r: Result<Parsed<Node>>)
    requires p <= |ts|
    ensures r.Ok? ==> p < r.value.pos <= |ts| && IsExpressionNode(r.value.node)
    decreases |ts| - p, 4
  {
    var f :- FactorAt(ts, p);
    TermTail(ts, f.node, f.pos)
  }

  /** The loop of `term()` with `acc` as the node built so far. */
  function TermTail(ts: seq<Token>, acc: Node, p: nat): (r: Result<Parsed<Node>>)
    requires p <= |ts|
    ensures r.Ok? ==> p <= r.value.pos <= |ts|
    ensures r.Ok? && IsExpressionNode(acc) ==> IsExpressionNode(r.value.node)
    decreases |ts| - p, 0
  {
    if RawIn(ts, p, MulOps) then
      var f :- FactorAt(ts, p + 1);
      TermTail(ts, Expression(acc, f.node, ts[p].raw), f.pos)
    else Ok(Parsed(acc, p))
  }

  /** `expression()`: terms joined left-associatively by the additive and relational
      operators, then an optional `&&`/`||` whose right operand is a whole expression. */
  function ExpressionAt(ts: seq<Token>, p: nat): (r: Result<Parsed<Node>>)
    requires p <= |ts|
    ensures r.Ok? ==> p < r.value.pos <= |ts| && IsExpressionNode(r.value.node)
    decreases |ts| - p, 6
  {
    if p == |ts| then Err("Token = undefined?")
    else
      var t :- TermAt(ts, p);
      var l :- ExpressionTail(ts, t.node, t.pos);
      if RawIn(ts, l.pos, LogicOps) then
        var q :- EatAt(ts, l.pos, "RELATIONAL_OPERATOR");
        var right :- ExpressionAt(ts, q);
        Ok(Parsed(Expression(l.node, right.node, ts[l.pos].raw), right.pos))
      else Ok(l)
  }

  /** The additive loop of `expression()` with `acc` as the node built so far. */
  function ExpressionTail(ts: seq<Token>, acc: Node, p: nat): (r: Result<Parsed<Node>>)
    requires p <= |ts|
    ensures r.Ok? ==> p <= r.value.pos <= |ts|
    ensures r.Ok? && IsExpressionNode(acc) ==> IsExpressionNode(r.value.node)
    decreases |ts| - p, 0
  {
    if RawIn(ts, p, AddOps) then
      var t :- TermAt(ts, p + 1);
      ExpressionTail(ts, Expression(acc, t.node, ts[p].raw), t.pos)
    else Ok(Parsed(acc, p))
  }

  /** `identifier()`: a call when a `(` follows the name, an assignment otherwise. */
  function IdentifierAt(ts: seq<Token>, p: nat): (r: Result<Parsed<Node>>)
    requires p <= |ts|
    ensures r.Ok? ==> p < r.value.pos <= |ts|
    ensures r.Ok? ==> r.value.node.CallExpression? || r.value.node.VariableAssignment?
    decreases |ts| - p, 7
  {
    if p == |ts| then Err(UndefinedRead)
    else
      var name := ts[p].raw;
      var q :- EatAt(ts, p, "IDENTIFIER");
      if q < |ts| && ts[q].kind == "LEFT_PARENTHESIS" then
        var a :- ArgsAt(ts, q + 1, []);
        var e :- EatAt(ts, a.pos, "RIGHT_PARENTHESIS");
        Ok(Parsed(CallExpression(name, a.node, true), e))
      else
        var e :- EatAt(ts, q, "EQUALS");
        var v :- ExpressionAt(ts, e);
        Ok(Parsed(VariableAssignment(name, v.node), v.pos))
  }

  /** The argument loop of `identifier()`: expressions until a token whose text is `)`; a
      token whose text is `,` after an argument is eaten as a COMMA. */
  function ArgsAt(ts: seq<Token>, p: nat, acc: seq<Node>): (r: Result<Parsed<seq<Node>>>)
    requires p <= |ts|
    ensures r.Ok? ==> p <= r.value.pos <= |ts| && acc <= r.value.node
    ensures r.Ok? ==> r.value.pos == |ts| || ts[r.value.pos].raw == ")"
    decreases |ts| - p, 7
  {
    if p < |ts| && ts[p].raw != ")" then
      var e :- ExpressionAt(ts, p);
      if e.pos < |ts| && ts[e.pos].raw == "," then
        var c :- EatAt(ts, e.pos, "COMMA");
        ArgsAt(ts, c, acc + [e.node])
      else ArgsAt(ts, e.pos, acc + [e.node])
    else Ok(Parsed(acc, p))
  }

  /** `ifStatement()`: `if cond { ... }`. */
  function IfStatementAt(ts: seq<Token>, p: nat): (r: Result<Parsed<Node>>)
    requires p <= |ts|
    ensures r.Ok? ==> p < r.value.pos <= |ts| && r.value.node.IfStatement?
    decreases |ts| - p, 7
  {
    var q :- EatAt(ts, p, "IF_STATEMENT");
    var c :- ExpressionAt(ts, q);
    var b :- EatAt(ts, c.pos, "LEFT_BRACE");
    var body :- BodyAt(ts, b, []);
    var e :- EatAt(ts, body.pos, "RIGHT_BRACE");
    Ok(Parsed(IfStatement(c.node, body.node), e))
  }

  /** The loop of `ifStatement()`: `codeBlock()` until a RIGHT_BRACE or the end; every
      result is pushed, `undefined` included. */
  function BodyAt(ts: seq<Token>, p: nat, acc: Block): (r: Result<Parsed<Block>>)
    requires p <= |ts|
    ensures r.Ok? ==> p <= r.value.pos <= |ts| && acc <= r.value.node
    ensures r.Ok? ==> r.value.pos == |ts| || ts[r.value.pos].kind == "RIGHT_BRACE"
    decreases |ts| - p, 9
  {
    if p < |ts| && ts[p].kind != "RIGHT_BRACE" then
      var d :- CodeBlockAt(ts, p);
      BodyAt(ts, d.pos, acc + [d.node])
    else Ok(Parsed(acc, p))
  }

  /** `variableDeclaration()`: the keyword, the name, an optional `: type` and the
      mandatory `=` with its value. */
  function VariableDeclarationAt(ts: seq<Token>, p: nat): (r: Result<Parsed<Node>>)
    requires p <= |ts|
    ensures r.Ok? ==> p < r.value.pos <= |ts| && r.value.node.VariableDeclaration?
    decreases |ts| - p, 7
  {
    var q :- EatAt(ts, p, "VARIABLE_DEFINITION");
    if q + 1 >= |ts| then Err(UndefinedRead)
    else
      var t :- TypedNameAt(ts, q);
      var e :- EatAt(ts, t.pos, "EQUALS");
      var v :- ExpressionAt(ts, e);
      Ok(Parsed(VariableDeclaration(ts[q].raw, v.node, t.node), v.pos))
  }

  /** The name at `q` and its type: when the peeked token after the name is a COLON, the
      name, the colon and the type name are eaten and the type is the type name's text;
      otherwise only the name is eaten and the type is "auto". */
  function TypedNameAt(ts: seq<Token>, q: nat): (r: Result<Parsed<string>>)
    requires q + 1 < |ts|
    ensures r.Ok? ==> q < r.value.pos <= |ts|
    ensures r.Ok? ==> r.value.pos == if ts[q + 1].kind == "COLON" then q + 3 else q + 1
    ensures r.Ok? ==> r.value.node == if ts[q + 1].kind == "COLON" then ts[q + 2].raw else "auto"
  {
    if ts[q + 1].kind == "COLON" then
      var a :- EatAt(ts, q, "IDENTIFIER");
      // the peeked COLON is now the current token, so eating it cannot fail
      var b := EatAt(ts, a, "COLON").value;
      if b == |ts| then Err(UndefinedRead)
      else
        var c :- EatAt(ts, b, "IDENTIFIER");
        Ok(Parsed(ts[b].raw, c))
    else
      var a :- EatAt(ts, q, "IDENTIFIER");
      Ok(Parsed("auto", a))
  }

  /** A statement routine's node as an entry of a code block. */
  function Defined(r: Result<Parsed<Node>>): (d: Result<Parsed<Option<Node>>>)
    ensures d.Ok? <==> r.Ok?
    ensures d.Ok? ==> d.value == Parsed(Some(r.value.node), r.value.pos)
  {
    match r
    case Ok(n) => Ok(Parsed(Some(n.node), n.pos))
    case Err(msg) => Err(msg)
  }

  /** `codeBlock()`: the current token's kind selects a statement; any other token is
      skipped and yields `undefined`. */
  function CodeBlockAt(ts: seq<Token>, p: nat): (r: Result<Parsed<Option<Node>>>)
    requires p <= |ts|
    ensures r.Ok? ==> p < r.value.pos <= |ts|
    decreases |ts| - p, 8
  {
    if p == |ts| then Err(UndefinedRead)
    else
      var kind := ts[p].kind;
      if kind == "IF_STATEMENT" then Defined(IfStatementAt(ts, p))
      else if kind == "VARIABLE_DEFINITION" then Defined(VariableDeclarationAt(ts, p))
      else if kind == "IDENTIFIER" then Defined(IdentifierAt(ts, p))
      else if kind in ExpressionStarts then Defined(ExpressionAt(ts, p))
      else Ok(Parsed(None, p + 1))
  }

  /** The loop of `work(tree)` from position `p`, with `acc` as the nodes pushed so far:
      `codeBlock()` until the end of the stream, keeping only defined nodes. */
  function ItemsAt(ts: seq<Token>, p: nat, acc: Block): (r: Result<Block>)
    requires p <= |ts|
    ensures r.Ok? ==> acc <= r.value
    ensures r.Ok? && (forall i :: 0 <= i < |acc| ==> acc[i].Some?) ==> forall i :: 0 <= i < |r.value| ==> r.value[i].Some?
    decreases |ts| - p, 10
  {
    if p == |ts| then Ok(acc)
    else
      var d :- CodeBlockAt(ts, p);
      ItemsAt(ts, d.pos, if d.node.Some? then acc + [d.node] else acc)
  }

  /** `new AstTree(name, parser)`: the tree whose block `work` fills. */
  function TreeOf(name: string, ts: seq<Token>): (r: Result<Tree>)
    ensures r.Ok? ==> r.value.name == name && forall i :: 0 <= i < |r.value.block| ==> r.value.block[i].Some?
  {
    var items :- ItemsAt(ts, 0, []);
    Ok(Tree(name, items))
  }

  /** `Parser`: the token stream it pulls from the lexer, and the cursor that `eat` and
      `codeBlock` advance. */
  class Parser {
    const tokens: seq<Token>
    var pos: nat

    constructor(tokens: seq<Token>)
      ensures this.tokens == tokens && pos == 0
    {
      this.tokens := tokens;
      pos := 0;
    }

    /** `eat(tokenType)`; the result is the position of the new current token. */
    method Eat(kind: string) returns (r: Result<nat>)
      requires pos <= |tokens|
      modifies this
      ensures r == EatAt(tokens, old(pos), kind)
      ensures pos == if r.Ok? then r.value else old(pos)
    {
      if pos == |tokens| {
        return Ok(pos);
      }
      if tokens[pos].kind == kind {
        pos := pos + 1;
        return Ok(pos);
      }
      return Err(Unexpected(kind, tokens[pos].kind));
    }

    method Factor() returns (r: Result<Node>)
      requires pos <= |tokens|
      modifies this
      ensures pos <= |tokens|
      ensures Snap(r, pos) == FactorAt(tokens, old(pos))
      decreases |tokens| - pos, 3
    {
      if pos == |tokens| {
        return Err(UndefinedRead);
      }
      var tokenValue := tokens[pos].raw;
      var tokenName := tokens[pos].kind;
      if tokenValue == "+" || tokenValue == "-" {
        var _ := Eat(tokenName);
        var operand :- Factor();
        return Ok(Unary(operand, tokenValue));
      }
      r := Leaf();
    }

    /** The branches of `factor()` after the sign. */
    method Leaf() returns (r: Result<Node>)
      requires pos < |tokens|
      modifies this
      ensures pos <= |tokens|
      ensures Snap(r, pos) == LeafAt(tokens, old(pos))
      decreases |tokens| - pos, 2
    {
      var tokenValue := tokens[pos].raw;
      var tokenName := tokens[pos].kind;
      if tokenName == "INTEGER_LITERAL" {
        var _ := Eat(tokenName);
        return Ok(IntegerLiteral(ParseInt(tokenValue)));
      } else if tokenName == "STRING_LITERAL" {
        var _ := Eat(tokenName);
        return Ok(StringLiteral(tokenValue));
      } else if tokenName == "BOOLEAN_LITERAL" {
        var _ := Eat(tokenName);
        return Ok(BooleanLiteral(tokenValue == "true"));
      } else if tokenName == "LEFT_PARENTHESIS" {
        var _ := Eat("LEFT_PARENTHESIS");
        var result :- Expression();
        var _ :- Eat("RIGHT_PARENTHESIS");
        return Ok(result);
      }
      var _ :- Eat("IDENTIFIER");
      return Ok(VariableReference(tokenValue));
    }

    method Term() returns (r: Result<Node>)
      requires pos <= |tokens|
      modifies this
      ensures pos <= |tokens|
      ensures Snap(r, pos) == TermAt(tokens, old(pos))
      decreases |tokens| - pos, 4
    {
      var node :- Factor();
      r := TermLoop(node);
    }

    /** The loop of `term()`, from the node its first factor built. */
    method TermLoop(first: Node) returns (r: Result<Node>)
      requires pos <= |tokens|
      modifies this
      ensures pos <= |tokens|
      ensures Snap(r, pos) == TermTail(tokens, first, old(pos))
      decreases |tokens| - pos, 0
    {
      var node := first;
      while RawIn(tokens, pos, MulOps)
        invariant old(pos) <= pos <= |tokens|
        invariant TermTail(tokens, node, pos) == TermTail(tokens, first, old(pos))
        decreases |tokens| - pos
      {
        var operator := tokens[pos].raw;
        var _ := Eat(tokens[pos].kind);
        var right :- Factor();
        node := Node.Expression(node, right, operator);
      }
      return Ok(node);
    }

    /** The additive loop of `expression()`, from the node its first term built. */
    method AdditiveLoop(first: Node) returns (r: Result<Node>)
      requires pos <= |tokens|
      modifies this
      ensures pos <= |tokens| && (r.Ok? ==> old(pos) <= pos)
      ensures Snap(r, pos) == ExpressionTail(tokens, first, old(pos))
      decreases |tokens| - pos, 5
    {
      var node := first;
      while RawIn(tokens, pos, AddOps)
        invariant old(pos) <= pos <= |tokens|
        invariant ExpressionTail(tokens, node, pos) == ExpressionTail(tokens, first, old(pos))
        decreases |tokens| - pos
      {
        var operator := tokens[pos].raw;
        var _ := Eat(tokens[pos].kind);
        var right :- Term();
        node := Node.Expression(node, right, operator);
      }
      return Ok(node);
    }

    method Expression() returns (r: Result<Node>)
      requires pos <= |tokens|
      modifies this
      ensures pos <= |tokens|
      ensures Snap(r, pos) == ExpressionAt(tokens, old(pos))
      decreases |tokens| - pos, 6
    {
      if pos == |tokens| {
        return Err("Token = undefined?");
      }
      var first :- Term();
      var expr :- AdditiveLoop(first);
      if RawIn(tokens, pos, LogicOps) {
        var operator := tokens[pos].raw;
        var _ :- Eat("RELATIONAL_OPERATOR");
        var right :- Expression();
        return Ok(Node.Expression(expr, right, operator));
      }
      return Ok(expr);
    }

    method Identifier() returns (r: Result<Node>)
      requires pos <= |tokens|
      modifies this
      ensures pos <= |tokens|
      ensures Snap(r, pos) == IdentifierAt(tokens, old(pos))
      decreases |tokens| - pos, 7
    {
      if pos == |tokens| {
        return Err(UndefinedRead);
      }
      var name := tokens[pos].raw;
      var _ :- Eat("IDENTIFIER");
      if pos < |tokens| && tokens[pos].kind == "LEFT_PARENTHESIS" {
        var _ := Eat("LEFT_PARENTHESIS");
        ghost var start := pos;
        var args: seq<Node> := [];
        while pos < |tokens| && tokens[pos].raw != ")"
          invariant start <= pos <= |tokens|
          invariant ArgsAt(tokens, pos, args) == ArgsAt(tokens, start, [])
          decreases |tokens| - pos
        {
          var arg :- Expression();
          args := args + [arg];
          if pos < |tokens| && tokens[pos].raw == "," {
            var _ :- Eat("COMMA");
          }
        }
        var _ :- Eat("RIGHT_PARENTHESIS");
        return Ok(CallExpression(name, args, true));
      }
      var _ :- Eat("EQUALS");
      var value :- Expression();
      return Ok(VariableAssignment(name, value));
    }

    method IfStatement() returns (r: Result<Node>)
      requires pos <= |tokens|
      modifies this
      ensures pos <= |tokens|
      ensures Snap(r, pos) == IfStatementAt(tokens, old(pos))
      decreases |tokens| - pos, 7
    {
      var _ :- Eat("IF_STATEMENT");
      var condition :- Expression();
      var _ :- Eat("LEFT_BRACE");
      ghost var start := pos;
      var nodes: Block := [];
      while pos < |tokens| && tokens[pos].kind != "RIGHT_BRACE"
        invariant start <= pos <= |tokens|
        invariant BodyAt(tokens, pos, nodes) == BodyAt(tokens, start, [])
        decreases |tokens| - pos
      {
        var node :- CodeBlock();
        nodes := nodes + [node];
      }
      // the loop stopped at a RIGHT_BRACE or at the end, so this cannot fail
      var _ := Eat("RIGHT_BRACE");
      return Ok(Node.IfStatement(condition, nodes));
    }

    method VariableDeclaration() returns (r: Result<Node>)
      requires pos <= |tokens|
      modifies this
      ensures pos <= |tokens|
      ensures Snap(r, pos) == VariableDeclarationAt(tokens, old(pos))
      decreases |tokens| - pos, 7
    {
      var _ :- Eat("VARIABLE_DEFINITION");
      if pos + 1 >= |tokens| {
        return Err(UndefinedRead);
      }
      var variableName := tokens[pos].raw;
      var variableType :- TypedName();
      var _ :- Eat("EQUALS");
      var value :- Expression();
      return Ok(Node.VariableDeclaration(variableName, value, variableType));
    }

    /** The part of `variableDeclaration()` that peeks for a `: type` after the name. */
    method TypedName() returns (r: Result<string>)
      requires pos + 1 < |tokens|
      modifies this
      ensures pos <= |tokens|
      ensures Snap(r, pos) == TypedNameAt(tokens, old(pos))
    {
      var variableType := "auto";
      var peek := tokens[pos + 1];
      if peek.kind == "COLON" {
        var _ :- Eat("IDENTIFIER");
        var _ := Eat(peek.kind);
        if pos == |tokens| {
          return Err(UndefinedRead);
        }
        variableType := tokens[pos].raw;
        var _ :- Eat("IDENTIFIER");
      } else {
        var _ :- Eat("IDENTIFIER");
      }
      return Ok(variableType);
    }

    method CodeBlock() returns (r: Result<Option<Node>>)
      requires pos <= |tokens|
      modifies this
      ensures pos <= |tokens|
      ensures Snap(r, pos) == CodeBlockAt(tokens, old(pos))
      decreases |tokens| - pos, 8
    {
      if pos == |tokens| {
        return Err(UndefinedRead);
      }
      var kind := tokens[pos].kind;
      var node: Node;
      if kind == "IF_STATEMENT" {
        node :- IfStatement();
      } else if kind == "VARIABLE_DEFINITION" {
        node :- VariableDeclaration();
      } else if kind == "IDENTIFIER" {
        node :- Identifier();
      } else if kind in ExpressionStarts {
        node :- Expression();
      } else {
        pos := pos + 1;
        return Ok(None);
      }
      return Ok(Some(node));
    }

    /** `new AstTree(name, this)`, whose constructor runs `work`. */
    method Work(name: string) returns (r: Result<Tree>)
      requires pos == 0
      modifies this
      ensures r == TreeOf(name, tokens)
    {
      var nodes: Block := [];
      while pos < |tokens|
        invariant pos <= |tokens|
        invariant ItemsAt(tokens, pos, nodes) == ItemsAt(tokens, 0, [])
        decreases |tokens| - pos
      {
        var node :- CodeBlock();
        if node.Some? {
          nodes := nodes + [node];
        }
      }
      return Ok(Tree(name, nodes));
    }
  }
}
