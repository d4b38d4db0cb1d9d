/** The recursive-descent parser of `source/parser/parser.ts`, over an abstract token
    sequence. The functions `...At(ts, p)` say what each parsing routine yields when the
    current token is `ts[p]` (`p == |ts|` is the end of the stream, where the source's
    `token` is `undefined`): the node and the position of the next unread token, or the
    fatal error. The class `Parser` holds the cursor the source mutates; each of its methods
    is proved to agree with the matching function. */
module LlvmParser {
  import opened Results
  import opened Text
  import opened Tokens
  import opened Ast

  /** Operators folded by `term`, by the additive loop of `expression`, and by its logical tail. */
  const MulOps: set<string> := {"/", "*"}
  const AddOps: set<string> := {"+", "-", ">", "<", "<=", ">=", "==", "!=", "%"}
  const LogicOps: set<string> := {"&&", "||"}

  /** Token kinds with which `decidePart` starts an expression statement and after which
      `return` parses a value. */
  const ExpressionKinds: set<string> :=
    {"ARITHMETIC_OPERATOR", "FLOAT_LITERAL", "STRING_LITERAL", "INTEGER_LITERAL", "LEFT_PARENTHESIS", "IDENTIFIER"}

  /** The nodes the expression routines build: operators folded from the three operator
      sets, prefix `+`, `-` or `!`, literals, variable reads, assignments and calls. */
  predicate IsExpressionNode(n: Node)
  {
    match n
    case Expression(l, r, op) => op in MulOps + AddOps + LogicOps && IsExpressionNode(l) && IsExpressionNode(r)
    case Unary(operand, op) => op in {"+", "-", "!"} && IsExpressionNode(operand)
    case StringLiteral(_) => true
    case IntegerLiteral(_) => true
    case FloatLiteral(_) => true
    case BooleanLiteral(_) => true
    case Variable(_) => true
    case SetVariable(_, v) => IsExpressionNode(v)
    case Call(_, args) => forall i :: 0 <= i < |args| ==> IsExpressionNode(args[i])
    case _ => false
  }

  predicate KindAt(ts: seq<Token>, p: nat, kind: string)
  {
    p < |ts| && ts[p].kind == kind
  }

  predicate RawIn(ts: seq<Token>, p: nat, ops: set<string>)
  {
    p < |ts| && ts[p].raw in ops
  }

  /** `expect(kind)`: a no-op at the end of the stream; otherwise it advances exactly when the
      current token has the expected kind and is fatal when it does not. */
  function ExpectAt(ts: seq<Token>, p: nat, kind: string): (r: Result<nat>)
    requires p <= |ts|
    ensures p == |ts| ==> r == Ok(p)
    ensures p < |ts| ==> (r.Ok? <==> ts[p].kind == kind)
    ensures p < |ts| && r.Ok? ==> r.value == p + 1
  {
    if p == |ts| then Ok(p)
    else if ts[p].kind == kind then Ok(p + 1)
    else Err("Expceted " + kind + " but we got " + ts[p].kind + " at line " + IntToString(ts[p].line) + ".")
  }

  /** `factor()`. */
  function FactorAt(ts: seq<Token>, p: nat): (r: Result<Parsed<Node>>)
    requires p <= |ts|
    ensures r.Ok? ==> p < r.value.pos <= |ts|
    ensures r.Ok? ==> IsExpressionNode(r.value.node)
    decreases |ts| - p, 3
  {
    if p == |ts| then Err(UndefinedRead)
    else
      var t := ts[p];
      if t.kind == "ARITHMETIC_OPERATOR" then UnaryAt(ts, p)
      else if t.kind == "LEFT_PARENTHESIS" then ParenthesizedAt(ts, p)
      else if t.kind == "INTEGER_LITERAL" then Ok(Parsed(IntegerLiteral(ParseInt(t.raw)), p + 1))
      else if t.kind == "FLOAT_LITERAL" then Ok(Parsed(FloatLiteral(t.raw), p + 1))
      else if t.kind == "STRING_LITERAL" then Ok(Parsed(StringLiteral(t.raw), p + 1))
      else if t.kind == "BOOLEAN_LITERAL" then Ok(Parsed(BooleanLiteral(t.raw == "true"), p + 1))
      else IdentifierAt(ts, p)
  }

  /** A factor that starts with an arithmetic operator: `+`, `-` and `!` apply to the factor
      after them; any other operator is fatal. */
  function UnaryAt(ts: seq<Token>, p: nat): (r: Result<Parsed<Node>>)
    requires p < |ts|
    ensures r.Ok? ==> p < r.value.pos <= |ts| && r.value.node.Unary? && r.value.node.operator in {"+", "-", "!"}
    decreases |ts| - p, 2
  {
    if ts[p].raw == "+" || ts[p].raw == "-" || ts[p].raw == "!" then
      var f :- FactorAt(ts, p + 1);
      Ok(Parsed(Unary(f.node, ts[p].raw), f.pos))
    else Err("This isn't a factor lmao")
  }

  /** A parenthesized expression: the node of the inner expression itself. */
  function ParenthesizedAt(ts: seq<Token>, p: nat): (r: Result<Parsed<Node>>)
    requires p < |ts|
    ensures r.Ok? ==> p < r.value.pos <= |ts| && IsExpressionNode(r.value.node)
    decreases |ts| - p, 2
  {
    var e :- ExpressionAt(ts, p + 1);
    var q :- ExpectAt(ts, e.pos, "RIGHT_PARENTHESIS");
    Ok(Parsed(e.node, q))
  }

  /** `term()`: a factor followed by the `*`/`/` loop. */
  function TermAt(ts: seq<Token>, p: nat): (r: Result<Parsed<Node>>)
    requires p <= |ts|
    ensures r.Ok? ==> p < r.value.pos <= |ts|
    ensures r.Ok? ==> IsExpressionNode(r.value.node)
    decreases |ts| - p, 4
  {
    var f :- FactorAt(ts, p);
    TermTail(ts, f.node, f.pos)
  }

  /** The loop of `term()` with `acc` as the node built so far. */
  function TermTail(ts: seq<Token>, acc: Node, p: nat): (r: Result<Parsed<Node>>)
    requires p <= |ts|
    ensures r.Ok? ==> p <= r.value.pos <= |ts|
    ensures r.Ok? && IsExpressionNode(acc) ==> IsExpressionNode(r.value.node)
    decreases |ts| - p, 0
  {
    if RawIn(ts, p, MulOps) then
      var f :- FactorAt(ts, p + 1);
      TermTail(ts, Expression(acc, f.node, ts[p].raw), f.pos)
    else Ok(Parsed(acc, p))
  }

  /** `identifier()`: one token of lookahead after the name decides the node. */
  function IdentifierAt(ts: seq<Token>, p: nat): (r: Result<Parsed<Node>>)
    requires p <= |ts|
    ensures r.Ok? ==> p < r.value.pos <= |ts|
    ensures r.Ok? ==> IsExpressionNode(r.value.node)
    decreases |ts| - p, 2
  {
    if p == |ts| then Err(UndefinedRead)
    else
      var name := ts[p].raw;
      var q :- ExpectAt(ts, p, "IDENTIFIER");
      if q == |ts| then Err(UndefinedRead)
      else if ts[q].kind == "LEFT_PARENTHESIS" then
        var a :- ArgsAt(ts, q + 1, []);
        var e :- ExpectAt(ts, a.pos, "RIGHT_PARENTHESIS");
        Ok(Parsed(Call(name, a.node), e))
      else if ts[q].kind == "EQUALS" then
        var v :- ExpressionAt(ts, q + 1);
        Ok(Parsed(SetVariable(name, v.node), v.pos))
      else Ok(Parsed(Variable(name), q))
  }

  /** The argument loop of `identifier()`: expressions until a token whose text is `)`,
      separated by COMMA tokens. */
  function ArgsAt(ts: seq<Token>, p: nat, acc: seq<Node>): (r: Result<Parsed<seq<Node>>>)
    requires p <= |ts|
    ensures r.Ok? ==> p <= r.value.pos < |ts| && ts[r.value.pos].raw == ")"
    ensures r.Ok? ==> acc <= r.value.node
    ensures r.Ok? && (forall i :: 0 <= i < |acc| ==> IsExpressionNode(acc[i])) ==>
              forall i :: 0 <= i < |r.value.node| ==> IsExpressionNode(r.value.node[i])
    decreases |ts| - p, 7
  {
    if p == |ts| then Err(UndefinedRead)
    else if ts[p].raw == ")" then Ok(Parsed(acc, p))
    else
      var e :- ExpressionAt(ts, p);
      if e.pos == |ts| then Err(UndefinedRead)
      else if ts[e.pos].raw != ")" then
        var c :- ExpectAt(ts, e.pos, "COMMA");
        ArgsAt(ts, c, acc + [e.node])
      else ArgsAt(ts, e.pos, acc + [e.node])
  }

  /** `expression()`: terms joined left-associatively by the additive and relational
      operators, then an optional `&&`/`||` whose right operand is a whole expression. */
  function ExpressionAt(ts: seq<Token>, p: nat): (r: Result<Parsed<Node>>)
    requires p <= |ts|
    ensures r.Ok? ==> p < r.value.pos <= |ts|
    ensures r.Ok? ==> IsExpressionNode(r.value.node)
    decreases |ts| - p, 6
  {
    if p == |ts| then Err("Token = undefined?")
    else
      var t :- TermAt(ts, p);
      var l :- ExpressionTail(ts, t.node, t.pos);
      if RawIn(ts, l.pos, LogicOps) then
        var q :- ExpectAt(ts, l.pos, "RELATIONAL_OPERATOR");
        var right :- ExpressionAt(ts, q);
        Ok(Parsed(Expression(l.node, right.node, ts[l.pos].raw), right.pos))
      else Ok(l)
  }

  /** The additive loop of `expression()` with `acc` as the node built so far. */
  function ExpressionTail(ts: seq<Token>, acc: Node, p: nat): (r: Result<Parsed<Node>>)
    requires p <= |ts|
    ensures r.Ok? ==> p <= r.value.pos <= |ts|
    ensures r.Ok? && IsExpressionNode(acc) ==> IsExpressionNode(r.value.node)
    decreases |ts| - p, 0
  {
    if RawIn(ts, p, AddOps) then
      var t :- TermAt(ts, p + 1);
      ExpressionTail(ts, Expression(acc, t.node, ts[p].raw), t.pos)
    else Ok(Parsed(acc, p))
  }

  /** A brace-delimited statement list: `decidePart()` until a RIGHT_BRACE or the end. Every
      result of `decidePart()` is kept, `undefined` included. */
  function BodyAt(ts: seq<Token>, p: nat, acc: Body): (r: Result<Parsed<Body>>)
    requires p <= |ts|
    ensures r.Ok? ==> p <= r.value.pos <= |ts|
    ensures r.Ok? ==> r.value.pos == |ts| || ts[r.value.pos].kind == "RIGHT_BRACE"
    decreases |ts| - p, 9
  {
    if p < |ts| && ts[p].kind != "RIGHT_BRACE" then
      var d :- DecidePartAt(ts, p);
      BodyAt(ts, d.pos, acc + [d.node])
    else Ok(Parsed(acc, p))
  }

  /** `{ body }` as every statement form reads it. */
  function BlockAt(ts: seq<Token>, p: nat): (r: Result<Parsed<Body>>)
    requires p <= |ts|
    ensures r.Ok? ==> p <= r.value.pos <= |ts|
    decreases |ts| - p, 10
  {
    var b :- ExpectAt(ts, p, "LEFT_BRACE");
    var body :- BodyAt(ts, b, []);
    var e :- ExpectAt(ts, body.pos, "RIGHT_BRACE");
    Ok(Parsed(body.node, e))
  }

  /** `decidePart()`: a keyword statement, an expression statement, or a skipped token. */
  function DecidePartAt(ts: seq<Token>, p: nat): (r: Result<Parsed<Option<Node>>>)
    requires p <= |ts|
    ensures r.Ok? ==> p < r.value.pos <= |ts|
    decreases |ts| - p, 8
  {
    if p == |ts| then Err(UndefinedRead)
    else if ts[p].kind == "KEYWORD" then KeywordAt(ts, p)
    else if ts[p].kind in ExpressionKinds then
      var e :- ExpressionAt(ts, p);
      Ok(Parsed(Some(e.node), e.pos))
    else Ok(Parsed(None, p + 1))
  }

  /** `keyword()`: the keyword's text selects the statement form. */
  function KeywordAt(ts: seq<Token>, p: nat): (r: Result<Parsed<Option<Node>>>)
    requires p <= |ts|
    ensures r.Ok? ==> p < r.value.pos <= |ts|
    decreases |ts| - p, 7
  {
    if p == |ts| then Err(UndefinedRead)
    else
      var word := ts[p].raw;
      var q :- ExpectAt(ts, p, "KEYWORD");
      if word == "if" then IfAt(ts, q)
      else if word == "while" then WhileAt(ts, q)
      else if word == "for" then ForAt(ts, q)
      else if word == "func" || word == "external" then FunctionAt(ts, q, word == "external")
      else if word == "return" then ReturnAt(ts, q)
      else if word == "var" then VarAt(ts, q)
      else Err("Unknown keyword: " + word)
  }

  /** `if cond { ... } [else { ... }]`; an empty then-list yields `undefined`. */
  function IfAt(ts: seq<Token>, p: nat): (r: Result<Parsed<Option<Node>>>)
    requires p <= |ts|
    ensures r.Ok? ==> p < r.value.pos <= |ts|
    decreases |ts| - p, 7
  {
    var c :- ExpressionAt(ts, p);
    var scope :- BlockAt(ts, c.pos);
    var els :- ElseAt(ts, scope.pos);
    if |scope.node| == 0 then Ok(Parsed(None, els.pos))
    else Ok(Parsed(Some(If(c.node, scope.node, els.node)), els.pos))
  }

  /** The optional `else { ... }`; without it the else-list is empty. */
  function ElseAt(ts: seq<Token>, p: nat): (r: Result<Parsed<Body>>)
    requires p <= |ts|
    ensures r.Ok? ==> p <= r.value.pos <= |ts|
    decreases |ts| - p, 11
  {
    if KindAt(ts, p, "KEYWORD") && ts[p].raw == "else" then BlockAt(ts, p + 1)
    else Ok(Parsed([], p))
  }

  /** `while cond { ... }`; an empty body yields `undefined`. */
  function WhileAt(ts: seq<Token>, p: nat): (r: Result<Parsed<Option<Node>>>)
    requires p <= |ts|
    ensures r.Ok? ==> p < r.value.pos <= |ts|
    decreases |ts| - p, 7
  {
    var c :- ExpressionAt(ts, p);
    var scope :- BlockAt(ts, c.pos);
    if |scope.node| == 0 then Ok(Parsed(None, scope.pos))
    else Ok(Parsed(Some(While(c.node, scope.node)), scope.pos))
  }

  /** `for name = start; cond; step { ... }`; an empty body yields `undefined`. */
  function ForAt(ts: seq<Token>, p: nat): (r: Result<Parsed<Option<Node>>>)
    requires p <= |ts|
    ensures r.Ok? ==> p < r.value.pos <= |ts|
    decreases |ts| - p, 7
  {
    if p == |ts| then Err(UndefinedRead)
    else
      var name := ts[p].raw;
      var a :- ExpectAt(ts, p, "IDENTIFIER");
      var b :- ExpectAt(ts, a, "EQUALS");
      var start :- ExpressionAt(ts, b);
      var s1 :- ExpectAt(ts, start.pos, "SEMICOLON");
      var cond :- ExpressionAt(ts, s1);
      var s2 :- ExpectAt(ts, cond.pos, "SEMICOLON");
      var step :- ExpressionAt(ts, s2);
      var scope :- BlockAt(ts, step.pos);
      if |scope.node| == 0 then Ok(Parsed(None, scope.pos))
      else Ok(Parsed(Some(For(name, start.node, cond.node, step.node, scope.node)), scope.pos))
  }

  /** The parameter loop of a function header: `name : type` pairs separated by COMMA, or
      `...` which must stand right before `)`. The flag is `isVarArg`. */
  function ParamsAt(ts: seq<Token>, p: nat, acc: seq<Param>): (r: Result<Parsed<(seq<Param>, bool)>>)
    requires p <= |ts|
    ensures r.Ok? ==> p <= r.value.pos <= |ts|
    decreases |ts| - p
  {
    if p == |ts| || ts[p].raw == ")" then Ok(Parsed((acc, false), p))
    else if ts[p].raw == "." then
      var d1 :- ExpectAt(ts, p, "DOT");
      var d2 :- ExpectAt(ts, d1, "DOT");
      var d3 :- ExpectAt(ts, d2, "DOT");
      if d3 == |ts| then Err(UndefinedRead)
      else if ts[d3].kind != "RIGHT_PARENTHESIS" then Err("VarArg must be at the end.")
      else Ok(Parsed((acc, true), d3))
    else
      var name := ts[p].raw;
      var a :- ExpectAt(ts, p, "IDENTIFIER");
      var b :- ExpectAt(ts, a, "COLON");
      if b == |ts| then Err(UndefinedRead)
      else
        var paramType := ts[b].raw;
        var c :- ExpectAt(ts, b, "IDENTIFIER");
        if c == |ts| then Err(UndefinedRead)
        else if ts[c].raw != ")" then
          var d :- ExpectAt(ts, c, "COMMA");
          ParamsAt(ts, d, acc + [Param(name, paramType)])
        else ParamsAt(ts, c, acc + [Param(name, paramType)])
  }

  /** The optional `: type` after the parameter list; the default is "void". */
  function ReturnTypeAt(ts: seq<Token>, p: nat): (r: Result<Parsed<string>>)
    requires p <= |ts|
    ensures r.Ok? ==> p <= r.value.pos <= |ts|
  {
    if p == |ts| then Err(UndefinedRead)
    else if ts[p].raw == ":" then
      var c :- ExpectAt(ts, p, "COLON");
      if c == |ts| then Err(UndefinedRead)
      else
        var i :- ExpectAt(ts, c, "IDENTIFIER");
        Ok(Parsed(ts[c].raw, i))
    else Ok(Parsed("void", p))
  }

  /** `func name(params) [: type] { ... }` and `external func name(params) [: type]`; the
      word after `external` is consumed as a KEYWORD. External functions have no body. */
  function FunctionAt(ts: seq<Token>, p: nat, isExternal: bool): (r: Result<Parsed<Option<Node>>>)
    requires p <= |ts|
    ensures r.Ok? ==> p < r.value.pos <= |ts|
    decreases |ts| - p, 7
  {
    var k :- if isExternal then ExpectAt(ts, p, "KEYWORD") else Ok(p);
    if k == |ts| then Err(UndefinedRead)
    else
      var name := ts[k].raw;
      var a :- ExpectAt(ts, k, "IDENTIFIER");
      var b :- ExpectAt(ts, a, "LEFT_PARENTHESIS");
      var params :- ParamsAt(ts, b, []);
      var c :- ExpectAt(ts, params.pos, "RIGHT_PARENTHESIS");
      var ret :- ReturnTypeAt(ts, c);
      var scope :- if isExternal then Ok(Parsed([], ret.pos)) else BlockAt(ts, ret.pos);
      Ok(Parsed(Some(Function(name, params.node.0, scope.node, ret.node, params.node.1, isExternal)), scope.pos))
  }

  /** `return [value]`: a value is parsed only when the next token can start one. */
  function ReturnAt(ts: seq<Token>, p: nat): (r: Result<Parsed<Option<Node>>>)
    requires p <= |ts|
    ensures r.Ok? ==> p <= r.value.pos <= |ts|
    decreases |ts| - p, 7
  {
    if p == |ts| then Err(UndefinedRead)
    else if ts[p].kind in ExpressionKinds then
      var v :- ExpressionAt(ts, p);
      Ok(Parsed(Some(Return(Some(v.node))), v.pos))
    else Ok(Parsed(Some(Return(None)), p))
  }

  /** `var name [: type] [= value]`; the type defaults to "". */
  function VarAt(ts: seq<Token>, p: nat): (r: Result<Parsed<Option<Node>>>)
    requires p <= |ts|
    ensures r.Ok? ==> p < r.value.pos <= |ts|
    decreases |ts| - p, 7
  {
    if p == |ts| then Err(UndefinedRead)
    else
      var name := ts[p].raw;
      var a :- ExpectAt(ts, p, "IDENTIFIER");
      var typed :- VarTypeAt(ts, a);
      if typed.pos == |ts| then Err(UndefinedRead)
      else if ts[typed.pos].kind == "EQUALS" then
        var v :- ExpressionAt(ts, typed.pos + 1);
        Ok(Parsed(Some(DefineVariable(name, Named(typed.node), Some(v.node))), v.pos))
      else Ok(Parsed(Some(DefineVariable(name, Named(typed.node), None)), typed.pos))
  }

  /** The optional `: type` of a variable definition. */
  function VarTypeAt(ts: seq<Token>, p: nat): (r: Result<Parsed<string>>)
    requires p <= |ts|
    ensures r.Ok? ==> p <= r.value.pos <= |ts|
  {
    if p == |ts| then Err(UndefinedRead)
    else if ts[p].kind == "COLON" then
      if p + 1 == |ts| then Err(UndefinedRead)
      else
        var i :- ExpectAt(ts, p + 1, "IDENTIFIER");
        Ok(Parsed(ts[p + 1].raw, i))
    else Ok(Parsed("", p))
  }

  /** The loop of `parse()`: statements until the end of the stream, dropping `undefined`. */
  function ItemsAt(ts: seq<Token>, p: nat, acc: seq<Node>): (r: Result<seq<Node>>)
    requires p <= |ts|
    ensures r.Ok? ==> acc <= r.value
    decreases |ts| - p
  {
    if p == |ts| then Ok(acc)
    else
      var d :- DecidePartAt(ts, p);
      ItemsAt(ts, d.pos, if d.node.Some? then acc + [d.node.value] else acc)
  }

  /** `parse()`. */
  function ProgramOf(ts: seq<Token>): Result<Tree>
  {
    var items :- ItemsAt(ts, 0, []);
    Ok(Tree("Program", items))
  }

  /** The parser object: the token stream it reads (the lexer, already run) and the cursor
      that `expect` and `decidePart` advance. */
  class Parser {
    const tokens: seq<Token>
    var pos: nat

    constructor(tokens: seq<Token>)
      ensures this.tokens == tokens && pos == 0
    {
      this.tokens := tokens;
      pos := 0;
    }

    /** `expect(kind)`; the result is the position of the new current token. */
    method Expect(kind: string) returns (r: Result<nat>)
      requires pos <= |tokens|
      modifies this
      ensures r == ExpectAt(tokens, old(pos), kind)
      ensures pos == if r.Ok? then r.value else old(pos)
    {
      if pos == |tokens| {
        return Ok(pos);
      }
      if tokens[pos].kind == kind {
        pos := pos + 1;
        return Ok(pos);
      }
      return Err("Expceted " + kind + " but we got " + tokens[pos].kind + " at line " + IntToString(tokens[pos].line) + ".");
    }

    method UnaryFactor() returns (r: Result<Node>)
      requires pos < |tokens|
      modifies this
      ensures pos <= |tokens|
      ensures Snap(r, pos) == UnaryAt(tokens, old(pos))
      decreases |tokens| - pos, 2
    {
      var tokenValue := tokens[pos].raw;
      var _ := Expect(tokens[pos].kind);
      if tokenValue == "+" || tokenValue == "-" || tokenValue == "!" {
        var operand :- Factor();
        return Ok(Unary(operand, tokenValue));
      }
      return Err("This isn't a factor lmao");
    }

    method Parenthesized() returns (r: Result<Node>)
      requires pos < |tokens|
      modifies this
      ensures pos <= |tokens|
      ensures Snap(r, pos) == ParenthesizedAt(tokens, old(pos))
      decreases |tokens| - pos, 2
    {
      var _ := Expect(tokens[pos].kind);
      var result :- Expression();
      var _ :- Expect("RIGHT_PARENTHESIS");
      return Ok(result);
    }

    method Factor() returns (r: Result<Node>)
      requires pos <= |tokens|
      modifies this
      ensures pos <= |tokens|
      ensures Snap(r, pos) == FactorAt(tokens, old(pos))
      decreases |tokens| - pos, 3
    {
      if pos == |tokens| {
        return Err(UndefinedRead);
      }
      var tokenValue := tokens[pos].raw;
      var tokenName := tokens[pos].kind;
      if tokenName == "ARITHMETIC_OPERATOR" {
        r := UnaryFactor();
        return;
      } else if tokenName == "LEFT_PARENTHESIS" {
        r := Parenthesized();
        return;
      } else if tokenName == "INTEGER_LITERAL" {
        var _ := Expect(tokenName);
        return Ok(IntegerLiteral(ParseInt(tokenValue)));
      } else if tokenName == "FLOAT_LITERAL" {
        var _ := Expect(tokenName);
        return Ok(FloatLiteral(tokenValue));
      } else if tokenName == "STRING_LITERAL" {
        var _ := Expect(tokenName);
        return Ok(StringLiteral(tokenValue));
      } else if tokenName == "BOOLEAN_LITERAL" {
        var _ := Expect(tokenName);
        return Ok(BooleanLiteral(tokenValue == "true"));
      }
      r := Identifier();
    }

    method Term() returns (r: Result<Node>)
      requires pos <= |tokens|
      modifies this
      ensures pos <= |tokens|
      ensures Snap(r, pos) == TermAt(tokens, old(pos))
      decreases |tokens| - pos, 4
    {
      var node :- Factor();
      r := TermLoop(node);
    }

    /** The loop of `term()`, from the node its first factor built. */
    method TermLoop(first: Node) returns (r: Result<Node>)
      requires pos <= |tokens|
      modifies this
      ensures pos <= |tokens|
      ensures Snap(r, pos) == TermTail(tokens, first, old(pos))
      decreases |tokens| - pos, 0
    {
      var node := first;
      while RawIn(tokens, pos, MulOps)
        invariant old(pos) <= pos <= |tokens|
        invariant TermTail(tokens, node, pos) == TermTail(tokens, first, old(pos))
        decreases |tokens| - pos
      {
        var operator := tokens[pos].raw;
        var _ := Expect(tokens[pos].kind);
        var right :- Factor();
        node := Node.Expression(node, right, operator);
      }
      return Ok(node);
    }

    method Identifier() returns (r: Result<Node>)
      requires pos <= |tokens|
      modifies this
      ensures pos <= |tokens|
      ensures Snap(r, pos) == IdentifierAt(tokens, old(pos))
      decreases |tokens| - pos, 2
    {
      if pos == |tokens| {
        return Err(UndefinedRead);
      }
      var name := tokens[pos].raw;
      var _ :- Expect("IDENTIFIER");
      if pos == |tokens| {
        return Err(UndefinedRead);
      }
      if tokens[pos].kind == "LEFT_PARENTHESIS" {
        var _ := Expect("LEFT_PARENTHESIS");
        ghost var start := pos;
        var args: seq<Node> := [];
        while pos == |tokens| || tokens[pos].raw != ")"
          invariant start <= pos <= |tokens|
          invariant ArgsAt(tokens, pos, args) == ArgsAt(tokens, start, [])
          decreases |tokens| - pos
        {
          if pos == |tokens| {
            return Err(UndefinedRead);
          }
          var arg :- Expression();
          args := args + [arg];
          if pos == |tokens| {
            return Err(UndefinedRead);
          }
          if tokens[pos].raw != ")" {
            var _ :- Expect("COMMA");
          }
        }
        var _ :- Expect("RIGHT_PARENTHESIS");
        return Ok(Call(name, args));
      }
      if tokens[pos].kind == "EQUALS" {
        var _ := Expect("EQUALS");
        var value :- Expression();
        return Ok(SetVariable(name, value));
      }
      return Ok(Variable(name));
    }

    /** The additive loop of `expression()`, from the node its first term built. */
    method AdditiveLoop(first: Node) returns (r: Result<Node>)
      requires pos <= |tokens|
      modifies this
      ensures pos <= |tokens| && (r.Ok? ==> old(pos) <= pos)
      ensures Snap(r, pos) == ExpressionTail(tokens, first, old(pos))
      decreases |tokens| - pos, 5
    {
      var node := first;
      while RawIn(tokens, pos, AddOps)
        invariant old(pos) <= pos <= |tokens|
        invariant ExpressionTail(tokens, node, pos) == ExpressionTail(tokens, first, old(pos))
        decreases |tokens| - pos
      {
        var operator := tokens[pos].raw;
        var _ := Expect(tokens[pos].kind);
        var right :- Term();
        node := Node.Expression(node, right, operator);
      }
      return Ok(node);
    }

    method Expression() returns (r: Result<Node>)
      requires pos <= |tokens|
      modifies this
      ensures pos <= |tokens|
      ensures Snap(r, pos) == ExpressionAt(tokens, old(pos))
      decreases |tokens| - pos, 6
    {
      if pos == |tokens| {
        return Err("Token = undefined?");
      }
      var first :- Term();
      var expr :- AdditiveLoop(first);
      if RawIn(tokens, pos, LogicOps) {
        var operator := tokens[pos].raw;
        var _ :- Expect("RELATIONAL_OPERATOR");
        var right :- Expression();
        return Ok(Node.Expression(expr, right, operator));
      }
      return Ok(expr);
    }

    /** The statement list of `{ ... }`, with its braces. */
    method Scope() returns (r: Result<Body>)
      requires pos <= |tokens|
      modifies this
      ensures pos <= |tokens|
      ensures Snap(r, pos) == BlockAt(tokens, old(pos))
      decreases |tokens| - pos, 10
    {
      var _ :- Expect("LEFT_BRACE");
      ghost var start := pos;
      var scope: Body := [];
      while pos < |tokens| && tokens[pos].kind != "RIGHT_BRACE"
        invariant start <= pos <= |tokens|
        invariant BodyAt(tokens, pos, scope) == BodyAt(tokens, start, [])
        decreases |tokens| - pos
      {
        var node :- DecidePart();
        scope := scope + [node];
      }
      var _ := Expect("RIGHT_BRACE");
      return Ok(scope);
    }

    method Keyword() returns (r: Result<Option<Node>>)
      requires pos <= |tokens|
      modifies this
      ensures pos <= |tokens|
      ensures Snap(r, pos) == KeywordAt(tokens, old(pos))
      decreases |tokens| - pos, 7
    {
      if pos == |tokens| {
        return Err(UndefinedRead);
      }
      var tokenValue := tokens[pos].raw;
      var _ :- Expect("KEYWORD");
      if tokenValue == "if" {
        r := IfStatement();
      } else if tokenValue == "while" {
        r := WhileStatement();
      } else if tokenValue == "for" {
        r := ForStatement();
      } else if tokenValue == "func" || tokenValue == "external" {
        r := FunctionStatement(tokenValue == "external");
      } else if tokenValue == "return" {
        r := ReturnStatement();
      } else if tokenValue == "var" {
        r := VarStatement();
      } else {
        r := Err("Unknown keyword: " + tokenValue);
      }
    }

    method ElseBranch() returns (r: Result<Body>)
      requires pos <= |tokens|
      modifies this
      ensures pos <= |tokens|
      ensures Snap(r, pos) == ElseAt(tokens, old(pos))
      decreases |tokens| - pos, 11
    {
      r := Ok([]);
      if KindAt(tokens, pos, "KEYWORD") && tokens[pos].raw == "else" {
        var _ := Expect("KEYWORD");
        r := Scope();
      }
    }

    method IfStatement() returns (r: Result<Option<Node>>)
      requires pos <= |tokens|
      modifies this
      ensures pos <= |tokens|
      ensures Snap(r, pos) == IfAt(tokens, old(pos))
      decreases |tokens| - pos, 7
    {
      var condition :- Expression();
      var scope :- Scope();
      var elseScope :- ElseBranch();
      if |scope| == 0 {
        return Ok(None);
      }
      return Ok(Some(If(condition, scope, elseScope)));
    }

    method WhileStatement() returns (r: Result<Option<Node>>)
      requires pos <= |tokens|
      modifies this
      ensures pos <= |tokens|
      ensures Snap(r, pos) == WhileAt(tokens, old(pos))
      decreases |tokens| - pos, 7
    {
      var condition :- Expression();
      var scope :- Scope();
      if |scope| == 0 {
        return Ok(None);
      }
      return Ok(Some(While(condition, scope)));
    }

    method ForStatement() returns (r: Result<Option<Node>>)
      requires pos <= |tokens|
      modifies this
      ensures pos <= |tokens|
      ensures Snap(r, pos) == ForAt(tokens, old(pos))
      decreases |tokens| - pos, 7
    {
      if pos == |tokens| {
        return Err(UndefinedRead);
      }
      var variableName := tokens[pos].raw;
      var _ :- Expect("IDENTIFIER");
      var _ :- Expect("EQUALS");
      var start :- Expression();
      var _ :- Expect("SEMICOLON");
      var condition :- Expression();
      var _ :- Expect("SEMICOLON");
      var step :- Expression();
      var scope :- Scope();
      if |scope| == 0 {
        return Ok(None);
      }
      return Ok(Some(For(variableName, start, condition, step, scope)));
    }

    method FunctionStatement(isExternal: bool) returns (r: Result<Option<Node>>)
      requires pos <= |tokens|
      modifies this
      ensures pos <= |tokens|
      ensures Snap(r, pos) == FunctionAt(tokens, old(pos), isExternal)
      decreases |tokens| - pos, 7
    {
      if isExternal {
        var _ :- Expect("KEYWORD");
      }
      if pos == |tokens| {
        return Err(UndefinedRead);
      }
      var functionName := tokens[pos].raw;
      var _ :- Expect("IDENTIFIER");
      var _ :- Expect("LEFT_PARENTHESIS");
      var params :- Parameters();
      var _ :- Expect("RIGHT_PARENTHESIS");
      var returnType :- ReturnType();
      var scope: Body := [];
      if !isExternal {
        scope :- Scope();
      }
      return Ok(Some(Function(functionName, params.0, scope, returnType, params.1, isExternal)));
    }

    /** The parameter loop of a function header; the flag is `isVarArg`. */
    method Parameters() returns (r: Result<(seq<Param>, bool)>)
      requires pos <= |tokens|
      modifies this
      ensures pos <= |tokens|
      ensures Snap(r, pos) == ParamsAt(tokens, old(pos), [])
    {
      var isVarArg := false;
      var args: seq<Param> := [];
      while pos < |tokens| && tokens[pos].raw != ")"
        invariant old(pos) <= pos <= |tokens|
        invariant !isVarArg
        invariant ParamsAt(tokens, pos, args) == ParamsAt(tokens, old(pos), [])
        decreases |tokens| - pos
      {
        if tokens[pos].raw == "." {
          var _ :- Expect("DOT");
          var _ :- Expect("DOT");
          var _ :- Expect("DOT");
          if pos == |tokens| {
            return Err(UndefinedRead);
          }
          if tokens[pos].kind != "RIGHT_PARENTHESIS" {
            return Err("VarArg must be at the end.");
          }
          isVarArg := true;
          break;
        }
        var name := tokens[pos].raw;
        var _ :- Expect("IDENTIFIER");
        var _ :- Expect("COLON");
        if pos == |tokens| {
          return Err(UndefinedRead);
        }
        var paramType := tokens[pos].raw;
        var _ :- Expect("IDENTIFIER");
        args := args + [Param(name, paramType)];
        if pos == |tokens| {
          return Err(UndefinedRead);
        }
        if tokens[pos].raw != ")" {
          var _ :- Expect("COMMA");
        }
      }
      return Ok((args, isVarArg));
    }

    /** The optional `: type` after a parameter list. */
    method ReturnType() returns (r: Result<string>)
      requires pos <= |tokens|
      modifies this
      ensures pos <= |tokens|
      ensures Snap(r, pos) == ReturnTypeAt(tokens, old(pos))
    {
      if pos == |tokens| {
        return Err(UndefinedRead);
      }
      var returnType := "void";
      if tokens[pos].raw == ":" {
        var _ :- Expect("COLON");
        if pos == |tokens| {
          return Err(UndefinedRead);
        }
        returnType := tokens[pos].raw;
        var _ :- Expect("IDENTIFIER");
      }
      return Ok(returnType);
    }

    method ReturnStatement() returns (r: Result<Option<Node>>)
      requires pos <= |tokens|
      modifies this
      ensures pos <= |tokens|
      ensures Snap(r, pos) == ReturnAt(tokens, old(pos))
      decreases |tokens| - pos, 7
    {
      if pos == |tokens| {
        return Err(UndefinedRead);
      }
      var value: Option<Node> := None;
      if tokens[pos].kind in ExpressionKinds {
        var v :- Expression();
        value := Some(v);
      }
      return Ok(Some(Return(value)));
    }

    method VarStatement() returns (r: Result<Option<Node>>)
      requires pos <= |tokens|
      modifies this
      ensures pos <= |tokens|
      ensures Snap(r, pos) == VarAt(tokens, old(pos))
      decreases |tokens| - pos, 7
    {
      if pos == |tokens| {
        return Err(UndefinedRead);
      }
      var name := tokens[pos].raw;
      var varType := "";
      var _ :- Expect("IDENTIFIER");
      if pos == |tokens| {
        return Err(UndefinedRead);
      }
      if tokens[pos].kind == "COLON" {
        var _ := Expect("COLON");
        if pos == |tokens| {
          return Err(UndefinedRead);
        }
        varType := tokens[pos].raw;
        var _ :- Expect("IDENTIFIER");
      }
      if pos == |tokens| {
        return Err(UndefinedRead);
      }
      if tokens[pos].kind == "EQUALS" {
        var _ := Expect("EQUALS");
        var value :- Expression();
        return Ok(Some(DefineVariable(name, Named(varType), Some(value))));
      }
      return Ok(Some(DefineVariable(name, Named(varType), None)));
    }

    method DecidePart() returns (r: Result<Option<Node>>)
      requires pos <= |tokens|
      modifies this
      ensures pos <= |tokens|
      ensures Snap(r, pos) == DecidePartAt(tokens, old(pos))
      decreases |tokens| - pos, 8
    {
      if pos == |tokens| {
        return Err(UndefinedRead);
      }
      if tokens[pos].kind == "KEYWORD" {
        r := Keyword();
      } else if tokens[pos].kind in ExpressionKinds {
        var e :- Expression();
        r := Ok(Some(e));
      } else {
        pos := pos + 1;
        r := Ok(None);
      }
    }

    method Parse() returns (r: Result<Tree>)
      requires pos == 0
      modifies this
      ensures r == ProgramOf(tokens)
    {
      var block: seq<Node> := [];
      while pos < |tokens|
        invariant pos <= |tokens|
        invariant ItemsAt(tokens, pos, block) == ItemsAt(tokens, 0, [])
        decreases |tokens| - pos
      {
        var node :- DecidePart();
        if node.Some? {
          block := block + [node.value];
        }
      }
      return Ok(Tree("Program", block));
    }
  }
}
