/** The statement printer of `source/gen/func.ts`: `codeBlock` prints the statements of a
    code block as C++ lines, each ended by `;`, with `ifStatement`, `whileStatement`,
    `variableDeclaration`, `variableAssignment`, `callExpression` and `expression` for the
    statement and expression kinds it recognises. */
module CppFunctions {
  import opened Results
  import opened Text
  import opened TranspilerAst
  import CppGenerator
  import TranspilerParser

  /** `integratedFunctions` of this file: `system` is not one of them. */
  function Integrated(name: string): Option<CppGenerator.IntegratedFunction>
  {
    if name == "println" then Some(CppGenerator.IntegratedFunction(1, "std::cout << $1 << std::endl"))
    else if name == "input" then Some(CppGenerator.IntegratedFunction(1, "std::cin >> $1"))
    else None
  }

  /** `expression(node)`: arithmetic, literals and variables; every other node prints as
      the empty string. */
  function ExpressionText(n: Node): string
  {
    match n
    case Expression(l, r, op) => "(" + ExpressionText(l) + " " + op + " " + ExpressionText(r) + ")"
    case Unary(operand, op) => op + ExpressionText(operand)
    case BooleanLiteral(b) => if b then "true" else "false"
    case IntegerLiteral(num) => NumToString(num)
    case StringLiteral(text) => text
    case VariableReference(name) => name
    case _ => ""
  }

  /** `args.map(arg => expression(arg))`, with this file's own `expression`. The generator
      maps its own printer, which differs from this one on calls, so each module keeps its
      map; `ExpressionTextsAgree` relates the two. */
  function ExpressionTexts(args: seq<Node>): (r: seq<string>)
    ensures |r| == |args|
    ensures forall k :: 0 <= k < |args| ==> r[k] == ExpressionText(args[k])
  {
    seq(|args|, k requires 0 <= k < |args| => ExpressionText(args[k]))
  }

  function ArityMessage(name: string, required: nat): string
  {
    "functions " + name + " requires " + IntToString(required) + " arguments"
  }

  /** The names every plain object inherits from `Object.prototype`: looking one of them up
      in `integratedFunctions` finds a function or an object, whose `value` is undefined. */
  const InheritedNames: set<string> := {"constructor", "hasOwnProperty", "isPrototypeOf",
    "propertyIsEnumerable", "toLocaleString", "toString", "valueOf", "__defineGetter__",
    "__defineSetter__", "__lookupGetter__", "__lookupSetter__", "__proto__"}

  /** `callExpression(node)`: an integrated call fails for a name outside the table and,
      after the substitution, when the number of arguments is not the required one. An
      inherited name passes the lookup with an undefined template and arity: without
      arguments the arity check throws naming `undefined`, with some the substitution
      reads a property of undefined. */
  function CallText(name: string, args: seq<Node>, integrated: bool): Result<string>
  {
    if !integrated then Ok(name + "(" + Join(ExpressionTexts(args), ", ") + ")")
    else if Integrated(name).None? then
      if name in InheritedNames && |args| == 0 then Err("functions " + name + " requires undefined arguments")
      else Err(UndefinedRead)
    else
      var f := Integrated(name).value;
      var value := CppGenerator.Substituted(f.template, ExpressionTexts(args));
      if |args| != f.requiredArguments then Err(ArityMessage(name, f.requiredArguments))
      else Ok(value)
  }

  /** `variableDeclaration(node)`. */
  function DeclarationText(name: string, value: Node, variableType: string): string
  {
    CppGenerator.TypeText(CppGenerator.ToCodeType(variableType)) + " " + name + " = " + ExpressionText(value)
  }

  /** `variableAssignment(node)`. */
  function AssignmentText(name: string, value: Node): string
  {
    name + " = " + ExpressionText(value)
  }

  /** The shape shared by `ifStatement` and `whileStatement`. */
  function Conditional(keyword: string, condition: Node, lines: seq<string>): string
  {
    keyword + " (" + ExpressionText(condition) + ") \n" + "{ \n" + Join(lines, "\n") + "\n}"
  }

  /** What the `switch` of `codeBlock` pushes for one entry: one line for a recognised
      kind, nothing for any other; `node.name` of an `undefined` entry throws. */
  function StatementLines(entry: Option<Node>): (r: Result<seq<string>>)
    ensures r.Ok? ==> |r.value| <= 1
    decreases entry, 3
  {
    if entry.None? then Err(UndefinedRead)
    else
      var n := entry.value;
      match n
      case VariableDeclaration(name, value, variableType) => Ok([DeclarationText(name, value, variableType)])
      case Expression(_, _, _) => Ok([ExpressionText(n)])
      case IfStatement(condition, block) =>
        var lines :- BlockLines(block);
        Ok([Conditional("if", condition, lines)])
      case WhileStatement(condition, block) =>
        var lines :- BlockLines(block);
        Ok([Conditional("while", condition, lines)])
      case BreakStatement => Ok(["break"])
      case VariableAssignment(name, value) => Ok([AssignmentText(name, value)])
      case CallExpression(name, args, integrated) =>
        var text :- CallText(name, args, integrated);
        Ok([text])
      case _ => Ok([])
  }

  /** The lines `codeBlock` pushes for the entries of `block`, in order; the first entry
      that throws decides the error. */
  function Lines(block: Block): Result<seq<string>>
    decreases block, 1
  {
    if |block| == 0 then Ok([])
    else
      var init :- Lines(block[..|block| - 1]);
      var last :- StatementLines(block[|block| - 1]);
      Ok(init + last)
  }

  /** `codeBlock(item)`: the pushed lines, each followed by `;`. */
  function BlockLines(block: Block): (r: Result<seq<string>>)
    ensures r.Ok? ==> forall k :: 0 <= k < |r.value| ==> |r.value[k]| > 0 && r.value[k][|r.value[k]| - 1] == ';'
    decreases block, 2
  {
    var lines :- Lines(block);
    Ok(seq(|lines|, k requires 0 <= k < |lines| => lines[k] + ";"))
  }

  /** The substitution loop and the arity check of `callExpression`. */
  method CallExpression(name: string, args: seq<Node>, integrated: bool) returns (r: Result<string>)
    ensures r == CallText(name, args, integrated)
  {
    if integrated {
      var integratedFunction := Integrated(name);
      if integratedFunction.None? {
        if name in InheritedNames && |args| == 0 {
          return Err("functions " + name + " requires undefined arguments");
        }
        return Err(UndefinedRead);
      }
      var f := integratedFunction.value;
      ghost var texts := ExpressionTexts(args);
      var value := f.template;
      var index := 0;
      while index < |args|
        invariant index <= |args|
        invariant value == CppGenerator.Substituted(f.template, texts[..index])
      {
        value := ReplaceFirst(f.template, "$" + IntToString(index + 1), ExpressionText(args[index]));
        index := index + 1;
      }
      assert texts[..index] == texts;
      if |args| != f.requiredArguments {
        return Err(ArityMessage(name, f.requiredArguments));
      }
      return Ok(value);
    }
    return Ok(name + "(" + Join(ExpressionTexts(args), ", ") + ")");
  }

  /** `ifStatement(node)` and `whileStatement(node)`. */
  method ConditionalStatement(keyword: string, condition: Node, block: Block) returns (r: Result<string>)
    ensures r == (var lines :- BlockLines(block); Ok(Conditional(keyword, condition, lines)))
    decreases block, 2
  {
    var lines :- CodeBlock(block);
    return Ok(Conditional(keyword, condition, lines));
  }

  /** One round of the `switch` of `codeBlock`. */
  method Statement(entry: Option<Node>) returns (r: Result<seq<string>>)
    ensures r == StatementLines(entry)
    decreases entry, 3
  {
    if entry.None? {
      return Err(UndefinedRead);
    }
    var n := entry.value;
    if n.IfStatement? || n.WhileStatement? {
      var text :- ConditionalStatement(if n.IfStatement? then "if" else "while", n.condition, n.block);
      return Ok([text]);
    } else if n.CallExpression? {
      var text :- CallExpression(n.functionName, n.args, n.integrated);
      return Ok([text]);
    } else {
      return StatementLines(entry);
    }
  }

  /** `codeBlock(item)`: push a line per recognised entry, then end each line with `;`. */
  method CodeBlock(block: Block) returns (r: Result<seq<string>>)
    ensures r == BlockLines(block)
    decreases block, 1
  {
    var result: seq<string> := [];
    for k := 0 to |block|
      invariant Lines(block[..k]) == Ok(result)
    {
      assert block[..k + 1][..k] == block[..k];
      var lines := Statement(block[k]);
      if lines.Err? {
        LinesFailureStops(block, k + 1);
        return Err(lines.msg);
      }
      result := result + lines.value;
    }
    assert block[..|block|] == block;
    return Ok(seq(|result|, k requires 0 <= k < |result| => result[k] + ";"));
  }

  /** Once an entry throws, the rest of the block is not printed: the error of a prefix is
      the error of the whole block. */
  lemma {:induction false} LinesFailureStops(block: Block, k: nat)
    requires k <= |block| && Lines(block[..k]).Err?
    ensures Lines(block) == Lines(block[..k])
    decreases |block| - k
  {
    if k < |block| {
      assert block[..k + 1][..k] == block[..k];
      LinesFailureStops(block, k + 1);
    } else {
      assert block[..k] == block;
    }
  }

  /** The lines of two consecutive runs of entries are those of the first followed by those
      of the second: statements are printed in source order. */
  lemma {:induction false} LinesAppend(a: Block, b: Block)
    requires Lines(a).Ok? && Lines(b).Ok?
    ensures Lines(a + b) == Ok(Lines(a).value + Lines(b).value)
    decreases |b|
  {
    if |b| == 0 {
      assert a + b == a;
      assert Lines(b) == Ok([]);
      assert Lines(a).value + [] == Lines(a).value;
    } else {
      var c := b[..|b| - 1];
      assert (a + b)[..|a + b| - 1] == a + c;
      assert (a + b)[|a + b| - 1] == b[|b| - 1];
      var last := StatementLines(b[|b| - 1]);
      assert Lines(b) == Ok(Lines(c).value + last.value);
      LinesAppend(a, c);
      assert Lines(a + b) == Ok(Lines(a + c).value + last.value);
      assert (Lines(a).value + Lines(c).value) + last.value == Lines(a).value + (Lines(c).value + last.value);
    }
  }

  /** `break` prints as `break;`. */
  lemma BreakLine()
    ensures BlockLines([Some(BreakStatement)]) == Ok(["break;"])
  {
    var block: Block := [Some(BreakStatement)];
    assert block[..|block| - 1] == [];
    assert Lines(block[..|block| - 1]) == Ok([]);
    assert Lines(block) == Ok([] + ["break"]);
    var r := BlockLines(block);
    assert |r.value| == 1 && r.value[0] == "break" + ";" == "break;";
    assert r.value == ["break;"];
  }

  /** An integrated call fails exactly when the function is not `println` or `input` or
      it is not given exactly one argument. */
  lemma IntegratedCallFails(name: string, args: seq<Node>)
    ensures CallText(name, args, true).Err? <==> name !in {"println", "input"} || |args| != 1
  {
  }

  /** An inherited name such as `toString` is found in `integratedFunctions`, so a call to
      it without arguments fails at the arity check, whose message names `undefined`; with
      arguments the substitution reads `replace` of the undefined template. */
  lemma InheritedNameArity(name: string)
    requires name in InheritedNames
    ensures CallText(name, [], true) == Err("functions " + name + " requires undefined arguments")
    ensures forall args :: |args| > 0 ==> CallText(name, args, true) == Err(UndefinedRead)
  {
    assert name != "println" && name != "input" by {
      assert "println"[1] == 'r' && "valueOf"[1] == 'a';
      assert "println" !in InheritedNames && "input" !in InheritedNames;
    }
  }

  /** On the nodes the expression parser builds, this printer and the generator's
      `expression` agree. */
  lemma {:induction false} ExpressionTextAgrees(n: Node)
    requires TranspilerParser.IsExpressionNode(n)
    ensures ExpressionText(n) == CppGenerator.ExpressionText(n)
    decreases n
  {
    match n
    case Expression(l, r, _) =>
      ExpressionTextAgrees(l);
      ExpressionTextAgrees(r);
    case Unary(operand, _) =>
      ExpressionTextAgrees(operand);
    case _ =>
  }

  /** On arguments the expression parser builds, both files print the same argument texts. */
  lemma ExpressionTextsAgree(args: seq<Node>)
    requires forall k :: 0 <= k < |args| ==> TranspilerParser.IsExpressionNode(args[k])
    ensures ExpressionTexts(args) == CppGenerator.ExpressionTexts(args)
  {
    forall k | 0 <= k < |args|
      ensures ExpressionTexts(args)[k] == CppGenerator.ExpressionTexts(args)[k]
    {
      ExpressionTextAgrees(args[k]);
    }
  }

  /** A call inside an expression prints as nothing here, while the generator prints it. */
  lemma CallInExpressionDropped(name: string, args: seq<Node>, integrated: bool)
    requires |name| > 0
    ensures ExpressionText(Node.CallExpression(name, args, integrated)) == ""
    ensures CppGenerator.ExpressionText(Node.CallExpression(name, args, integrated)) != ""
  {
  }
}
