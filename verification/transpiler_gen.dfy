/** The C++ generator of `source/gen/generator.ts`: `expression` prints an expression node
    as C++, `generateCodePart` turns a statement node into a code part, `generateScope` and
    `generateHeader` collect the parts of a code block and of the header file, and each
    part's `toString` prints it. */
module CppGenerator {
  import opened Results
  import opened Text
  import opened TranspilerAst

  /** The `VariableTypes` enum: its keys and values in declaration order. */
  const VariableTypes: seq<(string, string)> :=
    [("INT", "int"), ("FLOAT", "float"), ("STRING", "std::string"), ("CHAR", "char"), ("AUTO", "auto"), ("VOID", "void")]

  /** The value of the first entry of `table` whose key is `key`. */
  function FindType(key: string, table: seq<(string, string)>): (r: Option<string>)
    ensures r.Some? <==> exists k :: 0 <= k < |table| && table[k].0 == key
    ensures r.Some? ==> (key, r.value) in table
  {
    if |table| == 0 then None
    else if table[0].0 == key then Some(table[0].1)
    else
      var r := FindType(key, table[1..]);
      assert forall k :: 1 <= k < |table| ==> table[k] == table[1..][k - 1];
      r
  }

  /** `toCodeType(type)`: the enum value whose key is the type name in upper case, or
      `undefined` (`None`) when there is none. */
  function ToCodeType(typeName: string): (r: Option<string>)
    ensures r.Some? <==> exists k :: 0 <= k < |VariableTypes| && VariableTypes[k].0 == ToUpper(typeName)
    ensures r.Some? ==> (ToUpper(typeName), r.value) in VariableTypes
  {
    FindType(ToUpper(typeName), VariableTypes)
  }

  /** A looked-up type as a template prints it. */
  function TypeText(t: Option<string>): string
  {
    if t.Some? then t.value else "undefined"
  }

  /** An entry of `integratedFunctions`. */
  datatype IntegratedFunction = IntegratedFunction(requiredArguments: nat, template: string)

  /** `integratedFunctions` of this file. */
  function Integrated(name: string): Option<IntegratedFunction>
  {
    if name == "println" then Some(IntegratedFunction(1, "std::cout << $1 << std::endl"))
    else if name == "input" then Some(IntegratedFunction(1, "std::cin >> $1"))
    else if name == "system" then Some(IntegratedFunction(1, "std::system($1)"))
    else None
  }

  /** `expression(node)`. */
  function ExpressionText(n: Node): string
    decreases n
  {
    match n
    case Expression(l, r, op) => "(" + ExpressionText(l) + " " + op + " " + ExpressionText(r) + ")"
    case Unary(operand, op) => op + ExpressionText(operand)
    case BooleanLiteral(b) => if b then "true" else "false"
    case IntegerLiteral(num) => NumToString(num)
    case StringLiteral(text) => text
    case VariableReference(name) => name
    case CallExpression(name, args, _) => name + "(" + Join(ExpressionTexts(args), ", ") + ")"
    case NewStatement(className, args) => "new " + className + "(" + Join(ExpressionTexts(args), ", ") + ")"
    case PropertyAccess(property, target) => property + "->" + ExpressionText(target)
    case _ => ""
  }

  /** `args.map(expression)`. */
  function ExpressionTexts(args: seq<Node>): (r: seq<string>)
    ensures |r| == |args|
    ensures forall k :: 0 <= k < |args| ==> r[k] == ExpressionText(args[k])
    decreases args
  {
    if |args| == 0 then [] else [ExpressionText(args[0])] + ExpressionTexts(args[1..])
  }

  /** The text of an integrated call after `args.forEach((item, index) => value =
      template.replace("$" + (index + 1), ...))`: every step starts again from the template,
      so only the last argument's placeholder is replaced. */
  function Substituted(template: string, texts: seq<string>): string
  {
    if |texts| == 0 then template
    else ReplaceFirst(template, "$" + IntToString(|texts|), texts[|texts| - 1])
  }

  /** `CodeCallExpression.toString()`. */
  function CallText(name: string, args: seq<Node>, integrated: bool): Result<string>
  {
    if !integrated then Ok(name + "(" + Join(ExpressionTexts(args), ", ") + ")")
    else if Integrated(name).None? then Err(UndefinedRead)
    else Ok(Substituted(Integrated(name).value.template, ExpressionTexts(args)))
  }

  /** The substitution loop of `CodeCallExpression.toString()`. */
  method SubstituteArguments(template: string, args: seq<Node>) returns (value: string)
    ensures value == Substituted(template, ExpressionTexts(args))
  {
    ghost var texts := ExpressionTexts(args);
    value := template;
    var index := 0;
    while index < |args|
      invariant index <= |args|
      invariant value == Substituted(template, texts[..index])
    {
      value := ReplaceFirst(template, "$" + IntToString(index + 1), ExpressionText(args[index]));
      index := index + 1;
    }
    assert texts[..index] == texts;
  }

  /** `CodeCallExpression.toString()`: a plain call, or the integrated function's
      template with its placeholder substituted. */
  method CallToString(name: string, args: seq<Node>, integrated: bool) returns (r: Result<string>)
    ensures r == CallText(name, args, integrated)
  {
    if !integrated {
      return Ok(name + "(" + Join(ExpressionTexts(args), ", ") + ")");
    }
    var integratedFunction := Integrated(name);
    if integratedFunction.None? {
      return Err(UndefinedRead);
    }
    var value := SubstituteArguments(integratedFunction.value.template, args);
    return Ok(value);
  }

  /** The `CodePart` classes. A part that holds a `CodeBlock` holds its `sequence`. A type
      is the result of `toCodeType`, `None` where that is `undefined`. */
  datatype CodePart =
    | CodeVariableDeclaration(variableType: Option<string>, variableName: string, variableValue: Node)
    | CodeVariableAssignment(variableName: string, variableValue: Node)
    | CodeFunctionParameter(variableType: Option<string>, variableName: string)
    | CodeFunctionDeclaration(functionName: string, functionArgs: seq<CodePart>, functionCode: seq<CodePart>, returnType: Option<string>)
    | CodeInclude(path: string)
    | CodeCallExpression(functionName: string, args: seq<Node>, integrated: bool)
    | CodeWhileStatement(condition: Node, code: seq<CodePart>)
    | CodeIfStatement(condition: Node, code: seq<CodePart>)
    | CodeReturnStatement(value: Node)
    | CodeNamespaceDeclaration(namespaceName: string, code: seq<CodePart>)
    | CodeNamespaceReference(namespaceName: string, content: CodePart)
    | CodeClassDeclaration(className: string, code: seq<CodePart>)
    | CodeNewStatement(className: string, args: seq<Node>)
    | CodeNone
    | HeaderFunctionDeclaration(functionName: string, functionArgs: seq<CodePart>, returnType: Option<string>)

  /** The `requiresEnd` flag of each part class. */
  predicate RequiresEnd(p: CodePart)
  {
    p.CodeVariableDeclaration? || p.CodeVariableAssignment? || p.CodeCallExpression? || p.CodeReturnStatement?
    || p.CodeNamespaceReference? || p.CodeClassDeclaration? || p.HeaderFunctionDeclaration?
  }

  function Spaces(n: nat): (r: string)
    ensures |r| == n && forall k :: 0 <= k < n ==> r[k] == ' '
  {
    seq(n, _ => ' ')
  }

  /** The multi-line template shared by functions, loops, conditionals and namespaces:
      the block's text on its own line, indented by twenty spaces, and the closing brace
      indented by sixteen. */
  function Braced(head: string, body: string): string
  {
    head + " {\n" + Spaces(20) + body + "\n" + Spaces(16) + "}"
  }

  /** `toString()` of each part; only an integrated call to an unknown function fails. */
  function PartText(p: CodePart): Result<string>
    decreases p, 2
  {
    match p
    case CodeVariableDeclaration(t, name, value) => Ok(TypeText(t) + " " + name + " = " + ExpressionText(value))
    case CodeVariableAssignment(name, value) => Ok(name + " = " + ExpressionText(value))
    case CodeFunctionParameter(t, name) => Ok(TypeText(t) + " " + name)
    case CodeFunctionDeclaration(name, args, code, ret) =>
      var a :- PartTexts(args);
      var c :- BlockText(code);
      Ok(Braced(TypeText(ret) + " " + name + "(" + Join(a, ", ") + ")", c))
    case CodeInclude(path) => Ok("#include \"" + path + "\"")
    case CodeCallExpression(name, args, integrated) => CallText(name, args, integrated)
    case CodeWhileStatement(condition, code) =>
      var c :- BlockText(code);
      Ok(Braced("while (" + ExpressionText(condition) + ")", c))
    case CodeIfStatement(condition, code) =>
      var c :- BlockText(code);
      Ok(Braced("if (" + ExpressionText(condition) + ")", c))
    case CodeReturnStatement(value) => Ok("return " + (if value.NoneNode? then "" else ExpressionText(value)))
    case CodeNamespaceDeclaration(name, code) =>
      var c :- BlockText(code);
      Ok(Braced("namespace " + RemoveAll(name, '"'), c))
    case CodeNamespaceReference(name, content) =>
      var c :- PartText(content);
      Ok(name + "::" + c)
    case CodeClassDeclaration(name, code) =>
      var c :- BlockText(code);
      Ok("class " + name + " {\n" + Spaces(20) + "public:\n" + Spaces(24) + c + "\n" + Spaces(16) + "}")
    case CodeNewStatement(name, args) => Ok("new " + name + "(" + Join(ExpressionTexts(args), ", ") + ")")
    case CodeNone => Ok("")
    case HeaderFunctionDeclaration(name, args, ret) =>
      var a :- PartTexts(args);
      Ok(TypeText(ret) + " " + name + "(" + Join(a, ", ") + ")")
  }

  /** `parts.map(p => p.toString())`. */
  function PartTexts(ps: seq<CodePart>): Result<seq<string>>
    decreases ps, 1
  {
    if |ps| == 0 then Ok([])
    else
      var first :- PartText(ps[0]);
      var rest :- PartTexts(ps[1..]);
      Ok([first] + rest)
  }

  /** A part's text followed by `;` when the part requires an end. */
  function Ended(p: CodePart, text: string): string
  {
    if RequiresEnd(p) then text + ";" else text
  }

  /** The items of `CodeBlock.toString()` before they are joined. */
  function EndedTexts(code: seq<CodePart>): Result<seq<string>>
    decreases code, 1
  {
    if |code| == 0 then Ok([])
    else
      var first :- PartText(code[0]);
      var rest :- EndedTexts(code[1..]);
      Ok([Ended(code[0], first)] + rest)
  }

  /** `CodeBlock.toString()`: the parts joined by a blank line. */
  function BlockText(code: seq<CodePart>): Result<string>
    decreases code, 2
  {
    var texts :- EndedTexts(code);
    Ok(Join(texts, "\n\n"))
  }

  /** A code block prints every part exactly when each part prints, one item per part in
      order, with `;` after exactly the parts that require an end. */
  lemma {:induction false} EndedTextsItems(code: seq<CodePart>)
    ensures EndedTexts(code).Ok? <==> forall k :: 0 <= k < |code| ==> PartText(code[k]).Ok?
    ensures EndedTexts(code).Ok? ==> |EndedTexts(code).value| == |code|
    ensures EndedTexts(code).Ok? ==>
      forall k :: 0 <= k < |code| ==> EndedTexts(code).value[k] == Ended(code[k], PartText(code[k]).value)
    decreases code
  {
    if |code| > 0 {
      EndedTextsItems(code[1..]);
      assert forall k :: 1 <= k < |code| ==> code[k] == code[1..][k - 1];
    }
  }

  /** The node kinds `generateCodePart` turns into a part of their own. */
  predicate Generated(n: Node)
  {
    n.FunctionDeclaration? || n.VariableDeclaration? || n.VariableAssignment? || n.WhileStatement?
    || n.IfStatement? || n.CallExpression? || n.FunctionReturn? || n.NamespaceDeclaration?
    || n.NamespaceReference? || n.ClassDeclaration? || n.NewStatement?
  }

  /** `generateCodePart(node)`; `undefined` gives `CodeNone`. */
  function CodePartOf(n: Option<Node>): (r: CodePart)
    ensures r.CodeNone? <==> n.None? || !Generated(n.value)
    decreases n, 1
  {
    if n.None? then CodeNone else NodePart(n.value)
  }

  /** `generateCodePart(node)` on a node; the kinds it does not handle give `CodeNone`. */
  function NodePart(n: Node): (r: CodePart)
    ensures r.CodeNone? <==> !Generated(n)
    decreases n, 2
  {
    match n
    case FunctionDeclaration(name, params, block, returnType) =>
      CodeFunctionDeclaration(name, Parameters(params), ScopeOf(block), ToCodeType(returnType))
    case VariableDeclaration(name, value, variableType) => CodeVariableDeclaration(ToCodeType(variableType), name, value)
    case VariableAssignment(name, value) => CodeVariableAssignment(name, value)
    case WhileStatement(condition, block) => CodeWhileStatement(condition, ScopeOf(block))
    case IfStatement(condition, block) => CodeIfStatement(condition, ScopeOf(block))
    case CallExpression(name, args, integrated) => CodeCallExpression(name, args, integrated)
    case FunctionReturn(value) => CodeReturnStatement(value)
    case NamespaceDeclaration(name, block) => CodeNamespaceDeclaration(name, ScopeOf(block))
    case NamespaceReference(name, target) => CodeNamespaceReference(name, NodePart(target))
    case ClassDeclaration(name, block) => CodeClassDeclaration(name, ScopeOf(block))
    case NewStatement(name, args) => CodeNewStatement(name, args)
    case _ => CodeNone
  }

  /** The parameters of a function as `CodeFunctionParameter` parts. */
  function Parameters(params: seq<Parameter>): (r: seq<CodePart>)
    ensures |r| == |params|
    ensures forall k :: 0 <= k < |params| ==>
      r[k] == CodeFunctionParameter(ToCodeType(params[k].variableType), params[k].variableName)
  {
    seq(|params|, k requires 0 <= k < |params| => CodeFunctionParameter(ToCodeType(params[k].variableType), params[k].variableName))
  }

  /** `generateScope(block)`: one part per node, in order. */
  function ScopeOf(block: Block): (r: seq<CodePart>)
    ensures |r| == |block|
    decreases block, 0
  {
    seq(|block|, k requires 0 <= k < |block| => CodePartOf(block[k]))
  }

  /** `generateScope(block)`, pushing one part per node into a new code block. */
  method GenerateScope(block: Block) returns (sequence: seq<CodePart>)
    ensures |sequence| == |block|
    ensures forall k :: 0 <= k < |block| ==> sequence[k] == CodePartOf(block[k])
  {
    sequence := [];
    for k := 0 to |block|
      invariant |sequence| == k
      invariant forall j :: 0 <= j < k ==> sequence[j] == CodePartOf(block[j])
    {
      sequence := sequence + [CodePartOf(block[k])];
    }
  }

  /** The three includes every header starts with. */
  const HeaderIncludes: seq<CodePart> := [CodeInclude("iostream"), CodeInclude("vector"), CodeInclude("string")]

  /** What `generateHeader` adds for one node: a prototype for a function declaration and
      an include for a `use`, nothing for anything else. */
  function HeaderEntry(n: Option<Node>): (r: seq<CodePart>)
    ensures |r| <= 1
    ensures |r| == 1 <==> n.Some? && (n.value.FunctionDeclaration? || n.value.UseStatement?)
  {
    if n.None? then []
    else
      match n.value
      case FunctionDeclaration(name, params, _, returnType) =>
        [HeaderFunctionDeclaration(name, Parameters(params), ToCodeType(returnType))]
      case UseStatement(packageName) => [CodeInclude(Trim(RemoveAll(packageName, '"')) + ".h")]
      case _ => []
  }

  /** The header entries of the nodes of `block`, in order. */
  function HeaderEntries(block: Block): seq<CodePart>
  {
    if |block| == 0 then [] else HeaderEntries(block[..|block| - 1]) + HeaderEntry(block[|block| - 1])
  }

  /** The header entries of two consecutive runs of nodes are those of the first run
      followed by those of the second: the header keeps source order. */
  lemma {:induction false} HeaderEntriesAppend(a: Block, b: Block)
    ensures HeaderEntries(a + b) == HeaderEntries(a) + HeaderEntries(b)
    decreases |b|
  {
    if |b| == 0 {
      assert a + b == a;
    } else {
      var c := b[..|b| - 1];
      assert (a + b)[..|a + b| - 1] == a + c;
      assert (a + b)[|a + b| - 1] == b[|b| - 1];
      HeaderEntriesAppend(a, c);
    }
  }

  /** `generateHeader(block)`: the three includes, then the header entries of the nodes. */
  method GenerateHeader(block: Block) returns (sequence: seq<CodePart>)
    ensures sequence == HeaderIncludes + HeaderEntries(block)
  {
    sequence := [];
    sequence := sequence + [CodeInclude("iostream")];
    sequence := sequence + [CodeInclude("vector")];
    sequence := sequence + [CodeInclude("string")];
    for k := 0 to |block|
      invariant sequence == HeaderIncludes + HeaderEntries(block[..k])
    {
      assert block[..k + 1][..k] == block[..k];
      assert HeaderEntries(block[..k + 1]) == HeaderEntries(block[..k]) + HeaderEntry(block[k]);
      var node := block[k];
      if node.Some? && node.value.FunctionDeclaration? {
        var f := node.value;
        sequence := sequence + [HeaderFunctionDeclaration(f.functionName, Parameters(f.params), ToCodeType(f.returnType))];
      }
      if node.Some? && node.value.UseStatement? {
        sequence := sequence + [CodeInclude(Trim(RemoveAll(node.value.packageName, '"')) + ".h")];
      }
    }
    assert block[..|block|] == block;
  }

  /** The parts of the `.cpp` file of `work(name)`: the include of its own header, unshifted
      in front of the parts of the tree's block. */
  function SourceParts(block: Block, name: string): (r: seq<CodePart>)
    ensures |r| == |block| + 1 && r[0] == CodeInclude(name + ".h")
    ensures forall k :: 0 <= k < |block| ==> r[k + 1] == CodePartOf(block[k])
  {
    [CodeInclude(name + ".h")] + ScopeOf(block)
  }

  /** `work(name)`: the texts of the `.cpp` file and of the `.h` file, or the error of the
      first part that cannot print. */
  method Work(block: Block, name: string) returns (r: Result<(string, string)>)
    ensures r == (var c :- BlockText(SourceParts(block, name));
                  var h :- BlockText(HeaderIncludes + HeaderEntries(block));
                  Ok((c, h)))
  {
    var generatedCode := GenerateScope(block);
    var headerCode := GenerateHeader(block);
    assert generatedCode == ScopeOf(block);
    generatedCode := [CodeInclude(name + ".h")] + generatedCode;
    var c :- BlockText(generatedCode);
    var h :- BlockText(headerCode);
    return Ok((c, h));
  }

  /** A printed part list whose first part is an include starts with that include's
      text; an include requires no `;`. */
  lemma BlockTextStartsWithInclude(code: seq<CodePart>, path: string)
    requires |code| > 0 && code[0] == CodeInclude(path) && BlockText(code).Ok?
    ensures "#include \"" + path + "\"" <= BlockText(code).value
  {
    var texts := EndedTexts(code).value;
    assert PartText(CodeInclude(path)) == Ok("#include \"" + path + "\"");
    assert texts[0] == "#include \"" + path + "\"";
    assert texts[0] <= Join(texts, "\n\n");
  }

  /** The `.cpp` file starts by including its own header. */
  lemma SourceStartsWithOwnHeader(block: Block, name: string)
    requires BlockText(SourceParts(block, name)).Ok?
    ensures "#include \"" + name + ".h\"" <= BlockText(SourceParts(block, name)).value
  {
    BlockTextStartsWithInclude(SourceParts(block, name), name + ".h");
    assert "#include \"" + (name + ".h") + "\"" == "#include \"" + name + ".h\"";
  }

  /** The `.h` file starts by including `iostream`, whatever entries follow the three
      includes. */
  lemma HeaderStartsWithIostream(entries: seq<CodePart>)
    requires BlockText(HeaderIncludes + entries).Ok?
    ensures "#include \"iostream\"" <= BlockText(HeaderIncludes + entries).value
  {
    var header := HeaderIncludes + entries;
    assert header[0] == CodeInclude("iostream");
    BlockTextStartsWithInclude(header, "iostream");
  }

  /** The type lookup ignores case: a type name and its upper-case form give the same
      C++ type. */
  lemma ToCodeTypeIgnoresCase(typeName: string)
    ensures ToCodeType(typeName) == ToCodeType(ToUpper(typeName))
  {
    assert ToUpper(ToUpper(typeName)) == ToUpper(typeName);
  }

  /** `string` and `String` both become `std::string`. */
  lemma StringTypeExamples()
    ensures ToCodeType("string") == ToCodeType("String") == Some("std::string")
  {
    assert ToUpper("string") == "STRING";
    assert ToUpper("String") == "STRING";
  }

  /** A type the enum does not list, such as `bool`, is `undefined` and prints as such. */
  lemma UnlistedTypeUndefined()
    ensures ToCodeType("bool") == None
    ensures TypeText(ToCodeType("bool")) == "undefined"
  {
    assert ToUpper("bool") == "BOOL";
  }

  /** The `println` template with its placeholder replaced by `text`. */
  lemma PrintlnSubstitution(text: string)
    ensures Substituted("std::cout << $1 << std::endl", [text]) == "std::cout << " + text + " << std::endl"
  {
    assert "$" + IntToString(1) == "$1";
    assert "std::cout << $1 << std::endl" == "std::cout << " + "$1" + " << std::endl";
    ReplacePlaceholder("std::cout << ", "$1", " << std::endl", text);
  }

  /** `println(x)` prints `x` into the `std::cout` template. */
  lemma PrintlnOneArgument(x: Node)
    ensures CallText("println", [x], true) == Ok("std::cout << " + ExpressionText(x) + " << std::endl")
  {
    assert Integrated("println") == Some(IntegratedFunction(1, "std::cout << $1 << std::endl"));
    assert ExpressionTexts([x]) == [ExpressionText(x)];
    PrintlnSubstitution(ExpressionText(x));
  }

  /** With two arguments only `$2` is looked for, and the `println` template has none: the
      template is printed with its placeholder untouched. */
  lemma PrintlnTwoArguments(x: Node, y: Node)
    ensures CallText("println", [x, y], true) == Ok("std::cout << $1 << std::endl")
  {
    var t := "std::cout << $1 << std::endl";
    assert Integrated("println") == Some(IntegratedFunction(1, t));
    assert |ExpressionTexts([x, y])| == 2;
    PrintlnLacksSecondPlaceholder();
  }

  /** The `println` template has no `$2`. */
  lemma PrintlnLacksSecondPlaceholder()
    ensures IndexOf("std::cout << $1 << std::endl", "$" + IntToString(2)).None?
  {
    assert "$" + IntToString(2) == ['$', '2'];
    assert "std::cout << $1 << std::endl" == "std::cout << " + ['$', '1'] + " << std::endl";
    OtherPlaceholderAbsent("std::cout << ", " << std::endl", '$', '1', '2');
  }

  /** Calling an integrated function the table does not have fails. */
  lemma UnknownIntegratedFails(name: string, args: seq<Node>)
    requires name !in {"println", "input", "system"}
    ensures CallText(name, args, true).Err?
  {
  }

  /** Number of occurrences of `c` in `s`. */
  function Count(s: string, c: char): nat
  {
    if |s| == 0 then 0 else (if s[0] == c then 1 else 0) + Count(s[1..], c)
  }

  lemma {:induction false} CountConcat(a: string, b: string, c: char)
    ensures Count(a + b, c) == Count(a, c) + Count(b, c)
    decreases |a|
  {
    if |a| == 0 {
      assert a + b == b;
    } else {
      assert (a + b)[0] == a[0];
      assert (a + b)[1..] == a[1..] + b;
      CountConcat(a[1..], b, c);
    }
  }

  lemma {:induction false} CountAbsent(s: string, c: char)
    requires c !in s
    ensures Count(s, c) == 0
    decreases |s|
  {
    if |s| > 0 {
      assert c !in s[1..];
      CountAbsent(s[1..], c);
    }
  }

  /** An arithmetic expression whose operators, names and literals hold no parenthesis. */
  predicate ParenFree(n: Node)
    decreases n
  {
    match n
    case Expression(l, r, op) => '(' !in op && ')' !in op && ParenFree(l) && ParenFree(r)
    case Unary(operand, op) => '(' !in op && ')' !in op && ParenFree(operand)
    case BooleanLiteral(_) => true
    case IntegerLiteral(_) => true
    case StringLiteral(text) => '(' !in text && ')' !in text
    case VariableReference(name) => '(' !in name && ')' !in name
    case _ => false
  }

  /** Every binary expression is printed inside its own pair of parentheses, so the
      printed expression opens as many parentheses as it closes. */
  lemma {:induction false} ExpressionTextBalanced(n: Node)
    requires ParenFree(n)
    ensures Count(ExpressionText(n), '(') == Count(ExpressionText(n), ')')
    decreases n
  {
    match n
    case Expression(l, r, op) =>
      ExpressionTextBalanced(l);
      ExpressionTextBalanced(r);
      var sl, sr := ExpressionText(l), ExpressionText(r);
      forall c | c == '(' || c == ')'
        ensures Count(ExpressionText(n), c) == Count("(", c) + Count(sl, c) + Count(sr, c) + Count(")", c)
      {
        var s1 := "(" + sl;
        var s2 := s1 + " ";
        var s3 := s2 + op;
        var s4 := s3 + " ";
        var s5 := s4 + sr;
        assert ExpressionText(n) == s5 + ")";
        CountConcat(s5, ")", c);
        CountConcat(s4, sr, c);
        CountConcat(s3, " ", c);
        CountConcat(s2, op, c);
        CountConcat(s1, " ", c);
        CountConcat("(", sl, c);
        CountAbsent(" ", c);
        CountAbsent(op, c);
      }
    case Unary(operand, op) =>
      ExpressionTextBalanced(operand);
      CountConcat(op, ExpressionText(operand), '(');
      CountConcat(op, ExpressionText(operand), ')');
      CountAbsent(op, '(');
      CountAbsent(op, ')');
    case BooleanLiteral(b) =>
      CountAbsent(ExpressionText(n), '(');
      CountAbsent(ExpressionText(n), ')');
    case IntegerLiteral(num) =>
      var s := NumToString(num);
      assert '(' !in s && ')' !in s by {
        if num.Finite? && num.value < 0 {
          assert s == "-" + NatToString(-num.value);
          assert forall k :: 1 <= k < |s| ==> IsDigit(s[k]);
        }
      }
      CountAbsent(s, '(');
      CountAbsent(s, ')');
    case StringLiteral(text) =>
      CountAbsent(text, '(');
      CountAbsent(text, ')');
    case VariableReference(name) =>
      CountAbsent(name, '(');
      CountAbsent(name, ')');
  }

  /** Every function declaration of a block has its prototype in the header entries. */
  lemma PrototypeInHeader(block: Block, k: nat)
    requires k < |block| && block[k].Some? && block[k].value.FunctionDeclaration?
    ensures
      var f := block[k].value;
      HeaderFunctionDeclaration(f.functionName, Parameters(f.params), ToCodeType(f.returnType)) in HeaderEntries(block)
  {
    assert block == block[..k] + [block[k]] + block[k + 1..];
    HeaderEntriesAppend(block[..k] + [block[k]], block[k + 1..]);
    HeaderEntriesAppend(block[..k], [block[k]]);
    assert HeaderEntries([block[k]]) == HeaderEntry(block[k]) by {
      assert [block[k]][..0] == [];
    }
  }
}
