/** The syntax tree built by `source/parser/parser.ts` and lowered by
    `source/generator/generator.ts`: one constructor per node class of
    `source/parser/ast.ts`. The source dispatches on each class's `type` string; `Tag`
    gives that string. */
module Ast {
  import opened Results
  import opened Text

  /** A declared data type: a plain type name or a `DataTypeArray`. */
  datatype DataType = Named(name: string) | ArrayOf(elementType: string, requireSize: bool, size: int)

  /** `new DataTypeArray(dataType, requireSize, size?)`: the size defaults to 64. */
  function NewDataTypeArray(elementType: string, requireSize: bool, size: Option<int>): (r: DataType)
    ensures r.ArrayOf? && r.elementType == elementType && r.requireSize == requireSize
    ensures r.size == (if size.Some? then size.value else 64)
  {
    ArrayOf(elementType, requireSize, if size.Some? then size.value else 64)
  }

  /** A function parameter (`ParameterNode`). */
  datatype Param = Param(name: string, paramType: string)

  /** A statement list. An entry is `None` where the parser pushed the `undefined` that a
      skipped token or an empty `if`/`while`/`for` yields. */
  type Body = seq<Option<Node>>

  datatype Node =
    | Expression(left: Node, right: Node, operator: string)
    | Unary(operand: Node, operator: string)
    | StringLiteral(text: string)
    | IntegerLiteral(num: Num)
    | FloatLiteral(digits: string)
    | BooleanLiteral(truth: bool)
    | Variable(name: string)
    | SetVariable(name: string, value: Node)
    | DefineVariable(name: string, dataType: DataType, init: Option<Node>)
    | Call(name: string, args: seq<Node>)
    | If(condition: Node, scope: Body, elseScope: Body)
    | While(condition: Node, scope: Body)
    | For(variable: string, start: Node, condition: Node, step: Node, scope: Body)
    | Function(name: string, params: seq<Param>, scope: Body, returnType: string, isVarArg: bool, isExternal: bool)
    | Return(result: Option<Node>)

  /** The whole program: `new AstTree("Program", block)`. */
  datatype Tree = Tree(kind: string, children: seq<Node>)

  /** The `type` field every node class sets to its class name. */
  function Tag(n: Node): string
  {
    match n
    case Expression(_, _, _) => "ExpressionNode"
    case Unary(_, _) => "UnaryNode"
    case StringLiteral(_) => "StringLiteralNode"
    case IntegerLiteral(_) => "IntegerLiteralNode"
    case FloatLiteral(_) => "FloatLiteralNode"
    case BooleanLiteral(_) => "BooleanLiteralNode"
    case Variable(_) => "VariableNode"
    case SetVariable(_, _) => "SetVariableNode"
    case DefineVariable(_, _, _) => "DefineVariableNode"
    case Call(_, _) => "CallNode"
    case If(_, _, _) => "IfNode"
    case While(_, _) => "WhileNode"
    case For(_, _, _, _, _) => "ForNode"
    case Function(_, _, _, _, _, _) => "FunctionNode"
    case Return(_) => "ReturnNode"
  }

  /** The tag of a `DataTypeArray` and of a `ParameterNode`. */
  const ArrayTag := "array"
  const ParameterTag := "ParameterNode"

  /** Two nodes have the same tag exactly when they are built by the same class, so
      dispatching on the tag is dispatching on the class. */
  lemma TagIdentifiesClass(a: Node, b: Node)
    ensures Tag(a) == Tag(b) <==> SameClass(a, b)
    ensures Tag(a) != ArrayTag && Tag(a) != ParameterTag
  {
    if Tag(a) == Tag(b) {
      var t := Tag(a);
      assert |t| == |Tag(b)| && t[0] == Tag(b)[0];
    }
  }

  predicate SameClass(a: Node, b: Node)
  {
    (a.Expression? && b.Expression?) || (a.Unary? && b.Unary?) || (a.StringLiteral? && b.StringLiteral?)
    || (a.IntegerLiteral? && b.IntegerLiteral?) || (a.FloatLiteral? && b.FloatLiteral?)
    || (a.BooleanLiteral? && b.BooleanLiteral?) || (a.Variable? && b.Variable?)
    || (a.SetVariable? && b.SetVariable?) || (a.DefineVariable? && b.DefineVariable?)
    || (a.Call? && b.Call?) || (a.If? && b.If?) || (a.While? && b.While?) || (a.For? && b.For?)
    || (a.Function? && b.Function?) || (a.Return? && b.Return?)
  }
}
