/** The syntax tree of the C++-transpiler pipeline: the node classes of `source/parser.ts`,
    together with the node classes that `source/gen/generator.ts` and `source/gen/func.ts`
    read but that `source/parser.ts` does not define (their fields are the ones those files
    read). Every class carries a `name` field equal to its class name; here the constructor
    is the tag. */
module TranspilerAst {
  import opened Results
  import opened Text

  /** The `nodes` of a `CodeBlockNode`. An entry is `None` where the parser pushed the
      `undefined` that `codeBlock()` returns for a skipped token. */
  type Block = seq<Option<Node>>

  /** A `FunctionParameterNode`, as the C++ generator reads it. */
  datatype Parameter = Parameter(variableName: string, variableType: string)

  datatype Node =
    | Expression(left: Node, right: Node, operator: string)
    | Unary(operand: Node, operator: string)
    | StringLiteral(text: string)
    | IntegerLiteral(num: Num)
    | BooleanLiteral(truth: bool)
    | FloatLiteral(digits: string)
    | VariableReference(variableName: string)
    | VariableAssignment(variableName: string, variableValue: Node)
    | VariableDeclaration(variableName: string, variableValue: Node, variableType: string)
    | CallExpression(functionName: string, args: seq<Node>, integrated: bool)
    | IfStatement(condition: Node, block: Block)
      // The node classes below are read by the C++ generators only.
    | WhileStatement(condition: Node, block: Block)
    | BreakStatement
    | FunctionDeclaration(functionName: string, params: seq<Parameter>, block: Block, returnType: string)
    | FunctionReturn(value: Node)
    | NoneNode
    | NamespaceDeclaration(namespaceName: string, block: Block)
      // `NamespaceReferenceNode.block` is a single node, not a code block.
    | NamespaceReference(namespaceName: string, target: Node)
    | ClassDeclaration(className: string, block: Block)
    | NewStatement(className: string, args: seq<Node>)
    | PropertyAccess(property: string, object: Node)
    | UseStatement(packageName: string)

  /** `AstTree`: its name and the code block `Parser.work` fills. */
  datatype Tree = Tree(name: string, block: Block)
}
