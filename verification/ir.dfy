/** The abstract IR that `source/generator/generator.ts` builds through llvm-node: types,
    values, instructions, basic blocks and functions, plus the two lookups the generator
    makes (`variables.find` and `module.getFunction`) and the lowering of value nodes
    (`generateValue`). */
module Ir {
  import opened Results
  import opened Text
  import opened Ast

  /** The LLVM types the generator asks for. */
  datatype IrType = I8Ptr | I1 | Void | Float | Double | I32 | I8 | ArrayOfI32(size: int)

  /** The type names `generateTypeByName` knows. */
  const TypeNames: set<string> := {"string", "boolean", "void", "float", "double", "int", "char"}

  /** `generateTypeByName`: a `DataTypeArray` is an array of i32 of its size; the seven names
      map to their LLVM types; any other name is fatal. */
  function TypeByName(dt: DataType): (r: Result<IrType>)
    ensures r.Ok? <==> dt.ArrayOf? || dt.name in TypeNames
    ensures dt.ArrayOf? ==> r == Ok(ArrayOfI32(dt.size))
    ensures dt == Named("string") ==> r == Ok(I8Ptr)
    ensures dt == Named("boolean") ==> r == Ok(I1)
    ensures dt == Named("int") ==> r == Ok(I32)
    ensures dt == Named("char") ==> r == Ok(I8)
    ensures dt == Named("void") ==> r == Ok(Void)
  {
    match dt
    case ArrayOf(_, _, size) => Ok(ArrayOfI32(size))
    case Named(name) =>
      if name == "string" then Ok(I8Ptr)
      else if name == "boolean" then Ok(I1)
      else if name == "void" then Ok(Void)
      else if name == "float" then Ok(Float)
      else if name == "double" then Ok(Double)
      else if name == "int" then Ok(I32)
      else if name == "char" then Ok(I8)
      else Err("Unknown Type. (" + name + ")")
  }

  /** An IR value. `Loaded`, `Arith` and `Called` are defined by the instruction that
      computes them; the others are constants or function arguments. */
  datatype Value =
    | StrPtr(text: string)
    | IntConst(num: Num, bits: nat)
    | FloatConst(digits: string)
    | Loaded(slot: nat, ty: IrType, name: string)
    | Arith(op: string, left: Value, right: Value)
    | Called(callee: string, returnType: IrType, args: seq<Value>)
    | Argument(index: nat, ty: IrType)

  /** The operators of `generateValue`; the comparisons yield an i1. */
  const CompareOps: set<string> := {">", "<", "==", "!=", ">=", "<="}
  const ValueOps: set<string> := {"+", "-", "*", "/", "%", "&&", "||"} + CompareOps

  function TypeOf(v: Value): IrType
  {
    match v
    case StrPtr(_) => I8Ptr
    case IntConst(_, bits) => if bits == 1 then I1 else I32
    case FloatConst(_) => Double
    case Loaded(_, ty, _) => ty
    case Arith(op, left, _) => if op in CompareOps then I1 else TypeOf(left)
    case Called(_, ret, _) => ret
    case Argument(_, ty) => ty
  }

  predicate IsConstant(v: Value)
  {
    v.StrPtr? || v.IntConst? || v.FloatConst?
  }

  datatype Instr =
    | Compute(value: Value)
    | Alloca(slot: nat, ty: IrType, name: string)
    | Store(stored: Value, into: nat)
    | Br(target: nat)
    | CondBr(cond: Value, ifTrue: nat, ifFalse: nat)
    | RetVoid
    | Ret(result: Value)

  /** A basic block; branch targets are block indices within the same function. */
  datatype Block = Block(name: string, instrs: seq<Instr>)

  /** A function of the module; a declaration (`external`) has no blocks. */
  datatype IrFunction = IrFunction(name: string, returnType: IrType, paramTypes: seq<IrType>, isVarArg: bool, blocks: seq<Block>)

  /** An entry of the generator's variable list (its `Variable` class): a name and the stack
      slot holding it. */
  datatype Binding = Binding(name: string, slot: nat, ty: IrType)

  /** `variables.find(v => v.name === name)`: the first binding with that name. */
  function FindVariable(vs: seq<Binding>, name: string): (r: Option<Binding>)
    ensures r.None? <==> forall i :: 0 <= i < |vs| ==> vs[i].name != name
    ensures r.Some? ==> exists i :: 0 <= i < |vs| && vs[i] == r.value && r.value.name == name
                          && forall j :: 0 <= j < i ==> vs[j].name != name
  {
    if |vs| == 0 then None
    else if vs[0].name == name then Some(vs[0])
    else
      var r := FindVariable(vs[1..], name);
      assert r.Some? ==> exists i :: 1 <= i < |vs| && vs[i] == r.value && r.value.name == name
                           && forall j :: 1 <= j < i ==> vs[j].name != name by {
        if r.Some? {
          var i :| 0 <= i < |vs[1..]| && vs[1..][i] == r.value && r.value.name == name
                   && forall j :: 0 <= j < i ==> vs[1..][j].name != name;
          assert vs[i + 1] == r.value;
          assert forall j :: 1 <= j < i + 1 ==> vs[j].name != name by {
            forall j | 1 <= j < i + 1 ensures vs[j].name != name {
              assert vs[1..][j - 1] == vs[j];
            }
          }
        }
      }
      r
  }

  /** `module.getFunction(name)`: the index of the first function with that name. */
  function FindFunction(fns: seq<IrFunction>, name: string): (r: Option<nat>)
    ensures r.None? <==> forall i :: 0 <= i < |fns| ==> fns[i].name != name
    ensures r.Some? ==> r.value < |fns| && fns[r.value].name == name
                        && forall j :: 0 <= j < r.value ==> fns[j].name != name
  {
    if |fns| == 0 then None
    else if fns[0].name == name then Some(0)
    else
      var r := FindFunction(fns[1..], name);
      if r.Some? then Some(r.value + 1) else None
  }

  /** Every variable read in `v` loads the slot of the first binding of its name, and every
      call names a function of the module. */
  predicate Resolved(v: Value, vs: seq<Binding>, fns: seq<IrFunction>)
  {
    match v
    case Loaded(slot, ty, name) => FindVariable(vs, name) == Some(Binding(name, slot, ty))
    case Arith(_, l, r) => Resolved(l, vs, fns) && Resolved(r, vs, fns)
    case Called(callee, _, args) =>
      FindFunction(fns, callee).Some? && forall i :: 0 <= i < |args| ==> Resolved(args[i], vs, fns)
    case _ => true
  }

  /** `generateValue`: the value of a node and the instructions it emits at the insertion
      point, in emission order. */
  function ValueOf(vs: seq<Binding>, fns: seq<IrFunction>, n: Node): (r: Result<(Value, seq<Instr>)>)
    ensures r.Ok? ==> Resolved(r.value.0, vs, fns)
    ensures r.Ok? ==> (IsConstant(r.value.0) <==> r.value.1 == [])
    decreases n, 1
  {
    if n.Expression? then BinaryOf(vs, fns, n)
    else if n.Call? then CallOf(vs, fns, n)
    else if n.Variable? then
      var found := FindVariable(vs, n.name);
      if found.None? then Err("Variable " + n.name + " doesn't exist.")
      else
        var v := Loaded(found.value.slot, found.value.ty, n.name);
        Ok((v, [Compute(v)]))
    else
      var c :- ConstantOf(n);
      Ok((c, []))
  }

  /** The literals, which emit nothing; any other node is not a value. */
  function ConstantOf(n: Node): (r: Result<Value>)
    ensures r.Ok? ==> IsConstant(r.value)
    ensures r.Ok? <==> n.StringLiteral? || n.IntegerLiteral? || n.FloatLiteral? || n.BooleanLiteral?
  {
    match n
    case StringLiteral(text) => Ok(StrPtr(Substring(text, 1, |text| - 1)))
    case IntegerLiteral(num) => Ok(IntConst(num, 32))
    case FloatLiteral(digits) => Ok(FloatConst(digits))
    case BooleanLiteral(truth) => Ok(IntConst(Finite(if truth then 1 else 0), 1))
    case _ => Err("Unknown Type. (" + Tag(n) + ")")
  }

  /** An `ExpressionNode`: the left operand, then the right one, then the operation; an
      operator outside the known ones is fatal only once both operands are lowered. */
  function BinaryOf(vs: seq<Binding>, fns: seq<IrFunction>, n: Node): (r: Result<(Value, seq<Instr>)>)
    requires n.Expression?
    ensures r.Ok? ==> r.value.0.Arith? && n.operator in ValueOps && Resolved(r.value.0, vs, fns)
    decreases n, 0
  {
    var l :- ValueOf(vs, fns, n.left);
    var r :- ValueOf(vs, fns, n.right);
    if n.operator in ValueOps then
      var v := Arith(n.operator, l.0, r.0);
      Ok((v, l.1 + r.1 + [Compute(v)]))
    else Err("Operator " + n.operator + " doesn't exist.")
  }

  /** A `CallNode` as a value: the callee must exist; the arguments are lowered in order. */
  function CallOf(vs: seq<Binding>, fns: seq<IrFunction>, n: Node): (r: Result<(Value, seq<Instr>)>)
    requires n.Call?
    ensures r.Ok? ==> r.value.0.Called? && FindFunction(fns, n.name).Some? && Resolved(r.value.0, vs, fns)
    decreases n, 0
  {
    var callee := FindFunction(fns, n.name);
    if callee.None? then Err("Function " + n.name + " doesn't exist.")
    else
      var a :- ValuesFrom(vs, fns, n.args, 0);
      var v := Called(n.name, fns[callee.value].returnType, a.0);
      Ok((v, a.1 + [Compute(v)]))
  }

  /** `args.map(a => generateValue(a))` from argument `i` on: the values in order and their
      instructions concatenated in order. */
  function ValuesFrom(vs: seq<Binding>, fns: seq<IrFunction>, args: seq<Node>, i: nat): (r: Result<(seq<Value>, seq<Instr>)>)
    requires i <= |args|
    ensures r.Ok? ==> |r.value.0| == |args| - i
    ensures r.Ok? ==> forall j :: 0 <= j < |r.value.0| ==> Resolved(r.value.0[j], vs, fns)
    decreases args, |args| - i
  {
    if i == |args| then Ok(([], []))
    else
      var first :- ValueOf(vs, fns, args[i]);
      var rest :- ValuesFrom(vs, fns, args, i + 1);
      Ok(([first.0] + rest.0, first.1 + rest.1))
  }

  /** A value that is not a constant is computed by the last instruction its lowering
      emits, so the instructions of a node end in the node's own value. */
  lemma LastComputes(vs: seq<Binding>, fns: seq<IrFunction>, n: Node)
    requires ValueOf(vs, fns, n).Ok? && ValueOf(vs, fns, n).value.1 != []
    ensures var r := ValueOf(vs, fns, n).value; r.1[|r.1| - 1] == Compute(r.0)
  {
  }
}
