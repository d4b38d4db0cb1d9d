/** The LLVM text instructions of `source/generator/instructions.ts`: each instruction
    prints itself as one line (a function definition as a block of lines). */
module LlvmInstructions {
  import opened Text

  /** `LLVMType`: the printed type. */
  datatype LlvmType = LlvmType(value: string)

  /** `LLVMType.integer(width, pointer)`. */
  function IntegerType(width: nat, pointer: bool): (t: LlvmType)
    ensures |t.value| > 1 && t.value[0] == 'i'
    ensures pointer <==> t.value[|t.value| - 1] == '*'
  {
    LlvmType("i" + NatToString(width) + (if pointer then "*" else ""))
  }

  /** `LLVMType.void()`. */
  function VoidType(): LlvmType
  {
    LlvmType("void")
  }

  /** `LLVMType.array(type, size)`. */
  function ArrayType(elem: LlvmType, size: nat): LlvmType
  {
    LlvmType("[" + NatToString(size) + " x " + elem.value + "]")
  }

  /** `LLVMType.string(value, context)`: a pointer to the first character of the global
      constant `name`, whose array holds the characters and two more. The global's name
      comes from `context.constantString`, which the generator does not define; it is a
      parameter here. */
  function StringType(value: string, name: string): (t: LlvmType)
    ensures var arr := ArrayType(IntegerType(8, false), |value| + 2).value;
      t.value == "getelementptr inbounds (" + arr + ", " + arr + "* " + name + ", i32 0, i32 0)"
  {
    var len := NatToString(|value| + 2);
    assert IntegerType(8, false).value == "i8";
    assert ArrayType(IntegerType(8, false), |value| + 2).value == "[" + len + " x i8]";
    LlvmType("getelementptr inbounds ([" + len + " x i8], [" + len + " x i8]* " + name + ", i32 0, i32 0)")
  }

  /** `FunctionAttributes`. */
  datatype FunctionAttribute = NoUnwind | BuildIn

  function FunctionAttributeText(a: FunctionAttribute): string
  {
    match a
    case NoUnwind => "nounwind"
    case BuildIn => "buildin"
  }

  /** `VariableAttributes`. */
  datatype VariableAttribute = Private | UnnamedAddress | Constant | Global

  function VariableAttributeText(a: VariableAttribute): string
  {
    match a
    case Private => "private"
    case UnnamedAddress => "unnamed_addr"
    case Constant => "constant"
    case Global => "global"
  }

  /** `FunctionParameter`; the name is empty when a function is only declared. */
  datatype Parameter = Parameter(ty: LlvmType, name: string)

  /** A parameter in a definition or a declaration: its type, then its name unless the
      name is empty. */
  function ParameterText(p: Parameter): string
  {
    p.ty.value + (if p.name != "" then " " + p.name else "")
  }

  /** `DefineInstruction`. */
  datatype Define = Define(name: string, scope: seq<Instr>, ty: LlvmType,
                           attributes: seq<FunctionAttribute>, parameters: seq<Parameter>)

  /** The instruction classes. `Return` holds the function it returns from, as the source
      does. */
  datatype Instr =
    | DefineInstr(define: Define)
    | Declare(name: string, ty: LlvmType, attributes: seq<FunctionAttribute>, parameters: seq<Parameter>)
    | Call(name: string, parameters: seq<Parameter>)
    | GlobalVar(name: string, ty: LlvmType, value: string, varAttributes: seq<VariableAttribute>)
    | Local(name: string, value: string)
    | Alloca(name: string, ty: LlvmType, alignment: nat)
    | Store(name: string, nameType: LlvmType, value: string, valueType: LlvmType, alignment: nat)
    | Load(name: string, locationType: LlvmType, location: string, alignment: nat)
    | Return(value: string, currentFunction: Define)

  /** The alignment the constructors of `Alloca`, `Store` and `Load` default to. */
  const DefaultAlignment: nat := 4

  /** What a template literal prints for an `LLVMType` object, which has no `toString`:
      `Call` and `Alloca` interpolate the object rather than its `value`. */
  const ObjectText := "[object Object]"

  function FunctionAttributesText(attrs: seq<FunctionAttribute>): string
  {
    Join(seq(|attrs|, i requires 0 <= i < |attrs| => FunctionAttributeText(attrs[i])), " ")
  }

  function ParametersText(ps: seq<Parameter>): string
  {
    Join(seq(|ps|, i requires 0 <= i < |ps| => ParameterText(ps[i])), ", ")
  }

  /** The header a definition and a declaration share: type, name, parameters and
      attributes. */
  function Header(name: string, ty: LlvmType, attrs: seq<FunctionAttribute>, ps: seq<Parameter>): string
  {
    ty.value + " @" + name + "(" + ParametersText(ps) + ") " + FunctionAttributesText(attrs)
  }

  /** `generate()` of each instruction. */
  function Generate(i: Instr): string
    decreases i, 1
  {
    match i
    case DefineInstr(d) => GenerateDefine(d)
    case Declare(name, ty, attrs, ps) => "declare " + Header(name, ty, attrs, ps)
    case Call(name, ps) =>
      "call @" + name + "(" + Join(seq(|ps|, k requires 0 <= k < |ps| => "\t" + ObjectText + " " + ps[k].name), ", ") + ")"
    case GlobalVar(name, ty, value, attrs) =>
      var names := seq(|attrs|, k requires 0 <= k < |attrs| => VariableAttributeText(attrs[k]));
      "@" + name + " = " + (if |attrs| != 0 then Join(names, " ") + " " else "") + ty.value + " " + value
    case Local(name, value) => "%" + name + " = " + value
    case Alloca(name, _, alignment) => "%" + name + " = alloca " + ObjectText + ", align " + NatToString(alignment)
    case Store(name, nameType, value, valueType, alignment) =>
      "store " + valueType.value + " " + value + ", " + Location(nameType, name, alignment)
    case Load(name, locationType, location, alignment) =>
      "%" + name + " = load " + Location(locationType, location, alignment)
    case Return(value, fn) => "ret " + fn.ty.value + " " + value
  }

  /** A typed location with its alignment, as `Store` and `Load` print it. */
  function Location(ty: LlvmType, location: string, alignment: nat): string
  {
    ty.value + " " + location + ", align " + NatToString(alignment)
  }

  /** `DefineInstruction.generate()`: the header, then one tab-indented line per
      instruction of the scope, then `}` on a line of its own. */
  function GenerateDefine(d: Define): string
    decreases d, 0
  {
    var lines := seq(|d.scope|, k requires 0 <= k < |d.scope| => "\t" + Generate(d.scope[k]));
    "define " + Header(d.name, d.ty, d.attributes, d.parameters) + " {\n" + Join(lines, "\n") + "\n}"
  }

  /** The width of an integer type reads back from its text. */
  lemma IntegerWidthReadsBack(width: nat)
    ensures var t := IntegerType(width, false).value; ParseInt(t[1..]) == Finite(width)
  {
    var t := IntegerType(width, false).value;
    assert t[1..] == NatToString(width);
    ParseNatToString(width);
  }

  /** A definition prints exactly what the declaration of the same function prints, with
      `define` for `declare`, followed by its body. */
  lemma DefineExtendsDeclare(d: Define)
    ensures var decl := Generate(Declare(d.name, d.ty, d.attributes, d.parameters));
      var body := GenerateDefine(d)[7 + |decl| - 8..];
      && |decl| >= 8 && decl[..8] == "declare "
      && GenerateDefine(d) == "define " + decl[8..] + body
      && body[..3] == " {\n" && body[|body| - 2..] == "\n}"
  {
    var h := Header(d.name, d.ty, d.attributes, d.parameters);
    var lines := seq(|d.scope|, k requires 0 <= k < |d.scope| => "\t" + Generate(d.scope[k]));
    var decl := "declare " + h;
    assert decl[8..] == h;
    var tail := " {\n" + Join(lines, "\n") + "\n}";
    assert GenerateDefine(d) == "define " + h + tail;
    assert GenerateDefine(d)[7 + |h|..] == tail;
  }

  /** A definition with an empty scope prints an empty line between its braces. */
  lemma EmptyDefinition(name: string, ty: LlvmType, attrs: seq<FunctionAttribute>, ps: seq<Parameter>)
    ensures GenerateDefine(Define(name, [], ty, attrs, ps)) == "define " + Header(name, ty, attrs, ps) + " {\n\n}"
  {
    var d := Define(name, [], ty, attrs, ps);
    assert seq(|d.scope|, k requires 0 <= k < |d.scope| => "\t" + Generate(d.scope[k])) == [];
  }

  /** Parameters without names, as in a declaration, print as their types alone. */
  lemma UnnamedParameters(ps: seq<Parameter>)
    requires forall k :: 0 <= k < |ps| ==> ps[k].name == ""
    ensures ParametersText(ps) == Join(seq(|ps|, k requires 0 <= k < |ps| => ps[k].ty.value), ", ")
  {
    forall k | 0 <= k < |ps| ensures ParameterText(ps[k]) == ps[k].ty.value {
      assert ps[k].ty.value + "" == ps[k].ty.value;
    }
    assert seq(|ps|, k requires 0 <= k < |ps| => ParameterText(ps[k]))
        == seq(|ps|, k requires 0 <= k < |ps| => ps[k].ty.value);
  }

  /** A global prints its attributes followed by a space only when there is at least one. */
  lemma GlobalAttributes(name: string, ty: LlvmType, value: string, attrs: seq<VariableAttribute>)
    ensures attrs == [] ==> Generate(GlobalVar(name, ty, value, attrs)) == "@" + name + " = " + ty.value + " " + value
    ensures |attrs| == 1 ==>
              Generate(GlobalVar(name, ty, value, attrs)) == "@" + name + " = " + VariableAttributeText(attrs[0]) + " " + ty.value + " " + value
  {
    if |attrs| == 1 {
      var names := seq(|attrs|, k requires 0 <= k < |attrs| => VariableAttributeText(attrs[k]));
      assert Join(names, " ") == VariableAttributeText(attrs[0]);
    }
  }

  /** A load from the location a store writes prints the same typed location and alignment. */
  lemma LoadReadsWhatStoreWrites(slot: string, ty: LlvmType, value: string, valueType: LlvmType, dest: string, alignment: nat)
    ensures var loc := Location(ty, slot, alignment);
      var s := Generate(Store(slot, ty, value, valueType, alignment));
      var l := Generate(Load(dest, ty, slot, alignment));
      && |s| >= |loc| && s[|s| - |loc|..] == loc
      && |l| >= |loc| && l[|l| - |loc|..] == loc
  {
    var loc := Location(ty, slot, alignment);
    var s := "store " + valueType.value + " " + value + ", ";
    var l := "%" + dest + " = load ";
    assert Generate(Store(slot, ty, value, valueType, alignment)) == s + loc;
    assert Generate(Load(dest, ty, slot, alignment)) == l + loc;
  }

  /** A definition prints its return type right after `define `. */
  lemma DefinePrintsType(d: Define)
    ensures var def := GenerateDefine(d); var t := d.ty.value;
      |def| >= 7 + |t| && def[7..7 + |t|] == t
  {
    var t := d.ty.value;
    var h := Header(d.name, d.ty, d.attributes, d.parameters);
    var lines := seq(|d.scope|, k requires 0 <= k < |d.scope| => "\t" + Generate(d.scope[k]));
    var tail := " {\n" + Join(lines, "\n") + "\n}";
    var rest := " @" + d.name + "(" + ParametersText(d.parameters) + ") " + FunctionAttributesText(d.attributes);
    assert h == t + rest;
    assert GenerateDefine(d) == "define " + h + tail;
    assert "define " + h + tail == "define " + t + (rest + tail);
    MiddleOf("define ", t, rest + tail);
  }

  /** `ret` prints the return type of the function it returns from, the same text that
      function's definition prints after `define `. */
  lemma ReturnUsesFunctionType(value: string, d: Define)
    ensures var r := Generate(Return(value, d)); var def := GenerateDefine(d); var t := d.ty.value;
      && |r| >= 4 + |t| && r[4..4 + |t|] == t
      && |def| >= 7 + |t| && def[7..7 + |t|] == t
  {
    DefinePrintsType(d);
    MiddleOf("ret ", d.ty.value, " " + value);
  }
}
