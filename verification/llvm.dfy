/** The small LLVM text builder of `source/generator/llvm.ts`: parts that print themselves,
    and a module object that collects function definitions in order. */
module LlvmText {
  import opened Text

  /** `LLVMPart` and the classes implementing it. */
  datatype Part =
    | IntegerType(width: string)
    | VoidType
    | Parameter(ty: Part, name: string)
    | Function(name: string, returnType: Part, parameters: seq<Part>, block: seq<Part>)

  /** `toString()` of each part. A function's block is interpolated as an array, so its
      items are joined with `,` and no space. */
  function PartText(p: Part): string
  {
    match p
    case IntegerType(width) => "i" + width
    case VoidType => "void"
    case Parameter(ty, name) => PartText(ty) + " " + name
    case Function(name, ret, ps, block) =>
      "define " + PartText(ret) + " @" + name + "(" + Join(Texts(ps), ", ") + ") {\n" + Join(Texts(block), ",") + "\n}"
  }

  /** `parts.map(p => p.toString())`. */
  function Texts(ps: seq<Part>): (r: seq<string>)
    ensures |r| == |ps|
    ensures forall k :: 0 <= k < |ps| ==> r[k] == PartText(ps[k])
    decreases ps
  {
    if |ps| == 0 then [] else Texts(ps[..|ps| - 1]) + [PartText(ps[|ps| - 1])]
  }

  /** `LLVM`. */
  class Llvm {
    var parts: seq<Part>

    constructor ()
      ensures parts == []
    {
      parts := [];
    }

    /** `defineFunction(name, block, type, parameters)`; the type defaults to `void` and
        the parameters to none. */
    method DefineFunction(name: string, block: seq<Part>, ty: Part := VoidType, parameters: seq<Part> := [])
      modifies this
      ensures parts == old(parts) + [Function(name, ty, parameters, block)]
    {
      parts := parts + [Function(name, ty, parameters, block)];
    }

    /** `toString()`: the parts in insertion order, one per line. */
    function ToString(): (r: string)
      reads this
      ensures parts == [] ==> r == ""
      ensures |parts| == 1 ==> r == PartText(parts[0])
    {
      Join(Texts(parts), "\n")
    }
  }

  /** Defining a function adds its text as a new last line and leaves the earlier lines
      as they were. */
  lemma DefinitionAppendsLine(parts: seq<Part>, f: Part)
    ensures Join(Texts(parts + [f]), "\n") ==
              if parts == [] then PartText(f) else Join(Texts(parts), "\n") + "\n" + PartText(f)
  {
    assert (parts + [f])[..|parts|] == parts;
    if parts != [] {
      JoinAppend(Texts(parts), PartText(f), "\n");
    }
  }

  /** The items of a function's block are separated by a comma alone. */
  lemma BlockCommaJoined(a: Part, b: Part)
    ensures Join(Texts([a, b]), ",") == PartText(a) + "," + PartText(b)
  {
    assert [a, b][..1] == [a];
    assert [a][..0] == [];
    assert Texts([a, b]) == [PartText(a), PartText(b)];
  }

  /** A parameter prints as its type, a space, and its name; a function with a `void`
      return and one `i32 x` parameter prints accordingly. */
  lemma VoidFunctionHeader(name: string, x: string)
    ensures PartText(Function(name, VoidType, [Parameter(IntegerType("32"), x)], []))
              == "define void @" + name + "(i32 " + x + ") {\n\n}"
  {
    var p := Parameter(IntegerType("32"), x);
    assert PartText(IntegerType("32")) == "i32";
    assert PartText(p) == "i32 " + x;
    assert [p][..0] == [];
    assert Texts([p]) == [PartText(p)];
    assert Texts([]) == [];
  }
}
