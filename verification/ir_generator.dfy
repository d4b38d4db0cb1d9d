/** `Generator.generateExpression` and `generate` of `source/generator/generator.ts`
    over the abstract IR. `Step` says what lowering one statement does to the generator's
    state; the class `Generator` mutates that state in place, statement by statement, and
    is proved to agree with `Step`. */
module IrGenerator {
  import opened Results
  import opened Text
  import opened Ast
  import opened Ir

  /** A block of a function of the module, by position. */
  datatype BlockRef = BlockRef(fn: nat, block: nat)

  /** The generator's state.
      - `functions`: the module's functions in creation order.
      - `builder`: the insertion point of `this.builder`, absent until the first function
        body is generated.
      - `current`: `currentFunction`.
      - `arrays`, `vars`: the variable arrays ever allocated and the one `this.variables`
        refers to; `[...this.variables]` appends a copy, `this.variables = currentScope`
        makes the field refer to an earlier one, and `push` extends the one referred to.
      - `slots`: the number of stack slots allocated so far, which names the next one. */
  datatype Gen = Gen(functions: seq<IrFunction>, builder: Option<BlockRef>, current: Option<nat>,
                     arrays: seq<seq<Binding>>, vars: nat, slots: nat)

  predicate Valid(g: Gen)
  {
    && g.vars < |g.arrays|
    && (g.current.Some? ==> g.current.value < |g.functions|)
    && (g.builder.Some? ==> g.builder.value.fn < |g.functions|
                            && g.builder.value.block < |g.functions[g.builder.value.fn].blocks|)
  }

  /** The state of a fresh `Generator`. */
  const Initial: Gen := Gen([], None, None, [[]], 0, 0)

  /** The bindings `this.variables` currently holds. */
  function Vars(g: Gen): seq<Binding>
    requires Valid(g)
  {
    g.arrays[g.vars]
  }

  /** The guard `!this.currentFunction || !this.builder` fails. */
  predicate InFunction(g: Gen)
  {
    g.current.Some? && g.builder.Some?
  }

  /** `h` came from `g` by appending: no array, function or slot disappears, the builder
      stays, and inside a function the generator stays in it and its blocks do not
      disappear. */
  predicate Grows(g: Gen, h: Gen)
  {
    && |g.arrays| <= |h.arrays|
    && |g.functions| <= |h.functions|
    && g.slots <= h.slots
    && (g.builder.Some? ==> h.builder.Some?)
    && (g.current.Some? ==>
          && h.current == g.current
          && (g.current.value < |g.functions| ==> |g.functions[g.current.value].blocks| <= |h.functions[g.current.value].blocks|))
  }

  /** Appending instructions at the insertion point. */
  function Emit(g: Gen, ins: seq<Instr>): (h: Gen)
    requires Valid(g) && g.builder.Some?
    ensures Valid(h) && Grows(g, h)
    ensures h.builder == g.builder && h.current == g.current && h.arrays == g.arrays && h.vars == g.vars
    ensures h.slots == g.slots && SameShape(g.functions, h.functions)
  {
    var b := g.builder.value;
    var f := g.functions[b.fn];
    var blk := f.blocks[b.block];
    g.(functions := g.functions[b.fn := f.(blocks := f.blocks[b.block := blk.(instrs := blk.instrs + ins)])])
  }

  /** Two function lists that differ at most in the instructions of their blocks. */
  predicate SameShape(fns: seq<IrFunction>, fns2: seq<IrFunction>)
  {
    && |fns| == |fns2|
    && forall i :: 0 <= i < |fns| ==>
         && fns2[i].name == fns[i].name && fns2[i].returnType == fns[i].returnType
         && |fns2[i].blocks| == |fns[i].blocks|
  }

  /** Emitting in two steps is emitting the concatenation. */
  lemma EmitEmit(g: Gen, a: seq<Instr>, b: seq<Instr>)
    requires Valid(g) && g.builder.Some?
    ensures Emit(Emit(g, a), b) == Emit(g, a + b)
  {
    var bl := g.builder.value;
    var f := g.functions[bl.fn];
    var blk := f.blocks[bl.block];
    var h := Emit(g, a);
    assert h.functions[bl.fn] == f.(blocks := f.blocks[bl.block := blk.(instrs := blk.instrs + a)]);
    assert h.functions[bl.fn].blocks[bl.block] == blk.(instrs := blk.instrs + a);
    assert (blk.instrs + a) + b == blk.instrs + (a + b);
    var blk2 := blk.(instrs := blk.instrs + (a + b));
    assert f.blocks[bl.block := blk.(instrs := blk.instrs + a)][bl.block := blk2] == f.blocks[bl.block := blk2];
    var f2 := f.(blocks := f.blocks[bl.block := blk2]);
    assert g.functions[bl.fn := h.functions[bl.fn]][bl.fn := f2] == g.functions[bl.fn := f2];
  }

  /** Lookups by name see only names: emitting instructions does not change what
      `module.getFunction` finds. */
  lemma {:induction false} FindFunctionShape(fns: seq<IrFunction>, fns2: seq<IrFunction>, name: string)
    requires SameShape(fns, fns2)
    ensures FindFunction(fns2, name) == FindFunction(fns, name)
    decreases |fns|
  {
    if |fns| > 0 && fns[0].name != name {
      assert SameShape(fns[1..], fns2[1..]) by {
        forall i | 0 <= i < |fns| - 1 ensures fns2[1..][i].name == fns[1..][i].name {
          assert fns2[1..][i] == fns2[i + 1] && fns[1..][i] == fns[i + 1];
        }
      }
      FindFunctionShape(fns[1..], fns2[1..], name);
    }
  }

  /** Lowering a value depends on the module only through its function names and return
      types, so the instructions emitted so far do not change it. */
  lemma {:induction false} ValueOfShape(vs: seq<Binding>, fns: seq<IrFunction>, fns2: seq<IrFunction>, n: Node)
    requires SameShape(fns, fns2)
    ensures ValueOf(vs, fns2, n) == ValueOf(vs, fns, n)
    decreases n
  {
    match n
    case Expression(left, right, _) =>
      ValueOfShape(vs, fns, fns2, left);
      ValueOfShape(vs, fns, fns2, right);
      assert BinaryOf(vs, fns2, n) == BinaryOf(vs, fns, n);
    case Call(name, args) =>
      FindFunctionShape(fns, fns2, name);
      ValuesFromShape(vs, fns, fns2, args, 0);
      assert CallOf(vs, fns2, n) == CallOf(vs, fns, n);
    case _ =>
  }

  lemma {:induction false} ValuesFromShape(vs: seq<Binding>, fns: seq<IrFunction>, fns2: seq<IrFunction>, args: seq<Node>, i: nat)
    requires SameShape(fns, fns2) && i <= |args|
    ensures ValuesFrom(vs, fns2, args, i) == ValuesFrom(vs, fns, args, i)
    decreases args, |args| - i
  {
    if i < |args| {
      ValueOfShape(vs, fns, fns2, args[i]);
      ValuesFromShape(vs, fns, fns2, args, i + 1);
    }
  }

  /** Emitting nothing leaves the state as it is. */
  lemma EmitNothing(g: Gen)
    requires Valid(g) && g.builder.Some?
    ensures Emit(g, []) == g
  {
    var bl := g.builder.value;
    var f := g.functions[bl.fn];
    var blk := f.blocks[bl.block];
    assert blk.instrs + [] == blk.instrs;
    assert f.blocks[bl.block := blk] == f.blocks;
    assert g.functions[bl.fn := f] == g.functions;
  }

  /** The values and instructions of the arguments before `r`'s, when `r` succeeds. */
  function Prepend(values: seq<Value>, ins: seq<Instr>, r: Result<(seq<Value>, seq<Instr>)>): Result<(seq<Value>, seq<Instr>)>
  {
    if r.Err? then r else Ok((values + r.value.0, ins + r.value.1))
  }

  /** One step of lowering arguments: a failing argument is the outcome of the whole list;
      otherwise its value and instructions move in front of the rest. */
  lemma ValuesFromStep(vs: seq<Binding>, fns: seq<IrFunction>, args: seq<Node>, i: nat, values: seq<Value>, ins: seq<Instr>)
    requires i < |args|
    ensures ValueOf(vs, fns, args[i]).Err? ==>
      Prepend(values, ins, ValuesFrom(vs, fns, args, i)) == Err(ValueOf(vs, fns, args[i]).msg)
    ensures ValueOf(vs, fns, args[i]).Ok? ==>
      var x := ValueOf(vs, fns, args[i]).value;
      Prepend(values, ins, ValuesFrom(vs, fns, args, i)) == Prepend(values + [x.0], ins + x.1, ValuesFrom(vs, fns, args, i + 1))
  {
    var rest := ValuesFrom(vs, fns, args, i + 1);
    if ValueOf(vs, fns, args[i]).Ok? && rest.Ok? {
      var x := ValueOf(vs, fns, args[i]).value;
      assert values + ([x.0] + rest.value.0) == values + [x.0] + rest.value.0;
      assert ins + (x.1 + rest.value.1) == ins + x.1 + rest.value.1;
    }
  }

  /** `BasicBlock.create(context, name, this.currentFunction)` for each name in order. */
  function AppendBlocks(g: Gen, names: seq<string>): (h: Gen)
    requires Valid(g) && g.current.Some?
    ensures Valid(h) && Grows(g, h)
    ensures h.builder == g.builder && h.current == g.current && h.arrays == g.arrays && h.vars == g.vars
    ensures h.slots == g.slots && |h.functions| == |g.functions|
    ensures |h.functions[g.current.value].blocks| == |g.functions[g.current.value].blocks| + |names|
  {
    var c := g.current.value;
    var f := g.functions[c];
    g.(functions := g.functions[c := f.(blocks := f.blocks + seq(|names|, i requires 0 <= i < |names| => Block(names[i], [])))])
  }

  /** Moving the insertion point. */
  function MoveTo(g: Gen, block: nat): (h: Gen)
    requires Valid(g) && g.current.Some? && block < |g.functions[g.current.value].blocks|
    ensures Valid(h) && h.builder == Some(BlockRef(g.current.value, block))
    ensures h == g.(builder := h.builder)
  {
    g.(builder := Some(BlockRef(g.current.value, block)))
  }

  /** `this.variables.push(new Variable(name, pointer, type))` for a freshly allocated slot. */
  function Bind(g: Gen, name: string, ty: IrType): (h: Gen)
    requires Valid(g)
    ensures Valid(h) && Grows(g, h)
    ensures Vars(h) == Vars(g) + [Binding(name, g.slots, ty)]
  {
    g.(arrays := g.arrays[g.vars := g.arrays[g.vars] + [Binding(name, g.slots, ty)]], slots := g.slots + 1)
  }

  /** `const currentScope = [...this.variables]`: the copy is the last array. */
  function Snapshot(g: Gen): (h: Gen)
    requires Valid(g)
    ensures Valid(h) && Grows(g, h)
    ensures h == g.(arrays := g.arrays + [Vars(g)])
  {
    g.(arrays := g.arrays + [Vars(g)])
  }

  /** `this.variables = currentScope`. */
  function Restore(g: Gen, snap: nat): (h: Gen)
    requires Valid(g) && snap < |g.arrays|
    ensures Valid(h) && h == g.(vars := snap)
  {
    g.(vars := snap)
  }

  /** The parameter types of a function header; an unknown type name is fatal. */
  function ParamTypes(params: seq<Param>): (r: Result<seq<IrType>>)
    ensures r.Ok? ==> |r.value| == |params|
    ensures r.Ok? <==> forall i :: 0 <= i < |params| ==> TypeByName(Named(params[i].paramType)).Ok?
  {
    if |params| == 0 then Ok([])
    else
      var first :- TypeByName(Named(params[0].paramType));
      var rest :- ParamTypes(params[1..]);
      assert forall i :: 1 <= i < |params| ==> params[1..][i - 1] == params[i];
      Ok([first] + rest)
  }

  /** The parameter bindings of a function: one fresh slot each, from `base` on. */
  function ParamBindings(params: seq<Param>, pts: seq<IrType>, base: nat): (r: seq<Binding>)
    requires |pts| == |params|
    ensures |r| == |params|
    ensures forall i :: 0 <= i < |r| ==> r[i] == Binding(params[i].name, base + i, pts[i])
  {
    seq(|params|, i requires 0 <= i < |params| => Binding(params[i].name, base + i, pts[i]))
  }

  /** The alloca and the store of the incoming argument, for each parameter in order. */
  function ParamInstrs(bs: seq<Binding>): (r: seq<Instr>)
    ensures |r| == 2 * |bs|
    ensures forall i :: 0 <= i < |bs| ==>
              r[2 * i] == Alloca(bs[i].slot, bs[i].ty, bs[i].name) && r[2 * i + 1] == Store(Argument(i, bs[i].ty), bs[i].slot)
  {
    if |bs| == 0 then []
    else
      var i := |bs| - 1;
      ParamInstrs(bs[..i]) + [Alloca(bs[i].slot, bs[i].ty, bs[i].name), Store(Argument(i, bs[i].ty), bs[i].slot)]
  }

  /** Whether the generator appends `ret void` after a function body: when the body is empty
      (or its last entry is undefined), or when the function is void and the body does not
      end in a `ReturnNode`. */
  predicate NeedsRetVoid(scope: Body, ret: IrType)
  {
    |scope| == 0 || scope[|scope| - 1].None? || (ret == Void && !scope[|scope| - 1].value.Return?)
  }

  const UndefinedNode := "TypeError: Cannot read properties of undefined (reading 'type')"

  /** The number of blocks of the current function. */
  function BlockCount(g: Gen): nat
    requires Valid(g) && g.current.Some?
  {
    |g.functions[g.current.value].blocks|
  }

  /** The generator is in a function, at a block of it, with at least `k + 3` blocks and the
      scope array `snap` allocated: what the arms and bodies of the structured statements
      need. */
  predicate Ready(g: Gen, k: nat, snap: nat)
  {
    Valid(g) && InFunction(g) && snap < |g.arrays| && k + 2 < BlockCount(g)
  }

  /** `if` lowering up to the then-arm: the three blocks, the conditional branch in the
      current block, the insertion point at `if_scope`, and the saved scope. */
  function IfHead(g: Gen, cond: Value, k: nat): (h: Gen)
    requires Valid(g) && InFunction(g) && k == BlockCount(g)
    ensures Ready(h, k, |g.arrays|) && Grows(g, h)
  {
    Snapshot(MoveTo(Emit(AppendBlocks(g, ["if_scope", "if_else", "end_scope"]), [CondBr(cond, k, k + 1)]), k))
  }

  /** `while` lowering up to the condition: the three blocks, the branch into the condition
      block, and the insertion point there. */
  function WhileHead(g: Gen, k: nat): (h: Gen)
    requires Valid(g) && InFunction(g) && k == BlockCount(g)
    ensures Valid(h) && InFunction(h) && Grows(g, h) && k + 2 < BlockCount(h) && h.arrays == g.arrays
  {
    MoveTo(Emit(AppendBlocks(g, ["while_condition", "while_scope", "end_scope"]), [Br(k)]), k)
  }

  /** `for` lowering after the start value: a slot for the induction variable, bound before
      the scope is saved, the store of the start value, and the branch into the condition
      block `k`. */
  function ForStart(g: Gen, start: Value, name: string, k: nat): (h: Gen)
    requires Valid(g) && InFunction(g) && k + 2 < BlockCount(g)
    ensures Valid(h) && InFunction(h) && Grows(g, h) && k + 2 < BlockCount(h)
    ensures Vars(h) == Vars(g) + [Binding(name, g.slots, TypeOf(start))]
  {
    var ty := TypeOf(start);
    MoveTo(Emit(Bind(Emit(g, [Alloca(g.slots, ty, name)]), name, ty), [Store(start, g.slots), Br(k)]), k)
  }

  /** A loop condition: the conditional branch to the body block `k + 1` or the end block
      `k + 2`, the insertion point at the body, and the saved scope. */
  function CondHead(g: Gen, cond: Value, k: nat): (h: Gen)
    requires Valid(g) && InFunction(g) && k + 2 < BlockCount(g)
    ensures Ready(h, k, |g.arrays|) && Grows(g, h)
  {
    Snapshot(MoveTo(Emit(g, [CondBr(cond, k + 1, k + 2)]), k + 1))
  }

  /** The end of an arm or a loop body: `this.variables = currentScope`, a branch to
      `target`, and the insertion point at block `next`. */
  function Leave(g: Gen, snap: nat, target: nat, next: nat): (h: Gen)
    requires Valid(g) && InFunction(g) && snap < |g.arrays| && next < BlockCount(g)
    ensures Valid(h) && InFunction(h) && Grows(g, h) && h.vars == snap
    ensures h.arrays == g.arrays && h.slots == g.slots
  {
    MoveTo(Emit(Restore(g, snap), [Br(target)]), next)
  }

  /** The statements that open blocks or scopes of their own. */
  predicate Compound(n: Node)
  {
    n.If? || n.While? || n.For? || n.Function?
  }

  /** `generateExpression(child)`: the node's tag selects the case. */
  function Step(g: Gen, n: Node): (r: Result<Gen>)
    requires Valid(g)
    ensures r.Ok? ==> Valid(r.value) && Grows(g, r.value)
    decreases n, 4
  {
    if Compound(n) then StepCompound(g, n) else StepSimple(g, n)
  }

  /** The straight-line statements; value-only nodes at statement level are ignored. */
  function StepSimple(g: Gen, n: Node): (r: Result<Gen>)
    requires Valid(g) && !Compound(n)
    ensures r.Ok? ==> Valid(r.value) && Grows(g, r.value)
  {
    if n.Call? then StepCall(g, n)
    else if n.SetVariable? then StepSet(g, n)
    else if n.DefineVariable? then StepDefine(g, n)
    else if n.Return? then StepReturn(g, n)
    else Ok(g)
  }

  function StepCompound(g: Gen, n: Node): (r: Result<Gen>)
    requires Valid(g) && Compound(n)
    ensures r.Ok? ==> Valid(r.value) && Grows(g, r.value)
    decreases n, 3
  {
    if n.If? then StepIf(g, n)
    else if n.While? then StepWhile(g, n)
    else if n.For? then StepFor(g, n)
    else StepFunction(g, n)
  }

  /** A call statement: the callee must exist; the arguments are lowered in order. */
  function StepCall(g: Gen, n: Node): (r: Result<Gen>)
    requires Valid(g) && n.Call?
    ensures r.Ok? ==> Valid(r.value) && Grows(g, r.value)
  {
    if !InFunction(g) then Err("Can't call a function outside of an function.")
    else
      var v :- CallOf(Vars(g), g.functions, n);
      Ok(Emit(g, v.1))
  }

  /** An assignment: the value is lowered first, then stored into the first binding of the
      name. */
  function StepSet(g: Gen, n: Node): (r: Result<Gen>)
    requires Valid(g) && n.SetVariable?
    ensures r.Ok? ==> Valid(r.value) && Grows(g, r.value)
  {
    if !InFunction(g) then Err("Can't set an variable outside of a function.")
    else
      var v :- ValueOf(Vars(g), g.functions, n.value);
      var found := FindVariable(Vars(g), n.name);
      if found.None? then Err("Variable " + n.name + " doesn't exist.")
      else Ok(Emit(g, v.1 + [Store(v.0, found.value.slot)]))
  }

  /** A definition: a fresh slot of the declared type (or of the value's type when none is
      declared), appended to the variable list. */
  function StepDefine(g: Gen, n: Node): (r: Result<Gen>)
    requires Valid(g) && n.DefineVariable?
    ensures r.Ok? ==> Valid(r.value) && Grows(g, r.value)
  {
    if !InFunction(g) then Err("Can't set an variable outside of a function.")
    else if n.init.None? then
      var ty :- TypeByName(n.dataType);
      Ok(Bind(Emit(g, [Alloca(g.slots, ty, n.name)]), n.name, ty))
    else
      var v :- ValueOf(Vars(g), g.functions, n.init.value);
      var ty :- if n.dataType != Named("") then TypeByName(n.dataType) else Ok(TypeOf(v.0));
      Ok(Emit(Bind(Emit(g, v.1 + [Alloca(g.slots, ty, n.name)]), n.name, ty), [Store(v.0, g.slots)]))
  }

  /** An `if`: the condition in the current block, then the two arms. */
  function StepIf(g: Gen, n: Node): (r: Result<Gen>)
    requires Valid(g) && n.If?
    ensures r.Ok? ==> Valid(r.value) && Grows(g, r.value)
    decreases n, 2
  {
    if !InFunction(g) then Err("IfNode can only be used inside a function.")
    else
      var c :- ValueOf(Vars(g), g.functions, n.condition);
      var k := BlockCount(g);
      IfArms(IfHead(Emit(g, c.1), c.0, k), n, k, |g.arrays|)
  }

  /** The then-arm in `if_scope`, which ends in a branch to `end_scope`, then the else-arm
      from `if_else`. */
  function IfArms(g: Gen, n: Node, k: nat, snap: nat): (r: Result<Gen>)
    requires Ready(g, k, snap) && n.If?
    ensures r.Ok? ==> Valid(r.value) && Grows(g, r.value)
    decreases n, 1
  {
    var g3 :- StepBody(g, n.scope, 0);
    ElseArm(Leave(g3, snap, k + 2, k + 1), n, k, snap)
  }

  /** The else-arm in `if_else`; it ends in a branch to `end_scope`, where the insertion
      point stays. */
  function ElseArm(g: Gen, n: Node, k: nat, snap: nat): (r: Result<Gen>)
    requires Ready(g, k, snap) && n.If?
    ensures r.Ok? ==> Valid(r.value) && Grows(g, r.value)
    decreases n, 0
  {
    var g5 :- StepBody(g, n.elseScope, 0);
    Ok(Leave(g5, snap, k + 2, k + 2))
  }

  /** A `while`: the condition block, then the body. */
  function StepWhile(g: Gen, n: Node): (r: Result<Gen>)
    requires Valid(g) && n.While?
    ensures r.Ok? ==> Valid(r.value) && Grows(g, r.value)
    decreases n, 2
  {
    if !InFunction(g) then Err("Cannot generate while loop outside of a function.")
    else
      var k := BlockCount(g);
      var g2 := WhileHead(g, k);
      var c :- ValueOf(Vars(g2), g2.functions, n.condition);
      LoopBody(CondHead(Emit(g2, c.1), c.0, k), n.scope, k, |g2.arrays|)
  }

  /** The body of a `while` loop in the body block; afterwards the scope is restored, the
      body branches back to the condition block `k`, and the insertion point moves to the
      end block. */
  function LoopBody(g: Gen, scope: Body, k: nat, snap: nat): (r: Result<Gen>)
    requires Ready(g, k, snap)
    ensures r.Ok? ==> Valid(r.value) && Grows(g, r.value)
    decreases scope
  {
    var g4 :- StepBody(g, scope, 0);
    Ok(Leave(g4, snap, k, k + 2))
  }

  /** A `for`: the blocks, the start value and the induction variable, then the loop. */
  function StepFor(g: Gen, n: Node): (r: Result<Gen>)
    requires Valid(g) && n.For?
    ensures r.Ok? ==> Valid(r.value) && Grows(g, r.value)
    decreases n, 2
  {
    if !InFunction(g) then Err("Cannot define a for-loop outside of a function.")
    else
      var k := BlockCount(g);
      var g1 := AppendBlocks(g, ["for_condition", "for_scope", "end_scope"]);
      var s :- ValueOf(Vars(g1), g1.functions, n.start);
      ForLoop(ForStart(Emit(g1, s.1), s.0, n.variable, k), n, k)
  }

  /** A `for` loop from its condition block `k`: the condition, then the body. */
  function ForLoop(g: Gen, n: Node, k: nat): (r: Result<Gen>)
    requires Valid(g) && n.For? && InFunction(g) && k + 2 < BlockCount(g)
    ensures r.Ok? ==> Valid(r.value) && Grows(g, r.value)
    decreases n, 1
  {
    var c :- ValueOf(Vars(g), g.functions, n.condition);
    ForBody(CondHead(Emit(g, c.1), c.0, k), n, k, |g.arrays|)
  }

  /** The body of a `for` loop, then its step, both with the scope saved; then the scope is
      restored, the body branches back to `k`, and the insertion point moves to the end. */
  function ForBody(g: Gen, n: Node, k: nat, snap: nat): (r: Result<Gen>)
    requires Ready(g, k, snap) && n.For?
    ensures r.Ok? ==> Valid(r.value) && Grows(g, r.value)
    decreases n, 0
  {
    var g4 :- StepBody(g, n.scope, 0);
    var g5 :- Step(g4, n.step);
    Ok(Leave(g5, snap, k, k + 2))
  }

  /** `Function.create` with an entry block: the function becomes current, and the builder
      is created at its entry block only if there is none yet. */
  function Opened(g: Gen, name: string, ret: IrType, pts: seq<IrType>): (h: Gen)
    requires Valid(g) && g.current.None?
    ensures Valid(h) && Grows(g, h) && InFunction(h) && h.arrays == g.arrays && h.vars == g.vars && h.slots == g.slots
    ensures h.current == Some(|g.functions|) && |h.functions| == |g.functions| + 1
    ensures g.builder.None? ==> h.builder == Some(BlockRef(|g.functions|, 0))
  {
    var f := |g.functions|;
    g.(functions := g.functions + [IrFunction(name, ret, pts, false, [Block("entry", [])])],
       current := Some(f),
       builder := if g.builder.None? then Some(BlockRef(f, 0)) else g.builder)
  }

  /** Entering a function definition: the function is created with its entry block and
      becomes current; the builder is created at that entry block only if there is none yet;
      each parameter gets a slot and a store of its argument, emitted at the builder's
      insertion point; `this.variables` becomes a new array holding the parameters; and the
      insertion point moves to the entry block. */
  function Entered(g: Gen, name: string, ret: IrType, pts: seq<IrType>, params: seq<Param>): (h: Gen)
    requires Valid(g) && g.current.None? && |pts| == |params|
    ensures Valid(h) && Grows(g, h) && InFunction(h)
    ensures h.current == Some(|g.functions|) && |h.functions| == |g.functions| + 1
    ensures h.builder == Some(BlockRef(|g.functions|, 0))
    ensures Vars(h) == ParamBindings(params, pts, g.slots)
  {
    var g1 := Opened(g, name, ret, pts);
    var bs := ParamBindings(params, pts, g1.slots);
    var g2 := Emit(g1, ParamInstrs(bs));
    MoveTo(g2.(arrays := g2.arrays + [bs], vars := |g2.arrays|, slots := g2.slots + |bs|), 0)
  }

  /** A function definition; an external one only declares the function when no function
      of that name exists yet. */
  function StepFunction(g: Gen, n: Node): (r: Result<Gen>)
    requires Valid(g) && n.Function?
    ensures r.Ok? ==> Valid(r.value) && Grows(g, r.value)
    decreases n, 2
  {
    if g.current.Some? then Err("Cannot define a function inside another function.")
    else if n.isExternal then
      var ret :- TypeByName(Named(n.returnType));
      var pts :- ParamTypes(n.params);
      if FindFunction(g.functions, n.name).Some? then Ok(g)
      else Ok(g.(functions := g.functions + [IrFunction(n.name, ret, pts, n.isVarArg, [])]))
    else
      var ret :- TypeByName(Named(n.returnType));
      var pts :- ParamTypes(n.params);
      FunctionBody(Entered(g, n.name, ret, pts, n.params), n, ret)
  }

  /** A function body from its entry block, and the rules for its end: `ret void` is
      appended when `NeedsRetVoid` holds; otherwise the body must end in a `ReturnNode`;
      either way there is no current function afterwards. */
  function FunctionBody(g: Gen, n: Node, ret: IrType): (r: Result<Gen>)
    requires Valid(g) && n.Function? && InFunction(g)
    ensures r.Ok? ==> Valid(r.value) && r.value.current.None?
    ensures r.Ok? ==> |g.arrays| <= |r.value.arrays| && |g.functions| <= |r.value.functions| && g.slots <= r.value.slots
    ensures r.Ok? ==> r.value.builder.Some?
    decreases n, 1
  {
    var g4 :- StepBody(g, n.scope, 0);
    if NeedsRetVoid(n.scope, ret) then Ok(Emit(g4, [RetVoid]).(current := None))
    else if !n.scope[|n.scope| - 1].value.Return? then Err("Function " + n.name + " doesn't return anything.")
    else Ok(g4.(current := None))
  }

  /** A `return`: a value-less one is allowed only in a void function. */
  function StepReturn(g: Gen, n: Node): (r: Result<Gen>)
    requires Valid(g) && n.Return?
    ensures r.Ok? ==> Valid(r.value) && Grows(g, r.value)
  {
    if !InFunction(g) then Err("Can't return because we're not in a function.")
    else if n.result.None? then
      if g.functions[g.current.value].returnType != Void then
        Err("Function " + g.functions[g.current.value].name + " must return a value, since its not a void.")
      else Ok(Emit(g, [RetVoid]))
    else
      var v :- ValueOf(Vars(g), g.functions, n.result.value);
      Ok(Emit(g, v.1 + [Ret(v.0)]))
  }

  /** `scope.forEach(p => this.generateExpression(p))` from entry `i` on. */
  function StepBody(g: Gen, b: Body, i: nat): (r: Result<Gen>)
    requires Valid(g) && i <= |b|
    ensures r.Ok? ==> Valid(r.value) && Grows(g, r.value)
    decreases b, |b| - i
  {
    if i == |b| then Ok(g)
    else
      var h :- StepEntry(g, b[i]);
      StepBody(h, b, i + 1)
  }

  /** One entry of a statement list; an `undefined` entry is fatal. */
  function StepEntry(g: Gen, e: Option<Node>): (r: Result<Gen>)
    requires Valid(g)
    ensures r.Ok? ==> Valid(r.value) && Grows(g, r.value)
    decreases e
  {
    if e.None? then Err(UndefinedNode) else Step(g, e.value)
  }

  /** The loop of `generate()` from child `i` on. */
  function StepAll(g: Gen, children: seq<Node>, i: nat): (r: Result<Gen>)
    requires Valid(g) && i <= |children|
    ensures r.Ok? ==> Valid(r.value) && Grows(g, r.value)
    decreases |children| - i
  {
    if i == |children| then Ok(g)
    else
      var h :- Step(g, children[i]);
      StepAll(h, children, i + 1)
  }

  /** `generate()`: the module's functions once every top-level node is lowered. */
  function ModuleOf(t: Tree): (r: Result<seq<IrFunction>>)
    ensures r.Ok? <==> StepAll(Initial, t.children, 0).Ok?
    ensures r.Ok? ==> r.value == StepAll(Initial, t.children, 0).value.functions
  {
    var g :- StepAll(Initial, t.children, 0);
    Ok(g.functions)
  }

  class Generator {
    const tree: Tree
    var functions: seq<IrFunction>
    var builder: Option<BlockRef>
    var currentFunction: Option<nat>
    var arrays: seq<seq<Binding>>
    var variables: nat
    var slots: nat

    function State(): Gen
      reads this
    {
      Gen(functions, builder, currentFunction, arrays, variables, slots)
    }

    /** A statement method's outcome, as the result the specification functions return. */
    function Outcome(r: Result<()>): Result<Gen>
      reads this
    {
      if r.Ok? then Ok(State()) else Err(r.msg)
    }

    /** A value method's outcome agrees with `v`, the specification's value and
        instructions, and on success the instructions were emitted on top of `g`. */
    predicate Emitted<T(==)>(r: Result<T>, g: Gen, v: Result<(T, seq<Instr>)>)
      requires Valid(g) && g.builder.Some?
      reads this
    {
      match r
      case Ok(x) => v.Ok? && x == v.value.0 && State() == Emit(g, v.value.1)
      case Err(msg) => v == Err(msg)
    }

    constructor(tree: Tree)
      ensures this.tree == tree && State() == Initial
    {
      this.tree := tree;
      functions, builder, currentFunction := [], None, None;
      arrays, variables, slots := [[]], 0, 0;
    }

    /** The `create...` calls of `this.builder`: instructions appended at its insertion point. */
    method Append(ins: seq<Instr>)
      requires Valid(State()) && builder.Some?
      modifies this
      ensures State() == Emit(old(State()), ins)
    {
      functions := Emit(State(), ins).functions;
    }

    /** `BasicBlock.create` of each name, in order, in the current function. */
    method CreateBlocks(names: seq<string>)
      requires Valid(State()) && currentFunction.Some?
      modifies this
      ensures State() == AppendBlocks(old(State()), names)
    {
      functions := AppendBlocks(State(), names).functions;
    }

    method SetInsertionPoint(block: nat)
      requires Valid(State()) && currentFunction.Some? && block < |functions[currentFunction.value].blocks|
      modifies this
      ensures State() == MoveTo(old(State()), block)
    {
      builder := Some(BlockRef(currentFunction.value, block));
    }

    /** `this.variables.push(new Variable(...))` for the next slot. */
    method Push(name: string, ty: IrType)
      requires Valid(State())
      modifies this
      ensures State() == Bind(old(State()), name, ty)
    {
      arrays := arrays[variables := arrays[variables] + [Binding(name, slots, ty)]];
      slots := slots + 1;
    }

    /** `const currentScope = [...this.variables]`; the result names the copy. */
    method SaveScope() returns (currentScope: nat)
      requires Valid(State())
      modifies this
      ensures State() == Snapshot(old(State())) && currentScope == |arrays| - 1
    {
      arrays := arrays + [arrays[variables]];
      currentScope := |arrays| - 1;
    }

    /** `generateValue(child, this.builder)`. */
    method GenerateValue(n: Node) returns (r: Result<Value>)
      requires Valid(State()) && builder.Some?
      modifies this
      ensures Emitted(r, old(State()), ValueOf(Vars(old(State())), old(functions), n))
      decreases n, 1
    {
      if n.Expression? {
        r := GenerateBinary(n);
      } else if n.Call? {
        r := GenerateCallValue(n);
      } else if n.Variable? {
        var found := FindVariable(arrays[variables], n.name);
        if found.None? {
          return Err("Variable " + n.name + " doesn't exist.");
        }
        var v := Loaded(found.value.slot, found.value.ty, n.name);
        Append([Compute(v)]);
        r := Ok(v);
      } else {
        EmitNothing(State());
        r := ConstantOf(n);
      }
    }

    /** An `ExpressionNode`: left operand, right operand, then the operation. */
    method GenerateBinary(n: Node) returns (r: Result<Value>)
      requires Valid(State()) && builder.Some? && n.Expression?
      modifies this
      ensures Emitted(r, old(State()), BinaryOf(Vars(old(State())), old(functions), n))
      decreases n, 0
    {
      ghost var g := State();
      var lv :- GenerateValue(n.left);
      ghost var l := ValueOf(Vars(g), g.functions, n.left).value.1;
      ValueOfShape(Vars(g), g.functions, functions, n.right);
      var rv :- GenerateValue(n.right);
      ghost var rs := ValueOf(Vars(g), g.functions, n.right).value.1;
      if n.operator !in ValueOps {
        return Err("Operator " + n.operator + " doesn't exist.");
      }
      var v := Arith(n.operator, lv, rv);
      Append([Compute(v)]);
      EmitEmit(g, l, rs);
      EmitEmit(g, l + rs, [Compute(v)]);
      r := Ok(v);
    }

    /** A `CallNode` as a value: the callee, the arguments in order, then the call. */
    method GenerateCallValue(n: Node) returns (r: Result<Value>)
      requires Valid(State()) && builder.Some? && n.Call?
      modifies this
      ensures Emitted(r, old(State()), CallOf(Vars(old(State())), old(functions), n))
      decreases n, 0
    {
      ghost var g := State();
      var callee := FindFunction(functions, n.name);
      if callee.None? {
        return Err("Function " + n.name + " doesn't exist.");
      }
      var values :- GenerateArgs(n.args);
      var v := Called(n.name, functions[callee.value].returnType, values);
      Append([Compute(v)]);
      EmitEmit(g, ValuesFrom(Vars(g), g.functions, n.args, 0).value.1, [Compute(v)]);
      r := Ok(v);
    }

    /** `args.map(a => this.generateValue(a, builder))`. */
    method GenerateArgs(args: seq<Node>) returns (r: Result<seq<Value>>)
      requires Valid(State()) && builder.Some?
      modifies this
      ensures Emitted(r, old(State()), ValuesFrom(Vars(old(State())), old(functions), args, 0))
      decreases args
    {
      ghost var g := State();
      var values: seq<Value> := [];
      ghost var emitted: seq<Instr> := [];
      EmitNothing(g);
      ghost var all := ValuesFrom(Vars(g), g.functions, args, 0);
      assert all.Ok? ==> [] + all.value.0 == all.value.0 && [] + all.value.1 == all.value.1;
      var i := 0;
      while i < |args|
        invariant i <= |args|
        invariant State() == Emit(g, emitted)
        invariant ValuesFrom(Vars(g), g.functions, args, 0) == Prepend(values, emitted, ValuesFrom(Vars(g), g.functions, args, i))
      {
        ValueOfShape(Vars(g), g.functions, functions, args[i]);
        ValuesFromStep(Vars(g), g.functions, args, i, values, emitted);
        ghost var x := ValueOf(Vars(g), g.functions, args[i]);
        var v :- GenerateValue(args[i]);
        EmitEmit(g, emitted, x.value.1);
        values := values + [v];
        emitted := emitted + x.value.1;
        i := i + 1;
      }
      assert values + [] == values && emitted + [] == emitted;
      r := Ok(values);
    }

    /** `generateExpression(child)`. */
    method GenerateExpression(child: Node) returns (r: Result<()>)
      requires Valid(State())
      modifies this
      ensures Outcome(r) == Step(old(State()), child)
      decreases child, 4
    {
      if Compound(child) {
        r := GenerateCompound(child);
      } else {
        r := GenerateSimple(child);
      }
    }

    method GenerateSimple(child: Node) returns (r: Result<()>)
      requires Valid(State()) && !Compound(child)
      modifies this
      ensures Outcome(r) == StepSimple(old(State()), child)
    {
      if child.Call? {
        r := GenerateCall(child);
      } else if child.SetVariable? {
        r := GenerateSet(child);
      } else if child.DefineVariable? {
        r := GenerateDefine(child);
      } else if child.Return? {
        r := GenerateReturn(child);
      } else {
        r := Ok(());
      }
    }

    method GenerateCompound(child: Node) returns (r: Result<()>)
      requires Valid(State()) && Compound(child)
      modifies this
      ensures Outcome(r) == StepCompound(old(State()), child)
      decreases child, 3
    {
      if child.If? {
        r := GenerateIf(child);
      } else if child.While? {
        r := GenerateWhile(child);
      } else if child.For? {
        r := GenerateFor(child);
      } else {
        r := GenerateFunction(child);
      }
    }

    method GenerateCall(n: Node) returns (r: Result<()>)
      requires Valid(State()) && n.Call?
      modifies this
      ensures Outcome(r) == StepCall(old(State()), n)
    {
      if !InFunction(State()) {
        return Err("Can't call a function outside of an function.");
      }
      var _ :- GenerateCallValue(n);
      r := Ok(());
    }

    method GenerateSet(n: Node) returns (r: Result<()>)
      requires Valid(State()) && n.SetVariable?
      modifies this
      ensures Outcome(r) == StepSet(old(State()), n)
    {
      if !InFunction(State()) {
        return Err("Can't set an variable outside of a function.");
      }
      ghost var g := State();
      var value :- GenerateValue(n.value);
      var variable := FindVariable(arrays[variables], n.name);
      if variable.None? {
        return Err("Variable " + n.name + " doesn't exist.");
      }
      Append([Store(value, variable.value.slot)]);
      EmitEmit(g, ValueOf(Vars(g), g.functions, n.value).value.1, [Store(value, variable.value.slot)]);
      r := Ok(());
    }

    method GenerateDefine(n: Node) returns (r: Result<()>)
      requires Valid(State()) && n.DefineVariable?
      modifies this
      ensures Outcome(r) == StepDefine(old(State()), n)
    {
      if !InFunction(State()) {
        return Err("Can't set an variable outside of a function.");
      }
      if n.init.None? {
        var ty :- TypeByName(n.dataType);
        Append([Alloca(slots, ty, n.name)]);
        Push(n.name, ty);
        return Ok(());
      }
      ghost var g := State();
      var value :- GenerateValue(n.init.value);
      var ty: IrType;
      if n.dataType != Named("") {
        ty :- TypeByName(n.dataType);
      } else {
        ty := TypeOf(value);
      }
      var pointer := slots;
      Append([Alloca(pointer, ty, n.name)]);
      EmitEmit(g, ValueOf(Vars(g), g.functions, n.init.value).value.1, [Alloca(pointer, ty, n.name)]);
      Push(n.name, ty);
      Append([Store(value, pointer)]);
      r := Ok(());
    }

    /** The three blocks of an `if`, the conditional branch, the insertion point at
        `if_scope`, and `const currentScope = [...this.variables]`. */
    method OpenIf(condition: Value, k: nat) returns (currentScope: nat)
      requires Valid(State()) && InFunction(State()) && k == BlockCount(State())
      modifies this
      ensures State() == IfHead(old(State()), condition, k) && currentScope == |old(arrays)|
    {
      CreateBlocks(["if_scope", "if_else", "end_scope"]);
      Append([CondBr(condition, k, k + 1)]);
      SetInsertionPoint(k);
      currentScope := SaveScope();
    }

    /** `this.variables = currentScope`, a branch to `target`, and the insertion point at
        `next`. */
    method LeaveScope(currentScope: nat, target: nat, next: nat)
      requires Valid(State()) && InFunction(State()) && currentScope < |arrays| && next < BlockCount(State())
      modifies this
      ensures State() == Leave(old(State()), currentScope, target, next)
    {
      variables := currentScope;
      Append([Br(target)]);
      SetInsertionPoint(next);
    }

    method GenerateIf(n: Node) returns (r: Result<()>)
      requires Valid(State()) && n.If?
      modifies this
      ensures Outcome(r) == StepIf(old(State()), n)
      decreases n, 2
    {
      if !InFunction(State()) {
        return Err("IfNode can only be used inside a function.");
      }
      var condition :- GenerateValue(n.condition);
      var k := |functions[currentFunction.value].blocks|;
      var currentScope := OpenIf(condition, k);
      r := GenerateArms(n, k, currentScope);
    }

    method GenerateArms(n: Node, k: nat, currentScope: nat) returns (r: Result<()>)
      requires Ready(State(), k, currentScope) && n.If?
      modifies this
      ensures Outcome(r) == IfArms(old(State()), n, k, currentScope)
      decreases n, 1
    {
      var _ :- GenerateScope(n.scope);
      LeaveScope(currentScope, k + 2, k + 1);
      r := GenerateElse(n, k, currentScope);
    }

    method GenerateElse(n: Node, k: nat, currentScope: nat) returns (r: Result<()>)
      requires Ready(State(), k, currentScope) && n.If?
      modifies this
      ensures Outcome(r) == ElseArm(old(State()), n, k, currentScope)
      decreases n, 0
    {
      var _ :- GenerateScope(n.elseScope);
      LeaveScope(currentScope, k + 2, k + 2);
      r := Ok(());
    }

    /** The three blocks of a `while`, the branch into the condition block, and the
        insertion point there. */
    method OpenWhile(k: nat)
      requires Valid(State()) && InFunction(State()) && k == BlockCount(State())
      modifies this
      ensures State() == WhileHead(old(State()), k)
    {
      CreateBlocks(["while_condition", "while_scope", "end_scope"]);
      Append([Br(k)]);
      SetInsertionPoint(k);
    }

    /** A loop condition's branch, the insertion point at the body block, and
        `const currentScope = [...this.variables]`. */
    method OpenBody(condition: Value, k: nat) returns (currentScope: nat)
      requires Valid(State()) && InFunction(State()) && k + 2 < BlockCount(State())
      modifies this
      ensures State() == CondHead(old(State()), condition, k) && currentScope == |old(arrays)|
    {
      Append([CondBr(condition, k + 1, k + 2)]);
      SetInsertionPoint(k + 1);
      currentScope := SaveScope();
    }

    method GenerateWhile(n: Node) returns (r: Result<()>)
      requires Valid(State()) && n.While?
      modifies this
      ensures Outcome(r) == StepWhile(old(State()), n)
      decreases n, 2
    {
      if !InFunction(State()) {
        return Err("Cannot generate while loop outside of a function.");
      }
      var k := |functions[currentFunction.value].blocks|;
      OpenWhile(k);
      var condition :- GenerateValue(n.condition);
      var currentScope := OpenBody(condition, k);
      r := GenerateLoopBody(n.scope, k, currentScope);
    }

    method GenerateLoopBody(scope: Body, k: nat, currentScope: nat) returns (r: Result<()>)
      requires Ready(State(), k, currentScope)
      modifies this
      ensures Outcome(r) == LoopBody(old(State()), scope, k, currentScope)
      decreases scope
    {
      var _ :- GenerateScope(scope);
      LeaveScope(currentScope, k, k + 2);
      r := Ok(());
    }

    /** The induction variable's slot and binding, the store of its start value, and the
        branch into the condition block `k`, where the insertion point moves. */
    method StartFor(start: Value, name: string, k: nat)
      requires Valid(State()) && InFunction(State()) && k + 2 < BlockCount(State())
      modifies this
      ensures State() == ForStart(old(State()), start, name, k)
    {
      var pointer := slots;
      Append([Alloca(pointer, TypeOf(start), name)]);
      Push(name, TypeOf(start));
      Append([Store(start, pointer), Br(k)]);
      SetInsertionPoint(k);
    }

    method GenerateFor(n: Node) returns (r: Result<()>)
      requires Valid(State()) && n.For?
      modifies this
      ensures Outcome(r) == StepFor(old(State()), n)
      decreases n, 2
    {
      if !InFunction(State()) {
        return Err("Cannot define a for-loop outside of a function.");
      }
      var k := |functions[currentFunction.value].blocks|;
      CreateBlocks(["for_condition", "for_scope", "end_scope"]);
      var value :- GenerateValue(n.start);
      StartFor(value, n.variable, k);
      r := GenerateForLoop(n, k);
    }

    method GenerateForLoop(n: Node, k: nat) returns (r: Result<()>)
      requires Valid(State()) && n.For? && InFunction(State()) && k + 2 < BlockCount(State())
      modifies this
      ensures Outcome(r) == ForLoop(old(State()), n, k)
      decreases n, 1
    {
      var condition :- GenerateValue(n.condition);
      var currentScope := OpenBody(condition, k);
      r := GenerateForBody(n, k, currentScope);
    }

    method GenerateForBody(n: Node, k: nat, currentScope: nat) returns (r: Result<()>)
      requires Ready(State(), k, currentScope) && n.For?
      modifies this
      ensures Outcome(r) == ForBody(old(State()), n, k, currentScope)
      decreases n, 0
    {
      var _ :- GenerateScope(n.scope);
      var _ :- GenerateExpression(n.step);
      LeaveScope(currentScope, k, k + 2);
      r := Ok(());
    }

    /** A slot and a store of its argument per parameter, at the builder's insertion
        point; the result is the new variable list. */
    method AllocateParams(params: seq<Param>, pts: seq<IrType>) returns (locals: seq<Binding>)
      requires Valid(State()) && builder.Some? && |pts| == |params|
      modifies this
      ensures locals == ParamBindings(params, pts, old(slots))
      ensures State() == Emit(old(State()), ParamInstrs(locals))
    {
      ghost var g := State();
      var locals' := [];
      EmitNothing(g);
      var i := 0;
      while i < |params|
        invariant i <= |params| && |locals'| == i
        invariant forall j :: 0 <= j < i ==> locals'[j] == Binding(params[j].name, g.slots + j, pts[j])
        invariant State() == Emit(g, ParamInstrs(locals'))
      {
        var b := Binding(params[i].name, slots + i, pts[i]);
        Append([Alloca(b.slot, b.ty, b.name), Store(Argument(i, b.ty), b.slot)]);
        EmitEmit(g, ParamInstrs(locals'), [Alloca(b.slot, b.ty, b.name), Store(Argument(i, b.ty), b.slot)]);
        assert (locals' + [b])[..i] == locals';
        locals' := locals' + [b];
        i := i + 1;
      }
      locals := locals';
    }

    method OpenFunction(name: string, ret: IrType, pts: seq<IrType>)
      requires Valid(State()) && currentFunction.None?
      modifies this
      ensures State() == Opened(old(State()), name, ret, pts)
    {
      var f := |functions|;
      functions := functions + [IrFunction(name, ret, pts, false, [Block("entry", [])])];
      currentFunction := Some(f);
      if builder.None? {
        builder := Some(BlockRef(f, 0));
      }
    }

    /** The function header: the function and its entry block, the builder if there is
        none yet, the parameters, the new variable list, and the insertion point at the
        entry block. */
    method EnterFunction(name: string, ret: IrType, pts: seq<IrType>, params: seq<Param>)
      requires Valid(State()) && currentFunction.None? && |pts| == |params|
      modifies this
      ensures State() == Entered(old(State()), name, ret, pts, params)
    {
      OpenFunction(name, ret, pts);
      var locals := AllocateParams(params, pts);
      arrays := arrays + [locals];
      variables := |arrays| - 1;
      slots := slots + |locals|;
      SetInsertionPoint(0);
    }

    method GenerateFunction(n: Node) returns (r: Result<()>)
      requires Valid(State()) && n.Function?
      modifies this
      ensures Outcome(r) == StepFunction(old(State()), n)
      decreases n, 2
    {
      if currentFunction.Some? {
        return Err("Cannot define a function inside another function.");
      }
      if n.isExternal {
        var ret :- TypeByName(Named(n.returnType));
        var pts :- ParamTypes(n.params);
        if FindFunction(functions, n.name).None? {
          functions := functions + [IrFunction(n.name, ret, pts, n.isVarArg, [])];
        }
        return Ok(());
      }
      var ret :- TypeByName(Named(n.returnType));
      var pts :- ParamTypes(n.params);
      EnterFunction(n.name, ret, pts, n.params);
      r := GenerateFunctionBody(n, ret);
    }

    method GenerateFunctionBody(n: Node, ret: IrType) returns (r: Result<()>)
      requires Valid(State()) && n.Function? && InFunction(State())
      modifies this
      ensures Outcome(r) == FunctionBody(old(State()), n, ret)
      decreases n, 1
    {
      var _ :- GenerateScope(n.scope);
      if NeedsRetVoid(n.scope, ret) {
        Append([RetVoid]);
      } else if !n.scope[|n.scope| - 1].value.Return? {
        return Err("Function " + n.name + " doesn't return anything.");
      }
      currentFunction := None;
      r := Ok(());
    }

    method GenerateReturn(n: Node) returns (r: Result<()>)
      requires Valid(State()) && n.Return?
      modifies this
      ensures Outcome(r) == StepReturn(old(State()), n)
    {
      if !InFunction(State()) {
        return Err("Can't return because we're not in a function.");
      }
      if n.result.None? {
        if functions[currentFunction.value].returnType != Void {
          return Err("Function " + functions[currentFunction.value].name + " must return a value, since its not a void.");
        }
        Append([RetVoid]);
        return Ok(());
      }
      ghost var g := State();
      var value :- GenerateValue(n.result.value);
      Append([Ret(value)]);
      EmitEmit(g, ValueOf(Vars(g), g.functions, n.result.value).value.1, [Ret(value)]);
      r := Ok(());
    }

    /** `scope.forEach(p => this.generateExpression(p))`. */
    method GenerateScope(b: Body) returns (r: Result<()>)
      requires Valid(State())
      modifies this
      ensures Outcome(r) == StepBody(old(State()), b, 0)
      decreases b, 0
    {
      var i := 0;
      while i < |b|
        invariant i <= |b| && Valid(State())
        invariant StepBody(old(State()), b, 0) == StepBody(State(), b, i)
      {
        var _ :- GenerateEntry(b[i]);
        i := i + 1;
      }
      r := Ok(());
    }

    /** One entry of a body; reading the tag of `undefined` is fatal. */
    method GenerateEntry(e: Option<Node>) returns (r: Result<()>)
      requires Valid(State())
      modifies this
      ensures Outcome(r) == StepEntry(old(State()), e)
      decreases e
    {
      if e.None? {
        return Err(UndefinedNode);
      }
      r := GenerateExpression(e.value);
    }

    /** `generate()` on a new generator: every top-level node in order. */
    method Generate() returns (r: Result<seq<IrFunction>>)
      requires State() == Initial
      modifies this
      ensures r == ModuleOf(tree)
    {
      var i := 0;
      while i < |tree.children|
        invariant i <= |tree.children| && Valid(State())
        invariant StepAll(Initial, tree.children, 0) == StepAll(State(), tree.children, i)
      {
        var _ :- GenerateExpression(tree.children[i]);
        i := i + 1;
      }
      r := Ok(functions);
    }
  }
}
