/** Properties of the lowering in `source/generator/generator.ts`, stated on the
    specification functions of `IrGenerator` (and so, through their `ensures`, on the
    `Generator` class). */
module IrGeneratorProperties {
  import opened Results
  import opened Text
  import opened Ast
  import opened Ir
  import opened IrGenerator

  /** Statements that need a function fail outside of one. */
  lemma StatementsNeedAFunction(g: Gen, n: Node)
    requires Valid(g) && g.current.None?
    requires n.Call? || n.SetVariable? || n.DefineVariable? || n.If? || n.While? || n.For? || n.Return?
    ensures Step(g, n).Err?
  {
    if Compound(n) {
      assert Step(g, n) == StepCompound(g, n);
    } else {
      assert Step(g, n) == StepSimple(g, n);
    }
  }

  /** A function definition inside a function is fatal. */
  lemma NoNestedFunctions(g: Gen, n: Node)
    requires Valid(g) && g.current.Some? && n.Function?
    ensures Step(g, n) == Err("Cannot define a function inside another function.")
  {
    assert Step(g, n) == StepCompound(g, n) == StepFunction(g, n);
  }

  /** Appending a binding does not change what an already bound name resolves to. */
  lemma {:induction false} FirstBindingWins(vs: seq<Binding>, b: Binding, name: string)
    requires FindVariable(vs, name).Some?
    ensures FindVariable(vs + [b], name) == FindVariable(vs, name)
  {
    if vs[0].name != name {
      assert (vs + [b])[1..] == vs[1..] + [b];
      FirstBindingWins(vs[1..], b, name);
    }
  }

  /** A name bound for the first time resolves to its new binding. */
  lemma {:induction false} NewBindingFound(vs: seq<Binding>, b: Binding)
    requires FindVariable(vs, b.name).None?
    ensures FindVariable(vs + [b], b.name) == Some(b)
  {
    if |vs| > 0 {
      assert (vs + [b])[1..] == vs[1..] + [b];
      NewBindingFound(vs[1..], b);
    }
  }

  /** Defining a name that is already bound adds a slot, but reads and assignments of the
      name keep using the earliest slot. */
  lemma RedeclaredNameKeepsFirstSlot(g: Gen, n: Node)
    requires Valid(g) && n.DefineVariable? && StepDefine(g, n).Ok?
    requires FindVariable(Vars(g), n.name).Some?
    ensures FindVariable(Vars(StepDefine(g, n).value), n.name) == FindVariable(Vars(g), n.name)
    ensures StepDefine(g, n).value.slots == g.slots + 1
  {
    var h := StepDefine(g, n).value;
    var ty := if n.init.None? || n.dataType != Named("") then TypeByName(n.dataType).value
              else TypeOf(ValueOf(Vars(g), g.functions, n.init.value).value.0);
    assert Vars(h) == Vars(g) + [Binding(n.name, g.slots, ty)];
    FirstBindingWins(Vars(g), Binding(n.name, g.slots, ty), n.name);
  }

  /** A first definition makes the name resolve to the fresh slot. */
  lemma DefinitionBindsFreshSlot(g: Gen, n: Node)
    requires Valid(g) && n.DefineVariable? && StepDefine(g, n).Ok?
    requires FindVariable(Vars(g), n.name).None?
    ensures FindVariable(Vars(StepDefine(g, n).value), n.name).Some?
    ensures FindVariable(Vars(StepDefine(g, n).value), n.name).value.slot == g.slots
  {
    var h := StepDefine(g, n).value;
    var ty := if n.init.None? || n.dataType != Named("") then TypeByName(n.dataType).value
              else TypeOf(ValueOf(Vars(g), g.functions, n.init.value).value.0);
    assert Vars(h) == Vars(g) + [Binding(n.name, g.slots, ty)];
    NewBindingFound(Vars(g), Binding(n.name, g.slots, ty));
  }

  /** The declared-type guard tests the node's tag, never its data type, so a definition
      with neither a type nor a value reaches the unknown-type error. */
  lemma UntypedDefinitionFails(g: Gen, name: string)
    requires Valid(g) && InFunction(g)
    ensures StepDefine(g, DefineVariable(name, Named(""), None)) == Err("Unknown Type. ()")
  {
  }

  /** Operands are lowered left first: the left operand's error wins, then the right one's,
      and the operator is checked only after both. */
  lemma OperandsLeftThenRight(vs: seq<Binding>, fns: seq<IrFunction>, l: Node, r: Node, op: string)
    ensures ValueOf(vs, fns, l).Err? ==> ValueOf(vs, fns, Expression(l, r, op)) == Err(ValueOf(vs, fns, l).msg)
    ensures ValueOf(vs, fns, l).Ok? && ValueOf(vs, fns, r).Err? ==>
              ValueOf(vs, fns, Expression(l, r, op)) == Err(ValueOf(vs, fns, r).msg)
    ensures ValueOf(vs, fns, l).Ok? && ValueOf(vs, fns, r).Ok? ==>
              (ValueOf(vs, fns, Expression(l, r, op)).Ok? <==> op in ValueOps)
    ensures ValueOf(vs, fns, Expression(l, r, op)).Ok? ==>
              var a, b := ValueOf(vs, fns, l).value, ValueOf(vs, fns, r).value;
              ValueOf(vs, fns, Expression(l, r, op)).value.1 == a.1 + b.1 + [Compute(Arith(op, a.0, b.0))]
  {
    assert ValueOf(vs, fns, Expression(l, r, op)) == BinaryOf(vs, fns, Expression(l, r, op));
  }

  /** A read of a name that is not bound is fatal. */
  lemma UnknownVariableFails(vs: seq<Binding>, fns: seq<IrFunction>, name: string)
    requires forall i :: 0 <= i < |vs| ==> vs[i].name != name
    ensures ValueOf(vs, fns, Variable(name)) == Err("Variable " + name + " doesn't exist.")
  {
  }

  /** The generator is in function `f` with its insertion point in a block of `f`. */
  predicate AtBlockOf(g: Gen, f: nat)
  {
    Valid(g) && g.current == Some(f) && g.builder.Some? && g.builder.value.fn == f
  }

  /** The blocks of the current function. */
  function Blocks(g: Gen): seq<Block>
    requires Valid(g) && g.current.Some?
  {
    g.functions[g.current.value].blocks
  }

  /** The start of an `if`: `if_scope`, `if_else` and `end_scope` are appended, the block the
      condition was lowered into ends with a branch to the first two, and the then-arm starts
      in `if_scope`. */
  lemma IfOpensThreeBlocks(g: Gen, cond: Value, f: nat)
    requires AtBlockOf(g, f)
    ensures var k := BlockCount(g); var h := IfHead(g, cond, k); var here := g.builder.value.block;
      && |Blocks(h)| == k + 3
      && Blocks(h)[k] == Block("if_scope", []) && Blocks(h)[k + 1] == Block("if_else", [])
      && Blocks(h)[k + 2] == Block("end_scope", [])
      && Blocks(h)[here].instrs == Blocks(g)[here].instrs + [CondBr(cond, k, k + 1)]
      && h.builder == Some(BlockRef(f, k))
      && h.vars == g.vars && h.arrays == g.arrays + [Vars(g)]
  {
    var k := BlockCount(g);
    var g1 := AppendBlocks(g, ["if_scope", "if_else", "end_scope"]);
    assert Blocks(g1) == Blocks(g) + [Block("if_scope", []), Block("if_else", []), Block("end_scope", [])];
  }

  /** The start of a `while`: three blocks are appended, the current block branches into
      `while_condition`, and the condition is lowered there. */
  lemma WhileOpensThreeBlocks(g: Gen, f: nat)
    requires AtBlockOf(g, f)
    ensures var k := BlockCount(g); var h := WhileHead(g, k); var here := g.builder.value.block;
      && |Blocks(h)| == k + 3
      && Blocks(h)[k] == Block("while_condition", []) && Blocks(h)[k + 1] == Block("while_scope", [])
      && Blocks(h)[k + 2] == Block("end_scope", [])
      && Blocks(h)[here].instrs == Blocks(g)[here].instrs + [Br(k)]
      && h.builder == Some(BlockRef(f, k))
      && Vars(h) == Vars(g)
  {
    var k := BlockCount(g);
    var g1 := AppendBlocks(g, ["while_condition", "while_scope", "end_scope"]);
    assert Blocks(g1) == Blocks(g) + [Block("while_condition", []), Block("while_scope", []), Block("end_scope", [])];
  }

  /** A loop condition branches to the body block `k + 1` or to the end block `k + 2`, and the
      body starts in block `k + 1` with the scope saved. */
  lemma LoopConditionBranches(g: Gen, cond: Value, k: nat, f: nat)
    requires AtBlockOf(g, f) && k + 2 < BlockCount(g)
    ensures var h := CondHead(g, cond, k); var here := g.builder.value.block;
      && Blocks(h)[here].instrs == Blocks(g)[here].instrs + [CondBr(cond, k + 1, k + 2)]
      && h.builder == Some(BlockRef(f, k + 1))
      && h.arrays == g.arrays + [Vars(g)] && Vars(h) == Vars(g)
  {
  }

  /** Every arm and loop body ends by restoring the saved scope, branching to `target`, and
      moving the insertion point to `next`. */
  lemma LeaveBranchesAndRestores(g: Gen, snap: nat, target: nat, next: nat, f: nat)
    requires AtBlockOf(g, f) && snap < |g.arrays| && next < BlockCount(g)
    ensures var h := Leave(g, snap, target, next); var here := g.builder.value.block;
      && Blocks(h)[here].instrs == Blocks(g)[here].instrs + [Br(target)]
      && h.builder == Some(BlockRef(f, next))
      && Vars(h) == g.arrays[snap]
  {
  }

  /** The arms of an `if` end with the insertion point at its `end_scope` block `k + 2`. */
  lemma ArmsEndAtEndScope(g: Gen, n: Node, k: nat, snap: nat)
    requires Ready(g, k, snap) && n.If? && IfArms(g, n, k, snap).Ok?
    ensures IfArms(g, n, k, snap).value.builder == Some(BlockRef(g.current.value, k + 2))
  {
    var g3 := StepBody(g, n.scope, 0).value;
    var g4 := Leave(g3, snap, k + 2, k + 1);
    var g5 := StepBody(g4, n.elseScope, 0).value;
    assert IfArms(g, n, k, snap) == ElseArm(g4, n, k, snap) == Ok(Leave(g5, snap, k + 2, k + 2));
  }

  /** After an `if`, the insertion point is its `end_scope` block. */
  lemma IfEndsAtEndScope(g: Gen, n: Node)
    requires Valid(g) && InFunction(g) && n.If? && StepIf(g, n).Ok?
    ensures StepIf(g, n).value.builder == Some(BlockRef(g.current.value, BlockCount(g) + 2))
  {
    var k := BlockCount(g);
    var c := ValueOf(Vars(g), g.functions, n.condition).value;
    var g2 := IfHead(Emit(g, c.1), c.0, k);
    assert StepIf(g, n) == IfArms(g2, n, k, |g.arrays|);
    ArmsEndAtEndScope(g2, n, k, |g.arrays|);
  }

  /** After a `while`, the insertion point is its `end_scope` block. */
  lemma WhileEndsAtEndScope(g: Gen, n: Node)
    requires Valid(g) && InFunction(g) && n.While? && StepWhile(g, n).Ok?
    ensures StepWhile(g, n).value.builder == Some(BlockRef(g.current.value, BlockCount(g) + 2))
  {
    var k := BlockCount(g);
    var g2 := WhileHead(g, k);
    var c := ValueOf(Vars(g2), g2.functions, n.condition).value;
    var g3 := CondHead(Emit(g2, c.1), c.0, k);
    var g4 := StepBody(g3, n.scope, 0).value;
    assert StepWhile(g, n).value == Leave(g4, |g2.arrays|, k, k + 2);
  }

  /** A `for` loop from its condition block `k` ends with the insertion point at its
      `end_scope` block `k + 2`. */
  lemma LoopEndsAtEndScope(g: Gen, n: Node, k: nat)
    requires Valid(g) && n.For? && InFunction(g) && k + 2 < BlockCount(g) && ForLoop(g, n, k).Ok?
    ensures ForLoop(g, n, k).value.builder == Some(BlockRef(g.current.value, k + 2))
  {
    var c := ValueOf(Vars(g), g.functions, n.condition).value;
    var g3 := CondHead(Emit(g, c.1), c.0, k);
    var g4 := StepBody(g3, n.scope, 0).value;
    var g5 := Step(g4, n.step).value;
    assert ForLoop(g, n, k) == ForBody(g3, n, k, |g.arrays|) == Ok(Leave(g5, |g.arrays|, k, k + 2));
  }

  /** After a `for`, the insertion point is its `end_scope` block. */
  lemma ForEndsAtEndScope(g: Gen, n: Node)
    requires Valid(g) && InFunction(g) && n.For? && StepFor(g, n).Ok?
    ensures StepFor(g, n).value.builder == Some(BlockRef(g.current.value, BlockCount(g) + 2))
  {
    var k := BlockCount(g);
    var g1 := AppendBlocks(g, ["for_condition", "for_scope", "end_scope"]);
    var s := ValueOf(Vars(g1), g1.functions, n.start).value;
    var g2 := ForStart(Emit(g1, s.1), s.0, n.variable, k);
    assert StepFor(g, n) == ForLoop(g2, n, k);
    LoopEndsAtEndScope(g2, n, k);
  }

  /** A definition `x: int` inside a function: a slot, and a binding appended to the array
      `this.variables` currently is; no other array changes. */
  lemma DefineIntStep(g: Gen, x: string)
    requires Valid(g) && InFunction(g)
    ensures var h := Bind(Emit(g, [Alloca(g.slots, I32, x)]), x, I32);
      && Step(g, DefineVariable(x, Named("int"), None)) == Ok(h)
      && h.vars == g.vars && h.slots == g.slots + 1
      && h.arrays == g.arrays[g.vars := g.arrays[g.vars] + [Binding(x, g.slots, I32)]]
  {
    var d := DefineVariable(x, Named("int"), None);
    assert TypeByName(Named("int")) == Ok(I32);
    assert Step(g, d) == StepSimple(g, d) == StepDefine(g, d);
  }

  /** Going from `g` to `h`, the variable arrays of `g` other than `w1` and `w2` stayed as they
      were, those two only grew at their end, and new arrays may have been added after them. */
  predicate Touches(g: Gen, h: Gen, w1: nat, w2: nat)
  {
    && w1 < |g.arrays| && w2 < |g.arrays| && |g.arrays| <= |h.arrays|
    && (forall j :: 0 <= j < |g.arrays| && j != w1 && j != w2 ==> h.arrays[j] == g.arrays[j])
    && g.arrays[w1] <= h.arrays[w1] && g.arrays[w2] <= h.arrays[w2]
  }

  /** Lowering from `g` to `h` only appended to the array `this.variables` refers to, and
      afterwards the field refers to that array or to one created meanwhile. */
  predicate Keeps(g: Gen, h: Gen)
  {
    Touches(g, h, g.vars, g.vars) && (h.vars == g.vars || |g.arrays| <= h.vars)
  }

  lemma KeepsTrans(a: Gen, b: Gen, c: Gen)
    requires Keeps(a, b) && Keeps(b, c)
    ensures Keeps(a, c)
  {
    forall j | 0 <= j < |a.arrays| && j != a.vars
      ensures c.arrays[j] == a.arrays[j]
    {
      assert j != b.vars;
    }
    if b.vars != a.vars {
      assert c.arrays[a.vars] == b.arrays[a.vars];
    }
  }

  /** Restoring a scope created after `g` keeps the frame. */
  lemma LeaveKeeps(g: Gen, h: Gen, snap: nat, target: nat, next: nat)
    requires Keeps(g, h) && Valid(h) && InFunction(h) && |g.arrays| <= snap < |h.arrays| && next < BlockCount(h)
    ensures Keeps(g, Leave(h, snap, target, next))
  {
  }

  /** The frame of every statement: whatever a statement lowers, the variable arrays that
      `this.variables` did not refer to when it started are untouched, however deeply its
      `if`, `while` and `for` bodies nest, because each saved scope is a new array. */
  lemma {:induction false} StepKeeps(g: Gen, n: Node)
    requires Valid(g) && Step(g, n).Ok?
    ensures Keeps(g, Step(g, n).value)
    decreases n, 2
  {
    if n.If? {
      assert Step(g, n) == StepCompound(g, n) == StepIf(g, n);
      IfKeeps(g, n);
    } else if n.While? {
      assert Step(g, n) == StepCompound(g, n) == StepWhile(g, n);
      WhileKeeps(g, n);
    } else if n.For? {
      assert Step(g, n) == StepCompound(g, n) == StepFor(g, n);
      ForKeeps(g, n);
    } else if n.Function? {
      assert Step(g, n) == StepCompound(g, n) == StepFunction(g, n);
      FunctionKeeps(g, n);
    } else {
      assert Step(g, n) == StepSimple(g, n);
      SimpleKeeps(g, n);
    }
  }

  lemma SimpleKeeps(g: Gen, n: Node)
    requires Valid(g) && !Compound(n) && StepSimple(g, n).Ok?
    ensures Keeps(g, StepSimple(g, n).value)
  {
    if n.DefineVariable? {
      var ty := if n.init.None? then TypeByName(n.dataType).value
                else var v := ValueOf(Vars(g), g.functions, n.init.value).value;
                     if n.dataType != Named("") then TypeByName(n.dataType).value else TypeOf(v.0);
      var ins := if n.init.None? then [Alloca(g.slots, ty, n.name)]
                 else ValueOf(Vars(g), g.functions, n.init.value).value.1 + [Alloca(g.slots, ty, n.name)];
      var h := Bind(Emit(g, ins), n.name, ty);
      assert h.arrays == g.arrays[g.vars := g.arrays[g.vars] + [Binding(n.name, g.slots, ty)]];
      assert StepSimple(g, n) == StepDefine(g, n);
      assert StepDefine(g, n).value.arrays == h.arrays;
    }
  }

  lemma {:induction false} StepBodyKeeps(g: Gen, b: Body, i: nat)
    requires Valid(g) && i <= |b| && StepBody(g, b, i).Ok?
    ensures Keeps(g, StepBody(g, b, i).value)
    decreases b, |b| - i
  {
    if i < |b| {
      var h := StepEntry(g, b[i]).value;
      StepEntryKeeps(g, b[i]);
      StepBodyKeeps(h, b, i + 1);
      KeepsTrans(g, h, StepBody(g, b, i).value);
    }
  }

  lemma {:induction false} StepEntryKeeps(g: Gen, e: Option<Node>)
    requires Valid(g) && StepEntry(g, e).Ok?
    ensures Keeps(g, StepEntry(g, e).value)
    decreases e
  {
    StepKeeps(g, e.value);
  }

  lemma {:induction false} IfKeeps(g: Gen, n: Node)
    requires Valid(g) && n.If? && StepIf(g, n).Ok?
    ensures Keeps(g, StepIf(g, n).value)
    decreases n, 1
  {
    var c := ValueOf(Vars(g), g.functions, n.condition).value;
    var k := BlockCount(g);
    var snap := |g.arrays|;
    var g1 := IfHead(Emit(g, c.1), c.0, k);
    assert g1.arrays == g.arrays + [Vars(g)] && g1.vars == g.vars;
    assert StepIf(g, n) == IfArms(g1, n, k, snap);
    var g3 := StepBody(g1, n.scope, 0).value;
    StepBodyKeeps(g1, n.scope, 0);
    KeepsTrans(g, g1, g3);
    var g4 := Leave(g3, snap, k + 2, k + 1);
    assert IfArms(g1, n, k, snap) == ElseArm(g4, n, k, snap);
    var g5 := StepBody(g4, n.elseScope, 0).value;
    StepBodyKeeps(g4, n.elseScope, 0);
    KeepsTrans(g, g4, g5);
    LeaveKeeps(g, g5, snap, k + 2, k + 2);
  }

  lemma {:induction false} WhileKeeps(g: Gen, n: Node)
    requires Valid(g) && n.While? && StepWhile(g, n).Ok?
    ensures Keeps(g, StepWhile(g, n).value)
    decreases n, 1
  {
    var k := BlockCount(g);
    var g2 := WhileHead(g, k);
    var c := ValueOf(Vars(g2), g2.functions, n.condition).value;
    var g3 := CondHead(Emit(g2, c.1), c.0, k);
    assert g3.arrays == g.arrays + [Vars(g)] && g3.vars == g.vars;
    var g4 := StepBody(g3, n.scope, 0).value;
    StepBodyKeeps(g3, n.scope, 0);
    KeepsTrans(g, g3, g4);
    LeaveKeeps(g, g4, |g.arrays|, k, k + 2);
    assert StepWhile(g, n) == LoopBody(g3, n.scope, k, |g.arrays|);
  }

  lemma {:induction false} ForKeeps(g: Gen, n: Node)
    requires Valid(g) && n.For? && StepFor(g, n).Ok?
    ensures Keeps(g, StepFor(g, n).value)
    decreases n, 1
  {
    var k := BlockCount(g);
    var g1 := AppendBlocks(g, ["for_condition", "for_scope", "end_scope"]);
    var s := ValueOf(Vars(g1), g1.functions, n.start).value;
    var g2 := ForStart(Emit(g1, s.1), s.0, n.variable, k);
    assert g2.vars == g.vars && g2.arrays == g.arrays[g.vars := Vars(g) + [Binding(n.variable, g.slots, TypeOf(s.0))]];
    var c := ValueOf(Vars(g2), g2.functions, n.condition).value;
    var g3 := CondHead(Emit(g2, c.1), c.0, k);
    assert g3.arrays == g2.arrays + [Vars(g2)] && g3.vars == g.vars;
    assert StepFor(g, n) == ForLoop(g2, n, k) == ForBody(g3, n, k, |g.arrays|);
    var g4 := StepBody(g3, n.scope, 0).value;
    StepBodyKeeps(g3, n.scope, 0);
    KeepsTrans(g, g3, g4);
    var g5 := Step(g4, n.step).value;
    StepKeeps(g4, n.step);
    KeepsTrans(g, g4, g5);
    LeaveKeeps(g, g5, |g.arrays|, k, k + 2);
  }

  lemma {:induction false} FunctionKeeps(g: Gen, n: Node)
    requires Valid(g) && n.Function? && StepFunction(g, n).Ok?
    ensures Keeps(g, StepFunction(g, n).value)
    decreases n, 1
  {
    if !n.isExternal {
      var ret := TypeByName(Named(n.returnType)).value;
      var pts := ParamTypes(n.params).value;
      var e := Entered(g, n.name, ret, pts, n.params);
      assert StepFunction(g, n) == FunctionBody(e, n, ret);
      EnteredKeeps(g, n.name, ret, pts, n.params);
      FunctionBodyKeeps(e, n, ret);
      KeepsTrans(g, e, FunctionBody(e, n, ret).value);
    }
  }

  /** The parameters of a function go into a new array. */
  lemma EnteredKeeps(g: Gen, name: string, ret: IrType, pts: seq<IrType>, params: seq<Param>)
    requires Valid(g) && g.current.None? && |pts| == |params|
    ensures Keeps(g, Entered(g, name, ret, pts, params))
  {
    var e := Entered(g, name, ret, pts, params);
    assert e.arrays == g.arrays + [Vars(e)] && e.vars == |g.arrays|;
  }

  lemma {:induction false} FunctionBodyKeeps(g: Gen, n: Node, ret: IrType)
    requires Valid(g) && n.Function? && InFunction(g) && FunctionBody(g, n, ret).Ok?
    ensures Keeps(g, FunctionBody(g, n, ret).value)
    decreases n, 0
  {
    var g4 := StepBody(g, n.scope, 0).value;
    StepBodyKeeps(g, n.scope, 0);
    assert FunctionBody(g, n, ret).value.arrays == g4.arrays && FunctionBody(g, n, ret).value.vars == g4.vars;
  }

  /** The then-arm of an `if` writes into the array `this.variables` is, not into the saved
      copy `snap`, and ends by making the copy current: with no else-arm, nothing the then-arm
      binds is visible after the `if`, whatever the then-arm holds. */
  lemma ThenArmDefinitionDiscarded(g: Gen, n: Node, k: nat, snap: nat)
    requires Ready(g, k, snap) && g.vars != snap && n.If? && n.elseScope == []
    requires IfArms(g, n, k, snap).Ok?
    ensures Vars(IfArms(g, n, k, snap).value) == g.arrays[snap]
  {
    var g3 := StepBody(g, n.scope, 0).value;
    StepBodyKeeps(g, n.scope, 0);
    var g4 := Leave(g3, snap, k + 2, k + 1);
    assert StepBody(g4, [], 0) == Ok(g4);
    assert IfArms(g, n, k, snap) == ElseArm(g4, n, k, snap) == Ok(Leave(g4, snap, k + 2, k + 2));
  }

  /** After the then-arm the saved copy `snap` itself is current, so a definition at the head
      of the else-arm is appended to it and is still bound after the `if`, right after the
      bindings saved before the `if`, whatever the then-arm bound and whatever follows the
      definition. */
  lemma ElseArmDefinitionSurvives(g: Gen, n: Node, x: string, k: nat, snap: nat)
    requires Ready(g, k, snap) && g.vars != snap && n.If?
    requires |n.elseScope| > 0 && n.elseScope[0] == Some(DefineVariable(x, Named("int"), None))
    requires IfArms(g, n, k, snap).Ok?
    ensures g.arrays[snap] + [Binding(x, StepBody(g, n.scope, 0).value.slots, I32)]
            <= Vars(IfArms(g, n, k, snap).value)
  {
    var g3 := StepBody(g, n.scope, 0).value;
    StepBodyKeeps(g, n.scope, 0);
    var g4 := Leave(g3, snap, k + 2, k + 1);
    DefineIntStep(g4, x);
    var h := Bind(Emit(g4, [Alloca(g4.slots, I32, x)]), x, I32);
    assert StepBody(g4, n.elseScope, 0) == StepBody(h, n.elseScope, 1);
    var g5 := StepBody(h, n.elseScope, 1).value;
    StepBodyKeeps(h, n.elseScope, 1);
    assert IfArms(g, n, k, snap) == ElseArm(g4, n, k, snap) == Ok(Leave(g5, snap, k + 2, k + 2));
  }

  /** A `for` body and step write into the array `this.variables` is, and the loop ends by
      making the saved copy current: nothing bound inside the loop is visible after it.
      Together with `ForStart`, which binds the induction variable before the copy is
      taken, the induction variable outlives the loop. */
  lemma ForBodyDefinitionDiscarded(g: Gen, n: Node, k: nat, snap: nat)
    requires Ready(g, k, snap) && g.vars != snap && n.For? && ForBody(g, n, k, snap).Ok?
    ensures Vars(ForBody(g, n, k, snap).value) == g.arrays[snap]
  {
    var g4 := StepBody(g, n.scope, 0).value;
    StepBodyKeeps(g, n.scope, 0);
    var g5 := Step(g4, n.step).value;
    StepKeeps(g4, n.step);
    KeepsTrans(g, g4, g5);
  }

  /** The end of a function body: `ret void` is appended exactly when `NeedsRetVoid` holds;
      otherwise the body must end in a `return`, or the definition is fatal. Either way the
      generator leaves the function. */
  lemma FunctionEndRules(g: Gen, n: Node, ret: IrType)
    requires Valid(g) && n.Function? && InFunction(g) && StepBody(g, n.scope, 0).Ok?
    ensures var h := StepBody(g, n.scope, 0).value;
      && (NeedsRetVoid(n.scope, ret) ==> FunctionBody(g, n, ret) == Ok(Emit(h, [RetVoid]).(current := None)))
      && (!NeedsRetVoid(n.scope, ret) && n.scope[|n.scope| - 1].value.Return? ==> FunctionBody(g, n, ret) == Ok(h.(current := None)))
      && (!NeedsRetVoid(n.scope, ret) && !n.scope[|n.scope| - 1].value.Return? ==>
            FunctionBody(g, n, ret) == Err("Function " + n.name + " doesn't return anything."))
  {
  }

  /** A `return` without a value is fatal in a function that does not return void. */
  lemma BareReturnNeedsVoid(g: Gen)
    requires Valid(g) && InFunction(g)
    ensures StepReturn(g, Return(None)).Ok? <==> g.functions[g.current.value].returnType == Void
  {
  }

  /** An external function is declared only once: a second declaration of the same name
      changes nothing. */
  lemma ExternalDeclaredOnce(g: Gen, n: Node)
    requires Valid(g) && g.current.None? && n.Function? && n.isExternal
    requires FindFunction(g.functions, n.name).Some? && StepFunction(g, n).Ok?
    ensures StepFunction(g, n) == Ok(g)
  {
  }

  /** The type-name table of `generateTypeByName`. */
  lemma TypeNameTable(name: string)
    ensures TypeByName(Named(name)).Ok? <==> name in TypeNames
    ensures TypeByName(Named("float")) == Ok(Float) && TypeByName(Named("double")) == Ok(Double)
  {
  }
}
