/** The tree-walking interpreter of the interpreted dialect, `src/interpreter/interpreter.js`,
    on its integer, boolean and string subset.

    A scope maps variable names to binding objects `{value, kind}` and function names to
    callables. Merging scopes copies the references to the binding objects, not the objects,
    so an assignment in a nested scope changes the binding the enclosing scope sees. The
    model keeps the binding objects in a store (`seq<Binding>`) and lets a scope map a name
    to the index of its binding: two scopes holding the same index share the binding.

    The functions `Eval`, `ExecItem`, `ExecBody` and `InterpretOf` say what evaluating and
    running yield; the class `Interpreter` holds the current scope, the store and the
    `console.log` output, and its methods are proved to agree with them. A thrown error
    ends the program and is an `Err` carrying its message. */
module ScriptInterpreter {
  import opened Results
  import opened Text
  import opened Tokens
  import opened ScriptParser

  /** The values of the modelled subset; `UndefinedValue` is JavaScript's `undefined`. */
  datatype Value = UndefinedValue | IntValue(i: int) | BoolValue(b: bool) | StringValue(s: string)

  /** A binding object `{value, kind}`; `kind` is the declaring keyword. */
  datatype Binding = Binding(value: Value, kind: string)

  /** A function of a scope: the built-in `println`, or a declared function. */
  datatype Callable = Println | UserFunction(params: seq<ScriptNode>, body: seq<ScriptNode>)

  /** A scope: variable names to store indices, function names to callables. */
  datatype Scope = Scope(variables: map<string, nat>, functions: map<string, Callable>)

  /** The current scope, the binding objects, and what `console.log` printed so far. */
  datatype State = State(scope: Scope, store: seq<Binding>, output: seq<Value>)

  /** The error standing for a JavaScript behaviour outside the modelled subset: loose
      coercion between types, division, `NaN`. */
  const Unmodelled := "outside the integer, boolean and string subset"

  /** The error of a call chain deeper than the call depth the run is given. */
  const StackExhausted := "RangeError: Maximum call stack size exceeded"

  /** A unary node has no `value` field, so its operator reads as `undefined`. */
  const UnknownUnary := "Unknown unary operator: undefined"

  const NotAnExpression := "Something went wrong you dumbass lamo"

  function NotDefined(id: string): string
  {
    "Variable '" + id + "' is not defined."
  }

  function NotDeclared(id: string): string
  {
    "Variable '" + id + "' is not defined. (This is an interpretation error)"
  }

  function ConstantReassigned(id: string): string
  {
    "Cannot reassign constant variable '" + id + "'."
  }

  function UnknownFunction(callee: string): string
  {
    "Function '" + callee + "' is not defined. (This is an interpretation error)"
  }

  function ArityMismatch(callee: string, required: nat, provided: nat): string
  {
    "Function '" + callee + "' takes " + NatToString(required) + " arguements. You provided "
    + NatToString(provided) + ". (This is an interpretation error)"
  }

  /** JavaScript truthiness. */
  predicate Truthy(v: Value)
  {
    match v
    case UndefinedValue => false
    case IntValue(i) => i != 0
    case BoolValue(b) => b
    case StringValue(s) => s != ""
  }

  predicate SameType(l: Value, r: Value)
  {
    l.UndefinedValue? == r.UndefinedValue? && l.IntValue? == r.IntValue?
    && l.BoolValue? == r.BoolValue? && l.StringValue? == r.StringValue?
  }

  /** `left == right`: `undefined` equals only `undefined`; values of one type compare by
      value; comparing different types coerces, which is outside the subset. */
  function LooseEquals(l: Value, r: Value): (e: Result<bool>)
    ensures e.Ok? <==> SameType(l, r) || l.UndefinedValue? || r.UndefinedValue?
    ensures e.Ok? ==> (e.value <==> l == r)
  {
    if l.UndefinedValue? || r.UndefinedValue? || SameType(l, r) then Ok(l == r)
    else Err(Unmodelled)
  }

  /** The `switch` of `parseBinaryOperator` on the operand values; an operator it does not
      list yields `undefined`. */
  function Apply(op: string, l: Value, r: Value): (v: Result<Value>)
    ensures op == "||" ==> v == Ok(if Truthy(l) then l else r)
    ensures op == "&&" ==> v == Ok(if Truthy(l) then r else l)
    ensures l.IntValue? && r.IntValue? && op in {"+", "-", "*"} ==> v.Ok? && v.value.IntValue?
    ensures l.IntValue? && r.IntValue? && op in {"<", ">", "<=", ">=", "==", "!="} ==> v.Ok? && v.value.BoolValue?
    ensures op !in {"+", "-", "*", "/", "==", "!=", "||", "&&", "<", ">", ">=", "<="} ==> v == Ok(UndefinedValue)
    ensures op == "/" ==> v == Err(Unmodelled)
  {
    if op == "||" then Ok(if Truthy(l) then l else r)
    else if op == "&&" then Ok(if Truthy(l) then r else l)
    else if op == "==" then
      var e :- LooseEquals(l, r);
      Ok(BoolValue(e))
    else if op == "!=" then
      var e :- LooseEquals(l, r);
      Ok(BoolValue(!e))
    else if op !in {"+", "-", "*", "/", "<", ">", ">=", "<="} then Ok(UndefinedValue)
    else if l.IntValue? && r.IntValue? then
      if op == "+" then Ok(IntValue(l.i + r.i))
      else if op == "-" then Ok(IntValue(l.i - r.i))
      else if op == "*" then Ok(IntValue(l.i * r.i))
      else if op == "<" then Ok(BoolValue(l.i < r.i))
      else if op == ">" then Ok(BoolValue(l.i > r.i))
      else if op == ">=" then Ok(BoolValue(l.i >= r.i))
      else if op == "<=" then Ok(BoolValue(l.i <= r.i))
      else Err(Unmodelled)
    else if l.StringValue? && r.StringValue? && op == "+" then Ok(StringValue(l.s + r.s))
    else Err(Unmodelled)
  }

  /** Every variable of `vars` names a binding of `store`. */
  predicate Bound(vars: map<string, nat>, store: seq<Binding>)
  {
    forall x :: x in vars ==> vars[x] < |store|
  }

  predicate WellFormed(st: State)
  {
    Bound(st.scope.variables, st.store)
  }

  /** `parseExpression(item)`. */
  function Eval(e: ScriptNode, vars: map<string, nat>, store: seq<Binding>): (r: Result<Value>)
    requires Bound(vars, store)
    ensures e.UnaryOperator? ==> r == Err(UnknownUnary)
    ensures e.VariableReference? ==> (r.Ok? <==> e.id in vars)
    ensures e.VariableReference? && e.id in vars ==> r.value == store[vars[e.id]].value
    decreases e, 1
  {
    match e
    case Undefined => Ok(UndefinedValue)
    case BinaryOperator(_, _, _) => EvalBinary(e, vars, store)
    case StringLiteral(raw) => Ok(StringValue(Substring(raw, 1, |raw| - 1)))
    case BooleanLiteral(raw) => Ok(BoolValue(raw == "true"))
    case IntegerLiteral(raw) =>
      (match ParseInt(raw)
       case Finite(v) => Ok(IntValue(v))
       case NaN => Err(Unmodelled))
    case UnaryOperator(_, _) => Err(UnknownUnary)
    case VariableReference(id) => if id in vars then Ok(store[vars[id]].value) else Err(NotDefined(id))
    case _ => Err(NotAnExpression)
  }

  /** `parseBinaryOperator(item)`: the right operand is evaluated first, so its error is the
      one reported when both operands fail. */
  function EvalBinary(e: ScriptNode, vars: map<string, nat>, store: seq<Binding>): (r: Result<Value>)
    requires e.BinaryOperator? && Bound(vars, store)
    ensures Eval(e.right, vars, store).Err? ==> r == Eval(e.right, vars, store)
    ensures Eval(e.right, vars, store).Ok? && Eval(e.left, vars, store).Err? ==> r == Eval(e.left, vars, store)
    decreases e, 0
  {
    var right :- Eval(e.right, vars, store);
    var left :- Eval(e.left, vars, store);
    Apply(e.operator, left, right)
  }

  /** `arguments.map(i => this.parseExpression(i))`: the values in order, or the first
      error. */
  function EvalAll(args: seq<ScriptNode>, vars: map<string, nat>, store: seq<Binding>): (r: Result<seq<Value>>)
    requires Bound(vars, store)
    ensures r.Ok? ==> |r.value| == |args|
    ensures r.Ok? ==> forall k :: 0 <= k < |args| ==> Eval(args[k], vars, store) == Ok(r.value[k])
  {
    if |args| == 0 then Ok([])
    else
      var init :- EvalAll(args[..|args| - 1], vars, store);
      var last :- Eval(args[|args| - 1], vars, store);
      Ok(init + [last])
  }

  /** `requiredArguments`: one for `println`, the parameter count of a declared function. */
  function RequiredArguments(f: Callable): nat
  {
    match f
    case Println => 1
    case UserFunction(params, _) => |params|
  }

  /** The key `param.id` of a parameter: a parameter that is not a variable reference has no
      `id`, and the key is the text `undefined`. */
  function ParamName(p: ScriptNode): string
  {
    if p.VariableReference? then p.id else "undefined"
  }

  /** The parameter bindings of a call: a fresh `let` binding per parameter, appended to the
      store in order; a repeated name keeps its last binding. */
  function BindParams(params: seq<ScriptNode>, args: seq<Value>, store: seq<Binding>): (r: (map<string, nat>, seq<Binding>))
    requires |params| == |args|
    ensures |r.1| == |store| + |params| && r.1[..|store|] == store
    ensures forall k :: 0 <= k < |params| ==> r.1[|store| + k] == Binding(args[k], "let")
    ensures Bound(r.0, r.1) && r.0.Keys == set k | 0 <= k < |params| :: ParamName(params[k])
  {
    if |params| == 0 then (map[], store)
    else
      var n := |params| - 1;
      var (vars, s) := BindParams(params[..n], args[..n], store);
      (vars[ParamName(params[n]) := |s|], s + [Binding(args[n], "let")])
  }

  /** No binding disappears, no binding changes its kind, and a `const` binding keeps its
      value. */
  predicate Extends(before: seq<Binding>, after: seq<Binding>)
  {
    |before| <= |after|
    && forall i :: 0 <= i < |before| ==> after[i].kind == before[i].kind && (before[i].kind == "const" ==> after[i] == before[i])
  }

  /** The scope `interpret(body, scope)` runs in: its own bindings, overridden by those of
      the scope it was called from. */
  function Merge(scope: Scope, last: Scope): (m: Scope)
    ensures m.variables.Keys == scope.variables.Keys + last.variables.Keys
    ensures forall x :: x in last.variables ==> m.variables[x] == last.variables[x]
    ensures m.functions.Keys == scope.functions.Keys + last.functions.Keys
    ensures forall f :: f in last.functions ==> m.functions[f] == last.functions[f]
  {
    Scope(scope.variables + last.variables, scope.functions + last.functions)
  }

  /** The scope `interpret` is given when none is passed. */
  const EmptyScope := Scope(map[], map[])

  /** The `globalScope` of the constructor: no variables, the built-in `println`. */
  const GlobalScope := Scope(map[], map["println" := Println])

  /** One round of the `forEach` of `interpret`. Only declarations change the scope; the
      store keeps its bindings and their kinds, and `const` bindings their values. */
  function ExecItem(item: ScriptNode, st: State, depth: nat): (r: Result<State>)
    requires WellFormed(st)
    ensures r.Ok? ==> WellFormed(r.value) && Extends(st.store, r.value.store) && st.output <= r.value.output
    ensures r.Ok? && !item.VariableDeclaration? && !item.FunctionDeclaration? ==> r.value.scope == st.scope
    ensures item.Undefined? ==> r == Err(UndefinedRead)
    ensures item.VariableDeclaration? ==> r == DeclareOf(item.kind, item.id, item.init, st)
    ensures item.IfStatement? ==> r == IfOf(item, st, depth)
    ensures item.VariableAssignment? ==> r == AssignOf(item.id, item.value, st)
    ensures item.CallExpression? ==> r == CallOf(item, st, depth)
    decreases depth, item, 1
  {
    var vars := st.scope.variables;
    var functions := st.scope.functions;
    match item
    case Undefined => Err(UndefinedRead)
    case BinaryOperator(_, _, _) =>
      var v :- EvalBinary(item, vars, st.store);
      Ok(st.(output := st.output + [v]))
    case VariableDeclaration(kind, id, init) => DeclareOf(kind, id, init, st)
    case IfStatement(_, _) => IfOf(item, st, depth)
    case VariableAssignment(id, value) => AssignOf(id, value, st)
    case CallExpression(_, _) => CallOf(item, st, depth)
    case FunctionDeclaration(callee, params, body) =>
      Ok(st.(scope := st.scope.(functions := functions[callee := UserFunction(params, body)])))
    case _ => Ok(st)
  }

  /** An `IF_STATEMENT` item: a truthy condition runs the body in a nested scope; a falsy
      one runs `item.else`, which the parser never sets, and reading its `forEach` throws. */
  function IfOf(item: ScriptNode, st: State, depth: nat): (r: Result<State>)
    requires item.IfStatement? && WellFormed(st)
    ensures r.Ok? ==> WellFormed(r.value) && Extends(st.store, r.value.store) && st.output <= r.value.output
    ensures r.Ok? ==> r.value.scope == st.scope
    ensures r.Ok? ==> var c := Eval(item.condition, st.scope.variables, st.store); c.Ok? && Truthy(c.value)
    ensures (var c := Eval(item.condition, st.scope.variables, st.store); c.Ok? && !Truthy(c.value)) ==> r == Err(UndefinedRead)
    decreases depth, item, 0
  {
    var c :- Eval(item.condition, st.scope.variables, st.store);
    if Truthy(c) then InterpretOf(item.body, EmptyScope, st, depth) else Err(UndefinedRead)
  }

  /** A `VARIABLE_DECLARATION` item: `id` is bound to a fresh binding object holding the
      initializer's value and the keyword; the other names keep their bindings. */
  function DeclareOf(kind: string, id: string, init: ScriptNode, st: State): (r: Result<State>)
    requires WellFormed(st)
    ensures r.Ok? <==> Eval(init, st.scope.variables, st.store).Ok?
    ensures r.Ok? ==> r.value.store == st.store + [Binding(Eval(init, st.scope.variables, st.store).value, kind)]
    ensures r.Ok? ==> r.value.scope.variables == st.scope.variables[id := |st.store|]
    ensures r.Ok? ==> r.value.scope.functions == st.scope.functions && r.value.output == st.output
  {
    var v :- Eval(init, st.scope.variables, st.store);
    Ok(st.(scope := st.scope.(variables := st.scope.variables[id := |st.store|]), store := st.store + [Binding(v, kind)]))
  }

  /** A `VARIABLE_ASSIGNMENT` item: the binding object `id` refers to takes the value,
      unless `id` is unbound or its binding is `const`; nothing else changes. */
  function AssignOf(id: string, value: ScriptNode, st: State): (r: Result<State>)
    requires WellFormed(st)
    ensures id !in st.scope.variables ==> r == Err(NotDeclared(id))
    ensures id in st.scope.variables && st.store[st.scope.variables[id]].kind == "const" ==> r == Err(ConstantReassigned(id))
    ensures r.Ok? ==> r.value.scope == st.scope && r.value.output == st.output && |r.value.store| == |st.store|
    ensures r.Ok? ==> forall i :: 0 <= i < |st.store| && i != st.scope.variables[id] ==> r.value.store[i] == st.store[i]
    ensures r.Ok? ==> var v := Eval(value, st.scope.variables, st.store);
                      v.Ok? && r.value.store[st.scope.variables[id]] == Binding(v.value, st.store[st.scope.variables[id]].kind)
  {
    var vars := st.scope.variables;
    if id !in vars then Err(NotDeclared(id))
    else
      var i := vars[id];
      if st.store[i].kind == "const" then Err(ConstantReassigned(id))
      else
        var v :- Eval(value, vars, st.store);
        Ok(st.(store := st.store[i := st.store[i].(value := v)]))
  }

  /** A `CALL_EXPRESSION` item: the callee must be a function of the current scope and
      take as many arguments as it is given; the arguments are evaluated in order and the
      function is called with their values. A declared function runs its body in a scope
      of its parameters, merged with the caller's scope. */
  function CallOf(item: ScriptNode, st: State, depth: nat): (r: Result<State>)
    requires item.CallExpression? && WellFormed(st)
    ensures r.Ok? ==> WellFormed(r.value) && Extends(st.store, r.value.store) && st.output <= r.value.output
    ensures r.Ok? ==> r.value.scope == st.scope
    ensures item.callee !in st.scope.functions ==> r == Err(UnknownFunction(item.callee))
    ensures item.callee in st.scope.functions && |item.arguments| != RequiredArguments(st.scope.functions[item.callee])
            ==> r == Err(ArityMismatch(item.callee, RequiredArguments(st.scope.functions[item.callee]), |item.arguments|))
    decreases depth, item, 0
  {
    var functions := st.scope.functions;
    if item.callee !in functions then Err(UnknownFunction(item.callee))
    else
      var f := functions[item.callee];
      if |item.arguments| != RequiredArguments(f) then Err(ArityMismatch(item.callee, RequiredArguments(f), |item.arguments|))
      else
        var values :- EvalAll(item.arguments, st.scope.variables, st.store);
        match f
        case Println => Ok(st.(output := st.output + [values[0]]))
        case UserFunction(params, body) =>
          if depth == 0 then Err(StackExhausted)
          else
            var (locals, store) := BindParams(params, values, st.store);
            InterpretOf(body, Scope(locals, map[]), st.(store := store), depth - 1)
  }

  /** The items of `body` run in order; the first error stops the run. */
  function ExecBody(body: seq<ScriptNode>, st: State, depth: nat): (r: Result<State>)
    requires WellFormed(st)
    ensures r.Ok? ==> WellFormed(r.value) && Extends(st.store, r.value.store) && st.output <= r.value.output
    decreases depth, body, 2
  {
    if |body| == 0 then Ok(st)
    else
      var s :- ExecBody(body[..|body| - 1], st, depth);
      ExecItem(body[|body| - 1], s, depth)
  }

  /** `interpret(body, scope)`: the body runs in `scope` merged with the current scope,
      and the current scope is restored afterwards, so its declarations vanish. */
  function InterpretOf(body: seq<ScriptNode>, scope: Scope, st: State, depth: nat): (r: Result<State>)
    requires WellFormed(st) && Bound(scope.variables, st.store)
    ensures r.Ok? ==> r.value.scope == st.scope
    ensures r.Ok? ==> WellFormed(r.value) && Extends(st.store, r.value.store) && st.output <= r.value.output
    decreases depth, body, 3
  {
    var s :- ExecBody(body, st.(scope := Merge(scope, st.scope)), depth);
    Ok(s.(scope := st.scope))
  }

  /** `interpreter.interpret(ast.body)` on a fresh interpreter, with calls nested at most
      `depth` deep. */
  function RunProgram(body: seq<ScriptNode>, depth: nat): (r: Result<State>)
    ensures r.Ok? ==> r.value.scope == GlobalScope
  {
    InterpretOf(body, EmptyScope, State(GlobalScope, [], []), depth)
  }

  /** A method's outcome paired with the state it left behind. */
  function Done(r: Result<()>, st: State): Result<State>
  {
    if r.Ok? then Ok(st) else Err(r.msg)
  }

  /** `!=` is the negation of `==` wherever either is defined. */
  lemma NotEqualsNegates(l: Value, r: Value)
    ensures Apply("!=", l, r).Ok? <==> Apply("==", l, r).Ok?
    ensures Apply("!=", l, r).Ok? ==> Apply("!=", l, r).value == BoolValue(!Apply("==", l, r).value.b)
  {
  }

  /** A string literal evaluates to its text without the quotes. */
  lemma StringLiteralUnquoted(text: string, vars: map<string, nat>, store: seq<Binding>)
    requires Bound(vars, store)
    ensures Eval(StringLiteral("\"" + text + "\""), vars, store) == Ok(StringValue(text))
  {
    var raw := "\"" + text + "\"";
    assert raw[1..|raw| - 1] == text;
  }

  /** A decimal literal evaluates to the number it spells. */
  lemma IntegerLiteralValue(n: nat, vars: map<string, nat>, store: seq<Binding>)
    requires Bound(vars, store)
    ensures Eval(IntegerLiteral(NatToString(n)), vars, store) == Ok(IntValue(n))
  {
    ParseNatToString(n);
  }

  /** `-1` parses to a unary node, and evaluating that node throws. */
  lemma NegativeLiteralThrows(vars: map<string, nat>, store: seq<Binding>)
    requires Bound(vars, store)
    ensures var ts := [Tok("ARITHMETIC_OPERATOR", "-"), Tok("INTEGER_LITERAL", "1")];
            DefaultExprAt(ts, 0) == Ok(Parsed(UnaryOperator("-", IntegerLiteral("1")), 2))
            && Eval(DefaultExprAt(ts, 0).value.node, vars, store) == Err(UnknownUnary)
  {
    var ts := [Tok("ARITHMETIC_OPERATOR", "-"), Tok("INTEGER_LITERAL", "1")];
    var one := IntegerLiteral("1");
    assert FactorAt(ts, 1) == Ok(Parsed(one, 2));
    assert FactorAt(ts, 0) == Ok(Parsed(UnaryOperator("-", one), 2));
    assert TermAt(ts, 0) == Ok(Parsed(UnaryOperator("-", one), 2));
    assert AdditiveTail(ts, UnaryOperator("-", one), 2) == Ok(Parsed(UnaryOperator("-", one), 2));
  }

  /** A body of one item runs that item in the given state. */
  lemma ExecSingle(item: ScriptNode, st: State, depth: nat)
    requires WellFormed(st)
    ensures ExecBody([item], st, depth) == ExecItem(item, st, depth)
  {
    assert [item][..0] == [];
  }

  /** The arguments of a one-argument call. */
  lemma EvalSingle(a: ScriptNode, vars: map<string, nat>, store: seq<Binding>)
    requires Bound(vars, store) && Eval(a, vars, store).Ok?
    ensures EvalAll([a], vars, store) == Ok([Eval(a, vars, store).value])
  {
    var args := [a];
    assert args[..|args| - 1] == [] && args[|args| - 1] == a;
    assert EvalAll(args[..|args| - 1], vars, store) == Ok([]);
    assert [] + [Eval(a, vars, store).value] == [Eval(a, vars, store).value];
  }

  /** An assignment inside an `if` body changes the binding the enclosing scope sees: the
      nested scope holds the same binding object. */
  lemma AssignmentVisibleOutside(x: string, condition: ScriptNode, e: ScriptNode, st: State, depth: nat)
    requires WellFormed(st) && x in st.scope.variables
    requires st.store[st.scope.variables[x]].kind != "const"
    requires var c := Eval(condition, st.scope.variables, st.store); c.Ok? && Truthy(c.value)
    requires Eval(e, st.scope.variables, st.store).Ok?
    ensures var r := ExecItem(IfStatement(condition, [VariableAssignment(x, e)]), st, depth);
            r.Ok? && r.value.scope == st.scope
            && Eval(VariableReference(x), r.value.scope.variables, r.value.store) == Eval(e, st.scope.variables, st.store)
  {
    var item := IfStatement(condition, [VariableAssignment(x, e)]);
    var inner := st.(scope := Merge(EmptyScope, st.scope));
    assert inner.scope.variables == st.scope.variables;
    var afterAssignment := AssignOf(x, e, inner);
    ExecSingle(VariableAssignment(x, e), inner, depth);
    assert ExecBody(item.body, inner, depth) == afterAssignment;
    assert InterpretOf(item.body, EmptyScope, st, depth) == Ok(afterAssignment.value.(scope := st.scope));
    assert IfOf(item, st, depth) == Ok(afterAssignment.value.(scope := st.scope));
  }

  /** Inside a declared function, a name bound in the caller's scope refers to the caller's
      binding, not to the parameter of the same name: the caller's scope is merged over
      the parameters. Here `fn f(x) { println(x) }` called as `f(a)` prints the caller's
      `x`. */
  lemma CallerBindingOverridesParameter(x: string, a: ScriptNode, st: State, depth: nat)
    requires WellFormed(st) && depth > 0 && x in st.scope.variables
    requires "f" in st.scope.functions
    requires st.scope.functions["f"] == UserFunction([VariableReference(x)], [CallExpression("println", [VariableReference(x)])])
    requires "println" in st.scope.functions && st.scope.functions["println"] == Println
    requires Eval(a, st.scope.variables, st.store).Ok?
    ensures var r := ExecItem(CallExpression("f", [a]), st, depth);
            r.Ok? && r.value.output == st.output + [st.store[st.scope.variables[x]].value]
  {
    var v := Eval(a, st.scope.variables, st.store).value;
    EvalSingle(a, st.scope.variables, st.store);
    var params := [VariableReference(x)];
    assert params[..0] == [];
    var bound := BindParams(params, [v], st.store);
    var locals, store := bound.0, bound.1;
    var inner := st.(store := store).(scope := Merge(Scope(locals, map[]), st.scope));
    var i := st.scope.variables[x];
    assert inner.scope.variables[x] == i;
    assert store[i] == st.store[i];
    var call := CallExpression("println", [VariableReference(x)]);
    EvalSingle(VariableReference(x), inner.scope.variables, inner.store);
    assert CallOf(call, inner, depth - 1) == Ok(inner.(output := st.output + [st.store[i].value]));
    ExecSingle(call, inner, depth - 1);
    var body := [call];
    assert InterpretOf(body, Scope(locals, map[]), st.(store := store), depth - 1)
        == Ok(inner.(output := st.output + [st.store[i].value]).(scope := st.scope));
    assert CallOf(CallExpression("f", [a]), st, depth)
        == InterpretOf(body, Scope(locals, map[]), st.(store := store), depth - 1);
  }

  /** A declared function requires as many arguments as it has parameters: calling it right
      after its declaration with another number of arguments throws. */
  lemma DeclaredFunctionArity(f: string, params: seq<ScriptNode>, body: seq<ScriptNode>, args: seq<ScriptNode>, st: State, depth: nat)
    requires WellFormed(st) && |args| != |params|
    ensures ExecBody([FunctionDeclaration(f, params, body), CallExpression(f, args)], st, depth)
            == Err(ArityMismatch(f, |params|, |args|))
  {
    var program := [FunctionDeclaration(f, params, body), CallExpression(f, args)];
    assert program[..1] == [FunctionDeclaration(f, params, body)];
    ExecSingle(FunctionDeclaration(f, params, body), st, depth);
  }

  /** A declaration inside an `if` body is gone once the `if` is done. */
  lemma DeclarationInIfVanishes(y: string, condition: ScriptNode, body: seq<ScriptNode>, st: State, depth: nat)
    requires WellFormed(st) && y !in st.scope.variables
    requires ExecItem(IfStatement(condition, body), st, depth).Ok?
    ensures var r := ExecItem(IfStatement(condition, body), st, depth).value;
            Eval(VariableReference(y), r.scope.variables, r.store) == Err(NotDefined(y))
  {
  }

  /** `Interpreter`. */
  class Interpreter {
    const globalScope: Scope
    var currentScope: Scope
    var store: seq<Binding>
    var output: seq<Value>

    function Snapshot(): State
      reads this
    {
      State(currentScope, store, output)
    }

    constructor()
      ensures globalScope == GlobalScope && Snapshot() == State(GlobalScope, [], [])
    {
      globalScope := GlobalScope;
      currentScope := GlobalScope;
      store := [];
      output := [];
    }

    /** `parseBinaryOperator(item)`. */
    method ParseBinaryOperator(item: ScriptNode) returns (r: Result<Value>)
      requires item.BinaryOperator? && WellFormed(Snapshot())
      ensures r == EvalBinary(item, currentScope.variables, store)
      decreases item, 0
    {
      var right :- ParseExpression(item.right);
      var left :- ParseExpression(item.left);
      r := Apply(item.operator, left, right);
    }

    /** `parseExpression(item)`. */
    method ParseExpression(item: ScriptNode) returns (r: Result<Value>)
      requires WellFormed(Snapshot())
      ensures r == Eval(item, currentScope.variables, store)
      decreases item, 1
    {
      match item
      case Undefined => return Ok(UndefinedValue);
      case BinaryOperator(_, _, _) => r := ParseBinaryOperator(item);
      case StringLiteral(raw) => return Ok(StringValue(Substring(raw, 1, |raw| - 1)));
      case BooleanLiteral(raw) => return Ok(BoolValue(raw == "true"));
      case IntegerLiteral(raw) =>
        match ParseInt(raw) {
          case Finite(v) => return Ok(IntValue(v));
          case NaN => return Err(Unmodelled);
        }
      case UnaryOperator(_, _) => return Err(UnknownUnary);
      case VariableReference(id) =>
        if id !in currentScope.variables {
          return Err(NotDefined(id));
        }
        return Ok(store[currentScope.variables[id]].value);
      case _ => return Err(NotAnExpression);
    }

    /** The `arguments.map(...)` of a call. */
    method ParseArguments(args: seq<ScriptNode>) returns (r: Result<seq<Value>>)
      requires WellFormed(Snapshot())
      ensures r == EvalAll(args, currentScope.variables, store)
    {
      var values: seq<Value> := [];
      for k := 0 to |args|
        invariant EvalAll(args[..k], currentScope.variables, store) == Ok(values)
      {
        assert args[..k + 1][..k] == args[..k];
        var v := ParseExpression(args[k]);
        if v.Err? {
          EvalAllFailureStops(args, k + 1, currentScope.variables, store);
          return Err(v.msg);
        }
        values := values + [v.value];
      }
      assert args[..|args|] == args;
      return Ok(values);
    }

    /** `interpret(body, scope)`. */
    method Interpret(body: seq<ScriptNode>, scope: Scope, depth: nat) returns (r: Result<()>)
      requires WellFormed(Snapshot()) && Bound(scope.variables, store)
      modifies this
      ensures Done(r, Snapshot()) == InterpretOf(body, scope, old(Snapshot()), depth)
      decreases depth, body, 3
    {
      var lastScope := currentScope;
      currentScope := Merge(scope, lastScope);
      ghost var start := Snapshot();
      for k := 0 to |body|
        invariant WellFormed(Snapshot())
        invariant ExecBody(body[..k], start, depth) == Ok(Snapshot())
      {
        assert body[..k + 1][..k] == body[..k];
        var done := Execute(body[k], depth);
        if done.Err? {
          ExecBodyFailureStops(body, k + 1, start, depth);
          return Err(done.msg);
        }
      }
      assert body[..|body|] == body;
      currentScope := lastScope;
      return Ok(());
    }

    /** The `switch` inside the `forEach` of `interpret`. */
    method Execute(item: ScriptNode, depth: nat) returns (r: Result<()>)
      requires WellFormed(Snapshot())
      modifies this
      ensures Done(r, Snapshot()) == ExecItem(item, old(Snapshot()), depth)
      decreases depth, item, 1
    {
      match item
      case Undefined => return Err(UndefinedRead);
      case BinaryOperator(_, _, _) =>
        var v :- ParseBinaryOperator(item);
        output := output + [v];
        return Ok(());
      case VariableDeclaration(kind, id, init) => r := Declare(kind, id, init);
      case IfStatement(_, _) => r := If(item, depth);
      case VariableAssignment(id, value) => r := Assign(id, value);
      case CallExpression(_, _) => r := Call(item, depth);
      case FunctionDeclaration(callee, params, body) =>
        currentScope := currentScope.(functions := currentScope.functions[callee := UserFunction(params, body)]);
        return Ok(());
      case _ => return Ok(());
    }

    /** The `IF_STATEMENT` case. */
    method If(item: ScriptNode, depth: nat) returns (r: Result<()>)
      requires item.IfStatement? && WellFormed(Snapshot())
      modifies this
      ensures Done(r, Snapshot()) == IfOf(item, old(Snapshot()), depth)
      decreases depth, item, 0
    {
      var c :- ParseExpression(item.condition);
      if Truthy(c) {
        r := Interpret(item.body, EmptyScope, depth);
      } else {
        r := Err(UndefinedRead);
      }
    }

    /** The `VARIABLE_DECLARATION` case. */
    method Declare(kind: string, id: string, init: ScriptNode) returns (r: Result<()>)
      requires WellFormed(Snapshot())
      modifies this
      ensures Done(r, Snapshot()) == DeclareOf(kind, id, init, old(Snapshot()))
      ensures r.Ok? ==> WellFormed(Snapshot())
    {
      var v :- ParseExpression(init);
      currentScope := currentScope.(variables := currentScope.variables[id := |store|]);
      store := store + [Binding(v, kind)];
      return Ok(());
    }

    /** The `VARIABLE_ASSIGNMENT` case: the binding object the name refers to gets the new
        value, unless it is unbound or `const`. */
    method Assign(id: string, value: ScriptNode) returns (r: Result<()>)
      requires WellFormed(Snapshot())
      modifies this
      ensures Done(r, Snapshot()) == AssignOf(id, value, old(Snapshot()))
      ensures r.Ok? ==> WellFormed(Snapshot())
    {
      if id !in currentScope.variables {
        return Err(NotDeclared(id));
      }
      var i := currentScope.variables[id];
      if store[i].kind == "const" {
        return Err(ConstantReassigned(id));
      }
      var v :- ParseExpression(value);
      store := store[i := store[i].(value := v)];
      return Ok(());
    }

    /** The `CALL_EXPRESSION` case. */
    method Call(item: ScriptNode, depth: nat) returns (r: Result<()>)
      requires item.CallExpression? && WellFormed(Snapshot())
      modifies this
      ensures Done(r, Snapshot()) == CallOf(item, old(Snapshot()), depth)
      ensures r.Ok? ==> WellFormed(Snapshot())
      decreases depth, item, 0
    {
      if item.callee !in currentScope.functions {
        return Err(UnknownFunction(item.callee));
      }
      var toExecute := currentScope.functions[item.callee];
      if |item.arguments| != RequiredArguments(toExecute) {
        return Err(ArityMismatch(item.callee, RequiredArguments(toExecute), |item.arguments|));
      }
      var values :- ParseArguments(item.arguments);
      match toExecute {
        case Println =>
          output := output + [values[0]];
          return Ok(());
        case UserFunction(params, body) =>
          if depth == 0 {
            return Err(StackExhausted);
          }
          var variables := BindArguments(params, values);
          r := Interpret(body, Scope(variables, map[]), depth - 1);
      }
    }

    /** The `forEach` over the parameters in a declared function: a fresh `let` binding
        per parameter holding the argument at its index. */
    method BindArguments(params: seq<ScriptNode>, args: seq<Value>) returns (variables: map<string, nat>)
      requires |params| == |args|
      modifies this
      ensures (variables, store) == BindParams(params, args, old(store))
      ensures currentScope == old(currentScope) && output == old(output)
    {
      variables := map[];
      ghost var before := store;
      for k := 0 to |params|
        invariant (variables, store) == BindParams(params[..k], args[..k], before)
        invariant currentScope == old(currentScope) && output == old(output)
      {
        assert params[..k + 1][..k] == params[..k] && args[..k + 1][..k] == args[..k];
        variables := variables[ParamName(params[k]) := |store|];
        store := store + [Binding(args[k], "let")];
      }
      assert params[..|params|] == params && args[..|args|] == args;
    }
  }

  /** Once an argument fails, the rest are not evaluated: the error of a prefix is the
      error of the whole list. */
  lemma {:induction false} EvalAllFailureStops(args: seq<ScriptNode>, k: nat, vars: map<string, nat>, store: seq<Binding>)
    requires Bound(vars, store) && k <= |args| && EvalAll(args[..k], vars, store).Err?
    ensures EvalAll(args, vars, store) == EvalAll(args[..k], vars, store)
    decreases |args| - k
  {
    if k < |args| {
      assert args[..k + 1][..k] == args[..k];
      EvalAllFailureStops(args, k + 1, vars, store);
    } else {
      assert args[..k] == args;
    }
  }

  /** Once an item throws, the rest of the body does not run. */
  lemma {:induction false} ExecBodyFailureStops(body: seq<ScriptNode>, k: nat, st: State, depth: nat)
    requires WellFormed(st) && k <= |body| && ExecBody(body[..k], st, depth).Err?
    ensures ExecBody(body, st, depth) == ExecBody(body[..k], st, depth)
    decreases |body| - k
  {
    if k < |body| {
      assert body[..k + 1][..k] == body[..k];
      ExecBodyFailureStops(body, k + 1, st, depth);
    } else {
      assert body[..k] == body;
    }
  }
}
