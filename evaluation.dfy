/** `interpretStmt`, `interpretExpression` and the statement and expression
    cases they dispatch to (src/interpreter/index.ts), as one family of
    mutually recursive functions over the state of module InterpreterState.

    Every function ends where its source counterpart ends: with a value,
    an exception, out of fuel, or outside the model. `fuel` bounds the
    nesting of `interpretStmt`/`interpretExpression` calls; the other
    functions are ranked below them (the middle component of `decreases`)
    and pass the fuel on unchanged, and loops count their remaining
    elements. */
module Evaluation {
  import opened Wrappers
  import opened Host
  import opened TokenKinds
  import opened Ast
  import opened Values
  import opened Literals
  import opened RealValues
  import opened Environments
  import opened Errors
  import opened TokenUnits
  import opened InterpreterState

  /** Evaluation starts from a sound store and an environment of it. */
  predicate Pre(st: State, env: EnvId)
  {
    Sound(st.envs) && env < |st.envs|
  }

  /** `interpretStmt(stmt, env)`. */
  function Exec(st: State, env: EnvId, n: Node, fuel: nat): (o: Outcome)
    requires Pre(st, env)
    ensures Keeps(st, o)
    decreases fuel, 0, 0
  {
    if fuel == 0 then Outcome(st, OutOfFuel)
    else match n
      case VariableDeclaration(name, value, isConst, _) => VarDecl(st, env, name, value, isConst, fuel - 1)
      case FunctionDeclaration(name, params, block, _) => FunDeclStep(st, env, name, params, block, PlainFn)
      case UseDeclaration(_, _, _) => Outcome(st, Unmodelled("module loading"))
      case CallExpression(callee, args) => Call(st, env, callee, args, fuel - 1)
      case MemberExpression(target, property, _) => Member(st, env, target, property, fuel - 1)
      case AssignmentExpression(left, _, right) => Assign(st, env, left, right, fuel - 1)
      case CommentStatement(_) => Outcome(st, Normal(Undef))
      case IfStatement(test, consequent, alternate, _) => If(st, env, test, consequent, alternate, fuel - 1)
      case ForStatement(init, item, range, block, _, _) => For(st, env, init, item, range, block, fuel - 1)
      case SwitchStatement(test, cases, _) => Switch(st, env, test, cases, fuel - 1)
      case ReturnStatement(value, _) => Eval(st, env, value, fuel - 1)
      case BlockStatement(_, _) => Block(st, env, n, fuel - 1)
      case ExposeStatement(body, _) => Expose(st, env, body, fuel - 1)
      case TaskStatement(fn, _) => Task(st, env, fn)
      case RunStatement(callee, stages, _) => Run(st, env, callee, stages, fuel - 1)
      case WaitStatement(async, _) => Wait(st, env, async, fuel - 1)
      case _ => Eval(st, env, n, fuel - 1)
  }

  /** `interpretExpression(expression, env)`. An unknown node records an
      error whose text is the node's JSON, which is outside the model. */
  function Eval(st: State, env: EnvId, n: Node, fuel: nat): (o: Outcome)
    requires Pre(st, env)
    ensures Keeps(st, o)
    decreases fuel, 0, 0
  {
    if fuel == 0 then Outcome(st, OutOfFuel)
    else match n
      case CallExpression(callee, args) => Call(st, env, callee, args, fuel - 1)
      case Literal(t) => LiteralValue(st, env, t)
      case BinaryExpression(left, op, right) => Binary(st, env, left, op, right, fuel - 1)
      case ArrayExpression(items) => ArrayItems(st, env, items, 0, [], fuel - 1)
      case ObjectExpression(props) => ObjectProps(st, env, props, 0, [], fuel - 1)
      case AssignmentExpression(left, _, right) => Assign(st, env, left, right, fuel - 1)
      case CompareExpression(left, op, right) => Logic(st, env, left, op, right, fuel - 1)
      case TernaryExpression(condition, consequent, alternate) => Ternary(st, env, condition, consequent, alternate, fuel - 1)
      case EqualExpression(left, op, right) => Logic(st, env, left, op, right, fuel - 1)
      case RangeExpression(start, step, end) => Range(st, env, start, step, end, fuel - 1)
      case TemplateElement(value) => Eval(st, env, value, fuel - 1)
      case TemplateLiteralExpression(quotes) => Template(st, env, quotes, fuel - 1)
      case LambdaFunctionDecl(params, block) => Outcome(st, Normal(VClosure(LambdaFn, params, block, env)))
      case MemberExpression(target, property, _) => Member(st, env, target, property, fuel - 1)
      case UseDefaultSpecifier(local) =>
        if local.Literal? then Outcome(st, Normal(VLiteral(local.token)))
        else Raise(st, env, "UseDefaultSpecifier local must be a literal", None)
      case UseSpecifier(_, _) => Outcome(st, Unmodelled("the specifier record of a use declaration"))
      case ToExpression(_, block) => ToStage(st, env, block, fuel - 1)
      case RunStatement(callee, stages, _) => Run(st, env, callee, stages, fuel - 1)
      case WaitStatement(async, _) => Wait(st, env, async, fuel - 1)
      case _ => Outcome(st, Unmodelled("the JSON text of an unknown expression"))
  }

  /** The Literal case: an identifier is looked up, and a stored Literal
      gives its token; any other literal gives its own token. A failed
      lookup, or a `null` or `undefined` binding (whose `type` cannot be
      read), is recorded and thrown as "Literal error". */
  function LiteralValue(st: State, env: EnvId, t: Token): (o: Outcome)
    requires Pre(st, env)
    ensures Keeps(st, o)
  {
    if t.kind != Identifier then Outcome(st, Normal(VToken(t)))
    else match Get(st.envs, env, Literal(t))
      case Failure(m) => Raise(st, env, "Literal error: " + ErrorText(m), Some(FromLiteral(t)))
      case Success(v) =>
        if Nullish(v) then Raise(st, env, "Literal error: " + NullishProperty(v.p, "type"), Some(FromLiteral(t)))
        else if v.VLiteral? then Outcome(st, Normal(VToken(v.literal)))
        else
          GetLive(st.envs, env, Literal(t));
          Outcome(st, Normal(v))
  }

  /** `interpretVariableDeclaration`: the value, declared static when the
      declaration is `cst`. */
  function VarDecl(st: State, env: EnvId, name: Node, value: Node, isConst: bool, fuel: nat): (o: Outcome)
    requires Pre(st, env)
    ensures Keeps(st, o)
    decreases fuel, 1, 0
  {
    var v := Eval(st, env, value, fuel);
    if !v.c.Normal? then v
    else DeclareIn(v.st, env, Some(name), v.c.value, isConst)
  }

  /** `interpretBlockStatement`. */
  function Block(st: State, env: EnvId, block: Node, fuel: nat): (o: Outcome)
    requires Pre(st, env)
    ensures Keeps(st, o)
    decreases fuel, 2, 0
  {
    if !block.BlockStatement? then Outcome(st, Unmodelled("a block that is not a block statement"))
    else BlockFrom(st, env, block.body, 0, Undef, fuel)
  }

  /** The loop of `interpretBlockStatement` from statement `i` on, `last`
      holding the value of the statement before: it stops after a
      ReturnStatement and ends with the last value. */
  function BlockFrom(st: State, env: EnvId, body: seq<Node>, i: nat, last: Value, fuel: nat): (o: Outcome)
    requires Pre(st, env) && i <= |body| && Live(|st.envs|, last)
    ensures Keeps(st, o)
    decreases fuel, 1, |body| - i
  {
    if i == |body| then Outcome(st, Normal(last))
    else
      var r := Exec(st, env, body[i], fuel);
      if !r.c.Normal? || body[i].ReturnStatement? then r
      else BlockFrom(r.st, env, body, i + 1, r.c.value, fuel)
  }

  /** The arguments `Promise.all` collects, evaluated in order, as a host
      array. */
  function EvalList(st: State, env: EnvId, nodes: seq<Node>, i: nat, acc: seq<Value>, fuel: nat): (o: Outcome)
    requires Pre(st, env) && i <= |nodes| && |acc| == i && Live(|st.envs|, VArray(acc))
    ensures Keeps(st, o)
    ensures o.c.Normal? ==> o.c.value.VArray? && |o.c.value.items| == |nodes|
    decreases fuel, 1, |nodes| - i
  {
    if i == |nodes| then Outcome(st, Normal(VArray(acc)))
    else
      var r := Eval(st, env, nodes[i], fuel);
      if !r.c.Normal? then r
      else
        LiveGrows(|st.envs|, |r.st.envs|, VArray(acc));
        EvalList(r.st, env, nodes, i + 1, acc + [r.c.value], fuel)
  }

  /** `interpretCallExpression`: the callee, then the arguments, then the
      call. An exception `apply` throws at once is recorded and thrown
      again as "CallExpression error" at the callee's token; only `print`
      can throw so, since a closure is async and its failure comes back
      as a rejected promise, which the `catch` does not see. */
  function Call(st: State, env: EnvId, callee: Node, args: seq<Node>, fuel: nat): (o: Outcome)
    requires Pre(st, env)
    ensures Keeps(st, o)
    decreases fuel, 4, 0
  {
    var f := Eval(st, env, callee, fuel);
    if !f.c.Normal? then f
    else
      var a := EvalList(f.st, env, args, 0, [], fuel);
      if !a.c.Normal? then a
      else
        LiveGrows(|f.st.envs|, |a.st.envs|, f.c.value);
        var r := Apply(a.st, f.c.value, a.c.value.items, fuel);
        if f.c.value.VHost? && r.c.Throw? then
          Raise(r.st, env, "CallExpression error: " + ExcText(r.c.exc), CalleePosition(callee))
        else r
  }

  /** `stmt.callee.value`: the token of a Literal callee; any other callee
      the parser builds has no `value`. */
  function CalleePosition(callee: Node): Option<PositionSource>
  {
    if callee.Literal? then Some(FromToken(callee.token)) else None
  }

  /** `typeof callee === "function" ? callee.apply(env, args) : callee`.
      `apply` hands the function only the first argument. A closure runs
      its block in a new child of the environment it was made in; `print`
      gives `undefined` or throws what converting its argument throws. */
  function Apply(st: State, f: Value, args: seq<Value>, fuel: nat): (o: Outcome)
    requires Sound(st.envs) && Live(|st.envs|, f) && Live(|st.envs|, VArray(args))
    ensures Keeps(st, o)
    decreases fuel, 3, 0
  {
    match f
    case VHost(_) =>
      (match Print(if |args| > 0 then args[0] else Undef)
       case Failure(m) => Outcome(st, HostFailure(m))
       case Success(v) => Outcome(st, Normal(v)))
    case VClosure(tag, params, block, home) =>
      var first := if |args| > 0 then args[0] else Undef;
      assert |args| > 0 ==> args[0] in args;
      NewEnvSound(st.envs, Some(home), st.dirname);
      var ctx := |st.envs|;
      var st1 := st.(envs := NewEnv(st.envs, Some(home), st.dirname));
      LiveGrows(|st.envs|, |st1.envs|, first);
      var bound := if tag == LambdaFn then BindLambda(st1.envs, ctx, params, first) else BindArgs(st1.envs, ctx, params, first);
      (match bound
       case Failure(m) => Outcome(st1, HostFailure(m))
       case Success(fs) => Block(st1.(envs := fs), ctx, block, fuel))
    case _ => Outcome(st, Normal(f))
  }

  /** `interpretMemberExpression`; only a Literal property is modelled. */
  function Member(st: State, env: EnvId, target: Node, property: Node, fuel: nat): (o: Outcome)
    requires Pre(st, env)
    ensures Keeps(st, o)
    decreases fuel, 1, 0
  {
    var r := Eval(st, env, target, fuel);
    if !r.c.Normal? then r
    else if !property.Literal? then Outcome(r.st, Unmodelled("a member property that is not a Literal"))
    else match ToRealValue(VLiteral(property.token))
      case Failure(m) => Outcome(r.st, HostFailure(m))
      case Success(prop) => Outcome(r.st, MemberOf(r.st.envs, r.c.value, prop))
  }

  /** `interpretAssignmentExpression`: a failed `setVariable` is recorded
      and thrown as "AssignmentExpression error" at the target's token. */
  function Assign(st: State, env: EnvId, left: Node, right: Node, fuel: nat): (o: Outcome)
    requires Pre(st, env)
    ensures Keeps(st, o)
    decreases fuel, 1, 0
  {
    var r := Eval(st, env, right, fuel);
    if !r.c.Normal? then r
    else match Set(r.st.envs, env, left, r.c.value)
      case Failure(m) =>
        Raise(r.st, env, "AssignmentExpression error: " + ErrorText(m), if left.Literal? then Some(FromToken(left.token)) else None)
      case Success(fs) =>
        SetSound(r.st.envs, env, left, r.c.value);
        Outcome(r.st.(envs := fs), Normal(Undef))
  }

  /** `interpretIfStatement`: the converted condition must be a boolean. */
  function If(st: State, env: EnvId, test: Node, consequent: Node, alternate: Node, fuel: nat): (o: Outcome)
    requires Pre(st, env)
    ensures Keeps(st, o)
    decreases fuel, 1, 0
  {
    var c := Eval(st, env, test, fuel);
    if !c.c.Normal? then c
    else match ToRealValue(c.c.value)
      case Failure(m) => Outcome(c.st, HostFailure(m))
      case Success(h) =>
        if h.HPrim? && h.p.Bool? then
          if h.p.b then Exec(c.st, env, consequent, fuel) else Exec(c.st, env, alternate, fuel)
        else Raise(c.st, env, "Condition must be a boolean", None)
  }

  /** The ternary case: the condition must be a boolean-kind token, and
      only the stored text "true" selects the consequent. */
  function Ternary(st: State, env: EnvId, condition: Node, consequent: Node, alternate: Node, fuel: nat): (o: Outcome)
    requires Pre(st, env)
    ensures Keeps(st, o)
    decreases fuel, 1, 0
  {
    var c := Eval(st, env, condition, fuel);
    if !c.c.Normal? then c
    else
      var v := c.c.value;
      if Nullish(v) then Outcome(c.st, Throw(HostError(NullishProperty(v.p, "type"))))
      else if v.VToken? && v.token.kind == Boolean then
        if v.token.value == Str("true") then Exec(c.st, env, consequent, fuel) else Exec(c.st, env, alternate, fuel)
      else Raise(c.st, env, "Condition must be a boolean", None)
  }

  /** The arithmetic of the BinaryExpression case on the evaluated
      operands: `+ - * /` apply to the left token, any other operator gives
      the left operand back. */
  function Arith(left: Value, op: Prim, right: Value): Completion
  {
    if op != Str("+") && op != Str("-") && op != Str("*") && op != Str("/") then Normal(left)
    else if !left.VToken? then Unmodelled("arithmetic on a left operand that is not a token")
    else
      var r := if op == Str("+") then AddTokens(left.token, right)
               else if op == Str("-") then SubTokens(left.token, right)
               else if op == Str("*") then MulTokens(left.token, right)
               else DivTokens(left.token, right);
      match r
      case Success(t) => Normal(VToken(t))
      case Failure(e) => UnitFailure(e)
  }

  /** The BinaryExpression case. */
  function Binary(st: State, env: EnvId, left: Node, op: Token, right: Node, fuel: nat): (o: Outcome)
    requires Pre(st, env)
    ensures Keeps(st, o)
    decreases fuel, 1, 0
  {
    var l := Eval(st, env, left, fuel);
    if !l.c.Normal? then l
    else
      var r := Eval(l.st, env, right, fuel);
      if !r.c.Normal? then r
      else
        LiveGrows(|l.st.envs|, |r.st.envs|, l.c.value);
        Outcome(r.st, Arith(l.c.value, op.value, r.c.value))
  }

  /** The CompareExpression and EqualExpression cases: `logicOperate` on a
      token left operand. */
  function Logic(st: State, env: EnvId, left: Node, op: Token, right: Node, fuel: nat): (o: Outcome)
    requires Pre(st, env)
    ensures Keeps(st, o)
    decreases fuel, 1, 0
  {
    var l := Eval(st, env, left, fuel);
    if !l.c.Normal? then l
    else
      var r := Eval(l.st, env, right, fuel);
      KeepsTrans(st, l, r);
      if !r.c.Normal? then r
      else if !l.c.value.VToken? then Outcome(r.st, Unmodelled("a comparison whose left operand is not a token"))
      else match LogicTokens(l.c.value.token, op, r.c.value)
        case Success(t) => Outcome(r.st, Normal(VToken(t)))
        case Failure(e) => Outcome(r.st, UnitFailure(e))
  }

  /** The RangeExpression case: a range record of both ends and the step
      token. */
  function Range(st: State, env: EnvId, start: Node, step: Token, end: Node, fuel: nat): (o: Outcome)
    requires Pre(st, env)
    ensures Keeps(st, o)
    decreases fuel, 1, 0
  {
    var s := Eval(st, env, start, fuel);
    if !s.c.Normal? then s
    else
      var e := Eval(s.st, env, end, fuel);
      if !e.c.Normal? then e
      else
        LiveGrows(|s.st.envs|, |e.st.envs|, s.c.value);
        Outcome(e.st, Normal(VRange(s.c.value, e.c.value, step)))
  }

  /** The TemplateLiteralExpression case: every part is evaluated, then
      their values are joined. */
  function Template(st: State, env: EnvId, quotes: seq<Node>, fuel: nat): (o: Outcome)
    requires Pre(st, env)
    ensures Keeps(st, o)
    decreases fuel, 2, 0
  {
    var r := EvalList(st, env, quotes, 0, [], fuel);
    if !r.c.Normal? then r
    else match TemplateText(r.c.value.items)
      case Failure(m) => Outcome(r.st, HostFailure(m))
      case Success(text) => Outcome(r.st, Normal(VPrim(Str(text))))
  }

  /** The ArrayExpression loop from item `i` on: each key Literal is
      retyped as an index and mapped to its evaluated value. */
  function ArrayItems(st: State, env: EnvId, items: seq<Node>, i: nat, acc: seq<(Value, Value)>, fuel: nat): (o: Outcome)
    requires Pre(st, env) && i <= |items| && Live(|st.envs|, VMap(ArrayTag, acc))
    ensures Keeps(st, o)
    decreases fuel, 1, |items| - i
  {
    if i == |items| then Outcome(st, Normal(VMap(ArrayTag, acc)))
    else if !items[i].Property? || !items[i].key.Literal? then
      Outcome(st, Unmodelled("an array item that is not a property with a Literal key"))
    else
      var r := Eval(st, env, items[i].value, fuel);
      if !r.c.Normal? then r
      else
        LiveGrows(|st.envs|, |r.st.envs|, VMap(ArrayTag, acc));
        var key := VLiteral(items[i].key.token.(kind := Index));
        ArrayItems(r.st, env, items, i + 1, acc + [(key, r.c.value)], fuel)
  }

  /** The ObjectExpression loop from property `i` on: a key that throws
      when evaluated is taken as the literal of its token's value (the
      error it recorded stays recorded). */
  function ObjectProps(st: State, env: EnvId, props: seq<Node>, i: nat, acc: seq<(Value, Value)>, fuel: nat): (o: Outcome)
    requires Pre(st, env) && i <= |props| && Live(|st.envs|, VMap(ObjectTag, acc))
    ensures Keeps(st, o)
    decreases fuel, 1, |props| - i
  {
    if i == |props| then Outcome(st, Normal(VMap(ObjectTag, acc)))
    else if !props[i].Property? then Outcome(st, Unmodelled("an object item that is not a property"))
    else
      var k := Eval(st, env, props[i].key, fuel);
      if k.c.OutOfFuel? || k.c.Unmodelled? then k
      else if k.c.Throw? && !props[i].key.Literal? then Outcome(k.st, Unmodelled("a failed object key that is not a Literal"))
      else
        var key := if k.c.Normal? then k.c.value else VLiteral(LiteralOf(props[i].key.token.value).token);
        var r := Eval(k.st, env, props[i].value, fuel);
        if !r.c.Normal? then r
        else
          LiveGrows(|st.envs|, |r.st.envs|, VMap(ObjectTag, acc));
          LiveGrows(|k.st.envs|, |r.st.envs|, key);
          KeepsTrans(st, k, r);
          var o := ObjectProps(r.st, env, props, i + 1, acc + [(key, r.c.value)], fuel);
          KeepsTrans(st, r, o);
          o
  }

  /** `interpretForStatement`: a range with the `..` step counts through
      its integer bounds; a Map converts with `mapToObject` and an array
      result is walked by index; anything else runs nothing. */
  function For(st: State, env: EnvId, init: Node, item: Option<Node>, range: Node, block: Node, fuel: nat): (o: Outcome)
    requires Pre(st, env)
    ensures Keeps(st, o)
    decreases fuel, 4, 0
  {
    var r := Eval(st, env, range, fuel);
    if !r.c.Normal? then r
    else match r.c.value
      case VRange(start, end, step) =>
        if step.value != Str("..") then
          Outcome(r.st, Throw(HostError("TypeError: Cannot read properties of undefined (reading 'value')")))
        else (match ToRealValue(start)
          case Failure(m) => Outcome(r.st, HostFailure(m))
          case Success(a) =>
            match ToRealValue(end)
            case Failure(m) => Outcome(r.st, HostFailure(m))
            case Success(b) =>
              if a.HPrim? && a.p.Num? && a.p.n.Int? && b.HPrim? && b.p.Num? && b.p.n.Int? then
                RangeLoop(r.st, env, init, block, a.p.n.i, b.p.n.i, fuel)
              else if a == HPrim(Num(NotANumber)) || b == HPrim(Num(NotANumber)) then Outcome(r.st, Normal(Undef))
              else Outcome(r.st, Unmodelled("a range whose ends are neither integers nor NaN")))
      case VMap(_, _) =>
        (match MapToObject(r.c.value)
         case Failure(m) => Outcome(r.st, HostFailure(m))
         case Success(h) =>
           if h.HArray? then
             MapToObjectLive(|r.st.envs|, r.c.value);
             MapLoop(r.st, env, init, item, block, h.items, 0, |r.st.envs|, fuel)
           else Outcome(r.st, Unmodelled("the enumeration order of an object's properties")))
      case VPrim(p) =>
        if p.Null? || p.Undefined? then Outcome(r.st, Throw(HostError(NullishProperty(p, "type"))))
        else Outcome(r.st, Normal(Undef))
      case _ => Outcome(r.st, Normal(Undef))
  }

  /** The range loop from `i` to `end` inclusive, one RangeTurn per
      number. */
  function RangeLoop(st: State, env: EnvId, init: Node, block: Node, i: int, end: int, fuel: nat): (o: Outcome)
    requires Pre(st, env)
    ensures Keeps(st, o)
    decreases fuel, 3, if end < i then 0 else end - i + 1
  {
    if end < i then Outcome(st, Normal(Undef))
    else
      var b := RangeTurn(st, env, init, block, i, fuel);
      if !b.c.Normal? then b
      else
        var o := RangeLoop(b.st, env, init, block, i + 1, end, fuel);
        KeepsTrans(st, b, o);
        o
  }

  /** One turn of the range loop: the block runs in a new child
      environment binding the loop variable to `i`. */
  function RangeTurn(st: State, env: EnvId, init: Node, block: Node, i: int, fuel: nat): (o: Outcome)
    requires Pre(st, env)
    ensures Keeps(st, o)
    decreases fuel, 3, 0
  {
    var ctx := |st.envs|;
    var d := DeclareInChild(st, env, Some(init), LoopIndex(i));
    if !d.c.Normal? then d
    else
      var b := Block(d.st, ctx, block, fuel);
      KeepsTrans(st, d, b);
      b
  }

  /** The `for...in` loop over a converted array from index `i` on, one
      ArrayTurn per element. */
  function MapLoop(st: State, env: EnvId, init: Node, item: Option<Node>, block: Node, items: seq<HostVal>, i: nat,
                   ghost n0: nat, fuel: nat): (o: Outcome)
    requires Pre(st, env) && i <= |items| && n0 <= |st.envs| && HostLive(n0, HArray(items))
    ensures Keeps(st, o)
    decreases fuel, 3, |items| - i
  {
    if i == |items| then Outcome(st, Normal(Undef))
    else
      assert items[i] in items;
      var b := ArrayTurn(st, env, init, item, block, i, items[i], n0, fuel);
      if !b.c.Normal? then b
      else
        var o := MapLoop(b.st, env, init, item, block, items, i + 1, n0, fuel);
        KeepsTrans(st, b, o);
        o
  }

  /** One turn of the `for...in` loop: the block runs in a new child
      environment binding the key `i` (as a string) and, when the loop
      names one, the item `h`. */
  function ArrayTurn(st: State, env: EnvId, init: Node, item: Option<Node>, block: Node, i: nat, h: HostVal,
                     ghost n0: nat, fuel: nat): (o: Outcome)
    requires Pre(st, env) && n0 <= |st.envs| && HostLive(n0, h)
    ensures Keeps(st, o)
    decreases fuel, 3, 0
  {
    var ctx := |st.envs|;
    var d := DeclareInChild(st, env, Some(init), KeyIndex(i));
    if !d.c.Normal? then d
    else
      var d2 := BindLoopItem(d.st, ctx, item, h, n0);
      if !d2.c.Normal? then d2
      else
        var b := Block(d2.st, ctx, block, fuel);
        KeepsTrans(st, d, d2);
        KeepsTrans(st, d2, b);
        b
  }

  /** Binding the loop's item to the converted element, when the loop
      names one. */
  function BindLoopItem(st: State, ctx: EnvId, item: Option<Node>, h: HostVal, ghost n0: nat): (o: Outcome)
    requires Pre(st, ctx) && n0 <= |st.envs| && HostLive(n0, h)
    ensures Keeps(st, o)
  {
    if item.None? then Outcome(st, Normal(Undef))
    else match HostToValue(h)
      case None => Outcome(st, Unmodelled("a plain object as a loop item"))
      case Some(v) =>
        HostToValueLive(n0, h);
        LiveGrows(n0, |st.envs|, v);
        DeclareIn(st, ctx, item, v, false)
  }

  /** `interpretSwitchStatement`: the subject, then the cases in order. */
  function Switch(st: State, env: EnvId, test: Node, cases: seq<Node>, fuel: nat): (o: Outcome)
    requires Pre(st, env)
    ensures Keeps(st, o)
    decreases fuel, 4, 0
  {
    var t := Eval(st, env, test, fuel);
    if !t.c.Normal? then t
    else Cases(t.st, env, t.c.value, cases, 0, fuel)
  }

  /** The case loop from case `i` on: a case without a test runs at once,
      a case whose test matches the subject runs, and when none does the
      result is `null`. */
  function Cases(st: State, env: EnvId, subject: Value, cases: seq<Node>, i: nat, fuel: nat): (o: Outcome)
    requires Pre(st, env) && i <= |cases| && Live(|st.envs|, subject)
    ensures Keeps(st, o)
    decreases fuel, 3, |cases| - i
  {
    if i == |cases| then Outcome(st, Normal(VPrim(Null)))
    else if !(cases[i].CaseBlockStatement? || cases[i].DefaultCaseBlockStatement?) then
      Outcome(st, Unmodelled("a switch case that is not a case block"))
    else if cases[i].caseTest.None? then Block(st, env, cases[i].block, fuel)
    else
      var t := Eval(st, env, cases[i].caseTest.value, fuel);
      if !t.c.Normal? then t
      else match CaseMatches(t.c.value, subject)
        case Failure(m) => Outcome(t.st, HostFailure(m))
        case Success(hit) =>
          if hit then Block(t.st, env, cases[i].block, fuel)
          else
            LiveGrows(|st.envs|, |t.st.envs|, subject);
            Cases(t.st, env, subject, cases, i + 1, fuel)
  }

  /** `interpretExposeStatement`: a function or variable declaration is
      run and its name exposed; any other body is not run at all. */
  function Expose(st: State, env: EnvId, body: Node, fuel: nat): (o: Outcome)
    requires Pre(st, env)
    ensures Keeps(st, o)
    decreases fuel, 1, 0
  {
    if !(body.FunctionDeclaration? || body.VariableDeclaration?) then Outcome(st, Normal(Undef))
    else
      var r := Exec(st, env, body, fuel);
      if !r.c.Normal? then r
      else match SetExpose(r.st.envs, env, body.name)
        case Failure(m) => Outcome(r.st, HostFailure(m))
        case Success(fs) =>
          SetExposeSound(r.st.envs, env, body.name);
          Outcome(r.st.(envs := fs), Normal(Undef))
  }

  /** `interpretTaskStatement`: a function declaration tagged as a task. */
  function Task(st: State, env: EnvId, fn: Node): (o: Outcome)
    requires Pre(st, env)
    ensures Keeps(st, o)
  {
    if fn.FunctionDeclaration? then FunDeclStep(st, env, fn.name, fn.arguments, fn.block, TaskFn)
    else Outcome(st, Unmodelled("a task that is not a function declaration"))
  }

  /** `interpretRunStatement`: the callee, then the stages in order. */
  function Run(st: State, env: EnvId, callee: Node, stages: seq<Node>, fuel: nat): (o: Outcome)
    requires Pre(st, env)
    ensures Keeps(st, o)
    decreases fuel, 2, 0
  {
    var res := Exec(st, env, callee, fuel);
    if !res.c.Normal? then res
    else Stages(res.st, env, res.c.value, stages, 0, Undef, fuel)
  }

  /** The stage loop from stage `i` on, one StageTurn per stage; the
      result is the last stage's value. */
  function Stages(st: State, env: EnvId, res: Value, stages: seq<Node>, i: nat, last: Value, fuel: nat): (o: Outcome)
    requires Pre(st, env) && i <= |stages| && Live(|st.envs|, res) && Live(|st.envs|, last)
    ensures Keeps(st, o)
    decreases fuel, 1, |stages| - i
  {
    if i == |stages| then Outcome(st, Normal(last))
    else
      var r := StageTurn(st, env, res, stages[i], fuel);
      if !r.c.Normal? then r
      else
        var o := Stages(r.st, env, res, stages, i + 1, r.c.value, fuel);
        KeepsTrans(st, r, o);
        o
  }

  /** One stage: it runs in a new child environment where its first
      argument is bound to the callee's result `res`. */
  function StageTurn(st: State, env: EnvId, res: Value, stage: Node, fuel: nat): (o: Outcome)
    requires Pre(st, env) && Live(|st.envs|, res)
    ensures Keeps(st, o) && Live(|o.st.envs|, res)
    decreases fuel, 1, 0
  {
    var ctx := |st.envs|;
    var d := DeclareInChild(st, env, StageParam(stage), res);
    LiveGrows(|st.envs|, |d.st.envs|, res);
    if !d.c.Normal? then d
    else
      var r := Exec(d.st, ctx, stage, fuel);
      KeepsTrans(st, d, r);
      LiveGrows(|st.envs|, |r.st.envs|, res);
      r
  }

  /** `interpretWaitStatement`: the run statement it holds. */
  function Wait(st: State, env: EnvId, async: Node, fuel: nat): (o: Outcome)
    requires Pre(st, env)
    ensures Keeps(st, o)
    decreases fuel, 3, 0
  {
    if async.RunStatement? then Run(st, env, async.callee, async.to, fuel)
    else Outcome(st, Unmodelled("a wait whose body is not a run statement"))
  }

  /** The ToExpression case: the stage's block; an exception from it is
      recorded and thrown again as "ToExpression error". */
  function ToStage(st: State, env: EnvId, block: Node, fuel: nat): (o: Outcome)
    requires Pre(st, env)
    ensures Keeps(st, o)
    decreases fuel, 3, 0
  {
    var b := Block(st, env, block, fuel);
    if b.c.Throw? then Raise(b.st, env, "ToExpression error: " + ExcText(b.c.exc), None)
    else b
  }

  /** `interpret(program)`: the statements of the program in order (a
      return does not stop it). When one throws, the first error ever
      recorded is thrown instead; with none recorded the exception is
      swallowed and the value of the last completed statement returned. */
  function Interpret(st: State, env: EnvId, program: Node, fuel: nat): (o: Outcome)
    requires Pre(st, env)
    ensures Keeps(st, o)
  {
    if !program.Program? then Outcome(st, Unmodelled("a program that is not a Program node"))
    else RunProgram(st, env, program.body, 0, Undef, fuel)
  }

  function RunProgram(st: State, env: EnvId, body: seq<Node>, i: nat, last: Value, fuel: nat): (o: Outcome)
    requires Pre(st, env) && i <= |body| && Live(|st.envs|, last)
    ensures Keeps(st, o)
    decreases |body| - i
  {
    if i == |body| then Outcome(st, Normal(last))
    else
      var r := Exec(st, env, body[i], fuel);
      match r.c
      case Normal(v) => RunProgram(r.st, env, body, i + 1, v, fuel)
      case Throw(_) =>
        (match FirstError(r.st.errors)
         case Some(e) => Outcome(r.st, Throw(Thrown(e)))
         case None =>
           LiveGrows(|st.envs|, |r.st.envs|, last);
           Outcome(r.st, Normal(last)))
      case _ => r
  }
}
