/** What the evaluator of module Evaluation guarantees about blocks,
    conditionals, switches, loops, functions, declarations, `expose`,
    `run ... to`, array literals and `interpret` (src/interpreter/index.ts). */
module EvaluationFacts {
  import opened Wrappers
  import opened Host
  import opened TokenKinds
  import opened Ast
  import opened Values
  import opened Literals
  import opened RealValues
  import opened Environments
  import opened Errors
  import opened TokenUnits
  import opened InterpreterState
  import opened Evaluation

  // ---------------------------------------------------------------------
  // Blocks

  /** Nothing after a direct ReturnStatement runs: the block behaves as
      the block cut right after it. */
  lemma {:induction false} BlockStopsAtReturn(st: State, env: EnvId, body: seq<Node>, i: nat, k: nat, last: Value, fuel: nat)
    requires Pre(st, env) && i <= k < |body| && Live(|st.envs|, last)
    requires body[k].ReturnStatement?
    ensures BlockFrom(st, env, body, i, last, fuel) == BlockFrom(st, env, body[..k + 1], i, last, fuel)
    decreases k - i
  {
    var cut := body[..k + 1];
    assert cut[i] == body[i];
    var r := Exec(st, env, body[i], fuel);
    if r.c.Normal? && !body[i].ReturnStatement? {
      BlockStopsAtReturn(r.st, env, body, i + 1, k, r.c.value, fuel);
    }
  }

  /** Statements run in order and the block ends with its last statement:
      with no ReturnStatement among them, running `body + [s]` is running
      `body` and then `s` from where `body` left off. */
  lemma {:induction false} BlockRunsInOrder(st: State, env: EnvId, body: seq<Node>, s: Node, i: nat, last: Value, fuel: nat)
    requires Pre(st, env) && i <= |body| && Live(|st.envs|, last)
    requires forall j :: i <= j < |body| ==> !body[j].ReturnStatement?
    ensures var r := BlockFrom(st, env, body, i, last, fuel);
      BlockFrom(st, env, body + [s], i, last, fuel) == if r.c.Normal? then Exec(r.st, env, s, fuel) else r
    decreases |body| - i
  {
    var all := body + [s];
    assert all[i] == if i < |body| then body[i] else s;
    if i < |body| {
      var r := Exec(st, env, body[i], fuel);
      if r.c.Normal? {
        BlockRunsInOrder(r.st, env, body, s, i + 1, r.c.value, fuel);
      }
    }
  }

  /** An empty block gives `undefined` and changes nothing. */
  lemma {:induction false} EmptyBlock(st: State, env: EnvId, id: Option<Token>, fuel: nat)
    requires Pre(st, env)
    ensures Block(st, env, BlockStatement([], id), fuel) == Outcome(st, Normal(Undef))
  {
  }

  // ---------------------------------------------------------------------
  // Conditionals

  /** An `if` runs the consequent for a condition converting to `true`,
      the alternate for `false`, and otherwise records and throws
      "Condition must be a boolean". */
  lemma {:induction false} IfRules(st: State, env: EnvId, test: Node, consequent: Node, alternate: Node, fuel: nat)
    requires Pre(st, env)
    ensures var c := Eval(st, env, test, fuel);
      c.c.Normal? && ToRealValue(c.c.value).Success? ==>
        var h := ToRealValue(c.c.value).value;
        var o := Evaluation.If(st, env, test, consequent, alternate, fuel);
        && (h == HPrim(Bool(true)) ==> o == Exec(c.st, env, consequent, fuel))
        && (h == HPrim(Bool(false)) ==> o == Exec(c.st, env, alternate, fuel))
        && (!(h.HPrim? && h.p.Bool?) ==>
              && o.c.Throw? && o.c.exc.Thrown?
              && o.c.exc.stack == NewErrorStack("Condition must be a boolean", Some(c.st.envs[env].filePath), None)
              && o.st.errors == c.st.errors + [o.c.exc.stack])
  {
  }

  /** A comparison evaluates to a boolean-kind token holding the text
      "true" or "false". */
  lemma {:induction false} ComparisonGivesBooleanText(st: State, env: EnvId, left: Node, op: Token, right: Node, fuel: nat)
    requires Pre(st, env)
    ensures var c := Logic(st, env, left, op, right, fuel);
      c.c.Normal? ==>
        && c.c.value.VToken? && c.c.value.token.kind == Boolean
        && (c.c.value.token.value == Str("true") || c.c.value.token.value == Str("false"))
  {
    var l := Eval(st, env, left, fuel);
    if l.c.Normal? {
      var r := Eval(l.st, env, right, fuel);
      if r.c.Normal? && l.c.value.VToken? {
        LogicIsBoolean(l.c.value.token, op, r.c.value);
      }
    }
  }

  /** A comparison expression is evaluated by `Logic` on its parts. */
  lemma {:induction false} EvalCompare(st: State, env: EnvId, left: Node, op: Token, right: Node, fuel: nat)
    requires Pre(st, env)
    requires fuel > 0
    ensures Eval(st, env, CompareExpression(left, op, right), fuel) == Logic(st, env, left, op, right, fuel - 1)
  {
  }

  /** So an `if` over a comparison that evaluates runs its consequent even
      when the comparison is false: the text "false" is truthy. */
  lemma {:induction false} IfOnComparisonTakesConsequent(st: State, env: EnvId, test: Node, consequent: Node, alternate: Node, fuel: nat)
    requires Pre(st, env) && test.CompareExpression?
    ensures var c := Eval(st, env, test, fuel);
      c.c.Normal? ==> Evaluation.If(st, env, test, consequent, alternate, fuel) == Exec(c.st, env, consequent, fuel)
  {
    ComparisonNodeGivesBooleanText(st, env, test, fuel);
    IfOnBooleanText(st, env, test, consequent, alternate, fuel);
  }

  /** The same on the comparison node: evaluating it gives a boolean-kind
      token holding "true" or "false". */
  lemma {:induction false} ComparisonNodeGivesBooleanText(st: State, env: EnvId, test: Node, fuel: nat)
    requires Pre(st, env) && test.CompareExpression?
    ensures var c := Eval(st, env, test, fuel);
      c.c.Normal? ==>
        && c.c.value.VToken? && c.c.value.token.kind == Boolean
        && (c.c.value.token.value == Str("true") || c.c.value.token.value == Str("false"))
  {
    if fuel > 0 {
      EvalCompare(st, env, test.left, test.operator, test.right, fuel);
      ComparisonGivesBooleanText(st, env, test.left, test.operator, test.right, fuel - 1);
    }
  }

  /** An `if` whose condition evaluates to a boolean-kind token holding
      "true" or "false" runs its consequent either way. */
  lemma {:induction false} IfOnBooleanText(st: State, env: EnvId, test: Node, consequent: Node, alternate: Node, fuel: nat)
    requires Pre(st, env)
    ensures var c := Eval(st, env, test, fuel);
      c.c.Normal? && c.c.value.VToken? && c.c.value.token.kind == Boolean
      && (c.c.value.token.value == Str("true") || c.c.value.token.value == Str("false")) ==>
        Evaluation.If(st, env, test, consequent, alternate, fuel) == Exec(c.st, env, consequent, fuel)
  {
    var c := Eval(st, env, test, fuel);
    if c.c.Normal? && c.c.value.VToken? && c.c.value.token.kind == Boolean
       && (c.c.value.token.value == Str("true") || c.c.value.token.value == Str("false")) {
      assert ToRealValue(c.c.value) == Success(HPrim(Bool(true)));
      IfRules(st, env, test, consequent, alternate, fuel);
    }
  }

  /** A ternary compares the stored text with "true", so over a comparison
      it takes the consequent exactly when the comparison holds. */
  lemma {:induction false} TernaryOnComparison(st: State, env: EnvId, test: Node, consequent: Node, alternate: Node, fuel: nat)
    requires Pre(st, env) && test.CompareExpression?
    ensures var c := Eval(st, env, test, fuel);
      c.c.Normal? ==>
        && c.c.value.VToken?
        && Evaluation.Ternary(st, env, test, consequent, alternate, fuel) ==
             if c.c.value.token.value == Str("true") then Exec(c.st, env, consequent, fuel) else Exec(c.st, env, alternate, fuel)
  {
    ComparisonNodeGivesBooleanText(st, env, test, fuel);
    TernaryOnBooleanToken(st, env, test, consequent, alternate, fuel);
  }

  /** A ternary whose condition evaluates to a boolean-kind token runs the
      consequent exactly when the token's text is "true". */
  lemma {:induction false} TernaryOnBooleanToken(st: State, env: EnvId, condition: Node, consequent: Node, alternate: Node, fuel: nat)
    requires Pre(st, env)
    ensures var c := Eval(st, env, condition, fuel);
      c.c.Normal? && c.c.value.VToken? && c.c.value.token.kind == Boolean ==>
        Evaluation.Ternary(st, env, condition, consequent, alternate, fuel) ==
          if c.c.value.token.value == Str("true") then Exec(c.st, env, consequent, fuel) else Exec(c.st, env, alternate, fuel)
  {
  }

  // ---------------------------------------------------------------------
  // Switch

  /** A case whose test is a literal that is not an identifier: its test
      evaluates to its own token without touching the state. */
  predicate PlainCase(c: Node)
  {
    (c.CaseBlockStatement? || c.DefaultCaseBlockStatement?) &&
    (c.caseTest.Some? ==> c.caseTest.value.Literal? && c.caseTest.value.token.kind != Identifier)
  }

  /** The case a switch over plain cases selects, from case `i` on: the
      first without a test or whose test token has the subject's kind and
      value. */
  function FirstCase(cases: seq<Node>, subject: Token, i: nat): (r: Option<nat>)
    requires i <= |cases| && forall j :: i <= j < |cases| ==> PlainCase(cases[j])
    ensures r.Some? ==> i <= r.value < |cases|
    decreases |cases| - i
  {
    if i == |cases| then None
    else
      assert PlainCase(cases[i]);
      if cases[i].caseTest.None? then Some(i)
      else
        var t := cases[i].caseTest.value.token;
        if t.kind == subject.kind && StrictEq(t.value, subject.value) then Some(i)
        else FirstCase(cases, subject, i + 1)
  }

  /** A token test matches a token subject exactly when kind and value are
      strictly equal. */
  lemma {:induction false} TokenCaseMatches(t: Token, u: Token)
    ensures CaseMatches(VToken(t), VToken(u)) == Success(t.kind == u.kind && StrictEq(t.value, u.value))
  {
  }

  /** Over plain cases and a token subject the switch runs the block of the
      first case selected, in source order, and gives `null` when none is. */
  lemma {:induction false} SwitchTakesFirstMatch(st: State, env: EnvId, subject: Token, cases: seq<Node>, i: nat, fuel: nat)
    requires Pre(st, env) && i <= |cases| && fuel > 0
    requires forall j :: i <= j < |cases| ==> PlainCase(cases[j])
    ensures Cases(st, env, VToken(subject), cases, i, fuel) ==
      match FirstCase(cases, subject, i)
      case Some(j) => Block(st, env, cases[j].block, fuel)
      case None => Outcome(st, Normal(VPrim(Null)))
    decreases |cases| - i
  {
    if i < |cases| && cases[i].caseTest.Some? {
      var t := cases[i].caseTest.value.token;
      assert Eval(st, env, cases[i].caseTest.value, fuel) == Outcome(st, Normal(VToken(t)));
      TokenCaseMatches(t, subject);
      SwitchTakesFirstMatch(st, env, subject, cases, i + 1, fuel);
    }
  }

  // ---------------------------------------------------------------------
  // Loops

  /** The names `setup` binds in every new environment. */
  predicate SetupName(k: Prim)
  {
    k == Str("true") || k == Str("false") || k == Str("print")
  }

  /** The range loop is its turns one after the other. */
  lemma {:induction false} RangeLoopUnfold(st: State, env: EnvId, init: Node, block: Node, i: int, end: int, fuel: nat)
    requires Pre(st, env) && i <= end
    ensures var b := RangeTurn(st, env, init, block, i, fuel);
      RangeLoop(st, env, init, block, i, end, fuel) == if b.c.Normal? then RangeLoop(b.st, env, init, block, i + 1, end, fuel) else b
  {
  }

  /** A `for...in` loop with an element left is its first turn followed,
      after a normal turn, by the loop from the next element. */
  lemma {:induction false} MapLoopUnfold(st: State, env: EnvId, init: Node, item: Option<Node>, block: Node, items: seq<HostVal>, i: nat,
                      n0: nat, fuel: nat)
    requires Pre(st, env) && i < |items| && n0 <= |st.envs| && HostLive(n0, HArray(items))
    ensures items[i] in items
    ensures var b := ArrayTurn(st, env, init, item, block, i, items[i], n0, fuel);
      MapLoop(st, env, init, item, block, items, i, n0, fuel)
        == if b.c.Normal? then MapLoop(b.st, env, init, item, block, items, i + 1, n0, fuel) else b
  {
    assert items[i] in items;
  }

  /** The environments a range loop from `i` to `end` over an empty block
      adds to `fs`: one new child of `env` per number, in order, each
      binding the loop variable to that number; no existing environment is
      touched. */
  function LoopStore(fs: Store, env: EnvId, dirname: string, t: Token, i: int, end: int): (r: Store)
    requires env < |fs|
    ensures |r| == |fs| + (if end < i then 0 else end - i + 1) && r[..|fs|] == fs
    ensures forall e :: |fs| <= e < |r| ==>
              r[e].parent == Some(env) && t.value in r[e].vars && r[e].vars[t.value] == LoopIndex(i + (e - |fs|))
    decreases if end < i then 0 else end - i + 1
  {
    if end < i then fs
    else
      var g := NewEnv(fs, Some(env), dirname);
      var next := g[|fs| := g[|fs|].(vars := g[|fs|].vars[t.value := LoopIndex(i)])];
      var r := LoopStore(next, env, dirname, t, i + 1, end);
      assert r[..|fs|] == r[..|next|][..|fs|];
      r
  }

  /** Every turn of a range loop, whatever its block, declares the loop
      variable, bound to the number, in a new child of the loop's
      environment and runs the block in that child. */
  lemma {:induction false} RangeLoopFirstTurn(st: State, env: EnvId, t: Token, block: Node, i: int, fuel: nat)
    requires Pre(st, env) && !SetupName(t.value)
    ensures var g := NewEnv(st.envs, Some(env), st.dirname);
      var ctx := |st.envs|;
      var next := g[ctx := g[ctx].(vars := g[ctx].vars[t.value := LoopIndex(i)])];
      && Sound(next) && ctx < |next| && next[..ctx] == st.envs && next[ctx].parent == Some(env)
      && RangeTurn(st, env, Literal(t), block, i, fuel) == Block(st.(envs := next), ctx, block, fuel)
  {
    var ctx := |st.envs|;
    var g := NewEnv(st.envs, Some(env), st.dirname);
    var next := g[ctx := g[ctx].(vars := g[ctx].vars[t.value := LoopIndex(i)])];
    assert Declare(g, ctx, Some(Literal(t)), LoopIndex(i), false) == Success(next);
    var d := DeclareInChild(st, env, Some(Literal(t)), LoopIndex(i));
    assert d == Outcome(st.(envs := next), Normal(Undef));
  }

  /** A range loop over an empty block adds exactly the environments of
      LoopStore and gives `undefined`. */
  lemma {:induction false} RangeLoopOverEmptyBlock(st: State, env: EnvId, t: Token, block: Node, i: int, end: int, fuel: nat)
    requires Pre(st, env) && block.BlockStatement? && block.body == [] && !SetupName(t.value)
    ensures RangeLoop(st, env, Literal(t), block, i, end, fuel)
            == Outcome(st.(envs := LoopStore(st.envs, env, st.dirname, t, i, end)), Normal(Undef))
    decreases if end < i then 0 else end - i + 1
  {
    if end >= i {
      RangeLoopFirstTurn(st, env, t, block, i, fuel);
      var g := NewEnv(st.envs, Some(env), st.dirname);
      var ctx := |st.envs|;
      var next := g[ctx := g[ctx].(vars := g[ctx].vars[t.value := LoopIndex(i)])];
      EmptyBlock(st.(envs := next), ctx, block.id, fuel);
      RangeLoopUnfold(st, env, Literal(t), block, i, end, fuel);
      assert LoopStore(st.envs, env, st.dirname, t, i, end) == LoopStore(next, env, st.dirname, t, i + 1, end);
      RangeLoopOverEmptyBlock(st.(envs := next), env, t, block, i + 1, end, fuel);
    }
  }

  // ---------------------------------------------------------------------
  // Functions

  /** A function declaration binds its name, in the current environment
      and not static, to a closure over that environment; a name already
      declared there fails and changes nothing. */
  lemma {:induction false} FunctionDeclarationBinds(st: State, env: EnvId, t: Token, params: seq<Node>, block: Node, pre: Option<Token>, fuel: nat)
    requires Pre(st, env) && fuel > 0
    ensures var o := Exec(st, env, FunctionDeclaration(Literal(t), params, block, pre), fuel);
      && (t.value in st.envs[env].vars ==>
            o == Outcome(st, HostFailure("Variable " + ToStr(t.value) + " already declared")))
      && (t.value !in st.envs[env].vars ==>
            && o.c == Normal(Undef) && o.st.errors == st.errors
            && o.st.envs == st.envs[env := st.envs[env].(vars := st.envs[env].vars[t.value := VClosure(PlainFn, params, block, env)])])
  {
  }

  /** Calling a closure runs it in a new environment, a child of the one
      it was defined in. */
  lemma {:induction false} CallRunsInChildOfHome(st: State, tag: FnTag, params: seq<Node>, block: Node, home: EnvId, args: seq<Value>, fuel: nat)
    requires Sound(st.envs) && home < |st.envs| && Live(|st.envs|, VArray(args))
    ensures var o := Apply(st, VClosure(tag, params, block, home), args, fuel);
      |st.envs| < |o.st.envs| && o.st.envs[|st.envs|].parent == Some(home)
  {
    var f := VClosure(tag, params, block, home);
    var first := if |args| > 0 then args[0] else Undef;
    assert |args| > 0 ==> args[0] in args;
    NewEnvSound(st.envs, Some(home), st.dirname);
    var ctx := |st.envs|;
    var st1 := st.(envs := NewEnv(st.envs, Some(home), st.dirname));
    LiveGrows(|st.envs|, |st1.envs|, first);
    var bound := if tag == LambdaFn then BindLambda(st1.envs, ctx, params, first) else BindArgs(st1.envs, ctx, params, first);
    if bound.Success? {
      var o := Block(st1.(envs := bound.value), ctx, block, fuel);
      assert Apply(st, f, args, fuel) == o;
      ExtendsTrans(st1.envs, bound.value, o.st.envs);
    }
  }

  /** Once callee and arguments are evaluated, a call to `print` gives
      `undefined` when the argument converts, and otherwise records and
      throws "CallExpression error: " followed by the conversion's own
      error text, at the callee's token; a call to a closure is not
      caught, so its exceptions pass through unchanged. */
  lemma {:induction false} CallCatchesPrint(st: State, env: EnvId, callee: Node, args: seq<Node>, fuel: nat)
    requires Pre(st, env)
    ensures var f := Eval(st, env, callee, fuel);
      var a := EvalList(f.st, env, args, 0, [], fuel);
      f.c.Normal? && a.c.Normal? && f.c.value.VHost? ==>
        var m := Print(if |a.c.value.items| > 0 then a.c.value.items[0] else Undef);
        && (m.Success? ==> Call(st, env, callee, args, fuel) == Outcome(a.st, Normal(Undef)))
        && (m.Failure? && !StartsWith(m.error, "unsupported: ") ==>
              Call(st, env, callee, args, fuel) ==
              Raise(a.st, env, "CallExpression error: " + ErrorText(m.error), CalleePosition(callee)))
    ensures var f := Eval(st, env, callee, fuel);
      var a := EvalList(f.st, env, args, 0, [], fuel);
      f.c.Normal? && a.c.Normal? && f.c.value.VClosure? ==>
        Live(|a.st.envs|, f.c.value) &&
        Call(st, env, callee, args, fuel) == Apply(a.st, f.c.value, a.c.value.items, fuel)
  {
    var f := Eval(st, env, callee, fuel);
    if f.c.Normal? {
      var a := EvalList(f.st, env, args, 0, [], fuel);
      if a.c.Normal? {
        LiveGrows(|f.st.envs|, |a.st.envs|, f.c.value);
      }
    }
  }

  /** `print([])` throws: the empty array reaches `mapToObject`, which
      reads the first entry of an empty Map; `print(1..3)` throws too,
      since a range record is not a Map. A Map not tagged as an array is
      logged through `Object.fromEntries` and never throws. */
  lemma PrintFailures(start: Value, end: Value, step: Token, entries: seq<(Value, Value)>)
    ensures Print(VMap(ArrayTag, [])) == Failure("TypeError: Cannot read properties of undefined (reading '0')")
    ensures Print(VRange(start, end, step)) == Failure("obj is not Map , current type is : object")
    ensures Print(VMap(ObjectTag, entries)) == Success(Undef)
  {
    DefaultBranch(VRange(start, end, step));
  }

  /** `apply` hands a function only its first argument, and a callee that
      is not a function is the call's value. */
  lemma {:induction false} CallSeesFirstArgumentOnly(st: State, f: Value, args: seq<Value>, fuel: nat)
    requires Sound(st.envs) && Live(|st.envs|, f) && Live(|st.envs|, VArray(args)) && |args| > 0
    ensures Live(|st.envs|, VArray([args[0]]))
    ensures Apply(st, f, args, fuel) == Apply(st, f, [args[0]], fuel)
    ensures !f.VClosure? && !f.VHost? ==> Apply(st, f, args, fuel) == Outcome(st, Normal(f))
  {
    assert args[0] in args;
  }

  /** The parameters named by fresh, distinct Literal names. */
  predicate FreshParams(fs: Store, ctx: EnvId, params: seq<Node>, i: nat)
    requires ctx < |fs|
  {
    && (forall j :: i <= j < |params| ==> params[j].Literal? && !SetupName(params[j].token.value) && params[j].token.value !in fs[ctx].vars)
    && (forall j, k :: i <= j < k < |params| ==> params[j].Literal? && params[k].Literal? ==> params[j].token.value != params[k].token.value)
  }

  /** Declaring a fresh Literal name adds its binding and nothing else. */
  lemma {:induction false} DeclareFresh(fs: Store, ctx: EnvId, n: Node, v: Value)
    requires ctx < |fs| && n.Literal? && n.token.value !in fs[ctx].vars
    ensures Declare(fs, ctx, Some(n), v, false) == Success(fs[ctx := fs[ctx].(vars := fs[ctx].vars[n.token.value := v])])
  {
  }

  /** A lambda given more items than it has parameters fails once binding
      reaches the first item without one. */
  lemma {:induction false} LambdaSurplusFails(fs: Store, ctx: EnvId, params: seq<Node>, items: seq<Value>, i: nat)
    requires Sound(fs) && ctx < |fs| && i < |items| && Live(|fs|, VArray(items))
    requires FreshParams(fs, ctx, params, i) && |params| < |items|
    ensures BindItems(fs, ctx, params, items, i, true) == Failure(NameUndefined)
    decreases |items| - i
  {
    if i < |params| {
      assert items[i] in items;
      var next := fs[ctx := fs[ctx].(vars := fs[ctx].vars[params[i].token.value := items[i]])];
      DeclareFresh(fs, ctx, params[i], items[i]);
      DeclareSound(fs, ctx, Some(params[i]), items[i], false);
      LambdaSurplusFails(next, ctx, params, items, i + 1);
    }
  }

  /** The bindings `vars` gets when items from `i` on are bound by
      position to fresh distinct parameter names: each item with a
      parameter is bound to it, surplus items are dropped, and the old
      bindings stay as they were. */
  function PositionalVars(vars: map<Prim, Value>, params: seq<Node>, items: seq<Value>, i: nat): (r: map<Prim, Value>)
    requires i <= |items|
    requires forall j :: i <= j < |params| ==> params[j].Literal? && params[j].token.value !in vars
    requires forall j, k :: i <= j < k < |params| ==> params[j].token.value != params[k].token.value
    ensures r.Keys == vars.Keys + (set j | i <= j < |params| && j < |items| :: params[j].token.value)
    ensures forall k :: k in vars ==> r[k] == vars[k]
    ensures forall j :: i <= j < |params| && j < |items| ==> r[params[j].token.value] == items[j]
    decreases |items| - i
  {
    if i == |items| || i >= |params| then vars
    else
      var key := params[i].token.value;
      var r := PositionalVars(vars[key := items[i]], params, items, i + 1);
      assert (set j | i <= j < |params| && j < |items| :: params[j].token.value)
          == {key} + (set j | i + 1 <= j < |params| && j < |items| :: params[j].token.value);
      r
  }

  /** Binding item `i` to a fresh Literal parameter adds that one binding
      and goes on with item `i + 1`. */
  lemma {:induction false} BindFreshItem(fs: Store, ctx: EnvId, params: seq<Node>, items: seq<Value>, i: nat, lambda: bool)
    requires Sound(fs) && ctx < |fs| && i < |items| && i < |params| && Live(|fs|, VArray(items))
    requires params[i].Literal? && params[i].token.value !in fs[ctx].vars
    ensures var next := fs[ctx := fs[ctx].(vars := fs[ctx].vars[params[i].token.value := items[i]])];
      && Sound(next) && |next| == |fs| && next[ctx].vars.Keys == fs[ctx].vars.Keys + {params[i].token.value}
      && BindItems(fs, ctx, params, items, i, lambda) == BindItems(next, ctx, params, items, i + 1, lambda)
  {
    assert items[i] in items;
    DeclareFresh(fs, ctx, params[i], items[i]);
    DeclareSound(fs, ctx, Some(params[i]), items[i], false);
  }

  /** Binding by position from item `i` on under fresh distinct parameter
      names, when every item has a parameter or surplus items are dropped
      (a declared function): only the bindings of PositionalVars are
      added. */
  lemma {:induction false} BindItemsByPosition(fs: Store, ctx: EnvId, params: seq<Node>, items: seq<Value>, i: nat, lambda: bool)
    requires Sound(fs) && ctx < |fs| && i <= |items| && Live(|fs|, VArray(items))
    requires FreshParams(fs, ctx, params, i) && (!lambda || |items| <= |params|)
    ensures BindItems(fs, ctx, params, items, i, lambda)
            == Success(fs[ctx := fs[ctx].(vars := PositionalVars(fs[ctx].vars, params, items, i))])
    decreases |items| - i, 1
  {
    if i < |items| {
      if i >= |params| {
        BindItemsByPosition(fs, ctx, params, items, i + 1, lambda);
      } else {
        BindItemWithParam(fs, ctx, params, items, i, lambda);
      }
    } else {
      assert fs[ctx := fs[ctx].(vars := PositionalVars(fs[ctx].vars, params, items, i))] == fs;
    }
  }

  /** The step of BindItemsByPosition for an item that has a parameter. */
  lemma {:induction false} BindItemWithParam(fs: Store, ctx: EnvId, params: seq<Node>, items: seq<Value>, i: nat, lambda: bool)
    requires Sound(fs) && ctx < |fs| && i < |items| && i < |params| && Live(|fs|, VArray(items))
    requires FreshParams(fs, ctx, params, i) && (!lambda || |items| <= |params|)
    ensures BindItems(fs, ctx, params, items, i, lambda)
            == Success(fs[ctx := fs[ctx].(vars := PositionalVars(fs[ctx].vars, params, items, i))])
    decreases |items| - i, 0
  {
    var vars1 := fs[ctx].vars[params[i].token.value := items[i]];
    var next := fs[ctx := fs[ctx].(vars := vars1)];
    BindFreshItem(fs, ctx, params, items, i, lambda);
    assert FreshParams(next, ctx, params, i + 1);
    BindItemsByPosition(next, ctx, params, items, i + 1, lambda);
    var x := PositionalVars(vars1, params, items, i + 1);
    assert PositionalVars(fs[ctx].vars, params, items, i) == x;
    assert next[ctx := next[ctx].(vars := x)] == fs[ctx := fs[ctx].(vars := x)];
  }

  // ---------------------------------------------------------------------
  // Declarations

  /** A variable declaration statement is evaluated by VarDecl. */
  lemma {:induction false} ExecVariableDeclaration(st: State, env: EnvId, t: Token, value: Node, isConst: bool, pre: Option<Token>, fuel: nat)
    requires Pre(st, env) && fuel > 0
    ensures Exec(st, env, VariableDeclaration(Literal(t), value, isConst, pre), fuel) == VarDecl(st, env, Literal(t), value, isConst, fuel - 1)
  {
  }

  /** `declareVariable` of a Literal name in an environment: a name the
      environment holds fails; a fresh one is bound to the value, static
      exactly when asked or already static, and no other environment
      changes. */
  lemma {:induction false} DeclareLiteralRules(st: State, env: EnvId, t: Token, v: Value, isConst: bool)
    requires Sound(st.envs) && env < |st.envs| && Live(|st.envs|, v)
    ensures var o := DeclareIn(st, env, Some(Literal(t)), v, isConst);
      && (t.value in st.envs[env].vars ==> o == Outcome(st, HostFailure("Variable " + ToStr(t.value) + " already declared")))
      && (t.value !in st.envs[env].vars ==>
            && o.c == Normal(Undef) && o.st.errors == st.errors && |o.st.envs| == |st.envs|
            && (forall e :: 0 <= e < |st.envs| && e != env ==> o.st.envs[e] == st.envs[e])
            && o.st.envs[env].vars == st.envs[env].vars[t.value := v]
            && (t.value in o.st.envs[env].statics <==> isConst || t.value in st.envs[env].statics))
  {
    var d := Declare(st.envs, env, Some(Literal(t)), v, isConst);
    if t.value !in st.envs[env].vars {
      var f := st.envs[env];
      assert d.Success? && d.value == st.envs[env := f.(vars := f.vars[t.value := v],
                                                    statics := if isConst then f.statics + {t.value} else f.statics)];
    }
  }

  /** A variable declaration evaluates its value and then declares it in
      the current environment, static exactly when it is `cst`; a name
      already declared there fails. */
  lemma {:induction false} VariableDeclarationRules(st: State, env: EnvId, t: Token, value: Node, isConst: bool, pre: Option<Token>, fuel: nat)
    requires Pre(st, env) && fuel > 0
    ensures var v := Eval(st, env, value, fuel - 1);
      var o := Exec(st, env, VariableDeclaration(Literal(t), value, isConst, pre), fuel);
      && (!v.c.Normal? ==> o == v)
      && (v.c.Normal? && t.value in v.st.envs[env].vars ==>
            o == Outcome(v.st, HostFailure("Variable " + ToStr(t.value) + " already declared")))
      && (v.c.Normal? && t.value !in v.st.envs[env].vars ==>
            && o.c == Normal(Undef) && o.st.errors == v.st.errors && |o.st.envs| == |v.st.envs|
            && (forall e :: 0 <= e < |v.st.envs| && e != env ==> o.st.envs[e] == v.st.envs[e])
            && o.st.envs[env].vars == v.st.envs[env].vars[t.value := v.c.value]
            && (t.value in o.st.envs[env].statics <==> isConst || t.value in v.st.envs[env].statics))
  {
    ExecVariableDeclaration(st, env, t, value, isConst, pre, fuel);
    var v := Eval(st, env, value, fuel - 1);
    if v.c.Normal? {
      DeclareLiteralRules(v.st, env, t, v.c.value, isConst);
    }
  }

  /** Declaring a name the current environment already holds fails, once
      the value has been evaluated. */
  lemma {:induction false} RedeclarationFails(st: State, env: EnvId, t: Token, value: Node, isConst: bool, pre: Option<Token>, fuel: nat)
    requires Pre(st, env) && fuel > 0 && t.value in st.envs[env].vars
    ensures var v := Eval(st, env, value, fuel - 1);
      v.c.Normal? ==>
        Exec(st, env, VariableDeclaration(Literal(t), value, isConst, pre), fuel)
          == Outcome(v.st, HostFailure("Variable " + ToStr(t.value) + " already declared"))
  {
    VariableDeclarationRules(st, env, t, value, isConst, pre, fuel);
  }

  // ---------------------------------------------------------------------
  // Expose

  /** `expose` of anything but a declaration runs nothing. */
  lemma {:induction false} ExposeIgnoresOtherBodies(st: State, env: EnvId, body: Node, fuel: nat)
    requires Pre(st, env) && !body.FunctionDeclaration? && !body.VariableDeclaration?
    ensures Evaluation.Expose(st, env, body, fuel) == Outcome(st, Normal(Undef))
  {
  }

  /** `expose` of a function declaration declares it and adds its name to
      the environment's exposed names. */
  lemma {:induction false} ExposeFunctionDeclaration(st: State, env: EnvId, t: Token, params: seq<Node>, block: Node, pre: Option<Token>, fuel: nat)
    requires Pre(st, env) && fuel > 0 && t.value !in st.envs[env].vars
    ensures var o := Evaluation.Expose(st, env, FunctionDeclaration(Literal(t), params, block, pre), fuel);
      && o.c == Normal(Undef)
      && t.value in o.st.envs[env].vars && o.st.envs[env].vars[t.value] == VClosure(PlainFn, params, block, env)
      && o.st.envs[env].expose == st.envs[env].expose + {ToRealValue(VLiteral(t)).value}
  {
    FunctionDeclarationBinds(st, env, t, params, block, pre, fuel);
  }

  // ---------------------------------------------------------------------
  // run ... to

  /** A run statement without stages runs the callee and gives
      `undefined`. */
  lemma {:induction false} RunWithoutStages(st: State, env: EnvId, callee: Node, fuel: nat)
    requires Pre(st, env)
    ensures var r := Exec(st, env, callee, fuel);
      Evaluation.Run(st, env, callee, [], fuel) == if r.c.Normal? then Outcome(r.st, Normal(Undef)) else r
  {
  }

  /** The stage loop is its turns one after the other. */
  lemma {:induction false} StagesUnfold(st: State, env: EnvId, res: Value, stages: seq<Node>, i: nat, last: Value, fuel: nat)
    requires Pre(st, env) && i < |stages| && Live(|st.envs|, res) && Live(|st.envs|, last)
    ensures var r := StageTurn(st, env, res, stages[i], fuel);
      Stages(st, env, res, stages, i, last, fuel) ==
        if r.c.Normal? then Stages(r.st, env, res, stages, i + 1, r.c.value, fuel) else r
  {
  }

  /** The callee's result stays live through the stages. */
  lemma {:induction false} StagesKeepResultLive(st: State, env: EnvId, res: Value, stages: seq<Node>, i: nat, last: Value, fuel: nat)
    requires Pre(st, env) && i <= |stages| && Live(|st.envs|, res) && Live(|st.envs|, last)
    ensures Live(|Stages(st, env, res, stages, i, last, fuel).st.envs|, res)
  {
    LiveGrows(|st.envs|, |Stages(st, env, res, stages, i, last, fuel).st.envs|, res);
  }

  /** The last stage's value does not depend on the value before it. */
  lemma {:induction false} LastStageAlone(st: State, env: EnvId, res: Value, stages: seq<Node>, last: Value, fuel: nat)
    requires Pre(st, env) && |stages| > 0 && Live(|st.envs|, res) && Live(|st.envs|, last)
    ensures Stages(st, env, res, stages, |stages| - 1, last, fuel) == Stages(st, env, res, [stages[|stages| - 1]], 0, Undef, fuel)
  {
    StagesUnfold(st, env, res, stages, |stages| - 1, last, fuel);
    StagesUnfold(st, env, res, [stages[|stages| - 1]], 0, Undef, fuel);
  }

  /** Stages run in order and the last one gives the result: running
      `stages + [s]` is running `stages` and then `s` alone, which is
      handed the same callee result `res`. */
  lemma {:induction false} StagesRunInOrder(st: State, env: EnvId, res: Value, stages: seq<Node>, s: Node, i: nat, last: Value, fuel: nat)
    requires Pre(st, env) && i <= |stages| && Live(|st.envs|, res) && Live(|st.envs|, last)
    ensures var r := Stages(st, env, res, stages, i, last, fuel);
      Live(|r.st.envs|, res) &&
      Stages(st, env, res, stages + [s], i, last, fuel) == if r.c.Normal? then Stages(r.st, env, res, [s], 0, Undef, fuel) else r
    decreases |stages| - i, 1
  {
    StagesKeepResultLive(st, env, res, stages, i, last, fuel);
    if i == |stages| {
      LastStageAlone(st, env, res, stages + [s], last, fuel);
    } else {
      StagesRunInOrderStep(st, env, res, stages, s, i, last, fuel);
    }
  }

  /** The inductive step of StagesRunInOrder: the first turn is the same
      for `stages` and `stages + [s]`. */
  lemma {:induction false} StagesRunInOrderStep(st: State, env: EnvId, res: Value, stages: seq<Node>, s: Node, i: nat, last: Value, fuel: nat)
    requires Pre(st, env) && i < |stages| && Live(|st.envs|, res) && Live(|st.envs|, last)
    ensures var r := Stages(st, env, res, stages, i, last, fuel);
      Live(|r.st.envs|, res) &&
      Stages(st, env, res, stages + [s], i, last, fuel) == if r.c.Normal? then Stages(r.st, env, res, [s], 0, Undef, fuel) else r
    decreases |stages| - i, 0
  {
    StagesKeepResultLive(st, env, res, stages, i, last, fuel);
    assert (stages + [s])[i] == stages[i];
    StagesUnfold(st, env, res, stages, i, last, fuel);
    StagesUnfold(st, env, res, stages + [s], i, last, fuel);
    var r := StageTurn(st, env, res, stages[i], fuel);
    if r.c.Normal? {
      StagesRunInOrder(r.st, env, res, stages, s, i + 1, r.c.value, fuel);
    }
  }

  /** Each stage runs in a new child of the run's environment in which
      its first argument is bound to the callee's result. */
  lemma {:induction false} StageSeesCalleeResult(st: State, env: EnvId, res: Value, stages: seq<Node>, i: nat, last: Value, fuel: nat, t: Token)
    requires Pre(st, env) && i < |stages| && Live(|st.envs|, res) && Live(|st.envs|, last)
    requires StageParam(stages[i]) == Some(Literal(t)) && !SetupName(t.value)
    ensures var g := NewEnv(st.envs, Some(env), st.dirname);
      var ctx := |st.envs|;
      var d := Declare(g, ctx, Some(Literal(t)), res, false);
      && d.Success? && Sound(d.value)
      && d.value[ctx].parent == Some(env) && t.value in d.value[ctx].vars && d.value[ctx].vars[t.value] == res
      && var r := Exec(st.(envs := d.value), ctx, stages[i], fuel);
         !r.c.Normal? ==> Stages(st, env, res, stages, i, last, fuel) == r
  {
    NewEnvSound(st.envs, Some(env), st.dirname);
    var g := NewEnv(st.envs, Some(env), st.dirname);
    LiveGrows(|st.envs|, |g|, res);
    DeclareSound(g, |st.envs|, Some(Literal(t)), res, false);
  }

  // ---------------------------------------------------------------------
  // Array literals

  /** An array literal's entries follow its items in order: one entry per
      item, keyed by the item's key token retyped as an index. */
  lemma {:induction false} ArrayEntriesFollowItems(st: State, env: EnvId, items: seq<Node>, i: nat, acc: seq<(Value, Value)>, fuel: nat)
    requires Pre(st, env) && i <= |items| && Live(|st.envs|, VMap(ArrayTag, acc))
    ensures var o := ArrayItems(st, env, items, i, acc, fuel);
      o.c.Normal? ==>
        && o.c.value.VMap? && o.c.value.tag == ArrayTag
        && |o.c.value.entries| == |acc| + |items| - i
        && o.c.value.entries[..|acc|] == acc
        && forall j :: i <= j < |items| ==>
             items[j].Property? && items[j].key.Literal?
             && o.c.value.entries[|acc| + (j - i)].0 == VLiteral(items[j].key.token.(kind := Index))
    decreases |items| - i
  {
    if i < |items| && items[i].Property? && items[i].key.Literal? {
      var r := Eval(st, env, items[i].value, fuel);
      if r.c.Normal? {
        LiveGrows(|st.envs|, |r.st.envs|, VMap(ArrayTag, acc));
        var key := VLiteral(items[i].key.token.(kind := Index));
        var acc2 := acc + [(key, r.c.value)];
        ArrayEntriesFollowItems(r.st, env, items, i + 1, acc2, fuel);
        var o := ArrayItems(r.st, env, items, i + 1, acc2, fuel);
        if o.c.Normal? {
          var es := o.c.value.entries;
          assert es[..|acc|] == es[..|acc2|][..|acc|];
          assert es[|acc|] == es[..|acc2|][|acc|];
          forall j | i <= j < |items|
            ensures items[j].Property? && items[j].key.Literal?
                    && es[|acc| + (j - i)].0 == VLiteral(items[j].key.token.(kind := Index))
          {
            if j > i {
              assert |acc| + (j - i) == |acc2| + (j - (i + 1));
            }
          }
        }
      }
    }
  }

  // ---------------------------------------------------------------------
  // interpret

  /** When a program throws, what it throws is the first error recorded,
      which is the first of those recorded before it started when there
      were any; an exception with no error recorded never escapes. */
  lemma {:induction false} ProgramThrowsFirstError(st: State, env: EnvId, body: seq<Node>, i: nat, last: Value, fuel: nat)
    requires Pre(st, env) && i <= |body| && Live(|st.envs|, last)
    ensures var o := RunProgram(st, env, body, i, last, fuel);
      o.c.Throw? ==>
        && |o.st.errors| > 0 && o.c == Throw(Thrown(o.st.errors[0]))
        && (|st.errors| > 0 ==> o.c.exc.stack == st.errors[0])
    decreases |body| - i
  {
    if i < |body| {
      var r := Exec(st, env, body[i], fuel);
      if r.c.Normal? {
        ProgramThrowsFirstError(r.st, env, body, i + 1, r.c.value, fuel);
      }
    }
  }
}
