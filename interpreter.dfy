/** The `Interpreter` class of src/interpreter/index.ts: the loops of
    `interpretBlockStatement`, `interpretForStatement`,
    `interpretSwitchStatement`, `interpretRunStatement`, the array and
    object cases of `interpretExpression` and `interpret` itself, written
    as loops over the interpreter's state (its environments and its error
    stack). Each loop is proved to end where the function of module
    Evaluation that specifies it ends; what those functions guarantee is
    proved in module EvaluationFacts. A single statement or expression is
    run by the functions `Exec` and `Eval`. */
module Interpreters {
  import opened Wrappers
  import opened Host
  import opened TokenKinds
  import opened Literals
  import opened Ast
  import opened Values
  import opened RealValues
  import opened Environments
  import opened InterpreterState
  import opened Evaluation
  import opened EvaluationFacts

  /** The `for...in` loop over `items`, started in `s0`, has reached
      element `i` in state `st`. */
  predicate ArrayFrom(s0: State, st: State, env: EnvId, init: Node, item: Option<Node>, block: Node, items: seq<HostVal>, i: nat,
                      n0: nat, fuel: nat)
  {
    && Pre(s0, env) && n0 <= |s0.envs| && HostLive(n0, HArray(items))
    && Pre(st, env) && i <= |items| && n0 <= |st.envs|
    && MapLoop(s0, env, init, item, block, items, 0, n0, fuel) == MapLoop(st, env, init, item, block, items, i, n0, fuel)
  }

  /** After one turn from element `i`, the loop has reached element
      `i + 1`, or the turn's outcome is the loop's. */
  lemma ArrayTurnAdvances(s0: State, st: State, env: EnvId, init: Node, item: Option<Node>, block: Node, items: seq<HostVal>, i: nat,
                          n0: nat, fuel: nat, o: Outcome)
    requires ArrayFrom(s0, st, env, init, item, block, items, i, n0, fuel) && i < |items| && items[i] in items
    requires o == ArrayTurn(st, env, init, item, block, i, items[i], n0, fuel)
    ensures o.c.Normal? ==> ArrayFrom(s0, o.st, env, init, item, block, items, i + 1, n0, fuel)
    ensures !o.c.Normal? ==> o == MapLoop(s0, env, init, item, block, items, 0, n0, fuel)
  {
    MapLoopUnfold(st, env, init, item, block, items, i, n0, fuel);
  }

  /** The stage loop, started in `s0`, has reached stage `i` in state
      `st` with `last` the value of the stage before. */
  predicate StagesFrom(s0: State, st: State, env: EnvId, res: Value, stages: seq<Node>, i: nat, last: Value, fuel: nat)
  {
    && Pre(s0, env) && Live(|s0.envs|, res)
    && Pre(st, env) && i <= |stages| && Live(|st.envs|, res) && Live(|st.envs|, last)
    && Stages(s0, env, res, stages, 0, Undef, fuel) == Stages(st, env, res, stages, i, last, fuel)
  }

  class Interpreter {
    /** The environments, the recorded errors and the module directory. */
    var st: State

    constructor (init: State)
      requires Sound(init.envs)
      ensures st == init
    {
      st := init;
    }

    /** `interpretBlockStatement`: the statements in order, stopping after
        a failure or a direct ReturnStatement. */
    method InterpretBlock(env: EnvId, block: Node, fuel: nat) returns (c: Completion)
      requires Pre(st, env)
      modifies this
      ensures Outcome(st, c) == Block(old(st), env, block, fuel)
      ensures Keeps(old(st), Outcome(st, c))
    {
      if !block.BlockStatement? {
        return Unmodelled("a block that is not a block statement");
      }
      var body := block.body;
      var i := 0;
      var last := Undef;
      while i < |body|
        invariant Pre(st, env)
        invariant i <= |body|
        invariant Live(|st.envs|, last)
        invariant Block(old(st), env, block, fuel) == BlockFrom(st, env, body, i, last, fuel)
        decreases |body| - i
      {
        var r := Exec(st, env, body[i], fuel);
        st := r.st;
        if !r.c.Normal? || body[i].ReturnStatement? {
          return r.c;
        }
        last := r.c.value;
        i := i + 1;
      }
      c := Normal(last);
    }

    /** The counting loop of `interpretForStatement` from `start` to `end`
        inclusive, one RangeForTurn per number. */
    method RangeFor(env: EnvId, init: Node, block: Node, start: int, end: int, fuel: nat) returns (c: Completion)
      requires Pre(st, env)
      modifies this
      ensures Outcome(st, c) == RangeLoop(old(st), env, init, block, start, end, fuel)
    {
      var i := start;
      while i <= end
        invariant Pre(st, env)
        invariant start <= i
        invariant RangeLoop(old(st), env, init, block, start, end, fuel) == RangeLoop(st, env, init, block, i, end, fuel)
        decreases end - i
      {
        c := RangeForTurn(env, init, block, i, end, fuel);
        if !c.Normal? {
          return c;
        }
        i := i + 1;
      }
      c := Normal(Undef);
    }

    /** One turn of the counting loop: the loop variable is declared as
        `i` in a new child of `env` and the block runs there; the loop
        from `i` goes on from `i + 1` after a normal turn and ends with
        the turn otherwise. */
    method RangeForTurn(env: EnvId, init: Node, block: Node, i: int, end: int, fuel: nat) returns (c: Completion)
      requires Pre(st, env) && i <= end
      modifies this
      ensures Outcome(st, c) == RangeTurn(old(st), env, init, block, i, fuel)
      ensures Keeps(old(st), Outcome(st, c))
      ensures Pre(st, env)
      ensures RangeLoop(old(st), env, init, block, i, end, fuel)
              == if c.Normal? then RangeLoop(st, env, init, block, i + 1, end, fuel) else Outcome(st, c)
    {
      ghost var before := st;
      var ctx := |st.envs|;
      var d := DeclareInChild(st, env, Some(init), LoopIndex(i));
      st := d.st;
      if !d.c.Normal? {
        c := d.c;
      } else {
        c := InterpretBlock(ctx, block, fuel);
      }
      RangeLoopUnfold(before, env, init, block, i, end, fuel);
    }

    /** The `for...in` loop of `interpretForStatement` over a converted
        array, one ArrayForTurn per element. */
    method ArrayFor(env: EnvId, init: Node, item: Option<Node>, block: Node, items: seq<HostVal>, fuel: nat) returns (c: Completion)
      requires Pre(st, env) && HostLive(|st.envs|, HArray(items))
      modifies this
      ensures Outcome(st, c) == MapLoop(old(st), env, init, item, block, items, 0, |old(st).envs|, fuel)
    {
      ghost var n0 := |st.envs|;
      var i := 0;
      while i < |items|
        invariant ArrayFrom(old(st), st, env, init, item, block, items, i, n0, fuel)
        decreases |items| - i
      {
        c := ArrayForTurn(old(st), env, init, item, block, items, i, n0, fuel);
        if !c.Normal? {
          return c;
        }
        i := i + 1;
      }
      c := Normal(Undef);
    }

    /** One turn of the `for...in` loop: the key `i` (as a string), and
        the item when the loop names one, are declared in a new child of
        `env` and the block runs there; after a normal turn the loop
        started in `s0` reaches element `i + 1`, and otherwise the turn's
        outcome is the outcome of the loop. */
    method ArrayForTurn(ghost s0: State, env: EnvId, init: Node, item: Option<Node>, block: Node, items: seq<HostVal>, i: nat,
                        ghost n0: nat, fuel: nat)
      returns (c: Completion)
      requires ArrayFrom(s0, st, env, init, item, block, items, i, n0, fuel) && i < |items|
      modifies this
      ensures c.Normal? ==> ArrayFrom(s0, st, env, init, item, block, items, i + 1, n0, fuel)
      ensures !c.Normal? ==> Outcome(st, c) == MapLoop(s0, env, init, item, block, items, 0, n0, fuel)
    {
      ghost var before := st;
      assert items[i] in items;
      var ctx := |st.envs|;
      var d := DeclareInChild(st, env, Some(init), KeyIndex(i));
      if !d.c.Normal? {
        st := d.st;
        c := d.c;
      } else {
        var d2 := BindLoopItem(d.st, ctx, item, items[i], n0);
        st := d2.st;
        if !d2.c.Normal? {
          c := d2.c;
        } else {
          c := InterpretBlock(ctx, block, fuel);
        }
      }
      ArrayTurnAdvances(s0, before, env, init, item, block, items, i, n0, fuel, Outcome(st, c));
    }

    /** The case loop of `interpretSwitchStatement`: the first case
        without a test or whose test matches `subject` runs; with none the
        result is `null`. */
    method SwitchCases(env: EnvId, subject: Value, cases: seq<Node>, fuel: nat) returns (c: Completion)
      requires Pre(st, env) && Live(|st.envs|, subject)
      modifies this
      ensures Outcome(st, c) == Cases(old(st), env, subject, cases, 0, fuel)
      ensures Keeps(old(st), Outcome(st, c))
    {
      var i := 0;
      while i < |cases|
        invariant Pre(st, env)
        invariant i <= |cases|
        invariant Live(|st.envs|, subject)
        invariant Cases(old(st), env, subject, cases, 0, fuel) == Cases(st, env, subject, cases, i, fuel)
        decreases |cases| - i
      {
        if !(cases[i].CaseBlockStatement? || cases[i].DefaultCaseBlockStatement?) {
          return Unmodelled("a switch case that is not a case block");
        }
        if cases[i].caseTest.None? {
          c := InterpretBlock(env, cases[i].block, fuel);
          return c;
        }
        var t := Eval(st, env, cases[i].caseTest.value, fuel);
        LiveGrows(|st.envs|, |t.st.envs|, subject);
        st := t.st;
        if !t.c.Normal? {
          return t.c;
        }
        var hit := CaseMatches(t.c.value, subject);
        if hit.Failure? {
          return HostFailure(hit.error);
        }
        if hit.value {
          c := InterpretBlock(env, cases[i].block, fuel);
          return c;
        }
        i := i + 1;
      }
      c := Normal(VPrim(Null));
    }

    /** The stage loop of `interpretRunStatement`: each stage runs in a
        new child of `env` in which its first argument is bound to the
        callee's result `res`; the last stage's value is the result. */
    method RunStages(env: EnvId, res: Value, stages: seq<Node>, fuel: nat) returns (c: Completion)
      requires Pre(st, env) && Live(|st.envs|, res)
      modifies this
      ensures Outcome(st, c) == Stages(old(st), env, res, stages, 0, Undef, fuel)
    {
      var i := 0;
      var last := Undef;
      while i < |stages|
        invariant StagesFrom(old(st), st, env, res, stages, i, last, fuel)
        decreases |stages| - i
      {
        c := RunStage(old(st), env, res, stages, i, last, fuel);
        if !c.Normal? {
          return c;
        }
        last := c.value;
        i := i + 1;
      }
      c := Normal(last);
    }

    /** One stage: it runs in a new child of `env` in which its first
        argument is bound to `res`; after a normal stage the stages run
        from `s0` reach stage `i + 1` with its value, and otherwise the
        stage's outcome is the outcome of all of them. */
    method RunStage(ghost s0: State, env: EnvId, res: Value, stages: seq<Node>, i: nat, ghost last: Value, fuel: nat)
      returns (c: Completion)
      requires StagesFrom(s0, st, env, res, stages, i, last, fuel) && i < |stages|
      modifies this
      ensures c.Normal? ==> StagesFrom(s0, st, env, res, stages, i + 1, c.value, fuel)
      ensures !c.Normal? ==> Outcome(st, c) == Stages(s0, env, res, stages, 0, Undef, fuel)
    {
      ghost var before := st;
      var ctx := |st.envs|;
      var d := DeclareInChild(st, env, StageParam(stages[i]), res);
      LiveGrows(|st.envs|, |d.st.envs|, res);
      st := d.st;
      if !d.c.Normal? {
        c := d.c;
      } else {
        var r := Exec(st, ctx, stages[i], fuel);
        st := r.st;
        c := r.c;
      }
      StagesUnfold(before, env, res, stages, i, last, fuel);
    }

    /** The ArrayExpression case: each item's value is evaluated in order
        and stored under its key retyped as an index. */
    method ArrayLiteral(env: EnvId, items: seq<Node>, fuel: nat) returns (c: Completion)
      requires Pre(st, env)
      modifies this
      ensures Outcome(st, c) == ArrayItems(old(st), env, items, 0, [], fuel)
      ensures Keeps(old(st), Outcome(st, c))
    {
      var entries: seq<(Value, Value)> := [];
      var i := 0;
      while i < |items|
        invariant Pre(st, env)
        invariant i <= |items|
        invariant Live(|st.envs|, VMap(ArrayTag, entries))
        invariant ArrayItems(old(st), env, items, 0, [], fuel) == ArrayItems(st, env, items, i, entries, fuel)
        decreases |items| - i
      {
        if !items[i].Property? || !items[i].key.Literal? {
          return Unmodelled("an array item that is not a property with a Literal key");
        }
        var r := Eval(st, env, items[i].value, fuel);
        LiveGrows(|st.envs|, |r.st.envs|, VMap(ArrayTag, entries));
        st := r.st;
        if !r.c.Normal? {
          return r.c;
        }
        entries := entries + [(VLiteral(items[i].key.token.(kind := Index)), r.c.value)];
        i := i + 1;
      }
      c := Normal(VMap(ArrayTag, entries));
    }

    /** The ObjectExpression case: each key, then its value, in order; a
        Literal key that throws is taken as the literal of its text. */
    method ObjectLiteral(env: EnvId, props: seq<Node>, fuel: nat) returns (c: Completion)
      requires Pre(st, env)
      modifies this
      ensures Outcome(st, c) == ObjectProps(old(st), env, props, 0, [], fuel)
      ensures Keeps(old(st), Outcome(st, c))
    {
      var entries: seq<(Value, Value)> := [];
      var i := 0;
      while i < |props|
        invariant Pre(st, env)
        invariant i <= |props|
        invariant Live(|st.envs|, VMap(ObjectTag, entries))
        invariant ObjectProps(old(st), env, props, 0, [], fuel) == ObjectProps(st, env, props, i, entries, fuel)
        decreases |props| - i
      {
        if !props[i].Property? {
          return Unmodelled("an object item that is not a property");
        }
        var k := Eval(st, env, props[i].key, fuel);
        if k.c.OutOfFuel? || k.c.Unmodelled? {
          st := k.st;
          return k.c;
        }
        if k.c.Throw? && !props[i].key.Literal? {
          st := k.st;
          return Unmodelled("a failed object key that is not a Literal");
        }
        var key := if k.c.Normal? then k.c.value else VLiteral(LiteralOf(props[i].key.token.value).token);
        var r := Eval(k.st, env, props[i].value, fuel);
        LiveGrows(|st.envs|, |r.st.envs|, VMap(ObjectTag, entries));
        LiveGrows(|k.st.envs|, |r.st.envs|, key);
        st := r.st;
        if !r.c.Normal? {
          return r.c;
        }
        entries := entries + [(key, r.c.value)];
        i := i + 1;
      }
      c := Normal(VMap(ObjectTag, entries));
    }

    /** `interpret(program)`: every statement in order; when one throws,
        the first recorded error is thrown, and with none recorded the
        value of the last completed statement is the result. */
    method InterpretProgram(env: EnvId, program: Node, fuel: nat) returns (c: Completion)
      requires Pre(st, env)
      modifies this
      ensures Outcome(st, c) == Interpret(old(st), env, program, fuel)
      ensures Keeps(old(st), Outcome(st, c))
    {
      if !program.Program? {
        return Unmodelled("a program that is not a Program node");
      }
      var body := program.body;
      var i := 0;
      var last := Undef;
      while i < |body|
        invariant Pre(st, env)
        invariant i <= |body|
        invariant Live(|st.envs|, last)
        invariant Interpret(old(st), env, program, fuel) == RunProgram(st, env, body, i, last, fuel)
        decreases |body| - i
      {
        var r := Exec(st, env, body[i], fuel);
        if r.c.Throw? {
          LiveGrows(|st.envs|, |r.st.envs|, last);
          st := r.st;
          if |st.errors| > 0 {
            return Throw(Thrown(st.errors[0]));
          }
          return Normal(last);
        }
        st := r.st;
        if !r.c.Normal? {
          return r.c;
        }
        last := r.c.value;
        i := i + 1;
      }
      c := Normal(last);
    }
  }
}
