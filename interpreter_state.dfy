/** The tree-walking evaluator (src/interpreter/index.ts), evaluated
    synchronously: every `await`ed or un-`await`ed evaluation is taken to
    produce the value its promise would settle to.

    Evaluation threads a state (the environment store, the error stack of
    the interpreter and the module directory new environments fall back
    to) and ends in a completion: a value, a thrown exception, out of fuel
    (the host's stack or patience gives out first), or a behaviour outside
    the model. `fuel` bounds the nesting depth of evaluation. */
module InterpreterState {
  import opened Wrappers
  import opened Host
  import opened TokenKinds
  import opened Ast
  import opened Values
  import opened Literals
  import opened RealValues
  import opened Environments
  import opened Errors
  import opened TokenUnits

  // ---------------------------------------------------------------------
  // State and completions

  /** What a throw carries: an `ErrorStack` the interpreter recorded, or a
      host error (an `Error` of the environment, a `TypeError`), by the
      text `${e}` prints for it. */
  datatype Exc = Thrown(stack: ErrorStack) | HostError(text: string)

  datatype Completion =
    | Normal(value: Value)
    | Throw(exc: Exc)
    | OutOfFuel
    | Unmodelled(what: string)

  /** The environment store, the interpreter's recorded errors, and the
      directory a root environment takes as its file path. */
  datatype State = State(envs: Store, errors: seq<ErrorStack>, dirname: string)

  datatype Outcome = Outcome(st: State, c: Completion)

  const Undef := VPrim(Undefined)

  /** A value every environment it mentions exists for: an environment
      reference, a closure's defining environment, and everything held by
      an array, a map or a range. */
  predicate Live(n: nat, v: Value)
  {
    match v
    case VEnvRef(r) => r.value < n
    case VClosure(_, _, _, e) => e < n
    case VArray(items) => forall x :: x in items ==> Live(n, x)
    case VMap(_, entries) => forall e :: e in entries ==> Live(n, e.0) && Live(n, e.1)
    case VRange(start, end, _) => Live(n, start) && Live(n, end)
    case _ => true
  }

  /** The store invariant the evaluator keeps: parents are older than
      their children and every stored value is live. */
  predicate Sound(fs: Store)
  {
    Valid(fs) &&
    forall i, k :: 0 <= i < |fs| && k in fs[i].vars ==> Live(|fs|, fs[i].vars[k])
  }

  /** `gs` is `fs` grown: environments are only added, and an existing
      environment keeps its parent and file path and loses none of its
      names, static names or exposed names. */
  predicate Extends(fs: Store, gs: Store)
  {
    |fs| <= |gs| &&
    forall i :: 0 <= i < |fs| ==>
      && gs[i].parent == fs[i].parent
      && gs[i].filePath == fs[i].filePath
      && fs[i].vars.Keys <= gs[i].vars.Keys
      && fs[i].statics <= gs[i].statics
      && fs[i].expose <= gs[i].expose
  }

  /** What every evaluation step guarantees: the invariant holds again,
      the store only grows, errors are only appended, and a value produced
      is live. */
  predicate Keeps(st: State, o: Outcome)
  {
    && Sound(o.st.envs)
    && Extends(st.envs, o.st.envs)
    && st.errors <= o.st.errors
    && o.st.dirname == st.dirname
    && (o.c.Normal? ==> Live(|o.st.envs|, o.c.value))
  }

  lemma ExtendsTrans(fs: Store, gs: Store, hs: Store)
    requires Extends(fs, gs) && Extends(gs, hs)
    ensures Extends(fs, hs)
  {
  }

  /** Two steps that keep the invariant make one that keeps it. */
  lemma KeepsTrans(st: State, mid: Outcome, o: Outcome)
    requires Keeps(st, mid) && Keeps(mid.st, o)
    ensures Keeps(st, o)
  {
    ExtendsTrans(st.envs, mid.st.envs, o.st.envs);
  }

  // ---------------------------------------------------------------------
  // The invariant across the environment operations

  lemma {:induction false} LiveGrows(n: nat, m: nat, v: Value)
    requires n <= m && Live(n, v)
    ensures Live(m, v)
    decreases v
  {
    match v
    case VArray(items) =>
      forall x | x in items
        ensures Live(m, x)
      {
        LiveGrows(n, m, x);
      }
    case VMap(_, entries) =>
      forall e | e in entries
        ensures Live(m, e.0) && Live(m, e.1)
      {
        LiveGrows(n, m, e.0);
        LiveGrows(n, m, e.1);
      }
    case VRange(start, end, _) =>
      LiveGrows(n, m, start);
      LiveGrows(n, m, end);
    case _ =>
  }

  lemma NewEnvSound(fs: Store, parent: Option<EnvId>, dirname: string)
    requires Sound(fs) && (parent.Some? ==> parent.value < |fs|)
    ensures Sound(NewEnv(fs, parent, dirname)) && |NewEnv(fs, parent, dirname)| == |fs| + 1
    ensures Extends(fs, NewEnv(fs, parent, dirname))
  {
    NewEnvValid(fs, parent, dirname);
    var g := NewEnv(fs, parent, dirname);
    forall i, k | 0 <= i < |g| && k in g[i].vars
      ensures Live(|g|, g[i].vars[k])
    {
      if i < |fs| {
        assert g[i] == fs[i];
        LiveGrows(|fs|, |g|, fs[i].vars[k]);
      }
    }
  }

  lemma DeclareSound(fs: Store, id: EnvId, name: Option<Node>, value: Value, isStatic: bool)
    requires Sound(fs) && id < |fs| && Live(|fs|, value)
    requires Declare(fs, id, name, value, isStatic).Success?
    ensures Sound(Declare(fs, id, name, value, isStatic).value)
    ensures |Declare(fs, id, name, value, isStatic).value| == |fs|
    ensures Extends(fs, Declare(fs, id, name, value, isStatic).value)
  {
    DeclareValid(fs, id, name, value, isStatic);
  }

  lemma SetSound(fs: Store, id: EnvId, name: Node, value: Value)
    requires Sound(fs) && id < |fs| && Live(|fs|, value)
    requires Set(fs, id, name, value).Success?
    ensures Sound(Set(fs, id, name, value).value)
    ensures |Set(fs, id, name, value).value| == |fs|
    ensures Extends(fs, Set(fs, id, name, value).value)
  {
    var k := LookupKey(name.token);
    var at := ResolveVariableEnv(fs, id, k).value;
    ResolvedHasBinding(fs, id, k, |fs|);
    assert Set(fs, id, name, value).value == fs[at := fs[at].(vars := fs[at].vars[k.value := value])];
    WriteSound(fs, at, k.value, value);
  }

  /** Writing a live value under a name of one environment keeps the
      invariant and grows the store. */
  lemma WriteSound(fs: Store, at: EnvId, key: Prim, value: Value)
    requires Sound(fs) && at < |fs| && Live(|fs|, value)
    ensures var g := fs[at := fs[at].(vars := fs[at].vars[key := value])];
      Sound(g) && Extends(fs, g)
  {
    var g := fs[at := fs[at].(vars := fs[at].vars[key := value])];
    forall i, x | 0 <= i < |g| && x in g[i].vars
      ensures Live(|g|, g[i].vars[x])
    {
      if i != at || x != key {
        assert g[i].vars[x] == fs[i].vars[x];
      }
    }
  }

  lemma SetExposeSound(fs: Store, id: EnvId, n: Node)
    requires Sound(fs) && id < |fs|
    requires SetExpose(fs, id, n).Success?
    ensures Sound(SetExpose(fs, id, n).value)
    ensures |SetExpose(fs, id, n).value| == |fs|
    ensures Extends(fs, SetExpose(fs, id, n).value)
  {
    SetExposeRules(fs, id, n);
  }

  lemma {:induction false} ResolvedLive(fs: Store, id: EnvId, k: Option<Prim>)
    requires Sound(fs) && id < |fs|
    requires ResolveVariableEnv(fs, id, k).Success?
    ensures k.Some? && k.value in fs[ResolveVariableEnv(fs, id, k).value].vars
    ensures Live(|fs|, fs[ResolveVariableEnv(fs, id, k).value].vars[k.value])
  {
    ResolvedHasBinding(fs, id, k, |fs|);
  }

  lemma GetLive(fs: Store, id: EnvId, name: Node)
    requires Sound(fs) && id < |fs|
    requires Get(fs, id, name).Success?
    ensures Live(|fs|, Get(fs, id, name).value)
  {
    var k := Alias(fs[id], LookupKey(name.token));
    ResolvedLive(fs, id, k);
  }

  // ---------------------------------------------------------------------
  // Errors

  /** The text of `name` for an error code. */
  function CodeName(c: ErrorCode): string
  {
    match c
    case InterpreterError => "INTERPRETER_ERROR"
    case SyntaxError => "SYNTAX_ERROR"
    case RuntimeError => "RUNTIME_ERROR"
  }

  predicate StartsWith(s: string, prefix: string)
  {
    |prefix| <= |s| && s[..|prefix|] == prefix
  }

  /** `${e}` for an exception: `name: message`, or the name alone for an
      empty message. */
  function ExcText(e: Exc): string
  {
    match e
    case Thrown(s) => if s.message == "" then CodeName(s.name) else CodeName(s.name) + ": " + s.message
    case HostError(t) => t
  }

  /** `${e}` for a failure of an environment operation or a conversion: the
      host's own `TypeError`s and `RangeError`s print as they are, an
      `Error` of the source prints with its `Error: ` prefix. */
  function ErrorText(m: string): string
  {
    if StartsWith(m, "TypeError: ") || StartsWith(m, "RangeError: ") then m else "Error: " + m
  }

  /** A failed environment operation or conversion, as a completion. A
      failure the conversion model marks unsupported leaves the model. */
  function HostFailure(m: string): (c: Completion)
    ensures c.Unmodelled? <==> StartsWith(m, "unsupported: ")
    ensures c.Throw? ==> c.exc == HostError(ErrorText(m))
  {
    if StartsWith(m, "unsupported: ") then Unmodelled(m) else Throw(HostError(ErrorText(m)))
  }

  /** The exception a `TokenUnit` operation throws. */
  function UnitFailure(e: UnitError): Completion
  {
    match e
    case UnknownLiteralType(_) => Throw(HostError("Error: Unknown literal type: "))
    case ReadOfNull => Throw(HostError("TypeError: Cannot read properties of null (reading 'type')"))
    case UnknownOperator(_) => Throw(HostError("TypeError: Cannot read properties of undefined (reading 'toString')"))
    case Conversion(m) => HostFailure(m)
    case Unsupported(what) => Unmodelled(what)
  }

  /** The host's `TypeError` for reading a property of `null` or
      `undefined`. */
  function NullishProperty(p: Prim, property: string): string
  {
    "TypeError: Cannot read properties of " + (if p.Null? then "null" else "undefined") + " (reading '" + property + "')"
  }

  /** `errStackManager.addError(new ErrorStack(message, env, token)).throw()`:
      the error is recorded and, being the last one, raised. */
  function Raise(st: State, env: EnvId, message: string, pos: Option<PositionSource>): (o: Outcome)
    requires env < |st.envs|
    ensures o.c.Throw? && o.c.exc.Thrown?
    ensures o.st == st.(errors := st.errors + [o.c.exc.stack])
    ensures o.c.exc.stack == NewErrorStack(message, Some(st.envs[env].filePath), pos)
    ensures LastError(o.st.errors) == Some(o.c.exc.stack)
  {
    var e := NewErrorStack(message, Some(st.envs[env].filePath), pos);
    Outcome(st.(errors := st.errors + [e]), Throw(Thrown(e)))
  }

  // ---------------------------------------------------------------------
  // Declarations

  /** `env.declareVariable(name, value, isStatic)`; the declaration itself
      evaluates to `undefined`, and a failure is thrown to the caller. */
  function DeclareIn(st: State, env: EnvId, name: Option<Node>, v: Value, isStatic: bool): (o: Outcome)
    requires Sound(st.envs) && env < |st.envs| && Live(|st.envs|, v)
    ensures Keeps(st, o) && |o.st.envs| == |st.envs| && o.st.errors == st.errors
    ensures Declare(st.envs, env, name, v, isStatic).Success? ==>
              o == Outcome(st.(envs := Declare(st.envs, env, name, v, isStatic).value), Normal(Undef))
    ensures Declare(st.envs, env, name, v, isStatic).Failure? ==>
              o == Outcome(st, HostFailure(Declare(st.envs, env, name, v, isStatic).error))
  {
    match Declare(st.envs, env, name, v, isStatic)
    case Failure(m) => Outcome(st, HostFailure(m))
    case Success(fs) =>
      DeclareSound(st.envs, env, name, v, isStatic);
      Outcome(st.(envs := fs), Normal(Undef))
  }

  /** `new Environment(env)` and then `declareVariable(name, v)` in it,
      not static: the first step of every loop turn and of every stage. */
  function DeclareInChild(st: State, env: EnvId, name: Option<Node>, v: Value): (o: Outcome)
    requires Sound(st.envs) && env < |st.envs| && Live(|st.envs|, v)
    ensures Keeps(st, o) && |o.st.envs| == |st.envs| + 1 && o.st.errors == st.errors
    ensures o.st.envs[..|st.envs|] == st.envs && o.st.envs[|st.envs|].parent == Some(env)
    ensures var g := NewEnv(st.envs, Some(env), st.dirname);
      o == match Declare(g, |st.envs|, name, v, false)
           case Success(fs) => Outcome(st.(envs := fs), Normal(Undef))
           case Failure(m) => Outcome(st.(envs := g), HostFailure(m))
  {
    NewEnvSound(st.envs, Some(env), st.dirname);
    var g := NewEnv(st.envs, Some(env), st.dirname);
    LiveGrows(|st.envs|, |g|, v);
    DeclareIn(st.(envs := g), |st.envs|, name, v, false)
  }

  /** `interpretFunctionDeclaration(stmt, env, type)`: the closure over the
      defining environment is declared, not static, under the name. */
  function FunDeclStep(st: State, env: EnvId, name: Node, params: seq<Node>, block: Node, tag: FnTag): (o: Outcome)
    requires Sound(st.envs) && env < |st.envs|
    ensures Keeps(st, o)
  {
    DeclareIn(st, env, Some(name), VClosure(tag, params, block, env), false)
  }

  // ---------------------------------------------------------------------
  // Host values back in the interpreter

  /** A host value whose interpreter values are all live. */
  predicate HostLive(n: nat, h: HostVal)
  {
    match h
    case HToken(v) => Live(n, v)
    case HFunction(f) => Live(n, f)
    case HArray(items) => forall x :: x in items ==> HostLive(n, x)
    case HObject(fields) => forall k :: k in fields ==> HostLive(n, fields[k])
    case HPrim(_) => true
  }

  /** The interpreter value a host value stands for, where the model has
      one: primitives, token objects, functions and arrays of these. A
      plain object has none. */
  function HostToValue(h: HostVal): Option<Value>
    decreases h, 1, 0
  {
    match h
    case HPrim(p) => Some(VPrim(p))
    case HToken(v) => Some(v)
    case HFunction(f) => Some(f)
    case HArray(_) => HostItems(h, 0, [])
    case HObject(_) => None
  }

  function HostItems(h: HostVal, i: nat, acc: seq<Value>): Option<Value>
    requires h.HArray? && i <= |h.items|
    decreases h, 0, |h.items| - i
  {
    if i == |h.items| then Some(VArray(acc))
    else
      assert h.items[i] in h.items;
      match HostToValue(h.items[i])
      case None => None
      case Some(v) => HostItems(h, i + 1, acc + [v])
  }

  lemma {:induction false} HostToValueLive(n: nat, h: HostVal)
    requires HostLive(n, h) && HostToValue(h).Some?
    ensures Live(n, HostToValue(h).value)
    decreases h, 1, 0
  {
    if h.HArray? {
      HostItemsLive(n, h, 0, []);
    }
  }

  lemma {:induction false} HostItemsLive(n: nat, h: HostVal, i: nat, acc: seq<Value>)
    requires h.HArray? && i <= |h.items| && HostLive(n, h) && Live(n, VArray(acc))
    requires HostItems(h, i, acc).Some?
    ensures Live(n, HostItems(h, i, acc).value)
    decreases h, 0, |h.items| - i
  {
    if i < |h.items| {
      assert h.items[i] in h.items;
      HostToValueLive(n, h.items[i]);
      var v := HostToValue(h.items[i]).value;
      HostItemsLive(n, h, i + 1, acc + [v]);
    }
  }

  /** Converting a live value gives a live host value. */
  lemma {:induction false} ToRealLive(n: nat, v: Value)
    requires Live(n, v) && ToRealValue(v).Success?
    ensures HostLive(n, ToRealValue(v).value)
    decreases v, 3, 0
  {
    match v
    case VMap(_, _) => MapToObjectLive(n, v);
    case VArray(_) => ConvertItemsLive(n, v, 0, []);
    case _ =>
  }

  lemma {:induction false} ConvertItemsLive(n: nat, arr: Value, i: nat, acc: seq<HostVal>)
    requires arr.VArray? && i <= |arr.items| && Live(n, arr) && HostLive(n, HArray(acc))
    requires ConvertItems(arr, i, acc).Success?
    ensures HostLive(n, ConvertItems(arr, i, acc).value)
    decreases arr, 1, |arr.items| - i
  {
    if i < |arr.items| {
      assert arr.items[i] in arr.items;
      ToRealLive(n, arr.items[i]);
      var h := ToRealValue(arr.items[i]).value;
      ConvertItemsLive(n, arr, i + 1, acc + [h]);
    }
  }

  lemma {:induction false} ConvertValueLive(n: nat, v: Value)
    requires Live(n, v) && ConvertValue(v).Success?
    ensures HostLive(n, ConvertValue(v).value)
    decreases v, 4, 0
  {
    if v.VMap? {
      MapToObjectLive(n, v);
    } else {
      ToRealLive(n, v);
    }
  }

  lemma {:induction false} MapToObjectLive(n: nat, obj: Value)
    requires Live(n, obj) && MapToObject(obj).Success?
    ensures HostLive(n, MapToObject(obj).value)
    decreases obj, 2, 0
  {
    ConvertEntriesLive(n, obj, 0, if IsIndexKey(obj.entries[0].0) then HArray([]) else HObject(map[]));
  }

  lemma {:induction false} ConvertEntriesLive(n: nat, obj: Value, i: nat, acc: HostVal)
    requires obj.VMap? && i <= |obj.entries| && (acc.HArray? || acc.HObject?)
    requires Live(n, obj) && HostLive(n, acc)
    requires ConvertEntries(obj, i, acc).Success?
    ensures HostLive(n, ConvertEntries(obj, i, acc).value)
    decreases obj, 1, |obj.entries| - i
  {
    if i < |obj.entries| {
      assert obj.entries[i] in obj.entries;
      ConvertValueLive(n, obj.entries[i].1);
      var item := ConvertValue(obj.entries[i].1).value;
      if acc.HArray? {
        ConvertEntriesLive(n, obj, i + 1, HArray(acc.items + [item]));
      } else {
        var name := PropertyKey(ToRealValue(obj.entries[i].0).value).value;
        ConvertEntriesLive(n, obj, i + 1, HObject(acc.fields[name := item]));
      }
    }
  }

  // ---------------------------------------------------------------------
  // Reading values

  /** `!!v`: every object and function is truthy. */
  predicate TruthyValue(v: Value)
  {
    if v.VPrim? then Truthy(v.p) else true
  }

  predicate Nullish(v: Value)
  {
    v == VPrim(Null) || v == VPrim(Undefined)
  }

  /** The `.type` or `.value` of a value, as `===` compares them: a
      primitive, a token kind, a tag of the type table, a token object (by
      identity) or an environment object (by identity). */
  datatype Field = FPrim(p: Prim) | FKind(kind: TokenType) | FTag(tag: string) | FToken(token: Token) | FEnv(env: EnvId)

  /** `v.type` of a value that is neither `null` nor `undefined`; host
      functions, host arrays and primitives have none. */
  function TypeField(v: Value): Field
  {
    match v
    case VToken(t) => FKind(t.kind)
    case VLiteral(_) => FPrim(Str("Literal"))
    case VEnvRef(r) => FKind(r.kind)
    case VMap(tag, _) => FTag(if tag == ArrayTag then "ARRAY" else "OBJECT")
    case VClosure(tag, _, _, _) => FTag(match tag case PlainFn => "FN" case TaskFn => "FN_TASK" case LambdaFn => "FN_LAMBDA")
    case VRange(_, _, _) => FTag("RANGE")
    case _ => FPrim(Undefined)
  }

  /** `v.value` of a value that is neither `null` nor `undefined`. */
  function ValueField(v: Value): Field
  {
    match v
    case VToken(t) => FPrim(t.value)
    case VLiteral(t) => FToken(t)
    case VEnvRef(r) => FEnv(r.value)
    case _ => FPrim(Undefined)
  }

  /** `a === b`. Two token objects with equal fields may or may not be one
      object; the model does not keep object identity. */
  function SameField(a: Field, b: Field): Result<bool, string>
  {
    if a.FPrim? && b.FPrim? then Success(StrictEq(a.p, b.p))
    else if a.FToken? && b.FToken? && a == b then Failure("unsupported: the identity of two token objects")
    else Success(a == b)
  }

  /** `test_?.type === test.type && test_?.value === test.value`: a case's
      test against the switch's subject; a `null` or `undefined` subject
      has no `type` to read. */
  function CaseMatches(test: Value, subject: Value): Result<bool, string>
  {
    if Nullish(subject) then Failure(NullishProperty(subject.p, "type"))
    else
      var sameType :- SameField(if Nullish(test) then FPrim(Undefined) else TypeField(test), TypeField(subject));
      if !sameType then Success(false)
      else SameField(if Nullish(test) then FPrim(Undefined) else ValueField(test), ValueField(subject))
  }

  /** `v.value` as `join` prints it: a token's value, "[object Object]" for
      the token of a Literal and for an environment, and nothing for values
      without a `value`. */
  function PartText(v: Value): Result<string, string>
  {
    match v
    case VToken(t) => Success(if t.value.Null? || t.value.Undefined? then "" else ToStr(t.value))
    case VLiteral(_) => Success(ObjectText)
    case VEnvRef(_) => Success(ObjectText)
    case VPrim(p) => if p.Null? || p.Undefined? then Failure(NullishProperty(p, "value")) else Success("")
    case _ => Success("")
  }

  /** `values.map(v => v.value).join("")`. */
  function TemplateText(values: seq<Value>): Result<string, string>
  {
    if values == [] then Success("")
    else
      var head :- PartText(values[0]);
      var rest :- TemplateText(values[1..]);
      Success(head + rest)
  }

  /** `String(k)` for a key of a Map: primitives print as themselves and
      token objects, Literal tokens, environments and ranges as "[object
      Object]". */
  function KeyString(k: Value): Result<string, string>
  {
    match k
    case VPrim(p) => Success(ToStr(p))
    case VMap(_, _) => Success("[object Map]")
    case VClosure(_, _, _, _) => Failure("unsupported: the source text of a function")
    case VHost(_) => Failure("unsupported: the source text of a function")
    case VArray(_) => Failure("unsupported: the text of a host array")
    case _ => Success(ObjectText)
  }

  /** `Object.fromEntries(map)`: a later entry whose key prints the same
      overwrites an earlier one. */
  function FromEntries(entries: seq<(Value, Value)>): Result<map<string, Value>, string>
  {
    if entries == [] then Success(map[])
    else
      var front :- FromEntries(entries[..|entries| - 1]);
      var key :- KeyString(entries[|entries| - 1].0);
      Success(front[key := entries[|entries| - 1].1])
  }

  lemma {:induction false} FromEntriesLive(n: nat, entries: seq<(Value, Value)>)
    requires forall e :: e in entries ==> Live(n, e.1)
    requires FromEntries(entries).Success?
    ensures forall k :: k in FromEntries(entries).value ==> Live(n, FromEntries(entries).value[k])
    decreases |entries|
  {
    if entries != [] {
      var front := entries[..|entries| - 1];
      assert forall e :: e in front ==> e in entries;
      FromEntriesLive(n, front);
      assert entries[|entries| - 1] in entries;
    }
  }

  /** A canonical array index: decimal digits without a leading zero. */
  predicate IsIndexText(s: string)
  {
    s != [] && AllDigits(s) && (s == "0" || s[0] != '0')
  }

  /** A host value read back as an interpreter value; a plain object is
      outside the model. */
  function Back(h: HostVal): Completion
  {
    match HostToValue(h)
    case None => Unmodelled("a plain object as a value")
    case Some(v) => Normal(v)
  }

  /** The names a plain object inherits from `Object.prototype`; reading
      one gives a host function, which is outside the model. */
  predicate InheritedName(key: string)
  {
    key in {"constructor", "hasOwnProperty", "isPrototypeOf", "propertyIsEnumerable", "toLocaleString",
            "toString", "valueOf", "__proto__", "__defineGetter__", "__defineSetter__",
            "__lookupGetter__", "__lookupSetter__"}
  }

  /** `target[prop]` on the result of `mapToObject`: an array gives its
      `length` and its items by index, `undefined` past the end; any other
      name may be one of the array methods it inherits, which are outside
      the model. A plain object gives its own properties, `undefined` for
      a name it neither holds nor inherits, and leaves the model on an
      inherited one. */
  function HostIndex(h: HostVal, key: string): Completion
  {
    match h
    case HArray(items) =>
      if key == "length" then Normal(VPrim(Num(Int(|items|))))
      else if IsIndexText(key) then (if DecimalValue(key) < |items| then Back(items[DecimalValue(key)]) else Normal(Undef))
      else Unmodelled("a property of an array other than an index or its length")
    case HObject(fields) =>
      if key in fields then Back(fields[key])
      else if InheritedName(key) then Unmodelled("a property an object inherits")
      else Normal(Undef)
    case _ => Unmodelled("an index into a value that is not an array or an object")
  }

  // ---------------------------------------------------------------------
  // The host `print`

  /** The global `print` (src/libs/global/index.ts:19-40), which `apply`
      hands the call's first argument: a Map not tagged as an array goes
      to `Object.fromEntries` and is logged; anything else is converted by
      `toRealValue` first, whose failure is thrown. The call itself gives
      `undefined`; what is logged is not modelled. */
  function Print(arg: Value): (r: Result<Value, string>)
    ensures r.Success? ==> r.value == Undef
    ensures arg.VMap? && arg.tag != ArrayTag ==> r.Success?
    ensures !(arg.VMap? && arg.tag != ArrayTag) ==> (r.Failure? <==> ToRealValue(arg).Failure?)
    ensures r.Failure? ==> r.error == ToRealValue(arg).error
  {
    if arg.VMap? && arg.tag != ArrayTag then Success(Undef)
    else
      match ToRealValue(arg)
      case Failure(m) => Failure(m)
      case Success(_) => Success(Undef)
  }

  /** `interpretMemberExpression` once the object is evaluated and the
      property converted: a Map is read through `fromEntries` unless its
      "[object Object]" entry is truthy, when it is converted by
      `mapToObject` first; an environment reference reads the name in
      that environment; reading from `null` or `undefined` throws. */
  function MemberOf(fs: Store, v: Value, prop: HostVal): (c: Completion)
    requires Sound(fs) && Live(|fs|, v)
    ensures c.Normal? ==> Live(|fs|, c.value)
  {
    match v
    case VMap(_, entries) =>
      (match FromEntries(entries)
       case Failure(m) => HostFailure(m)
       case Success(obj) =>
         match HostString(prop)
         case Failure(m) => HostFailure(m)
         case Success(key) =>
           FromEntriesLive(|fs|, entries);
           if !(ObjectText in obj && TruthyValue(obj[ObjectText])) then
             (if key in obj then Normal(obj[key])
              else if InheritedName(key) then Unmodelled("a property an object inherits")
              else Normal(Undef))
           else
             match MapToObject(v)
             case Failure(m) => HostFailure(m)
             case Success(h) =>
               MapToObjectLive(|fs|, v);
               var c := HostIndex(h, key);
               assert c.Normal? ==> Live(|fs|, c.value) by {
                 if c.Normal? {
                   if h.HArray? && key != "length" && IsIndexText(key) && DecimalValue(key) < |h.items| {
                     assert h.items[DecimalValue(key)] in h.items;
                     HostToValueLive(|fs|, h.items[DecimalValue(key)]);
                   } else if h.HObject? && key in h.fields {
                     HostToValueLive(|fs|, h.fields[key]);
                   }
                 }
               }
               c)
    case VEnvRef(r) =>
      if !prop.HPrim? then Unmodelled("an environment read by a property that is not a primitive")
      else
        (match Get(fs, r.value, LiteralOf(prop.p))
         case Failure(m) => HostFailure(m)
         case Success(x) =>
           GetLive(fs, r.value, LiteralOf(prop.p));
           Normal(x))
    case VPrim(p) =>
      if p.Null? || p.Undefined? then
        (match HostString(prop)
         case Failure(m) => HostFailure(m)
         case Success(key) => Throw(HostError(NullishProperty(p, key))))
      else Unmodelled("a property of a primitive")
    case _ => Unmodelled("a property of a host object")
  }

  // ---------------------------------------------------------------------
  // Binding arguments

  /** The literal a range loop binds for `i`. */
  function LoopIndex(i: int): Value
  {
    VLiteral(LiteralOf(Num(Int(i))).token)
  }

  /** The literal a loop over an array binds for the key `i`: `for...in`
      gives the index as a string. */
  function KeyIndex(i: nat): Value
  {
    VLiteral(LiteralOf(Str(NatToString(i))).token)
  }

  /** The characters of a string, each a string of its own. */
  function Chars(s: string): (r: seq<Value>)
    ensures |r| == |s| && forall i :: 0 <= i < |s| ==> r[i] == VPrim(Str([s[i]]))
  {
    seq(|s|, i requires 0 <= i < |s| => VPrim(Str([s[i]])))
  }

  /** Declaring item `i` on of `items` under the parameter at the same
      position. Past the parameters a declared closure skips the item
      (`if (args_out[i])`), while a lambda declares it under `undefined`,
      which fails. */
  function BindItems(fs: Store, ctx: EnvId, params: seq<Node>, items: seq<Value>, i: nat, lambda: bool): (r: Result<Store, string>)
    requires Sound(fs) && ctx < |fs| && i <= |items| && Live(|fs|, VArray(items))
    ensures r.Success? ==> Sound(r.value) && |r.value| == |fs| && Extends(fs, r.value)
    decreases |items| - i
  {
    if i == |items| then Success(fs)
    else if i >= |params| && !lambda then BindItems(fs, ctx, params, items, i + 1, lambda)
    else
      var name := if i < |params| then Some(params[i]) else None;
      assert items[i] in items;
      match Declare(fs, ctx, name, items[i], false)
      case Failure(m) => Failure(m)
      case Success(next) =>
        DeclareSound(fs, ctx, name, items[i], false);
        BindItems(next, ctx, params, items, i + 1, lambda)
  }

  /** The binding step of a declared function (`interpretFunctionDeclaration`):
      a falsy argument binds nothing, a host array binds by position, and
      any other argument is bound whole to the first parameter. */
  function BindArgs(fs: Store, ctx: EnvId, params: seq<Node>, arg: Value): (r: Result<Store, string>)
    requires Sound(fs) && ctx < |fs| && Live(|fs|, arg)
    ensures r.Success? ==> Sound(r.value) && |r.value| == |fs| && Extends(fs, r.value)
  {
    if !TruthyValue(arg) then Success(fs)
    else if arg.VArray? then BindItems(fs, ctx, params, arg.items, 0, false)
    else
      var name := if |params| > 0 then Some(params[0]) else None;
      match Declare(fs, ctx, name, arg, false)
      case Failure(m) => Failure(m)
      case Success(next) =>
        DeclareSound(fs, ctx, name, arg, false);
        Success(next)
  }

  /** The binding step of a lambda: `for (const i in args)` declares each
      enumerable key's value under the parameter at that key. Arrays and
      strings enumerate their positions, other primitives and host
      functions nothing, and every other object the `type` key (or a
      token's fields), which names no parameter. */
  function BindLambda(fs: Store, ctx: EnvId, params: seq<Node>, arg: Value): (r: Result<Store, string>)
    requires Sound(fs) && ctx < |fs| && Live(|fs|, arg)
    ensures r.Success? ==> Sound(r.value) && |r.value| == |fs| && Extends(fs, r.value)
  {
    match arg
    case VArray(items) => BindItems(fs, ctx, params, items, 0, true)
    case VPrim(p) => if p.Str? then BindItems(fs, ctx, params, Chars(p.s), 0, true) else Success(fs)
    case VHost(_) => Success(fs)
    case _ => Failure(NameUndefined)
  }

  /** `(i.arguments as any)?.[0]` for a stage of `run ... to`. */
  function StageParam(stage: Node): Option<Node>
  {
    match stage
    case ToExpression(arguments, _) => if |arguments| > 0 then Some(arguments[0]) else None
    case CallExpression(_, arguments) => if |arguments| > 0 then Some(arguments[0]) else None
    case LambdaFunctionDecl(arguments, _) => if |arguments| > 0 then Some(arguments[0]) else None
    case FunctionDeclaration(_, arguments, _, _) => if |arguments| > 0 then Some(arguments[0]) else None
    case _ => None
  }
}
