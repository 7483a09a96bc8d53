/** `Environment` (src/environment/index.ts): a chain of scopes. All
    environments live in one store and refer to each other (the parent
    link and the environment references `link` stores) by index. Every
    operation is a function on the store (the specification, which the
    interpreter uses) and a method of the `EnvironmentStore` class that updates
    the store in place. */
module Environments {
  import opened Wrappers
  import opened Host
  import opened TokenKinds
  import opened Ast
  import opened Values
  import opened Literals
  import opened RealValues

  /** One environment: its name table, static names, parent, exposed
      names, alias table and file path. Names are the primitives the
      tables are keyed by. */
  datatype Frame = Frame(
    vars: map<Prim, Value>,
    statics: set<Prim>,
    parent: Option<EnvId>,
    expose: set<HostVal>,
    asMap: map<Prim, Prim>,
    filePath: string)

  type Store = seq<Frame>

  /** The global module's members, declared static in every environment. */
  const GlobalNames: seq<string> := ["print"]

  /** A reference the store can follow. */
  predicate RefValid(fs: Store, v: Value)
  {
    v.VEnvRef? ==> v.ref.value < |fs|
  }

  /** Parents are older than their children and every stored reference
      names an environment of the store. */
  predicate Valid(fs: Store)
  {
    forall i :: 0 <= i < |fs| ==>
      (fs[i].parent.Some? ==> fs[i].parent.value < i) &&
      (forall k :: k in fs[i].vars ==> RefValid(fs, fs[i].vars[k]))
  }

  // ---------------------------------------------------------------------
  // Names

  /** The name a Literal stands for in `getVariable`, `setVariable` and
      `deleteVariable`: `toRealValue(name)`. A Literal of a kind the
      conversion leaves alone gives its token object, which equals no key
      of the table; that is `None`. */
  function LookupKey(t: Token): (k: Option<Prim>)
    ensures ToRealValue(VLiteral(t)).Success?
    ensures k.Some? <==> ToRealValue(VLiteral(t)).value.HPrim?
    ensures k.Some? ==> ToRealValue(VLiteral(t)).value == HPrim(k.value)
  {
    match ToRealValue(VLiteral(t))
    case Success(h) => if h.HPrim? then Some(h.p) else None
  }

  /** A name as the messages print it. */
  function KeyText(k: Option<Prim>): string
  {
    if k.Some? then ToStr(k.value) else ObjectText
  }

  function HasKey(f: Frame, k: Option<Prim>): bool
  {
    k.Some? && k.value in f.vars
  }

  const NameUndefined := "TypeError: Cannot read properties of undefined (reading 'type')"
  const NameNotLiteral := "name must be Literal"
  const StackOverflow := "RangeError: Maximum call stack size exceeded"

  // ---------------------------------------------------------------------
  // Construction

  /** The environment `new Environment(parent)` makes before `setup`. */
  function EmptyFrame(fs: Store, parent: Option<EnvId>, dirname: string): Frame
    requires parent.Some? ==> parent.value < |fs|
  {
    var inherited := if parent.Some? then fs[parent.value].filePath else "";
    Frame(map[], {}, parent, {}, map[], if inherited != "" then inherited else dirname)
  }

  /** `setup()`: `true`, `false` and every global member, all static. */
  function Setup(f: Frame): Frame
  {
    f.(vars := f.vars[Str("true") := VLiteral(LiteralOf(Bool(true)).token)]
                     [Str("false") := VLiteral(LiteralOf(Bool(false)).token)]
                     [Str("print") := VHost("print")],
       statics := f.statics + {Str("true"), Str("false"), Str("print")})
  }

  /** `new Environment(parent)`: the new environment is the last of the
      store. `dirname` is the interpreter module's own directory. */
  function NewEnv(fs: Store, parent: Option<EnvId>, dirname: string): Store
    requires parent.Some? ==> parent.value < |fs|
  {
    fs + [Setup(EmptyFrame(fs, parent, dirname))]
  }

  // ---------------------------------------------------------------------
  // Resolution

  /** `resolveVariableEnv(name)` from environment `id`. A local binding
      resolves here unless it is an environment reference, which resolves
      the same name in the referenced environment; a miss goes to the
      parent and a miss at the root throws. Each step goes to a new
      environment unless resolution has entered a cycle, which never ends;
      `fuel` counts the steps left before the host's stack gives out. */
  function Resolve(fs: Store, id: EnvId, k: Option<Prim>, fuel: nat): (r: Result<EnvId, string>)
    requires Valid(fs) && id < |fs|
    ensures r.Success? ==> r.value < |fs|
    decreases fuel
  {
    var f := fs[id];
    if HasKey(f, k) then
      var target := f.vars[k.value];
      if target.VEnvRef? then
        if fuel == 0 then Failure(StackOverflow) else Resolve(fs, target.ref.value, k, fuel - 1)
      else Success(id)
    else if f.parent.None? then Failure("Resolve variable " + KeyText(k) + " not declared")
    else if fuel == 0 then Failure(StackOverflow)
    else Resolve(fs, f.parent.value, k, fuel - 1)
  }

  /** Resolution with the fuel of the store's size: a resolution that
      takes more steps than there are environments has visited one twice
      and would go on for ever. */
  function ResolveVariableEnv(fs: Store, id: EnvId, k: Option<Prim>): Result<EnvId, string>
    requires Valid(fs) && id < |fs|
  {
    Resolve(fs, id, k, |fs|)
  }

  /** `asMap.get(name) || name`. */
  function Alias(f: Frame, k: Option<Prim>): Option<Prim>
  {
    if k.Some? && k.value in f.asMap && Truthy(f.asMap[k.value]) then Some(f.asMap[k.value]) else k
  }

  // ---------------------------------------------------------------------
  // The operations

  /** `declareVariable(name, value, is_static)`: keyed by the raw token
      value. */
  function Declare(fs: Store, id: EnvId, name: Option<Node>, value: Value, isStatic: bool): Result<Store, string>
    requires id < |fs|
  {
    if name.None? then Failure(NameUndefined)
    else if !name.value.Literal? then Failure(NameNotLiteral)
    else
      var key := name.value.token.value;
      var f := fs[id];
      if key in f.vars then Failure("Variable " + ToStr(key) + " already declared")
      else Success(fs[id := f.(vars := f.vars[key := value], statics := if isStatic then f.statics + {key} else f.statics)])
  }

  /** `getVariable(name)`: the alias applies at the start, then the name is
      resolved and read where it resolves. */
  function Get(fs: Store, id: EnvId, name: Node): Result<Value, string>
    requires Valid(fs) && id < |fs|
  {
    if !name.Literal? then Failure(NameNotLiteral)
    else
      var k := Alias(fs[id], LookupKey(name.token));
      var at :- ResolveVariableEnv(fs, id, k);
      ResolvedHasBinding(fs, id, k, |fs|);
      Success(fs[at].vars[k.value])
  }

  /** `setVariable(name, value)`: the name must be this environment's own
      and not static; the binding replaced is the one it resolves to. */
  function Set(fs: Store, id: EnvId, name: Node, value: Value): Result<Store, string>
    requires Valid(fs) && id < |fs|
  {
    if !name.Literal? then Failure(NameNotLiteral)
    else
      var k := LookupKey(name.token);
      var f := fs[id];
      if k.Some? && k.value in f.statics then Failure("Variable " + KeyText(k) + " is static")
      else if !HasKey(f, k) then Failure("Variable " + KeyText(k) + " not declared")
      else
        var at :- ResolveVariableEnv(fs, id, k);
        Success(fs[at := fs[at].(vars := fs[at].vars[k.value := value])])
  }

  /** `deleteVariable(name)`: the same checks; only this environment's own
      binding goes. The static set is left as it is. */
  function Delete(fs: Store, id: EnvId, name: Node): Result<Store, string>
    requires id < |fs|
  {
    if !name.Literal? then Failure(NameNotLiteral)
    else
      var k := LookupKey(name.token);
      var f := fs[id];
      if k.Some? && k.value in f.statics then Failure("Variable " + KeyText(k) + " is static")
      else if !HasKey(f, k) then Failure("Variable " + KeyText(k) + " not declared and can't delete")
      else Success(fs[id := f.(vars := f.vars - {k.value})])
  }

  /** `replaceVariable(name, value)`. */
  function Replace(fs: Store, id: EnvId, name: Node, value: Value): Result<Store, string>
    requires id < |fs|
  {
    var deleted :- Delete(fs, id, name);
    Declare(deleted, id, Some(name), value, false)
  }

  /** `link(name, env)`: an environment reference, written over whatever
      the name held. */
  function Link(fs: Store, id: EnvId, name: Prim, target: EnvId): Store
    requires id < |fs|
  {
    fs[id := fs[id].(vars := fs[id].vars[name := VEnvRef(UseEnvFn(target))])]
  }

  /** `setAsMap(name, as)`. */
  function SetAsMap(fs: Store, id: EnvId, name: Prim, alias: Prim): Store
    requires id < |fs|
  {
    fs[id := fs[id].(asMap := fs[id].asMap[name := alias])]
  }

  /** `setExpose(expose)`: only a Literal, added by its converted value. */
  function SetExpose(fs: Store, id: EnvId, n: Node): Result<Store, string>
    requires id < |fs|
  {
    if !n.Literal? then Failure("expose must be Literal")
    else Success(fs[id := fs[id].(expose := fs[id].expose + {ToRealValue(VLiteral(n.token)).value})])
  }

  /** `setFilePath(filePath)`. */
  function SetFilePath(fs: Store, id: EnvId, path: string): Store
    requires id < |fs|
  {
    fs[id := fs[id].(filePath := path)]
  }

  // ---------------------------------------------------------------------
  // Properties

  /** A successful resolution ends at an environment holding the name
      itself, not as a reference. */
  lemma {:induction false} ResolvedHasBinding(fs: Store, id: EnvId, k: Option<Prim>, fuel: nat)
    requires Valid(fs) && id < |fs|
    requires Resolve(fs, id, k, fuel).Success?
    ensures var at := Resolve(fs, id, k, fuel).value;
      HasKey(fs[at], k) && !fs[at].vars[k.value].VEnvRef?
    decreases fuel
  {
    var f := fs[id];
    if HasKey(f, k) {
      if f.vars[k.value].VEnvRef? {
        ResolvedHasBinding(fs, f.vars[k.value].ref.value, k, fuel - 1);
      }
    } else {
      ResolvedHasBinding(fs, f.parent.value, k, fuel - 1);
    }
  }

  /** More fuel never changes a resolution that ended without running out. */
  lemma {:induction false} ResolveFuelMonotone(fs: Store, id: EnvId, k: Option<Prim>, fuel: nat, more: nat)
    requires Valid(fs) && id < |fs| && fuel <= more
    requires Resolve(fs, id, k, fuel) != Failure(StackOverflow)
    ensures Resolve(fs, id, k, more) == Resolve(fs, id, k, fuel)
    decreases fuel
  {
    var f := fs[id];
    if HasKey(f, k) {
      if f.vars[k.value].VEnvRef? {
        ResolveFuelMonotone(fs, f.vars[k.value].ref.value, k, fuel - 1, more - 1);
      }
    } else if f.parent.Some? {
      ResolveFuelMonotone(fs, f.parent.value, k, fuel - 1, more - 1);
    }
  }

  /** The lookup rules, one step each: a plain local binding resolves here,
      a local reference resolves inside the referenced environment, a miss
      defers to the parent, and a miss at the root is "not declared". */
  lemma ResolveRules(fs: Store, id: EnvId, k: Option<Prim>, fuel: nat)
    requires Valid(fs) && id < |fs|
    ensures HasKey(fs[id], k) && !fs[id].vars[k.value].VEnvRef? ==> Resolve(fs, id, k, fuel) == Success(id)
    ensures HasKey(fs[id], k) && fs[id].vars[k.value].VEnvRef? && fuel > 0 ==>
      Resolve(fs, id, k, fuel) == Resolve(fs, fs[id].vars[k.value].ref.value, k, fuel - 1)
    ensures !HasKey(fs[id], k) && fs[id].parent.Some? && fuel > 0 ==>
      Resolve(fs, id, k, fuel) == Resolve(fs, fs[id].parent.value, k, fuel - 1)
    ensures !HasKey(fs[id], k) && fs[id].parent.None? ==>
      Resolve(fs, id, k, fuel) == Failure("Resolve variable " + KeyText(k) + " not declared")
  {
  }

  /** A name that resolves is declared along the parent chain: either here
      or, when missing here, from the parent on. */
  lemma {:induction false} ResolveMissDefersToParent(fs: Store, id: EnvId, k: Option<Prim>)
    requires Valid(fs) && id < |fs| && !HasKey(fs[id], k) && fs[id].parent.Some?
    requires ResolveVariableEnv(fs, id, k) != Failure(StackOverflow)
    ensures ResolveVariableEnv(fs, id, k) == ResolveVariableEnv(fs, fs[id].parent.value, k)
  {
    var p := fs[id].parent.value;
    assert Resolve(fs, id, k, |fs|) == Resolve(fs, p, k, |fs| - 1);
    ResolveFuelMonotone(fs, p, k, |fs| - 1, |fs|);
  }

  /** The store invariant survives every operation. */
  lemma NewEnvValid(fs: Store, parent: Option<EnvId>, dirname: string)
    requires Valid(fs) && (parent.Some? ==> parent.value < |fs|)
    ensures Valid(NewEnv(fs, parent, dirname))
  {
    var g := NewEnv(fs, parent, dirname);
    forall i | 0 <= i < |g|
      ensures g[i].parent.Some? ==> g[i].parent.value < i
      ensures forall k :: k in g[i].vars ==> RefValid(g, g[i].vars[k])
    {
      if i < |fs| {
        assert g[i] == fs[i];
      }
    }
  }

  lemma DeclareValid(fs: Store, id: EnvId, name: Option<Node>, value: Value, isStatic: bool)
    requires Valid(fs) && id < |fs| && RefValid(fs, value)
    requires Declare(fs, id, name, value, isStatic).Success?
    ensures Valid(Declare(fs, id, name, value, isStatic).value)
  {
  }

  lemma SetValid(fs: Store, id: EnvId, name: Node, value: Value)
    requires Valid(fs) && id < |fs| && RefValid(fs, value)
    requires Set(fs, id, name, value).Success?
    ensures Valid(Set(fs, id, name, value).value)
  {
  }

  lemma DeleteValid(fs: Store, id: EnvId, name: Node)
    requires Valid(fs) && id < |fs|
    requires Delete(fs, id, name).Success?
    ensures Valid(Delete(fs, id, name).value)
  {
  }

  lemma LinkValid(fs: Store, id: EnvId, name: Prim, target: EnvId)
    requires Valid(fs) && id < |fs| && target < |fs|
    ensures Valid(Link(fs, id, name, target))
  {
  }

  /** A new environment holds `true`, `false` and the global members as
      static bindings, has no other binding, and takes its parent's file
      path when that is non-empty. */
  lemma NewEnvContents(fs: Store, parent: Option<EnvId>, dirname: string)
    requires parent.Some? ==> parent.value < |fs|
    ensures var g := NewEnv(fs, parent, dirname); var f := g[|fs|];
      && |g| == |fs| + 1 && g[..|fs|] == fs
      && f.vars.Keys == {Str("true"), Str("false"), Str("print")}
      && f.statics == f.vars.Keys
      && f.vars[Str("true")] == VLiteral(Token(Boolean, Bool(true), 0, 0))
      && f.vars[Str("false")] == VLiteral(Token(Boolean, Bool(false), 0, 0))
      && (forall g :: g in GlobalNames ==> Str(g) in f.statics)
      && f.parent == parent && f.expose == {} && f.asMap == map[]
      && (parent.Some? && fs[parent.value].filePath != "" ==> f.filePath == fs[parent.value].filePath)
      && (parent.None? || fs[parent.value].filePath == "" ==> f.filePath == dirname)
  {
  }

  /** `declareVariable` fails exactly when the name is in this
      environment's own table, whatever the parents hold; on success it
      binds the name here, records it as static only when asked and only
      here, and leaves every other environment alone. */
  lemma DeclareRules(fs: Store, id: EnvId, t: Token, value: Value, isStatic: bool)
    requires id < |fs|
    ensures var r := Declare(fs, id, Some(Literal(t)), value, isStatic);
      && (r.Failure? <==> t.value in fs[id].vars)
      && (r.Failure? ==> r.error == "Variable " + ToStr(t.value) + " already declared")
      && (r.Success? ==>
            && |r.value| == |fs|
            && r.value[id].vars == fs[id].vars[t.value := value]
            && (t.value in r.value[id].statics <==> isStatic || t.value in fs[id].statics)
            && (forall k :: k != t.value ==> (k in r.value[id].statics <==> k in fs[id].statics))
            && r.value[id].parent == fs[id].parent
            && (forall j :: 0 <= j < |fs| && j != id ==> r.value[j] == fs[j]))
  {
  }

  /** A declared name reads back: after declaring a name that no alias
      renames, `getVariable` from the same environment gives the value, as
      long as the value is not itself an environment reference. */
  lemma GetAfterDeclare(fs: Store, id: EnvId, t: Token, value: Value, isStatic: bool)
    requires Valid(fs) && id < |fs| && RefValid(fs, value) && !value.VEnvRef?
    requires t.kind == Identifier && t.value.Str? && t.value.s != []
    requires !(t.value in fs[id].asMap && Truthy(fs[id].asMap[t.value]))
    requires Declare(fs, id, Some(Literal(t)), value, isStatic).Success?
    ensures var g := Declare(fs, id, Some(Literal(t)), value, isStatic).value;
      Valid(g) && Get(g, id, Literal(t)) == Success(value)
  {
    var g := Declare(fs, id, Some(Literal(t)), value, isStatic).value;
    DeclareValid(fs, id, Some(Literal(t)), value, isStatic);
    assert LookupKey(t) == Some(t.value);
    assert Resolve(g, id, Some(t.value), |g|) == Success(id);
  }

  /** A binding held only by the parent is read through the child. */
  lemma GetFromParent(fs: Store, id: EnvId, t: Token)
    requires Valid(fs) && id < |fs| && fs[id].parent.Some?
    requires t.kind == Identifier && t.value.Str? && t.value.s != []
    requires !(t.value in fs[id].asMap && Truthy(fs[id].asMap[t.value]))
    requires t.value !in fs[id].vars
    requires ResolveVariableEnv(fs, id, Some(t.value)) != Failure(StackOverflow)
    ensures Get(fs, id, Literal(t)) == Get(fs, fs[id].parent.value, Literal(t)) ||
            (t.value in fs[fs[id].parent.value].asMap && Truthy(fs[fs[id].parent.value].asMap[t.value]))
  {
    assert LookupKey(t) == Some(t.value);
    ResolveMissDefersToParent(fs, id, Some(t.value));
  }

  /** `setVariable` fails on a static name and on a name that is not this
      environment's own, even when a parent declares it. */
  lemma SetFailures(fs: Store, id: EnvId, t: Token, value: Value)
    requires Valid(fs) && id < |fs|
    requires t.kind == Identifier && t.value.Str? && t.value.s != []
    ensures t.value in fs[id].statics ==> Set(fs, id, Literal(t), value) == Failure("Variable " + ToStr(t.value) + " is static")
    ensures t.value !in fs[id].statics && t.value !in fs[id].vars ==>
      Set(fs, id, Literal(t), value) == Failure("Variable " + ToStr(t.value) + " not declared")
  {
    assert LookupKey(t) == Some(t.value);
  }

  /** On success `setVariable` replaces exactly the binding the name
      resolves to: the environment holding it plainly, which is this one or
      one an environment reference leads to. Nothing else changes. */
  lemma SetReplacesResolvedBinding(fs: Store, id: EnvId, t: Token, value: Value)
    requires Valid(fs) && id < |fs|
    requires t.kind == Identifier && t.value.Str? && t.value.s != []
    requires Set(fs, id, Literal(t), value).Success?
    ensures var g := Set(fs, id, Literal(t), value).value;
      var at := ResolveVariableEnv(fs, id, Some(t.value)).value;
      && ResolveVariableEnv(fs, id, Some(t.value)).Success?
      && t.value in fs[id].vars && t.value !in fs[id].statics
      && t.value in fs[at].vars && !fs[at].vars[t.value].VEnvRef?
      && (fs[id].vars[t.value].VEnvRef? <==> at != id)
      && |g| == |fs|
      && g[at].vars == fs[at].vars[t.value := value]
      && g[at].statics == fs[at].statics && g[at].parent == fs[at].parent
      && (forall j :: 0 <= j < |fs| && j != at ==> g[j] == fs[j])
  {
    assert LookupKey(t) == Some(t.value);
    ResolvedHasBinding(fs, id, Some(t.value), |fs|);
  }

  /** `deleteVariable` has the failures of `setVariable`, and otherwise
      removes only this environment's binding of the name. */
  lemma DeleteRules(fs: Store, id: EnvId, t: Token)
    requires id < |fs|
    requires t.kind == Identifier && t.value.Str? && t.value.s != []
    ensures var r := Delete(fs, id, Literal(t));
      && (t.value in fs[id].statics ==> r == Failure("Variable " + ToStr(t.value) + " is static"))
      && (t.value !in fs[id].statics && t.value !in fs[id].vars ==>
            r == Failure("Variable " + ToStr(t.value) + " not declared and can't delete"))
      && (r.Success? <==> t.value !in fs[id].statics && t.value in fs[id].vars)
      && (r.Success? ==>
            && |r.value| == |fs|
            && r.value[id].vars.Keys == fs[id].vars.Keys - {t.value}
            && (forall k :: k in r.value[id].vars ==> r.value[id].vars[k] == fs[id].vars[k])
            && r.value[id].statics == fs[id].statics
            && (forall j :: 0 <= j < |fs| && j != id ==> r.value[j] == fs[j]))
  {
    assert LookupKey(t) == Some(t.value);
  }

  /** `replaceVariable` succeeds exactly when `deleteVariable` does, and
      leaves the name bound to the new value, not static. */
  lemma ReplaceRules(fs: Store, id: EnvId, t: Token, value: Value)
    requires id < |fs|
    requires t.kind == Identifier && t.value.Str? && t.value.s != []
    ensures var r := Replace(fs, id, Literal(t), value);
      && (r.Success? <==> Delete(fs, id, Literal(t)).Success?)
      && (r.Success? ==>
            && r.value[id].vars == fs[id].vars[t.value := value]
            && t.value !in r.value[id].statics
            && (forall j :: 0 <= j < |fs| && j != id ==> r.value[j] == fs[j]))
  {
    assert LookupKey(t) == Some(t.value);
    var d := Delete(fs, id, Literal(t));
    if d.Success? {
      assert t.value !in d.value[id].vars;
      assert d.value[id].vars[t.value := value] == fs[id].vars[t.value := value];
    }
  }

  /** `link` overwrites without any declared check, and the name then
      resolves inside the linked environment. */
  lemma LinkRules(fs: Store, id: EnvId, name: Prim, target: EnvId)
    requires Valid(fs) && id < |fs| && target < |fs|
    ensures var g := Link(fs, id, name, target);
      && g[id].vars == fs[id].vars[name := VEnvRef(EnvToken(Env, target, 0, 0))]
      && g[id].statics == fs[id].statics
      && Valid(g)
      && Resolve(g, id, Some(name), |g|) == Resolve(g, target, Some(name), |g| - 1)
  {
  }

  /** `setExpose` rejects a non-Literal and otherwise adds the converted
      name to the expose set, leaving the rest alone. */
  lemma SetExposeRules(fs: Store, id: EnvId, n: Node)
    requires id < |fs|
    ensures !n.Literal? ==> SetExpose(fs, id, n) == Failure("expose must be Literal")
    ensures n.Literal? ==>
      var g := SetExpose(fs, id, n).value;
      && SetExpose(fs, id, n).Success?
      && g[id].expose == fs[id].expose + {ToRealValue(VLiteral(n.token)).value}
      && g[id].vars == fs[id].vars
      && (forall j :: 0 <= j < |fs| && j != id ==> g[j] == fs[j])
  {
  }

  // ---------------------------------------------------------------------
  // The store, updated in place

  class EnvironmentStore {
    var frames: Store
    const dirname: string

    constructor(dir: string)
      ensures frames == [] && dirname == dir
    {
      frames := [];
      dirname := dir;
    }

    predicate Inv()
      reads this
    {
      Valid(frames)
    }

    /** `new Environment(parent)`. */
    method NewEnvironment(parent: Option<EnvId>) returns (id: EnvId)
      requires Inv() && (parent.Some? ==> parent.value < |frames|)
      modifies this
      ensures Inv()
      ensures frames == NewEnv(old(frames), parent, dirname) && id == |old(frames)|
    {
      NewEnvValid(frames, parent, dirname);
      var inherited := if parent.Some? then frames[parent.value].filePath else "";
      var f := Frame(map[], {}, parent, {}, map[], if inherited != "" then inherited else dirname);
      f := f.(vars := f.vars[Str("true") := VLiteral(LiteralOf(Bool(true)).token)], statics := f.statics + {Str("true")});
      f := f.(vars := f.vars[Str("false") := VLiteral(LiteralOf(Bool(false)).token)], statics := f.statics + {Str("false")});
      var i := 0;
      while i < |GlobalNames|
        invariant 0 <= i <= |GlobalNames|
        invariant f.vars == (if i == 0 then map[Str("true") := VLiteral(LiteralOf(Bool(true)).token), Str("false") := VLiteral(LiteralOf(Bool(false)).token)]
                             else Setup(EmptyFrame(frames, parent, dirname)).vars)
        invariant f.statics == (if i == 0 then {Str("true"), Str("false")} else Setup(EmptyFrame(frames, parent, dirname)).statics)
        invariant f.parent == parent && f.expose == {} && f.asMap == map[]
        invariant f.filePath == EmptyFrame(frames, parent, dirname).filePath
      {
        f := f.(vars := f.vars[Str(GlobalNames[i]) := VHost(GlobalNames[i])], statics := f.statics + {Str(GlobalNames[i])});
        i := i + 1;
      }
      id := |frames|;
      frames := frames + [f];
    }

    /** `declareVariable(name, value, is_static)`. */
    method DeclareVariable(id: EnvId, name: Option<Node>, value: Value, isStatic: bool) returns (r: Result<(), string>)
      requires Inv() && id < |frames| && RefValid(frames, value)
      modifies this
      ensures Inv()
      ensures Declare(old(frames), id, name, value, isStatic).Success? ==> r.Success? && frames == Declare(old(frames), id, name, value, isStatic).value
      ensures Declare(old(frames), id, name, value, isStatic).Failure? ==> r == Failure(Declare(old(frames), id, name, value, isStatic).error) && frames == old(frames)
    {
      var d := Declare(frames, id, name, value, isStatic);
      if d.Failure? {
        return Failure(d.error);
      }
      DeclareValid(frames, id, name, value, isStatic);
      var key := name.value.token.value;
      var f := frames[id];
      f := f.(vars := f.vars[key := value]);
      if isStatic {
        f := f.(statics := f.statics + {key});
      }
      frames := frames[id := f];
      r := Success(());
    }

    /** `resolveVariableEnv(name)`, recursing as the source does. */
    method ResolveEnv(id: EnvId, k: Option<Prim>, fuel: nat) returns (r: Result<EnvId, string>)
      requires Inv() && id < |frames|
      ensures r == Resolve(frames, id, k, fuel)
      decreases fuel
    {
      var f := frames[id];
      if k.Some? && k.value in f.vars {
        var target := f.vars[k.value];
        if target.VEnvRef? {
          if fuel == 0 {
            return Failure(StackOverflow);
          }
          r := ResolveEnv(target.ref.value, k, fuel - 1);
          return;
        }
        return Success(id);
      }
      if f.parent.None? {
        return Failure("Resolve variable " + KeyText(k) + " not declared");
      }
      if fuel == 0 {
        return Failure(StackOverflow);
      }
      r := ResolveEnv(f.parent.value, k, fuel - 1);
    }

    /** `getVariable(name)`. */
    method GetVariable(id: EnvId, name: Node) returns (r: Result<Value, string>)
      requires Inv() && id < |frames|
      ensures r == Get(frames, id, name)
    {
      if !name.Literal? {
        return Failure(NameNotLiteral);
      }
      var k := Alias(frames[id], LookupKey(name.token));
      var at := ResolveEnv(id, k, |frames|);
      if at.Failure? {
        return Failure(at.error);
      }
      ResolvedHasBinding(frames, id, k, |frames|);
      r := Success(frames[at.value].vars[k.value]);
    }

    /** `setVariable(name, value)`. */
    method SetVariable(id: EnvId, name: Node, value: Value) returns (r: Result<(), string>)
      requires Inv() && id < |frames| && RefValid(frames, value)
      modifies this
      ensures Inv()
      ensures Set(old(frames), id, name, value).Success? ==> r.Success? && frames == Set(old(frames), id, name, value).value
      ensures Set(old(frames), id, name, value).Failure? ==> r == Failure(Set(old(frames), id, name, value).error) && frames == old(frames)
    {
      if !name.Literal? {
        return Failure(NameNotLiteral);
      }
      var k := LookupKey(name.token);
      if k.Some? && k.value in frames[id].statics {
        return Failure("Variable " + KeyText(k) + " is static");
      }
      if !(k.Some? && k.value in frames[id].vars) {
        return Failure("Variable " + KeyText(k) + " not declared");
      }
      var at := ResolveEnv(id, k, |frames|);
      if at.Failure? {
        return Failure(at.error);
      }
      SetValid(frames, id, name, value);
      frames := frames[at.value := frames[at.value].(vars := frames[at.value].vars[k.value := value])];
      r := Success(());
    }

    /** `deleteVariable(name)`. */
    method DeleteVariable(id: EnvId, name: Node) returns (r: Result<(), string>)
      requires Inv() && id < |frames|
      modifies this
      ensures Inv()
      ensures Delete(old(frames), id, name).Success? ==> r.Success? && frames == Delete(old(frames), id, name).value
      ensures Delete(old(frames), id, name).Failure? ==> r == Failure(Delete(old(frames), id, name).error) && frames == old(frames)
    {
      var d := Delete(frames, id, name);
      if d.Failure? {
        return Failure(d.error);
      }
      DeleteValid(frames, id, name);
      var k := LookupKey(name.token);
      frames := frames[id := frames[id].(vars := frames[id].vars - {k.value})];
      r := Success(());
    }

    /** `replaceVariable(name, value)`: delete, then a non-static declare. */
    method ReplaceVariable(id: EnvId, name: Node, value: Value) returns (r: Result<(), string>)
      requires Inv() && id < |frames| && RefValid(frames, value)
      modifies this
      ensures Inv()
      ensures Replace(old(frames), id, name, value).Success? ==> r.Success? && frames == Replace(old(frames), id, name, value).value
      ensures Replace(old(frames), id, name, value).Failure? ==> r == Failure(Replace(old(frames), id, name, value).error)
      ensures Delete(old(frames), id, name).Failure? ==> frames == old(frames)
      ensures Delete(old(frames), id, name).Success? && r.Failure? ==> frames == Delete(old(frames), id, name).value
    {
      r := DeleteVariable(id, name);
      if r.Failure? {
        return;
      }
      r := DeclareVariable(id, Some(name), value, false);
    }

    /** `link(name, env)`. */
    method LinkEnv(id: EnvId, name: Prim, target: EnvId)
      requires Inv() && id < |frames| && target < |frames|
      modifies this
      ensures Inv() && frames == Link(old(frames), id, name, target)
    {
      frames := frames[id := frames[id].(vars := frames[id].vars[name := VEnvRef(UseEnvFn(target))])];
    }

    /** `setAsMap(name, as)`. */
    method SetAlias(id: EnvId, name: Prim, alias: Prim)
      requires Inv() && id < |frames|
      modifies this
      ensures Inv() && frames == SetAsMap(old(frames), id, name, alias)
    {
      frames := frames[id := frames[id].(asMap := frames[id].asMap[name := alias])];
    }

    /** `setExpose(expose)`. */
    method SetExposeOf(id: EnvId, n: Node) returns (r: Result<(), string>)
      requires Inv() && id < |frames|
      modifies this
      ensures Inv()
      ensures SetExpose(old(frames), id, n).Success? ==> r.Success? && frames == SetExpose(old(frames), id, n).value
      ensures SetExpose(old(frames), id, n).Failure? ==> r == Failure(SetExpose(old(frames), id, n).error) && frames == old(frames)
      ensures r.Success? ==> n.Literal? && GetExpose(id) == old(GetExpose(id)) + {ToRealValue(VLiteral(n.token)).value}
    {
      if !n.Literal? {
        return Failure("expose must be Literal");
      }
      frames := frames[id := frames[id].(expose := frames[id].expose + {ToRealValue(VLiteral(n.token)).value})];
      r := Success(());
    }

    /** `getExpose()`. */
    function GetExpose(id: EnvId): set<HostVal>
      requires id < |frames|
      reads this
    {
      frames[id].expose
    }

    /** `setFilePath(filePath)`. */
    method SetPath(id: EnvId, path: string)
      requires Inv() && id < |frames|
      modifies this
      ensures Inv() && frames == SetFilePath(old(frames), id, path)
      ensures GetFilePath(id) == path
    {
      FilePathRoundTrip(frames, id, path);
      frames := frames[id := frames[id].(filePath := path)];
    }

    /** `getFilePath()`. */
    function GetFilePath(id: EnvId): string
      requires id < |frames|
      reads this
    {
      frames[id].filePath
    }
  }

  /** `getFilePath` gives back what `setFilePath` stored, and no other
      environment changes. */
  lemma FilePathRoundTrip(fs: Store, id: EnvId, path: string)
    requires id < |fs|
    ensures SetFilePath(fs, id, path)[id].filePath == path
    ensures forall j :: 0 <= j < |fs| && j != id ==> SetFilePath(fs, id, path)[j] == fs[j]
  {
  }
}
