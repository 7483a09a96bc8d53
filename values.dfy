/** The values the interpreter computes and environments hold, and
    `UseEnvFn` (src/utils/UseEnvFn.ts). Environments live in one store and
    are referred to by their index there. */
module Values {
  import opened Host
  import opened TokenKinds
  import opened Ast

  /** An environment, as its index in the environment store. */
  type EnvId = nat

  /** The `BaseDataTag` a function or a map carries as its `type`. */
  datatype FnTag = PlainFn | TaskFn | LambdaFn
  datatype MapTag = ArrayTag | ObjectTag

  /** `TokenExEnvironment`: a token whose value is an environment. */
  datatype EnvToken = EnvToken(kind: TokenType, value: EnvId, line: int, column: int)

  /** A run-time value.
      - `VToken`: a token object (what a Literal evaluates to);
      - `VLiteral`: a Literal node (`LiteralFn` results stored in an
        environment);
      - `VEnvRef`: the token `UseEnvFn` makes;
      - `VMap`: a `Map` in insertion order, tagged array or object; keys
        are objects, so two entries never share a key;
      - `VClosure`: a function built by a declaration or a lambda;
      - `VHost`: a function of the global module, by name;
      - `VRange`: the `{type: RANGE, start, end, step}` record;
      - `VArray`: a host array;
      - `VPrim`: a plain primitive (template strings, `undefined`, `null`). */
  datatype Value =
    | VToken(token: Token)
    | VLiteral(literal: Token)
    | VEnvRef(ref: EnvToken)
    | VMap(tag: MapTag, entries: seq<(Value, Value)>)
    | VClosure(fnTag: FnTag, params: seq<Node>, block: Node, env: EnvId)
    | VHost(name: string)
    | VRange(start: Value, end: Value, step: Token)
    | VArray(items: seq<Value>)
    | VPrim(p: Prim)

  /** `UseEnvFn(env)`. */
  function UseEnvFn(env: EnvId): (t: EnvToken)
    ensures t.kind == Env && t.value == env
    ensures t.line == 0 && t.column == 0
  {
    EnvToken(Env, env, 0, 0)
  }

  /** Two calls on the same environment give equal records, and the record
      refers back to exactly the environment it was made from. */
  lemma UseEnvFnInjective(a: EnvId, b: EnvId)
    ensures UseEnvFn(a) == UseEnvFn(b) <==> a == b
  {
  }

  /** `typeof v`. */
  function TypeOf(v: Value): string
  {
    match v
    case VClosure(_, _, _, _) => "function"
    case VHost(_) => "function"
    case VPrim(p) =>
      (match p
       case Str(_) => "string"
       case Num(_) => "number"
       case Bool(_) => "boolean"
       case Null => "object"
       case Undefined => "undefined")
    case _ => "object"
  }

  /** A function value, as `typeof v === "function"` sees it. */
  predicate IsFunction(v: Value)
  {
    v.VClosure? || v.VHost?
  }
}
