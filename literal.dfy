/** `LiteralFn` (src/utils/LiteralFn.ts): wrap a host value in a Literal
    node whose token kind follows the value's `typeof`. */
module Literals {
  import opened Host
  import opened TokenKinds
  import opened Ast

  /** What `LiteralFn` accepts: a primitive, or a Literal node's token. */
  datatype LiteralArg = OfPrim(p: Prim) | OfLiteral(token: Token)

  /** `typeof s` mapped to a token kind: `null` and `undefined` are nil. */
  function KindOfPrim(p: Prim): TokenType
  {
    match p
    case Num(_) => Number
    case Str(_) => String
    case Bool(_) => Boolean
    case Null => Nil
    case Undefined => Nil
  }

  /** `LiteralFn(s)`. */
  function LiteralFn(s: LiteralArg): (r: Node)
    ensures r.Literal?
    ensures s.OfLiteral? ==> r.token == s.token
    ensures s.OfPrim? ==> r.token.value == s.p && r.token.line == 0 && r.token.column == 0
  {
    match s
    case OfLiteral(t) => Literal(t)
    case OfPrim(p) => Literal(Token(KindOfPrim(p), p, 0, 0))
  }

  /** The literal for a primitive, `LiteralFn(p)`. */
  function LiteralOf(p: Prim): (r: Node)
    ensures r.Literal?
  {
    LiteralFn(OfPrim(p))
  }

  /** Numbers, strings and booleans get the number, string and boolean
      kinds; `null` and any other value get nil. */
  lemma LiteralFnKinds(p: Prim)
    ensures LiteralOf(p).token.kind == Number <==> p.Num?
    ensures LiteralOf(p).token.kind == String <==> p.Str?
    ensures LiteralOf(p).token.kind == Boolean <==> p.Bool?
    ensures LiteralOf(p).token.kind == Nil <==> (p.Null? || p.Undefined?)
  {
  }

  /** A Literal argument comes back unchanged. */
  lemma LiteralFnKeepsLiterals(t: Token)
    ensures LiteralFn(OfLiteral(t)) == Literal(t)
  {
  }
}
