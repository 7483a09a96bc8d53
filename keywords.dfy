/** Token kinds, the token record and the reserved-word table
    (src/keywords/index.ts). */
module TokenKinds {
  import opened Host

  /** `TokenType`, in declaration order. `Index` and `Env` are made only
      during evaluation; `EmptyLine` is declared but never produced by the
      lexer. */
  datatype TokenType =
    | Number | String | Identifier | Boolean | Operator | Keyword | Comment | EmptyLine
    | Paren | Bracket | Curly | Comma | Colon | Question | Dot
    | Index | Env
    | Use | Expose | Pick | As | Task | Wait | To | Run
    | If | Else | Let | Cst | Fn | Return | End | NaN | Nil
    | For | In | Range | Switch | Case | Default | Break

  /** A token. The lexer always stores text in `value`; tokens made during
      evaluation may hold a number, a boolean or null there. */
  datatype Token = Token(kind: TokenType, value: Prim, line: int, column: int)

  /** The `Keywords` object: reserved word to token kind. */
  const Keywords: map<string, TokenType> := map[
    "NaN" := NaN, "nil" := Nil, "true" := Boolean, "false" := Boolean,
    "expose" := Expose, "pick" := Pick, "use" := Use, "as" := As,
    "task" := Task, "to" := To, "run" := Run, "wait" := Wait,
    "if" := If, "else" := Else, "let" := Let, "cst" := Cst,
    "fn" := Fn, "return" := Return, "end" := End, "for" := For,
    "in" := In, "range" := Range, "switch" := Switch, "case" := Case,
    "default" := Default, "break" := Break
  ]

  /** `Object.keys(Keywords)`, in the object's insertion order. */
  const KeywordKeys: seq<string> := [
    "NaN", "nil", "true", "false", "expose", "pick", "use", "as",
    "task", "to", "run", "wait", "if", "else", "let", "cst",
    "fn", "return", "end", "for", "in", "range", "switch", "case",
    "default", "break"
  ]

  /** `isKeyword(word)`: `Object.keys(Keywords).includes(word)`. */
  predicate IsKeyword(word: string)
  {
    word in KeywordKeys
  }

  /** The key list names exactly the table's keys, so `isKeyword` is
      membership in the table. */
  lemma IsKeywordIsTableMembership(word: string)
    ensures IsKeyword(word) <==> word in Keywords
  {
    assert Keywords.Keys == set k | k in KeywordKeys;
  }

  /** `true` and `false` are boolean, `NaN` and `nil` have kinds of their own. */
  lemma LiteralWords()
    ensures Keywords["true"] == Boolean && Keywords["false"] == Boolean
    ensures Keywords["NaN"] == NaN && Keywords["nil"] == Nil
  {
  }

  /** The const keyword is spelt `cst`; `const` is an ordinary word. */
  lemma ConstIsNotAKeyword()
    ensures IsKeyword("cst") && Keywords["cst"] == Cst
    ensures !IsKeyword("const")
  {
  }

  /** No reserved word other than `true`/`false` lexes as an identifier,
      a number, a string or a boolean. */
  lemma KeywordKindsAreReserved(word: string)
    requires word in Keywords && word != "true" && word != "false"
    ensures Keywords[word] !in {Identifier, Number, String, Boolean}
  {
  }

  /** The numeric value of a kind, as the enum's members are numbered in
      declaration order; messages that interpolate a kind print this. */
  function Ordinal(k: TokenType): (n: nat)
    ensures n < 41
  {
    match k
    case Number => 0
    case String => 1
    case Identifier => 2
    case Boolean => 3
    case Operator => 4
    case Keyword => 5
    case Comment => 6
    case EmptyLine => 7
    case Paren => 8
    case Bracket => 9
    case Curly => 10
    case Comma => 11
    case Colon => 12
    case Question => 13
    case Dot => 14
    case Index => 15
    case Env => 16
    case Use => 17
    case Expose => 18
    case Pick => 19
    case As => 20
    case Task => 21
    case Wait => 22
    case To => 23
    case Run => 24
    case If => 25
    case Else => 26
    case Let => 27
    case Cst => 28
    case Fn => 29
    case Return => 30
    case End => 31
    case NaN => 32
    case Nil => 33
    case For => 34
    case In => 35
    case Range => 36
    case Switch => 37
    case Case => 38
    case Default => 39
    case Break => 40
  }

  /** The kind a number stands for: the inverse of `Ordinal`, read off the
      declaration order. */
  function KindNumbered(n: nat): (k: TokenType)
    requires n < 41
  {
    match n
    case 0 => Number
    case 1 => String
    case 2 => Identifier
    case 3 => Boolean
    case 4 => Operator
    case 5 => Keyword
    case 6 => Comment
    case 7 => EmptyLine
    case 8 => Paren
    case 9 => Bracket
    case 10 => Curly
    case 11 => Comma
    case 12 => Colon
    case 13 => Question
    case 14 => Dot
    case 15 => Index
    case 16 => Env
    case 17 => Use
    case 18 => Expose
    case 19 => Pick
    case 20 => As
    case 21 => Task
    case 22 => Wait
    case 23 => To
    case 24 => Run
    case 25 => If
    case 26 => Else
    case 27 => Let
    case 28 => Cst
    case 29 => Fn
    case 30 => Return
    case 31 => End
    case 32 => NaN
    case 33 => Nil
    case 34 => For
    case 35 => In
    case 36 => Range
    case 37 => Switch
    case 38 => Case
    case 39 => Default
    case 40 => Break
  }

  /** Reading a kind's number back gives the kind. */
  lemma OrdinalIsPosition(k: TokenType)
    ensures KindNumbered(Ordinal(k)) == k
  {
  }

  /** Distinct kinds print as distinct numbers. */
  lemma OrdinalInjective(a: TokenType, b: TokenType)
    ensures Ordinal(a) == Ordinal(b) <==> a == b
  {
    OrdinalIsPosition(a);
    OrdinalIsPosition(b);
  }
}
