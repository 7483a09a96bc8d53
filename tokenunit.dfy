/** `TokenUnit` (src/utils/TokenUnit.ts): arithmetic and comparison on
    tokens. A unit holds one token; each operation replaces it and returns
    the unit. The value each operation stores is given by a function on the
    old token and the right operand, and the methods are proved against
    those functions. */
module TokenUnits {
  import opened Wrappers
  import opened Host
  import opened TokenKinds
  import opened Values
  import opened RealValues

  /** Why an operation throws: an operand `vaildBaseType` rejects, a read of
      a property of `null`, an operator `logicOperate` does not know (its
      result `undefined` has no `toString`), a conversion that throws, and
      host behaviour outside the model (numbers other than NaN, the
      infinities and integers within 2^53, non-integer quotients,
      comparisons of objects). */
  datatype UnitError =
    | UnknownLiteralType(operand: Value)
    | ReadOfNull
    | UnknownOperator(operator: Prim)
    | Conversion(message: string)
    | Unsupported(what: string)

  /** `vaildBaseType(token)`: a non-object passes, a token of the number,
      string or boolean kind passes, `null` has no `type` to read and any
      other object throws "Unknown literal type". */
  function ValidBaseType(v: Value): (r: Option<UnitError>)
    ensures r.None? <==> (v.VPrim? && !v.p.Null?) || v.VClosure? || v.VHost? ||
                         (v.VToken? && (v.token.kind == Number || v.token.kind == String || v.token.kind == Boolean))
  {
    match v
    case VPrim(p) => if p.Null? then Some(ReadOfNull) else None
    case VClosure(_, _, _, _) => None
    case VHost(_) => None
    case VToken(t) =>
      if t.kind == Number || t.kind == String || t.kind == Boolean then None else Some(UnknownLiteralType(v))
    case _ => Some(UnknownLiteralType(v))
  }

  /** What an operation that meets a number the model does not hold as
      the host does gives up with. */
  const Inexact := "a number other than NaN, an infinity or an integer within 2^53"

  /** A number-kind token is read with `Number`, any other token as its
      raw value. */
  function LeftOperand(t: Token): Prim
  {
    if t.kind == Number then Num(ToNumber(t.value)) else t.value
  }

  /** An operand token, read as LeftOperand says, or `Unsupported` when
      `Number` would read its text as a number the model does not hold. */
  function Operand(t: Token): Result<Prim, UnitError>
  {
    if t.kind == Number && !ReadsExactly(t.value) then Failure(Unsupported(Inexact))
    else Success(LeftOperand(t))
  }

  /** The right operand, read the same way; a primitive is taken as it is.
      Adding a function concatenates its source text, which is outside the
      model. */
  function RightOperand(v: Value): Result<Prim, UnitError>
  {
    var check := ValidBaseType(v);
    if check.Some? then Failure(check.value)
    else match v
      case VToken(t) => Operand(t)
      case VPrim(p) => Success(p)
      case _ => Failure(Unsupported("an arithmetic operand that is a function"))
  }

  /** True when a number operand of `+` is one the model holds as the host
      does: a concatenation writes each number out, an addition reads both
      and yields the sum. */
  predicate SumExact(a: Prim, b: Prim)
  {
    if a.Str? || b.Str? then (a.Num? ==> NumExact(a.n)) && (b.Num? ==> NumExact(b.n))
    else NumExact(ToNumber(a)) && NumExact(ToNumber(b)) && NumExact(NumAdd(ToNumber(a), ToNumber(b)))
  }

  /** True when `Number` reads both operands as the model does and the
      result is one the model holds as the host does. */
  predicate Exactly(a: Prim, b: Prim, r: JsNumber)
  {
    ReadsExactly(a) && ReadsExactly(b) && NumExact(r)
  }

  /** `add`: the raw host sum or concatenation. */
  function AddTokens(left: Token, right: Value): Result<Token, UnitError>
  {
    var b :- RightOperand(right);
    var a :- Operand(left);
    if !SumExact(a, b) then Failure(Unsupported(Inexact))
    else Success(left.(value := Add(a, b)))
  }

  /** `sub`: the difference, stored through `toString`. */
  function SubTokens(left: Token, right: Value): Result<Token, UnitError>
  {
    var b :- RightOperand(right);
    var a :- Operand(left);
    var d := NumSub(ToNumber(a), ToNumber(b));
    if !Exactly(a, b, d) then Failure(Unsupported(Inexact))
    else Success(left.(value := Str(NumberToString(d))))
  }

  /** `mul`: the product, stored through `toString`. */
  function MulTokens(left: Token, right: Value): Result<Token, UnitError>
  {
    var b :- RightOperand(right);
    var a :- Operand(left);
    var d := NumMul(ToNumber(a), ToNumber(b));
    if !Exactly(a, b, d) then Failure(Unsupported(Inexact))
    else Success(left.(value := Str(NumberToString(d))))
  }

  /** `x / y` where the model holds it: NaN, an infinity, or an integer
      quotient. A division by zero gives the infinity of the dividend's
      sign (NaN for zero), a finite number divided by an infinity gives
      zero. */
  function Quotient(x: JsNumber, y: JsNumber): Result<JsNumber, UnitError>
  {
    if x.NotANumber? || y.NotANumber? || (x.Infinity? && y.Infinity?) then Success(NotANumber)
    else if x.Infinity? then Success(Infinity(x.negative != Negative(y)))
    else if y.Infinity? then Success(Int(0))
    else if y.i == 0 then Success(if x.i == 0 then NotANumber else Infinity(x.i < 0))
    else if x.i % y.i == 0 then Success(Int(x.i / y.i))
    else Failure(Unsupported("a quotient that is not an integer"))
  }

  /** `div`: the quotient, stored through `toString`. */
  function DivTokens(left: Token, right: Value): Result<Token, UnitError>
  {
    var b :- RightOperand(right);
    var a :- Operand(left);
    var q :- Quotient(ToNumber(a), ToNumber(b));
    if !Exactly(a, b, q) then Failure(Unsupported(Inexact))
    else Success(left.(value := Str(NumberToString(q))))
  }

  /** True when `op` is one of the six operators the comparison `switch`
      of `logicOperate` names. */
  predicate IsRelation(op: Prim)
  {
    op == Str("==") || op == Str("!=") || op == Str(">") || op == Str("<") || op == Str(">=") || op == Str("<=")
  }

  /** The arms of the comparison `switch` of `logicOperate` as written, on
      two primitives and a known operator: the `<=` arm computes `>=`. */
  predicate Compared(op: Prim, x: Prim, y: Prim)
  {
    if op == Str("==") then LooseEq(x, y)
    else if op == Str("!=") then !LooseEq(x, y)
    else if op == Str(">") then Gt(x, y)
    else if op == Str("<") then Lt(x, y)
    else Ge(x, y)
  }

  /** True when comparing `x` and `y` with `op` reads them as numbers:
      always, unless both are strings or, for `==` and `!=`, one is
      `null` or `undefined` or both are booleans. */
  predicate Converts(op: Prim, x: Prim, y: Prim)
  {
    && !(x.Str? && y.Str?)
    && ((op == Str("==") || op == Str("!=")) ==>
          !(x.Null? || x.Undefined? || y.Null? || y.Undefined? || (x.Bool? && y.Bool?)))
  }

  /** True when the comparison reads its operands as the model does. */
  predicate Comparable(op: Prim, x: Prim, y: Prim)
  {
    Converts(op, x, y) ==> ReadsExactly(x) && ReadsExactly(y)
  }

  /** The comparison `switch` of `logicOperate` as written. Only
      primitives are compared; comparing objects depends on their
      identity, which the model does not keep. */
  function Relate(op: Prim, a: HostVal, b: HostVal): Result<bool, UnitError>
  {
    if !IsRelation(op) then Failure(UnknownOperator(op))
    else if !a.HPrim? || !b.HPrim? then Failure(Unsupported("a comparison involving an object"))
    else if !Comparable(op, a.p, b.p) then Failure(Unsupported(Inexact))
    else Success(Compared(op, a.p, b.p))
  }

  /** The comparison `switch` with its `<=` arm corrected to compute `<=`;
      only LogicTokensIntended uses it. */
  function RelateIntended(op: Prim, a: HostVal, b: HostVal): Result<bool, UnitError>
  {
    if op == Str("<=") && a.HPrim? && b.HPrim? && Comparable(op, a.p, b.p) then Success(Le(a.p, b.p))
    else Relate(op, a, b)
  }

  /** True when `toRealValue` reads `v` as the model does: a number or
      index token whose text `Number` reads as another number is not. */
  predicate ConvertsExactly(v: Value)
  {
    match v
    case VToken(t) => (t.kind == Number || t.kind == Index) ==> ReadsExactly(t.value)
    case VLiteral(t) => (t.kind == Number || t.kind == Index) ==> ReadsExactly(t.value)
    case _ => true
  }

  /** `logicOperate(operator, right)`: both sides go through `toRealValue`
      and the result is a boolean-kind token holding "true" or "false". */
  function LogicTokens(left: Token, operator: Token, right: Value): Result<Token, UnitError>
  {
    var a := ToRealValue(VToken(left));
    if a.Failure? then Failure(Conversion(a.error))
    else
      var b := ToRealValue(right);
      if b.Failure? then Failure(Conversion(b.error))
      else if IsRelation(operator.value) && !(ConvertsExactly(VToken(left)) && ConvertsExactly(right)) then
        Failure(Unsupported(Inexact))
      else
        var res :- Relate(operator.value, a.value, b.value);
        Success(left.(kind := Boolean, value := Str(if res then "true" else "false")))
  }

  /** `logicOperate` with the `<=` arm corrected: the corrected half of the
      `<=` finding, kept beside the operation as written. */
  function LogicTokensIntended(left: Token, operator: Token, right: Value): Result<Token, UnitError>
  {
    var a := ToRealValue(VToken(left));
    if a.Failure? then Failure(Conversion(a.error))
    else
      var b := ToRealValue(right);
      if b.Failure? then Failure(Conversion(b.error))
      else if IsRelation(operator.value) && !(ConvertsExactly(VToken(left)) && ConvertsExactly(right)) then
        Failure(Unsupported(Inexact))
      else
        var res :- RelateIntended(operator.value, a.value, b.value);
        Success(left.(kind := Boolean, value := Str(if res then "true" else "false")))
  }

  /** The unit itself. */
  class TokenUnit {
    var token: Token

    constructor(t: Token)
      ensures token == t && GetToken() == t
    {
      token := t;
    }

    /** `getToken()`. */
    function GetToken(): Token
      reads this
    {
      token
    }

    /** `add(token)`: a throw leaves the unit as it was. */
    method AddOp(right: Value) returns (r: Result<TokenUnit, UnitError>)
      modifies this
      ensures AddTokens(old(token), right).Success? ==> r == Success(this) && token == AddTokens(old(token), right).value
      ensures AddTokens(old(token), right).Failure? ==> r == Failure(AddTokens(old(token), right).error) && token == old(token)
    {
      var check := ValidBaseType(right);
      if check.Some? {
        return Failure(check.value);
      }
      var b: Prim;
      if right.VToken? {
        var rb := Operand(right.token);
        if rb.Failure? {
          return Failure(rb.error);
        }
        b := rb.value;
      } else if right.VPrim? {
        b := right.p;
      } else {
        return Failure(Unsupported("an arithmetic operand that is a function"));
      }
      var a := Operand(token);
      if a.Failure? {
        return Failure(a.error);
      }
      if !SumExact(a.value, b) {
        return Failure(Unsupported(Inexact));
      }
      token := token.(value := Add(a.value, b));
      r := Success(this);
    }

    /** `sub(token)`. */
    method SubOp(right: Value) returns (r: Result<TokenUnit, UnitError>)
      modifies this
      ensures SubTokens(old(token), right).Success? ==> r == Success(this) && token == SubTokens(old(token), right).value
      ensures SubTokens(old(token), right).Failure? ==> r == Failure(SubTokens(old(token), right).error) && token == old(token)
    {
      var b := RightOperand(right);
      if b.Failure? {
        return Failure(b.error);
      }
      var a := Operand(token);
      if a.Failure? {
        return Failure(a.error);
      }
      var d := NumSub(ToNumber(a.value), ToNumber(b.value));
      if !Exactly(a.value, b.value, d) {
        return Failure(Unsupported(Inexact));
      }
      token := token.(value := Str(NumberToString(d)));
      r := Success(this);
    }

    /** `mul(token)`. */
    method MulOp(right: Value) returns (r: Result<TokenUnit, UnitError>)
      modifies this
      ensures MulTokens(old(token), right).Success? ==> r == Success(this) && token == MulTokens(old(token), right).value
      ensures MulTokens(old(token), right).Failure? ==> r == Failure(MulTokens(old(token), right).error) && token == old(token)
    {
      var b := RightOperand(right);
      if b.Failure? {
        return Failure(b.error);
      }
      var a := Operand(token);
      if a.Failure? {
        return Failure(a.error);
      }
      var d := NumMul(ToNumber(a.value), ToNumber(b.value));
      if !Exactly(a.value, b.value, d) {
        return Failure(Unsupported(Inexact));
      }
      token := token.(value := Str(NumberToString(d)));
      r := Success(this);
    }

    /** `div(token)`. */
    method DivOp(right: Value) returns (r: Result<TokenUnit, UnitError>)
      modifies this
      ensures DivTokens(old(token), right).Success? ==> r == Success(this) && token == DivTokens(old(token), right).value
      ensures DivTokens(old(token), right).Failure? ==> r == Failure(DivTokens(old(token), right).error) && token == old(token)
    {
      var b := RightOperand(right);
      if b.Failure? {
        return Failure(b.error);
      }
      var a := Operand(token);
      if a.Failure? {
        return Failure(a.error);
      }
      var q := Quotient(ToNumber(a.value), ToNumber(b.value));
      if q.Failure? {
        return Failure(q.error);
      }
      if !Exactly(a.value, b.value, q.value) {
        return Failure(Unsupported(Inexact));
      }
      token := token.(value := Str(NumberToString(q.value)));
      r := Success(this);
    }

    /** `logicOperate(operator, rightToken)`. */
    method LogicOperate(operator: Token, right: Value) returns (r: Result<TokenUnit, UnitError>)
      modifies this
      ensures LogicTokens(old(token), operator, right).Success? ==> r == Success(this) && token == LogicTokens(old(token), operator, right).value
      ensures LogicTokens(old(token), operator, right).Failure? ==> r == Failure(LogicTokens(old(token), operator, right).error) && token == old(token)
    {
      var a := ToRealValue(VToken(token));
      if a.Failure? {
        return Failure(Conversion(a.error));
      }
      var b := ToRealValue(right);
      if b.Failure? {
        return Failure(Conversion(b.error));
      }
      if IsRelation(operator.value) && !(ConvertsExactly(VToken(token)) && ConvertsExactly(right)) {
        return Failure(Unsupported(Inexact));
      }
      var res := Relate(operator.value, a.value, b.value);
      if res.Failure? {
        return Failure(res.error);
      }
      token := token.(kind := Boolean, value := Str(if res.value then "true" else "false"));
      r := Success(this);
    }
  }

  // ---------------------------------------------------------------------
  // Properties

  /** A right operand that is a token of another kind than number, string
      or boolean makes every arithmetic operation throw "Unknown literal
      type". */
  lemma UnknownLiteralTypeThrows(left: Token, t: Token)
    requires t.kind != Number && t.kind != String && t.kind != Boolean
    ensures AddTokens(left, VToken(t)) == Failure(UnknownLiteralType(VToken(t)))
    ensures SubTokens(left, VToken(t)) == Failure(UnknownLiteralType(VToken(t)))
    ensures MulTokens(left, VToken(t)) == Failure(UnknownLiteralType(VToken(t)))
    ensures DivTokens(left, VToken(t)) == Failure(UnknownLiteralType(VToken(t)))
  {
  }

  /** Every arithmetic result keeps the left token's kind, line and column;
      `sub`, `mul` and `div` store text, `add` the raw host value. */
  lemma ArithmeticKeepsPosition(left: Token, right: Value)
    ensures AddTokens(left, right).Success? ==>
      var r := AddTokens(left, right).value; r.kind == left.kind && r.line == left.line && r.column == left.column
    ensures SubTokens(left, right).Success? ==>
      var r := SubTokens(left, right).value; r.kind == left.kind && r.line == left.line && r.column == left.column && r.value.Str?
    ensures MulTokens(left, right).Success? ==>
      var r := MulTokens(left, right).value; r.kind == left.kind && r.line == left.line && r.column == left.column && r.value.Str?
    ensures DivTokens(left, right).Success? ==>
      var r := DivTokens(left, right).value; r.kind == left.kind && r.line == left.line && r.column == left.column && r.value.Str?
  {
  }

  /** Two number tokens sum as numbers when both read exactly and the sum
      is held exactly; a string-kind side concatenates the texts. */
  lemma AddNumbersAndStrings(left: Token, right: Token)
    requires right.kind == Number || right.kind == String || right.kind == Boolean
    ensures left.kind == Number && right.kind == Number ==>
      var x, y := ToNumber(left.value), ToNumber(right.value);
      AddTokens(left, VToken(right)) ==
        if ReadsExactly(right.value) && ReadsExactly(left.value) && NumExact(NumAdd(x, y))
        then Success(left.(value := Num(NumAdd(x, y))))
        else Failure(Unsupported(Inexact))
    ensures left.kind == String && left.value.Str? && right.kind == String && right.value.Str? ==>
      AddTokens(left, VToken(right)) == Success(left.(value := Str(left.value.s + right.value.s)))
    ensures left.kind == Number && right.kind == String && right.value.Str? ==>
      AddTokens(left, VToken(right)) ==
        if ReadsExactly(left.value) then Success(left.(value := Str(NumberToString(ToNumber(left.value)) + right.value.s)))
        else Failure(Unsupported(Inexact))
  {
  }

  /** A token holding a number the model reads as the integer x reads
      exactly when x is within 2^53. */
  lemma IntegerOperand(t: Token, x: int)
    requires ToNumber(t.value) == Int(x)
    ensures ReadsExactly(t.value) <==> NumExact(Int(x))
  {
    if t.value.Str? {
      ReadNumberNotOther(t.value.s);
    }
  }

  /** On number tokens whose texts read as the integers x and y, `add`
      stores the sum as a number; the left token's kind, line and column
      stay. Beyond 2^53, where the host rounds, the model stops. */
  lemma AddOnNumerals(left: Token, right: Token, x: int, y: int)
    requires left.kind == Number && ToNumber(left.value) == Int(x)
    requires right.kind == Number && ToNumber(right.value) == Int(y)
    ensures AddTokens(left, VToken(right)) ==
      if NumExact(Int(x)) && NumExact(Int(y)) && NumExact(Int(x + y)) then Success(left.(value := Num(Int(x + y))))
      else Failure(Unsupported(Inexact))
  {
    IntegerOperand(left, x);
    IntegerOperand(right, y);
  }

  /** `sub` on them stores the difference as text. */
  lemma SubOnNumerals(left: Token, right: Token, x: int, y: int)
    requires left.kind == Number && ToNumber(left.value) == Int(x)
    requires right.kind == Number && ToNumber(right.value) == Int(y)
    ensures SubTokens(left, VToken(right)) ==
      if NumExact(Int(x)) && NumExact(Int(y)) && NumExact(Int(x - y)) then Success(left.(value := Str(IntToString(x - y))))
      else Failure(Unsupported(Inexact))
  {
    IntegerOperand(left, x);
    IntegerOperand(right, y);
  }

  /** `mul` on them stores the product as text. */
  lemma MulOnNumerals(left: Token, right: Token, x: int, y: int)
    requires left.kind == Number && ToNumber(left.value) == Int(x)
    requires right.kind == Number && ToNumber(right.value) == Int(y)
    ensures MulTokens(left, VToken(right)) ==
      if NumExact(Int(x)) && NumExact(Int(y)) && NumExact(Int(x * y)) then Success(left.(value := Str(IntToString(x * y))))
      else Failure(Unsupported(Inexact))
  {
    IntegerOperand(left, x);
    IntegerOperand(right, y);
  }

  /** `div` on them stores the quotient as text: an exact quotient is
      written out, a zero divisor gives "Infinity" or "-Infinity" by the
      dividend's sign and "NaN" for zero, and any other quotient, which
      `toString` writes as a fraction, is outside the model. */
  lemma DivOnNumerals(left: Token, right: Token, x: int, y: int)
    requires left.kind == Number && ToNumber(left.value) == Int(x)
    requires right.kind == Number && ToNumber(right.value) == Int(y)
    requires NumExact(Int(x)) && NumExact(Int(y))
    ensures y == 0 ==>
      DivTokens(left, VToken(right)) == Success(left.(value := Str(if x == 0 then "NaN" else if x > 0 then "Infinity" else "-Infinity")))
    ensures y != 0 && x % y == 0 ==> DivTokens(left, VToken(right)) == Success(left.(value := Str(IntToString(x / y))))
    ensures y != 0 && x % y != 0 ==> DivTokens(left, VToken(right)) == Failure(Unsupported("a quotient that is not an integer"))
  {
    IntegerOperand(left, x);
    IntegerOperand(right, y);
    if y != 0 && x % y == 0 {
      QuotientWithin(x, y);
    }
  }

  /** An exact quotient is no larger than its dividend. */
  lemma QuotientWithin(x: int, y: int)
    requires y != 0 && x % y == 0 && NumExact(Int(x))
    ensures NumExact(Int(x / y))
  {
    var q := x / y;
    assert x == y * q;
    var ay: int := if y < 0 then -y else y;
    var aq: int := if q < 0 then -q else q;
    assert (if x < 0 then -x else x) == ay * aq by {
      if y < 0 && q < 0 { assert y * q == (-y) * (-q); }
      else if y < 0 { assert -(y * q) == (-y) * q; }
      else if q < 0 { assert -(y * q) == y * (-q); }
    }
    ProductAtLeast(ay, aq);
  }

  lemma ProductAtLeast(a: int, b: int)
    requires a >= 1 && b >= 0
    ensures a * b >= b
  {
    assert a * b == (a - 1) * b + b;
    assert (a - 1) * b >= 0;
  }

  /** The text `sub` stores is read back by `Number` as the number it was
      written from, so the next operation on the token meets no text the
      model does not read; the same holds for `mul` and `div` below. */
  lemma SubTextReadsBack(left: Token, right: Value)
    requires SubTokens(left, right).Success?
    ensures ReadsExactly(SubTokens(left, right).value.value)
  {
    var a, b := Operand(left).value, RightOperand(right).value;
    NumberTextReadsExactly(NumSub(ToNumber(a), ToNumber(b)));
  }

  lemma MulTextReadsBack(left: Token, right: Value)
    requires MulTokens(left, right).Success?
    ensures ReadsExactly(MulTokens(left, right).value.value)
  {
    var a, b := Operand(left).value, RightOperand(right).value;
    NumberTextReadsExactly(NumMul(ToNumber(a), ToNumber(b)));
  }

  lemma DivTextReadsBack(left: Token, right: Value)
    requires DivTokens(left, right).Success?
    ensures ReadsExactly(DivTokens(left, right).value.value)
  {
    var a, b := Operand(left).value, RightOperand(right).value;
    NumberTextReadsExactly(Quotient(ToNumber(a), ToNumber(b)).value);
  }

  /** "Infinity", the text a division by zero stores, reads back exactly
      as an infinity, so InfinityPlusNumber and InfinityAboveNumber apply
      to a token holding it. */
  lemma InfinityText()
    ensures StringToNumber("Infinity") == Infinity(false)
    ensures ReadsExactly(Str("Infinity"))
  {
    NumberTextRoundTrip(Infinity(false));
    NumberTextReadsExactly(Infinity(false));
  }

  /** So the next operation on a token holding that text meets an
      infinity: adding a number within 2^53 keeps it. */
  lemma InfinityPlusNumber(left: Token, right: Token, y: int)
    requires left.kind == Number && ToNumber(left.value) == Infinity(false) && ReadsExactly(left.value)
    requires right.kind == Number && ToNumber(right.value) == Int(y) && NumExact(Int(y))
    ensures AddTokens(left, VToken(right)) == Success(left.(value := Num(Infinity(false))))
  {
    IntegerOperand(right, y);
    assert Operand(left) == Success(Num(Infinity(false)));
    assert RightOperand(VToken(right)) == Success(Num(Int(y)));
  }

  /** And it compares above every number within 2^53. */
  lemma InfinityAboveNumber(left: Token, right: Token, operator: Token, y: int)
    requires left.kind == Number && ToNumber(left.value) == Infinity(false) && ReadsExactly(left.value)
    requires right.kind == Number && ToNumber(right.value) == Int(y) && NumExact(Int(y))
    requires operator.value == Str(">")
    ensures LogicTokens(left, operator, VToken(right)) == Success(left.(kind := Boolean, value := Str("true")))
  {
    IntegerOperand(right, y);
    HandledKinds(left);
    HandledKinds(right);
    InfinityAbove(y);
  }

  lemma InfinityAbove(y: int)
    requires NumExact(Int(y))
    ensures Relate(Str(">"), HPrim(Num(Infinity(false))), HPrim(Num(Int(y)))) == Success(true)
  {
    assert ">"[0] != "="[0] && ">"[0] != "!"[0];
    assert IsRelation(Str(">"));
    assert Compared(Str(">"), Num(Infinity(false)), Num(Int(y)));
  }

  /** `logicOperate` yields a boolean-kind token holding "true" or "false"
      at the left token's position. */
  lemma LogicIsBoolean(left: Token, operator: Token, right: Value)
    ensures LogicTokens(left, operator, right).Success? ==>
      var r := LogicTokens(left, operator, right).value;
      && r.kind == Boolean && (r.value == Str("true") || r.value == Str("false"))
      && r.line == left.line && r.column == left.column
  {
  }

  /** As written, `<=` is among the operators the switch knows and it
      computes `>=`: on the integers 3 and 2, `3 <= 2` is true. */
  lemma LessEqualAsWritten(a: HostVal, b: HostVal)
    requires a.HPrim? && b.HPrim?
    ensures Relate(Str("<="), a, b) ==
      if Comparable(Str("<="), a.p, b.p) then Success(Ge(a.p, b.p)) else Failure(Unsupported(Inexact))
    ensures Relate(Str("<="), HPrim(Num(Int(3))), HPrim(Num(Int(2)))) == Success(true)
  {
    assert "<="[0] != "=="[0] && "<="[0] != "!="[0] && "<="[0] != ">"[0] && "<="[0] != ">="[0];
    assert |"<="| != |"<"|;
    assert Comparable(Str("<="), Num(Int(3)), Num(Int(2))) by {
      assert ReadsExactly(Num(Int(3))) && ReadsExactly(Num(Int(2)));
    }
    assert Ge(Num(Int(3)), Num(Int(2)));
  }

  /** The correction touches only `<=`: every other operator, known or
      not, compares as written. */
  lemma RelateAgreesElsewhere(op: Prim, a: HostVal, b: HostVal)
    requires op != Str("<=")
    ensures RelateIntended(op, a, b) == Relate(op, a, b)
  {
  }

  /** With the `<=` arm corrected, `<=` on two primitives holds exactly
      when the right one is not below the left one. */
  lemma RelateLessEqual(a: HostVal, b: HostVal)
    requires a.HPrim? && b.HPrim?
    ensures RelateIntended(Str("<="), a, b) ==
      if Comparable(Str("<="), a.p, b.p) then Success(Le(a.p, b.p)) else Failure(Unsupported(Inexact))
  {
    assert "<="[0] != "=="[0] && "<="[0] != "!="[0] && "<="[0] != ">"[0] && "<="[0] != ">="[0];
    assert |"<="| != |"<"|;
  }

  /** So, with the arm corrected, on number tokens whose texts read as the
      integers x and y, `x <= y` gives "true" exactly when x is at most y. */
  lemma LessEqualOnNumerals(left: Token, operator: Token, right: Token, x: int, y: int)
    requires left.kind == Number && ToNumber(left.value) == Int(x)
    requires right.kind == Number && ToNumber(right.value) == Int(y)
    requires operator.value == Str("<=")
    ensures LogicTokensIntended(left, operator, VToken(right)) ==
      if NumExact(Int(x)) && NumExact(Int(y)) then Success(left.(kind := Boolean, value := Str(if x <= y then "true" else "false")))
      else Failure(Unsupported(Inexact))
  {
    IntegerOperand(left, x);
    IntegerOperand(right, y);
    if NumExact(Int(x)) && NumExact(Int(y)) {
      RelateLessEqual(HPrim(Num(Int(x))), HPrim(Num(Int(y))));
    }
  }

  /** As written, `logicOperate` on such tokens answers `x <= y` with
      "true" exactly when x is at least y, so `3 <= 2` stores "true". */
  lemma LessEqualOnNumeralsAsWritten(left: Token, operator: Token, right: Token, x: int, y: int)
    requires left.kind == Number && ToNumber(left.value) == Int(x)
    requires right.kind == Number && ToNumber(right.value) == Int(y)
    requires operator.value == Str("<=")
    ensures LogicTokens(left, operator, VToken(right)) ==
      if NumExact(Int(x)) && NumExact(Int(y)) then Success(left.(kind := Boolean, value := Str(if x >= y then "true" else "false")))
      else Failure(Unsupported(Inexact))
  {
    IntegerOperand(left, x);
    IntegerOperand(right, y);
    if NumExact(Int(x)) && NumExact(Int(y)) {
      LessEqualAsWritten(HPrim(Num(Int(x))), HPrim(Num(Int(y))));
    }
  }

  /** The two halves differ only on `<=`: for every other operator the
      operation as written and the corrected one agree. */
  lemma LogicAgreesElsewhere(left: Token, operator: Token, right: Value)
    requires operator.value != Str("<=")
    ensures LogicTokens(left, operator, right) == LogicTokensIntended(left, operator, right)
  {
    var a := ToRealValue(VToken(left));
    var b := ToRealValue(right);
    if a.Success? && b.Success? {
      RelateAgreesElsewhere(operator.value, a.value, b.value);
    }
  }

  /** An operator outside the switch leaves `res` undefined, and reading
      its `toString` throws. */
  lemma UnknownOperatorThrows(left: Token, operator: Token, right: Value)
    requires operator.value == Str("&&")
    requires ToRealValue(VToken(left)).Success? && ToRealValue(right).Success?
    ensures LogicTokens(left, operator, right) == Failure(UnknownOperator(Str("&&")))
  {
  }

  /** A condition read as the ternary reads it (src/interpreter/index.ts:
      539-540): a boolean-kind token whose text is "true". This is the
      corrected half of the `if` finding, where `toRealValue` reads the
      text "false" as true. */
  predicate ConditionHolds(t: Token)
  {
    t.kind == Boolean && t.value == Str("true")
  }

  /** Read that way, the result of `x > y` on number tokens within 2^53
      holds exactly when x is greater than y. */
  lemma ComparisonConditionIntended(left: Token, operator: Token, right: Token, x: int, y: int)
    requires left.kind == Number && ToNumber(left.value) == Int(x) && NumExact(Int(x))
    requires right.kind == Number && ToNumber(right.value) == Int(y) && NumExact(Int(y))
    requires operator.value == Str(">")
    ensures LogicTokens(left, operator, VToken(right)).Success?
    ensures ConditionHolds(LogicTokens(left, operator, VToken(right)).value) <==> x > y
  {
    IntegerOperand(left, x);
    IntegerOperand(right, y);
    HandledKinds(left);
    HandledKinds(right);
    assert ">"[0] != "="[0] && ">"[0] != "!"[0];
    assert Relate(Str(">"), HPrim(Num(Int(x))), HPrim(Num(Int(y)))) == Success(x > y);
    assert "true" != "false";
  }
}
