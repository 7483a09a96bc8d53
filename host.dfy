/** The JavaScript primitive values the language runs on, and the host
    conversions the core applies to them: `Number(x)`, `String(x)`, `!!x`,
    `+`, loose equality `==`, strict equality `===` and the relational
    operators. Numbers are the integers (the only numbers the lexer can
    produce), the two infinities a division by zero gives, and NaN. Text
    `Number` reads as some other number (a fraction, an exponent, a
    hexadecimal, octal or binary literal) and magnitudes above 2^53, where
    doubles stop holding every integer, are recognised here so that the
    operations can leave the model on them. */
module Host {

  /** A JavaScript number restricted to the integers, the infinities and
      NaN. */
  datatype JsNumber = Int(i: int) | Infinity(negative: bool) | NotANumber

  /** A JavaScript primitive value. */
  datatype Prim = Str(s: string) | Num(n: JsNumber) | Bool(b: bool) | Null | Undefined

  predicate IsDigit(c: char) { '0' <= c <= '9' }

  predicate AllDigits(s: string) { forall k :: 0 <= k < |s| ==> IsDigit(s[k]) }

  function DigitChar(d: nat): (c: char)
    requires d < 10
    ensures IsDigit(c)
  {
    ('0' as int + d) as char
  }

  /** The value of a run of decimal digits. */
  function DecimalValue(s: string): nat
    requires AllDigits(s)
  {
    if s == [] then 0 else 10 * DecimalValue(s[..|s| - 1]) + (s[|s| - 1] as int - '0' as int)
  }

  /** Decimal text of a natural number, without leading zeros. */
  function NatToString(n: nat): (r: string)
    ensures |r| > 0 && AllDigits(r)
  {
    if n < 10 then [DigitChar(n)] else NatToString(n / 10) + [DigitChar(n % 10)]
  }

  /** `String(i)` for an integer. */
  function IntToString(i: int): (r: string)
    ensures |r| > 0
  {
    if i < 0 then "-" + NatToString(-i) else NatToString(i)
  }

  /** The white space and line terminators of ECMAScript: what `Number(...)`
      and `String.prototype.trim` strip and what `\s` matches in a regular
      expression. */
  predicate IsJsSpace(c: char)
  {
    c == ' ' || c == '\t' || c == '\n' || c == '\r' || c == '\U{000B}' || c == '\U{000C}'
    || c == '\U{00A0}' || c == '\U{1680}' || ('\U{2000}' <= c <= '\U{200A}')
    || c == '\U{2028}' || c == '\U{2029}' || c == '\U{202F}' || c == '\U{205F}'
    || c == '\U{3000}' || c == '\U{FEFF}'
  }

  function TrimStart(s: string): (r: string)
    ensures |r| <= |s|
    ensures r == s[|s| - |r|..]
  {
    if s != [] && IsJsSpace(s[0]) then TrimStart(s[1..]) else s
  }

  function TrimEnd(s: string): (r: string)
    ensures |r| <= |s|
    ensures r == s[..|r|]
  {
    if s != [] && IsJsSpace(s[|s| - 1]) then TrimEnd(s[..|s| - 1]) else s
  }

  function Trim(s: string): string { TrimEnd(TrimStart(s)) }

  /** `Number(s)` for a string: blank text is 0, an optionally signed run of
      digits is that integer, an optionally signed "Infinity" is an
      infinity, anything else is NaN (OtherNumeric says where `Number`
      reads a number instead). */
  function StringToNumber(s: string): JsNumber
  {
    var t := Trim(s);
    if t == [] then Int(0)
    else if t == "Infinity" || t == "+Infinity" then Infinity(false)
    else if t == "-Infinity" then Infinity(true)
    else if t[0] == '-' && |t| > 1 && AllDigits(t[1..]) then Int(0 - DecimalValue(t[1..]) as int)
    else if t[0] == '+' && |t| > 1 && AllDigits(t[1..]) then Int(DecimalValue(t[1..]))
    else if AllDigits(t) then Int(DecimalValue(t))
    else NotANumber
  }

  /** The end of the run of decimal digits starting at `i`. */
  function DigitsEnd(t: string, i: nat): (j: nat)
    requires i <= |t|
    ensures i <= j <= |t|
    decreases |t| - i
  {
    if i < |t| && IsDigit(t[i]) then DigitsEnd(t, i + 1) else i
  }

  /** An exponent part `e`/`E`, an optional sign and digits, from `i` to
      the end of `t`. */
  predicate ExponentFrom(t: string, i: nat)
    requires i <= |t|
  {
    && i < |t| && (t[i] == 'e' || t[i] == 'E')
    && var j := if i + 1 < |t| && (t[i + 1] == '+' || t[i + 1] == '-') then i + 2 else i + 1;
       j < |t| && DigitsEnd(t, j) == |t|
  }

  /** An unsigned decimal literal with a decimal point or an exponent:
      `1.5`, `5.`, `.5`, `1e3`, `2.5E-1`. */
  predicate FractionOrExponent(t: string)
  {
    var m := DigitsEnd(t, 0);
    if m < |t| && t[m] == '.' then
      var f := DigitsEnd(t, m + 1);
      (m > 0 || f > m + 1) && (f == |t| || ExponentFrom(t, f))
    else m > 0 && ExponentFrom(t, m)
  }

  /** A digit of the radix a `0x`, `0o` or `0b` prefix names. */
  predicate RadixDigit(prefix: char, c: char)
  {
    if prefix == 'x' || prefix == 'X' then IsDigit(c) || ('a' <= c <= 'f') || ('A' <= c <= 'F')
    else if prefix == 'o' || prefix == 'O' then '0' <= c <= '7'
    else c == '0' || c == '1'
  }

  /** A hexadecimal, octal or binary integer literal, which `Number`
      accepts without a sign. */
  predicate RadixLiteral(t: string)
  {
    && |t| > 2 && t[0] == '0'
    && (t[1] == 'x' || t[1] == 'X' || t[1] == 'o' || t[1] == 'O' || t[1] == 'b' || t[1] == 'B')
    && forall k :: 2 <= k < |t| ==> RadixDigit(t[1], t[k])
  }

  /** Trimmed text that `Number` reads as a number although
      StringToNumber gives NaN: a signed or unsigned decimal with a point
      or an exponent, or a radix literal. */
  predicate OtherNumeric(t: string)
  {
    || RadixLiteral(t)
    || FractionOrExponent(t)
    || (|t| > 1 && (t[0] == '+' || t[0] == '-') && FractionOrExponent(t[1..]))
  }

  /** 2^53: up to this magnitude every integer is a double. */
  const MaxExact: int := 0x20_0000_0000_0000

  /** A number the model holds as the host holds it: an infinity, NaN, or
      an integer of magnitude at most 2^53. */
  predicate NumExact(n: JsNumber)
  {
    n.Int? ==> -MaxExact <= n.i <= MaxExact
  }

  /** `Number(p)` gives what ToNumber gives: the text is not one
      OtherNumeric names, and the number is one NumExact admits. */
  predicate ReadsExactly(p: Prim)
  {
    (p.Str? ==> !OtherNumeric(Trim(p.s))) && NumExact(ToNumber(p))
  }

  /** `Number(p)`. */
  function ToNumber(p: Prim): JsNumber
  {
    match p
    case Str(s) => StringToNumber(s)
    case Num(n) => n
    case Bool(b) => Int(if b then 1 else 0)
    case Null => Int(0)
    case Undefined => NotANumber
  }

  function NumberToString(n: JsNumber): string
  {
    match n
    case Int(i) => IntToString(i)
    case Infinity(negative) => if negative then "-Infinity" else "Infinity"
    case NotANumber => "NaN"
  }

  /** `String(p)`. */
  function ToStr(p: Prim): string
  {
    match p
    case Str(s) => s
    case Num(n) => NumberToString(n)
    case Bool(b) => if b then "true" else "false"
    case Null => "null"
    case Undefined => "undefined"
  }

  /** `!!p`. */
  predicate Truthy(p: Prim)
  {
    match p
    case Str(s) => s != []
    case Num(n) => !n.NotANumber? && n != Int(0)
    case Bool(b) => b
    case Null => false
    case Undefined => false
  }

  /** True for the negative numbers. */
  predicate Negative(x: JsNumber)
  {
    (x.Int? && x.i < 0) || (x.Infinity? && x.negative)
  }

  /** `-x`. */
  function NumNeg(x: JsNumber): JsNumber
  {
    match x
    case Int(i) => Int(-i)
    case Infinity(negative) => Infinity(!negative)
    case NotANumber => NotANumber
  }

  /** `x + y`: infinities of opposite signs give NaN. */
  function NumAdd(x: JsNumber, y: JsNumber): JsNumber
  {
    if x.NotANumber? || y.NotANumber? then NotANumber
    else if x.Infinity? && y.Infinity? then (if x.negative == y.negative then x else NotANumber)
    else if x.Infinity? then x
    else if y.Infinity? then y
    else Int(x.i + y.i)
  }

  /** `x - y`. */
  function NumSub(x: JsNumber, y: JsNumber): JsNumber
  {
    NumAdd(x, NumNeg(y))
  }

  /** `x * y`: an infinity times zero gives NaN, any other product with an
      infinity is the infinity of the product's sign. */
  function NumMul(x: JsNumber, y: JsNumber): JsNumber
  {
    if x.NotANumber? || y.NotANumber? then NotANumber
    else if x.Infinity? || y.Infinity? then
      (if x == Int(0) || y == Int(0) then NotANumber else Infinity(Negative(x) != Negative(y)))
    else Int(x.i * y.i)
  }

  /** `a + b` on primitives: a string on either side concatenates, otherwise
      both sides are added as numbers. */
  function Add(a: Prim, b: Prim): Prim
  {
    if a.Str? || b.Str? then Str(ToStr(a) + ToStr(b)) else Num(NumAdd(ToNumber(a), ToNumber(b)))
  }

  predicate NumEq(x: JsNumber, y: JsNumber)
  {
    x == y && !x.NotANumber?
  }

  /** `x < y` on two numbers neither of which is NaN. */
  predicate NumBelow(x: JsNumber, y: JsNumber)
  {
    if x.Int? && y.Int? then x.i < y.i
    else x != y && ((x.Infinity? && x.negative) || (y.Infinity? && !y.negative))
  }

  /** `a == b` on primitives. */
  predicate LooseEq(a: Prim, b: Prim)
  {
    if (a.Null? || a.Undefined?) && (b.Null? || b.Undefined?) then true
    else if a.Null? || a.Undefined? || b.Null? || b.Undefined? then false
    else if a.Str? && b.Str? then a.s == b.s
    else if a.Bool? && b.Bool? then a.b == b.b
    else NumEq(ToNumber(a), ToNumber(b))
  }

  /** `a === b` on primitives. */
  predicate StrictEq(a: Prim, b: Prim)
  {
    a == b && !(a.Num? && a.n.NotANumber?)
  }

  /** Code-unit order on strings. */
  predicate StrBelow(x: string, y: string)
  {
    if y == [] then false
    else if x == [] then true
    else if x[0] != y[0] then x[0] < y[0]
    else StrBelow(x[1..], y[1..])
  }

  /** The outcome of JavaScript's abstract relational comparison `a < b`. */
  datatype Order = Below | NotBelow | Incomparable

  function Compare(a: Prim, b: Prim): Order
  {
    if a.Str? && b.Str? then (if StrBelow(a.s, b.s) then Below else NotBelow)
    else
      var x, y := ToNumber(a), ToNumber(b);
      if x.NotANumber? || y.NotANumber? then Incomparable
      else if NumBelow(x, y) then Below else NotBelow
  }

  predicate Lt(a: Prim, b: Prim) { Compare(a, b) == Below }
  predicate Gt(a: Prim, b: Prim) { Compare(b, a) == Below }
  predicate Le(a: Prim, b: Prim) { Compare(b, a) == NotBelow }
  predicate Ge(a: Prim, b: Prim) { Compare(a, b) == NotBelow }

  /** Decimal text read back gives the number it was written from. */
  lemma {:induction false} NatToStringRoundTrip(n: nat)
    ensures DecimalValue(NatToString(n)) == n
  {
    if n >= 10 {
      NatToStringRoundTrip(n / 10);
      var s := NatToString(n / 10);
      var t := s + [DigitChar(n % 10)];
      assert t[..|t| - 1] == s;
    }
  }

  /** `Number(String(i)) == i` for every integer. */
  lemma IntToStringRoundTrip(i: int)
    ensures StringToNumber(IntToString(i)) == Int(i)
  {
    var r := IntToString(i);
    if i < 0 {
      NatToStringRoundTrip(-i);
      var d := NatToString(-i);
      assert r == "-" + d && r[1..] == d;
      assert !IsJsSpace(r[0]) && !IsJsSpace(r[|r| - 1]);
      assert Trim(r) == r;
      assert r[1] == d[0] && IsDigit(d[0]);
      assert r != "-Infinity" && r != "+Infinity" && r != "Infinity";
    } else {
      NatToStringRoundTrip(i);
      assert !IsJsSpace(r[0]) && !IsJsSpace(r[|r| - 1]);
      assert Trim(r) == r;
      assert IsDigit(r[0]);
      assert r != "-Infinity" && r != "+Infinity" && r != "Infinity";
    }
  }

  /** `Number(String(n)) == n` for every number the model holds: the text
      `toString` writes reads back as the same number. */
  lemma NumberTextRoundTrip(n: JsNumber)
    ensures StringToNumber(NumberToString(n)) == n
  {
    match n
    case Int(i) => IntToStringRoundTrip(i);
    case Infinity(negative) =>
      var r := NumberToString(n);
      assert !IsJsSpace(r[0]) && !IsJsSpace(r[|r| - 1]);
      assert Trim(r) == r;
    case NotANumber =>
      var r := NumberToString(n);
      assert !IsJsSpace(r[0]) && !IsJsSpace(r[|r| - 1]);
      assert Trim(r) == r;
      assert r[0] == 'N' && !IsDigit(r[0]);
  }

  /** A run of digits ends where the text does. */
  lemma {:induction false} DigitsToEnd(t: string, i: nat)
    requires i <= |t| && AllDigits(t)
    ensures DigitsEnd(t, i) == |t|
    decreases |t| - i
  {
    if i < |t| {
      DigitsToEnd(t, i + 1);
    }
  }

  /** Digits, optionally signed, are not among the texts OtherNumeric
      names. */
  lemma SignedDigitsNotOther(t: string)
    requires AllDigits(t) || (|t| > 1 && (t[0] == '-' || t[0] == '+') && AllDigits(t[1..]))
    ensures !OtherNumeric(t)
  {
    if AllDigits(t) {
      DigitsToEnd(t, 0);
      if |t| > 1 {
        assert IsDigit(t[1]);
      }
    } else {
      DigitsToEnd(t[1..], 0);
    }
  }

  /** Text that StringToNumber reads as an integer or an infinity is not
      among those OtherNumeric names, so `Number` reads it the same way. */
  lemma ReadNumberNotOther(s: string)
    requires !StringToNumber(s).NotANumber?
    ensures !OtherNumeric(Trim(s))
  {
    var t := Trim(s);
    if t == [] {
    } else if t == "Infinity" || t == "+Infinity" || t == "-Infinity" {
      assert !IsDigit(t[0]) && t[0] != '.' && t[0] != '0';
      assert t[0] == '+' || t[0] == '-' ==> !IsDigit(t[1]) && t[1] != '.';
    } else {
      SignedDigitsNotOther(t);
    }
  }

  /** The text `toString` writes for a number the model holds exactly is
      read back exactly. */
  lemma NumberTextReadsExactly(n: JsNumber)
    requires NumExact(n)
    ensures ReadsExactly(Str(NumberToString(n)))
  {
    NumberTextRoundTrip(n);
    if !n.NotANumber? {
      ReadNumberNotOther(NumberToString(n));
    } else {
      NaNTextNotOther();
    }
  }

  lemma NaNTextNotOther()
    ensures !OtherNumeric(Trim("NaN"))
  {
    var r := "NaN";
    assert !IsJsSpace(r[0]) && !IsJsSpace(r[|r| - 1]);
    assert Trim(r) == r;
    assert DigitsEnd(r, 0) == 0;
  }
}
