/** src/utils/index.ts: the nil tests and the older copies of `LiteralFn`,
    `toRealValue` and `mapToObject` that the file still carries. */
module Utils {
  import opened Wrappers
  import opened Host
  import opened TokenKinds
  import opened Ast
  import opened Values
  import opened Literals
  import opened RealValues

  /** `isNil(input)`: `null`, `undefined` or the text "nil". */
  predicate IsNil(h: HostVal)
  {
    h == HPrim(Null) || h == HPrim(Undefined) || h == HPrim(Str("nil"))
  }

  /** `isNilLiteral(expr)`: the nil kind, read from a Literal's token or
      from a bare token. */
  predicate IsNilLiteral(v: Value)
  {
    (v.VLiteral? && v.literal.kind == Nil) || (v.VToken? && v.token.kind == Nil)
  }

  /** A nil literal converts to a host value `isNil` accepts (how `print`
      combines the two). */
  lemma NilLiteralConvertsToNil(v: Value)
    requires IsNilLiteral(v)
    ensures ToRealValue(v) == Success(HPrim(Null))
    ensures IsNil(ToRealValue(v).value)
  {
  }

  /** `LiteralFn` marks exactly `null` and `undefined` as nil literals. */
  lemma NilLiteralsFromLiteralFn(p: Prim)
    ensures IsNilLiteral(VLiteral(LiteralOf(p).token)) <==> (p.Null? || p.Undefined?)
  {
  }

  /** The older `LiteralFn(s)`: strings and booleans get their own kinds,
      anything else the number kind. */
  function OldLiteralFn(p: Prim): (r: Node)
    ensures r.Literal? && r.token.value == p && r.token.line == 0 && r.token.column == 0
  {
    Literal(Token(if p.Str? then String else if p.Bool? then Boolean else Number, p, 0, 0))
  }

  /** The two copies of `LiteralFn` agree on numbers, strings and booleans,
      and part on `null` and `undefined`: the older one files them under
      the number kind. */
  lemma OldLiteralFnAgrees(p: Prim)
    ensures p.Num? || p.Str? || p.Bool? ==> OldLiteralFn(p) == LiteralOf(p)
    ensures p.Null? || p.Undefined? ==> OldLiteralFn(p).token.kind == Number && LiteralOf(p).token.kind == Nil
  {
  }

  /** The kinds the older `toRealValue` switch handles: no index and no
      identifier. */
  predicate OldKindConverts(k: TokenType)
  {
    k == Number || k == String || k == Boolean || k == NaN || k == Nil
  }

  /** The host's TypeError for iterating a non-Map with `for...of`. */
  const NotIterable := "TypeError: obj is not iterable"

  /** The older `toRealValue(expr)`. Its `default` arm hands objects to the
      older `mapToObject`. */
  function OldToRealValue(v: Value): Result<HostVal, string>
    decreases v, 2, 0
  {
    match v
    case VToken(t) =>
      if OldKindConverts(t.kind) then Success(ConvertToken(t))
      else if Truthy(t.value) then Success(HToken(v))
      else Failure(NotIterable)
    case VLiteral(t) =>
      if OldKindConverts(t.kind) then Success(ConvertToken(t)) else Success(HToken(VToken(t)))
    case VEnvRef(_) => Success(HToken(v))
    case VMap(_, _) => OldMapToObject(v)
    case VArray(_) => OldConvertItems(v, 0, [])
    case VClosure(_, _, _, _) => Success(HFunction(v))
    case VHost(_) => Success(HFunction(v))
    case VRange(_, _, _) => Failure(NotIterable)
    case VPrim(p) => if p.Null? then Failure(NotIterable) else Success(HPrim(p))
  }

  /** `expr.map(v => toRealValue(v))` in the older copy. */
  function OldConvertItems(arr: Value, i: nat, acc: seq<HostVal>): Result<HostVal, string>
    requires arr.VArray? && i <= |arr.items|
    decreases arr, 1, |arr.items| - i
  {
    if i == |arr.items| then Success(HArray(acc))
    else
      assert arr.items[i] in arr.items;
      var h :- OldToRealValue(arr.items[i]);
      OldConvertItems(arr, i + 1, acc + [h])
  }

  /** The older `mapToObject(obj, toRealValue)`: always an object, with no
      Map check and no first-entry test. */
  function OldMapToObject(obj: Value): Result<HostVal, string>
    decreases obj, 1, 0
  {
    if !obj.VMap? then Failure(NotIterable) else OldConvertEntries(obj, 0, map[])
  }

  /** What `toRealValue(key).value` reads and names: a primitive has no
      `value` property, so it names "undefined". */
  function OldPropertyKey(h: HostVal): Result<string, string>
    requires !IsNullish(h)
  {
    match h
    case HToken(VToken(t)) => Success(ToStr(t.value))
    case HToken(_) => Success(ObjectText)
    case HObject(f) => if "value" in f then (if IsNullish(f["value"]) then Success(ToStr(f["value"].p)) else HostString(f["value"])) else Success("undefined")
    case _ => Success("undefined")
  }

  /** The loop of the older `mapToObject`: `result[toRealValue(key).value] =
      fn(value)`. */
  function OldConvertEntries(obj: Value, i: nat, acc: map<string, HostVal>): Result<HostVal, string>
    requires obj.VMap? && i <= |obj.entries|
    decreases obj, 0, |obj.entries| - i
  {
    if i == |obj.entries| then Success(HObject(acc))
    else
      assert obj.entries[i] in obj.entries;
      var rKey :- OldToRealValue(obj.entries[i].0);
      if IsNullish(rKey) then Failure(NullishRead(rKey))
      else
        var item :- OldToRealValue(obj.entries[i].1);
        var name :- OldPropertyKey(rKey);
        OldConvertEntries(obj, i + 1, acc[name := item])
  }

  /** The older `mapToObject` as written: a loop assigning into `result`. */
  method OldMapToObjectLoop(obj: Value) returns (r: Result<HostVal, string>)
    ensures r == OldMapToObject(obj)
  {
    if !obj.VMap? {
      return Failure(NotIterable);
    }
    var result: map<string, HostVal> := map[];
    var i := 0;
    while i < |obj.entries|
      invariant 0 <= i <= |obj.entries|
      invariant OldMapToObject(obj) == OldConvertEntries(obj, i, result)
    {
      var (key, value) := obj.entries[i];
      var rKey := OldToRealValue(key);
      if rKey.Failure? {
        return Failure(rKey.error);
      }
      if IsNullish(rKey.value) {
        return Failure(NullishRead(rKey.value));
      }
      var item := OldToRealValue(value);
      if item.Failure? {
        return Failure(item.error);
      }
      var name := OldPropertyKey(rKey.value);
      if name.Failure? {
        return Failure(name.error);
      }
      result := result[name.value := item.value];
      i := i + 1;
    }
    r := Success(HObject(result));
  }

  /** The older `toRealValue` converts booleans by truthiness and nil to
      `null` just as the current one does, but leaves identifiers and
      indexes to its `default` arm. */
  lemma OldToRealValueAgrees(t: Token)
    ensures OldKindConverts(t.kind) ==> OldToRealValue(VToken(t)) == ToRealValue(VToken(t))
    ensures t.kind == Boolean ==> OldToRealValue(VToken(t)) == Success(HPrim(Bool(Truthy(t.value))))
    ensures t.kind == Nil ==> OldToRealValue(VToken(t)) == Success(HPrim(Null))
    ensures (t.kind == Identifier || t.kind == Index) && Truthy(t.value) ==>
      OldToRealValue(VToken(t)) == Success(HToken(VToken(t)))
  {
  }

  /** Keys that convert to primitives all collapse onto the one name
      "undefined" in the older `mapToObject`, so a later value overwrites an
      earlier one. */
  lemma OldStringKeysCollide(a: string, b: string, x: Value, y: Value)
    requires OldToRealValue(x).Success? && OldToRealValue(y).Success?
    ensures OldMapToObject(VMap(ObjectTag, [(VToken(Token(String, Str(a), 1, 1)), x), (VToken(Token(String, Str(b), 1, 5)), y)]))
      == Success(HObject(map["undefined" := OldToRealValue(y).value]))
  {
    var obj := VMap(ObjectTag, [(VToken(Token(String, Str(a), 1, 1)), x), (VToken(Token(String, Str(b), 1, 5)), y)]);
    assert OldToRealValue(obj.entries[0].0) == Success(HPrim(Str(a)));
    assert OldToRealValue(obj.entries[1].0) == Success(HPrim(Str(b)));
    var m1 := map["undefined" := OldToRealValue(x).value];
    assert OldPropertyKey(HPrim(Str(a))) == Success("undefined");
    assert OldPropertyKey(HPrim(Str(b))) == Success("undefined");
    assert OldConvertEntries(obj, 0, map[]) == OldConvertEntries(obj, 1, m1);
    assert OldConvertEntries(obj, 1, m1) == OldConvertEntries(obj, 2, m1["undefined" := OldToRealValue(y).value]);
    assert m1["undefined" := OldToRealValue(y).value] == map["undefined" := OldToRealValue(y).value];
  }
}
