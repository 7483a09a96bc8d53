/** `toRealValue` (src/utils/toRealValue.ts) and `mapToObject`
    (src/utils/mapToObject.ts): converting interpreter values to host values.
    The two call each other, so they share one module; `mapToObject` is
    always handed `toRealValue` as its `fn`, which is fixed here. */
module RealValues {
  import opened Wrappers
  import opened Host
  import opened TokenKinds
  import opened Values
  import opened Literals

  /** A host value as the conversions return it: a primitive, a token object
      returned as itself, an array, a plain object (by property name; the
      host's property enumeration order is not kept), or a function. */
  datatype HostVal =
    | HPrim(p: Prim)
    | HToken(v: Value)
    | HArray(items: seq<HostVal>)
    | HObject(fields: map<string, HostVal>)
    | HFunction(f: Value)

  const ObjectText := "[object Object]"
  const NoFirstEntry := "TypeError: Cannot read properties of undefined (reading '0')"

  /** The message `mapToObject` throws for a non-Map argument. */
  function NotAMap(v: Value): string
  {
    "obj is not Map , current type is : " + TypeOf(v)
  }

  /** The host's TypeError for reading `.value` of `null` or `undefined`. */
  function NullishRead(h: HostVal): string
  {
    "TypeError: Cannot read properties of " + (if h == HPrim(Null) then "null" else "undefined") + " (reading 'value')"
  }

  predicate IsNullish(h: HostVal)
  {
    h == HPrim(Null) || h == HPrim(Undefined)
  }

  /** The kinds the `switch` of `toRealValue` handles itself. */
  predicate KindConverts(k: TokenType)
  {
    k == Index || k == Number || k == String || k == Identifier || k == Boolean || k == NaN || k == Nil
  }

  /** The `switch` arms: numbers and indexes by `Number`, strings and
      identifiers by `String`, booleans by truthiness, nan and nil. */
  function ConvertToken(t: Token): (h: HostVal)
    requires KindConverts(t.kind)
  {
    match t.kind
    case Index => HPrim(Num(ToNumber(t.value)))
    case Number => HPrim(Num(ToNumber(t.value)))
    case String => HPrim(Str(ToStr(t.value)))
    case Identifier => HPrim(Str(ToStr(t.value)))
    case Boolean => HPrim(Bool(Truthy(t.value)))
    case NaN => HPrim(Num(NotANumber))
    case Nil => HPrim(Null)
  }

  /** `key?.value?.type === TokenType.index`: only a Literal node's token
      carries a kind under `value`. */
  predicate IsIndexKey(k: Value)
  {
    k.VLiteral? && k.literal.kind == Index
  }

  /** `toRealValue(expr)`. */
  function ToRealValue(v: Value): Result<HostVal, string>
    decreases v, 3, 0
  {
    match v
    case VToken(t) =>
      if KindConverts(t.kind) then Success(ConvertToken(t))
      else if Truthy(t.value) then Success(HToken(v))
      // a falsy `value` reaches `mapToObject` with a token object
      else Failure(NotAMap(v))
    case VLiteral(t) =>
      // a Literal is unwrapped; its `value` (the token) is always truthy
      if KindConverts(t.kind) then Success(ConvertToken(t)) else Success(HToken(VToken(t)))
    case VEnvRef(_) => Success(HToken(v))
    case VMap(_, _) => MapToObject(v)
    case VArray(_) => ConvertItems(v, 0, [])
    case VClosure(_, _, _, _) => Success(HFunction(v))
    case VHost(_) => Success(HFunction(v))
    case VRange(_, _, _) => Failure(NotAMap(v))
    case VPrim(p) => if p.Null? then Failure(NotAMap(v)) else Success(HPrim(p))
  }

  /** `expr.map(v => toRealValue(v))`, from element `i` on. */
  function ConvertItems(arr: Value, i: nat, acc: seq<HostVal>): Result<HostVal, string>
    requires arr.VArray? && i <= |arr.items|
    decreases arr, 1, |arr.items| - i
  {
    if i == |arr.items| then Success(HArray(acc))
    else
      assert arr.items[i] in arr.items;
      var h :- ToRealValue(arr.items[i]);
      ConvertItems(arr, i + 1, acc + [h])
  }

  /** The value stored for one entry: a nested Map is converted by
      `mapToObject` itself, anything else by `fn`. */
  function ConvertValue(v: Value): Result<HostVal, string>
    decreases v, 4, 0
  {
    if v.VMap? then MapToObject(v) else ToRealValue(v)
  }

  /** `mapToObject(obj, toRealValue)`. */
  function MapToObject(obj: Value): Result<HostVal, string>
    decreases obj, 2, 0
  {
    if !obj.VMap? then Failure(NotAMap(obj))
    else if |obj.entries| == 0 then Failure(NoFirstEntry)
    else ConvertEntries(obj, 0, if IsIndexKey(obj.entries[0].0) then HArray([]) else HObject(map[]))
  }

  /** The `for...of` loop of `mapToObject` from entry `i` on, with the
      result built so far in `acc`. */
  function ConvertEntries(obj: Value, i: nat, acc: HostVal): Result<HostVal, string>
    requires obj.VMap? && i <= |obj.entries| && (acc.HArray? || acc.HObject?)
    decreases obj, 1, |obj.entries| - i
  {
    if i == |obj.entries| then Success(acc)
    else
      assert obj.entries[i] in obj.entries;
      var rKey :- ToRealValue(obj.entries[i].0);
      if acc.HArray? then
        var item :- ConvertValue(obj.entries[i].1);
        ConvertEntries(obj, i + 1, HArray(acc.items + [item]))
      else if IsNullish(rKey) then Failure(NullishRead(rKey))
      else
        var item :- ConvertValue(obj.entries[i].1);
        var name :- PropertyKey(rKey);
        ConvertEntries(obj, i + 1, HObject(acc.fields[name := item]))
  }

  /** The property name `result[rKey.value ?? rKey]` writes, for a key that
      is neither `null` nor `undefined`. */
  function PropertyKey(h: HostVal): Result<string, string>
  {
    match h
    case HToken(VToken(t)) =>
      if t.value.Null? || t.value.Undefined? then Success(ObjectText) else Success(ToStr(t.value))
    case HObject(f) =>
      if "value" in f && !IsNullish(f["value"]) then HostString(f["value"]) else Success(ObjectText)
    case _ => HostString(h)
  }

  /** `String(h)`. A function's source text is outside the model. */
  function HostString(h: HostVal): Result<string, string>
    decreases h, 1, 0
  {
    match h
    case HPrim(p) => Success(ToStr(p))
    case HToken(_) => Success(ObjectText)
    case HObject(_) => Success(ObjectText)
    case HArray(_) => JoinFrom(h, 0)
    case HFunction(_) => Failure("unsupported: the source text of a function")
  }

  /** `items.join(",")` from element `i` on; `null` and `undefined` elements
      print as nothing. */
  function JoinFrom(h: HostVal, i: nat): Result<string, string>
    requires h.HArray? && i <= |h.items|
    decreases h, 0, |h.items| - i
  {
    if i == |h.items| then Success("")
    else
      assert h.items[i] in h.items;
      var s :- if IsNullish(h.items[i]) then Success("") else HostString(h.items[i]);
      var rest :- JoinFrom(h, i + 1);
      Success(if i + 1 == |h.items| then s else s + "," + rest)
  }

  /** The name an entry's key is stored under, when its conversion succeeds. */
  function KeyName(k: Value): Option<string>
  {
    match ToRealValue(k)
    case Failure(_) => None
    case Success(h) =>
      if IsNullish(h) then None
      else match PropertyKey(h)
        case Failure(_) => None
        case Success(n) => Some(n)
  }

  // ---------------------------------------------------------------------
  // Properties

  /** Converting a literal gives back the value it was built from; only
      `undefined`, stored with the nil kind, comes back as `null`. */
  lemma LiteralRoundTrip(p: Prim)
    ensures ToRealValue(VLiteral(LiteralOf(p).token)) == Success(HPrim(if p.Undefined? then Null else p))
    ensures ToRealValue(VToken(LiteralOf(p).token)) == Success(HPrim(if p.Undefined? then Null else p))
  {
  }

  /** The switch arms: every handled kind converts, the same way for a
      Literal node and for its bare token. */
  lemma HandledKinds(t: Token)
    requires KindConverts(t.kind)
    ensures ToRealValue(VLiteral(t)) == ToRealValue(VToken(t)) == Success(ConvertToken(t))
    ensures t.kind == Index || t.kind == Number ==> ToRealValue(VToken(t)) == Success(HPrim(Num(ToNumber(t.value))))
    ensures t.kind == String || t.kind == Identifier ==> ToRealValue(VToken(t)) == Success(HPrim(Str(ToStr(t.value))))
    ensures t.kind == Boolean ==> ToRealValue(VToken(t)) == Success(HPrim(Bool(Truthy(t.value))))
    ensures t.kind == NaN ==> ToRealValue(VToken(t)) == Success(HPrim(Num(NotANumber)))
    ensures t.kind == Nil ==> ToRealValue(VToken(t)) == Success(HPrim(Null))
  {
  }

  /** A boolean token converts by the truthiness of its stored text: the
      text "false" is non-empty, so it converts to `true`. */
  lemma FalseTextIsTrue(line: int, column: int)
    ensures ToRealValue(VToken(Token(Boolean, Str("false"), line, column))) == Success(HPrim(Bool(true)))
    ensures ToRealValue(VToken(Token(Boolean, Str(""), line, column))) == Success(HPrim(Bool(false)))
  {
  }

  /** Outside the switch: a token with a truthy value and a Literal come
      back as their token, a falsy-valued token, a range and `null` reach
      `mapToObject` as non-Maps, functions and the other primitives are
      unchanged. */
  lemma DefaultBranch(v: Value)
    ensures v.VToken? && !KindConverts(v.token.kind) ==>
      ToRealValue(v) == if Truthy(v.token.value) then Success(HToken(v)) else Failure(NotAMap(v))
    ensures v.VLiteral? && !KindConverts(v.literal.kind) ==> ToRealValue(v) == Success(HToken(VToken(v.literal)))
    ensures v.VRange? || v == VPrim(Null) ==> ToRealValue(v) == Failure("obj is not Map , current type is : object")
    ensures v.VClosure? || v.VHost? ==> ToRealValue(v) == Success(HFunction(v))
    ensures v.VPrim? && !v.p.Null? ==> ToRealValue(v) == Success(HPrim(v.p))
  {
    if v.VRange? || v == VPrim(Null) {
      assert TypeOf(v) == "object";
      assert NotAMap(v) == "obj is not Map , current type is : " + "object";
      assert ToRealValue(v) == Failure(NotAMap(v));
      assert "obj is not Map , current type is : " + "object" == "obj is not Map , current type is : object";
    }
  }

  /** A non-Map throws "obj is not Map" and an empty Map has no first entry. */
  lemma MapToObjectFailures(obj: Value)
    ensures !obj.VMap? ==> MapToObject(obj) == Failure(NotAMap(obj))
    ensures obj.VMap? && obj.entries == [] ==> MapToObject(obj).Failure?
  {
  }

  /** The fold keeps the shape it starts with. */
  lemma {:induction false} EntriesKeepShape(obj: Value, i: nat, acc: HostVal)
    requires obj.VMap? && i <= |obj.entries| && (acc.HArray? || acc.HObject?)
    requires ConvertEntries(obj, i, acc).Success?
    ensures ConvertEntries(obj, i, acc).value.HArray? == acc.HArray?
    ensures ConvertEntries(obj, i, acc).value.HObject? == acc.HObject?
    decreases |obj.entries| - i
  {
    if i < |obj.entries| {
      var rKey := ToRealValue(obj.entries[i].0).value;
      var item := ConvertValue(obj.entries[i].1).value;
      if acc.HArray? {
        EntriesKeepShape(obj, i + 1, HArray(acc.items + [item]));
      } else {
        EntriesKeepShape(obj, i + 1, HObject(acc.fields[PropertyKey(rKey).value := item]));
      }
    }
  }

  /** The result is an array exactly when the first key is an index
      literal. */
  lemma ArrayExactlyForIndexKeys(obj: Value)
    requires MapToObject(obj).Success?
    ensures obj.VMap? && |obj.entries| > 0
    ensures MapToObject(obj).value.HArray? <==> IsIndexKey(obj.entries[0].0)
    ensures MapToObject(obj).value.HObject? <==> !IsIndexKey(obj.entries[0].0)
  {
    EntriesKeepShape(obj, 0, if IsIndexKey(obj.entries[0].0) then HArray([]) else HObject(map[]));
  }

  /** In array mode the values are appended in insertion order. */
  lemma {:induction false} ArrayEntriesInOrder(obj: Value, i: nat, acc: seq<HostVal>)
    requires obj.VMap? && i <= |obj.entries|
    requires ConvertEntries(obj, i, HArray(acc)).Success?
    ensures var r := ConvertEntries(obj, i, HArray(acc)).value;
      && r.HArray?
      && |r.items| == |acc| + |obj.entries| - i
      && r.items[..|acc|] == acc
      && forall j :: i <= j < |obj.entries| ==> ConvertValue(obj.entries[j].1) == Success(r.items[|acc| + j - i])
    decreases |obj.entries| - i
  {
    if i < |obj.entries| {
      var item := ConvertValue(obj.entries[i].1).value;
      assert ConvertEntries(obj, i, HArray(acc)) == ConvertEntries(obj, i + 1, HArray(acc + [item]));
      ArrayEntriesInOrder(obj, i + 1, acc + [item]);
      var r := ConvertEntries(obj, i + 1, HArray(acc + [item])).value;
      assert r.items[..|acc|] == acc by {
        assert r.items[..|acc|] == r.items[..|acc| + 1][..|acc|];
      }
      assert r.items[|acc|] == item by {
        assert r.items[..|acc| + 1][|acc|] == item;
      }
    }
  }

  /** So a successful array-mode conversion holds exactly the converted
      values, in order. */
  lemma ArrayMode(obj: Value)
    requires MapToObject(obj).Success? && MapToObject(obj).value.HArray?
    ensures obj.VMap?
    ensures |MapToObject(obj).value.items| == |obj.entries|
    ensures forall j :: 0 <= j < |obj.entries| ==> ConvertValue(obj.entries[j].1) == Success(MapToObject(obj).value.items[j])
  {
    ArrayExactlyForIndexKeys(obj);
    assert MapToObject(obj) == ConvertEntries(obj, 0, HArray([]));
    ArrayEntriesInOrder(obj, 0, []);
    var r := MapToObject(obj).value;
    forall j | 0 <= j < |obj.entries|
      ensures ConvertValue(obj.entries[j].1) == Success(r.items[j])
    {
      var none: seq<HostVal> := [];
      assert r.items[j] == r.items[|none| + j - 0];
    }
  }

  /** In object mode every entry's key names a stored property, and no
      property already stored goes away. */
  lemma {:induction false} ObjectKeysStored(obj: Value, i: nat, acc: map<string, HostVal>)
    requires obj.VMap? && i <= |obj.entries|
    requires ConvertEntries(obj, i, HObject(acc)).Success?
    ensures var r := ConvertEntries(obj, i, HObject(acc)).value;
      && r.HObject?
      && (forall n :: n in acc ==> n in r.fields)
      && (forall j :: i <= j < |obj.entries| ==> KeyName(obj.entries[j].0).Some? && KeyName(obj.entries[j].0).value in r.fields)
    decreases |obj.entries| - i
  {
    if i < |obj.entries| {
      ObjectStep(obj, i, acc);
      var name := KeyName(obj.entries[i].0).value;
      ObjectKeysStored(obj, i + 1, acc[name := ConvertValue(obj.entries[i].1).value]);
    }
  }

  /** In object mode every entry's value ends up under its key's name
      unless a later entry reuses the name, and names already stored that no
      later entry reuses keep their values. */
  lemma {:induction false} ObjectValuesStored(obj: Value, i: nat, acc: map<string, HostVal>)
    requires obj.VMap? && i <= |obj.entries|
    requires ConvertEntries(obj, i, HObject(acc)).Success?
    ensures var r := ConvertEntries(obj, i, HObject(acc)).value;
      && r.HObject?
      && (forall j :: i <= j < |obj.entries| && (forall k :: j < k < |obj.entries| ==> KeyName(obj.entries[k].0) != KeyName(obj.entries[j].0)) ==>
            KeyName(obj.entries[j].0).Some? && KeyName(obj.entries[j].0).value in r.fields &&
            ConvertValue(obj.entries[j].1) == Success(r.fields[KeyName(obj.entries[j].0).value]))
      && (forall n :: n in acc && (forall k :: i <= k < |obj.entries| ==> KeyName(obj.entries[k].0) != Some(n)) ==>
            n in r.fields && r.fields[n] == acc[n])
    decreases |obj.entries| - i
  {
    if i < |obj.entries| {
      ObjectStep(obj, i, acc);
      var name := KeyName(obj.entries[i].0).value;
      ObjectValuesStored(obj, i + 1, acc[name := ConvertValue(obj.entries[i].1).value]);
    }
  }

  /** One pass of the object-mode loop stores the entry's value under its
      key's name. */
  lemma ObjectStep(obj: Value, i: nat, acc: map<string, HostVal>)
    requires obj.VMap? && i < |obj.entries|
    requires ConvertEntries(obj, i, HObject(acc)).Success?
    ensures KeyName(obj.entries[i].0).Some? && ConvertValue(obj.entries[i].1).Success?
    ensures ConvertEntries(obj, i, HObject(acc)) ==
      ConvertEntries(obj, i + 1, HObject(acc[KeyName(obj.entries[i].0).value := ConvertValue(obj.entries[i].1).value]))
  {
    var rKey := ToRealValue(obj.entries[i].0).value;
    var name := PropertyKey(rKey).value;
    assert KeyName(obj.entries[i].0) == Some(name);
  }

  /** So a successful object-mode conversion stores each value under its
      converted key, the last of equal keys winning. */
  lemma ObjectMode(obj: Value)
    requires MapToObject(obj).Success? && MapToObject(obj).value.HObject?
    ensures obj.VMap?
    ensures forall j :: 0 <= j < |obj.entries| ==>
      KeyName(obj.entries[j].0).Some? && KeyName(obj.entries[j].0).value in MapToObject(obj).value.fields
    ensures forall j :: 0 <= j < |obj.entries| && (forall k :: j < k < |obj.entries| ==> KeyName(obj.entries[k].0) != KeyName(obj.entries[j].0)) ==>
      ConvertValue(obj.entries[j].1) == Success(MapToObject(obj).value.fields[KeyName(obj.entries[j].0).value])
  {
    ArrayExactlyForIndexKeys(obj);
    ObjectKeysStored(obj, 0, map[]);
    ObjectValuesStored(obj, 0, map[]);
  }

  /** Nested Maps go back through `mapToObject`; every other value through
      `toRealValue`. */
  lemma NestedMaps(v: Value)
    ensures v.VMap? ==> ConvertValue(v) == MapToObject(v)
    ensures !v.VMap? ==> ConvertValue(v) == ToRealValue(v)
  {
  }

  // ---------------------------------------------------------------------
  // The loop of `mapToObject`

  /** `mapToObject` as the source writes it: a loop over the entries that
      pushes or assigns into `result`, recursing into nested Maps. */
  method MapToObjectLoop(obj: Value) returns (r: Result<HostVal, string>)
    ensures r == MapToObject(obj)
    decreases obj
  {
    if !obj.VMap? {
      return Failure(NotAMap(obj));
    }
    if |obj.entries| == 0 {
      return Failure(NoFirstEntry);
    }
    var result: HostVal := if IsIndexKey(obj.entries[0].0) then HArray([]) else HObject(map[]);
    var i := 0;
    while i < |obj.entries|
      invariant 0 <= i <= |obj.entries|
      invariant result.HArray? || result.HObject?
      invariant MapToObject(obj) == ConvertEntries(obj, i, result)
    {
      var (key, value) := obj.entries[i];
      assert obj.entries[i] in obj.entries;
      var rKey := ToRealValue(key);
      if rKey.Failure? {
        return Failure(rKey.error);
      }
      if result.HObject? && IsNullish(rKey.value) {
        return Failure(NullishRead(rKey.value));
      }
      var item: Result<HostVal, string>;
      if value.VMap? {
        item := MapToObjectLoop(value);
      } else {
        item := ToRealValue(value);
      }
      if item.Failure? {
        return Failure(item.error);
      }
      if result.HArray? {
        result := HArray(result.items + [item.value]);
      } else {
        var name := PropertyKey(rKey.value);
        if name.Failure? {
          return Failure(name.error);
        }
        result := HObject(result.fields[name.value := item.value]);
      }
      i := i + 1;
    }
    r := Success(result);
  }
}
