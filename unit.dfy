/**
 * The object layer behind every syntax-tree node: `createUnitNode` wraps a
 * plain node object in a `UnitNode`, which copies the object's properties,
 * re-parents the statements of its body, and offers a type query, a walk
 * over the nested nodes, a search by type, replacement inside the parent
 * and a search for the nearest enclosing block.
 *
 * Objects have identity and are updated in place, so the model keeps them
 * in an arena: `UnitHeap.units[i]` is the unit node with id `i`; a property
 * that holds a node holds its id.
 */
module Units {
  import opened Wrappers

  /** What a property of a unit node holds: one node, an array of nodes, or
    * something that is not a unit node (a string, a number, a token record,
    * a boolean), of which only its JavaScript truthiness matters here. */
  datatype Value = Child(id: nat) | Children(ids: seq<nat>) | Plain(truthy: bool)

  /** One own enumerable property, in key order. */
  datatype Slot = Slot(key: string, value: Value)

  /** A unit node: its `type`, the properties copied from the plain object,
    * and the own `parent` getter that re-parenting installs. `None` stands
    * for the class getter, which yields null. */
  datatype Unit = Unit(kind: string, slots: seq<Slot>, parent: Option<nat>)

  /** The TypeError `for ... of` raises on a body that is not iterable. */
  datatype UnitError = NotIterable

  const BlockStatement := "BlockStatement"

  predicate ValueWithin(v: Value, n: nat)
  {
    match v
    case Child(c) => c < n
    case Children(cs) => forall k :: 0 <= k < |cs| ==> cs[k] < n
    case Plain(_) => true
  }

  predicate SlotsWithin(slots: seq<Slot>, n: nat)
  {
    forall k :: 0 <= k < |slots| ==> ValueWithin(slots[k].value, n)
  }

  /** Every reference names an existing unit, and a parent is always younger
    * than its child (re-parenting points a statement at the node being
    * built, after the statement itself was built). */
  ghost predicate Linked(units: seq<Unit>)
  {
    forall i :: 0 <= i < |units| ==>
      SlotsWithin(units[i].slots, |units|) &&
      (units[i].parent.Some? ==> i < units[i].parent.value < |units|)
  }

  /** Does the property hold this node, directly or as an array item? */
  predicate Holds(v: Value, id: nat)
  {
    match v
    case Child(c) => c == id
    case Children(cs) => id in cs
    case Plain(_) => false
  }

  /** The first property with the given key, or `|slots|` when none has it. */
  function FindKey(slots: seq<Slot>, key: string): (k: nat)
    ensures k <= |slots|
    ensures k < |slots| ==> slots[k].key == key
    ensures forall j :: 0 <= j < k ==> slots[j].key != key
  {
    if slots == [] then 0
    else if slots[0].key == key then 0
    else 1 + FindKey(slots[1..], key)
  }

  /** `Array.prototype.findIndex` for identity, with `|ids|` for -1. */
  function IndexOf(ids: seq<nat>, id: nat): (k: nat)
    ensures k <= |ids|
    ensures k < |ids| ==> ids[k] == id
    ensures forall j :: 0 <= j < k ==> ids[j] != id
  {
    if ids == [] then 0
    else if ids[0] == id then 0
    else 1 + IndexOf(ids[1..], id)
  }

  // ---------------------------------------------------------------------
  // Construction
  // ---------------------------------------------------------------------

  /** The statements the constructor re-parents: the items of an array
    * `body`, or the `body` array of a node held in `body`. A falsy or
    * missing `body` re-parents nothing; anything else is not iterable. */
  function BodyStatements(units: seq<Unit>, slots: seq<Slot>): (r: Result<seq<nat>, UnitError>)
    requires Linked(units) && SlotsWithin(slots, |units|)
    ensures r.Success? ==> forall k :: 0 <= k < |r.value| ==> r.value[k] < |units|
  {
    var k := FindKey(slots, "body");
    if k == |slots| then Success([])
    else
      match slots[k].value
      case Plain(truthy) => if truthy then Failure(NotIterable) else Success([])
      case Children(ids) => Success(ids)
      case Child(b) =>
        var j := FindKey(units[b].slots, "body");
        if j < |units[b].slots| && units[b].slots[j].value.Children? then
          Success(units[b].slots[j].value.ids)
        else Failure(NotIterable)
  }

  /** Every unit listed in `ids` gets `p` as its parent. */
  function Reparented(units: seq<Unit>, ids: seq<nat>, p: nat): seq<Unit>
  {
    seq(|units|, i requires 0 <= i < |units| =>
      if i in ids then units[i].(parent := Some(p)) else units[i])
  }

  /** Re-parenting one more statement, with the new node already appended. */
  lemma ReparentOneMore(units: seq<Unit>, ids: seq<nat>, s: nat, p: nat, last: Unit)
    requires s < |units|
    ensures
      var us := Reparented(units, ids, p) + [last];
      us[s := us[s].(parent := Some(p))] == Reparented(units, ids + [s], p) + [last]
  {
    var us := Reparented(units, ids, p) + [last];
    var vs := us[s := us[s].(parent := Some(p))];
    var ws := Reparented(units, ids + [s], p) + [last];
    assert |vs| == |ws|;
    forall i | 0 <= i < |vs| ensures vs[i] == ws[i] {
      if i < |units| {
        assert i in ids + [s] <==> i in ids || i == s;
      }
    }
  }

  /** The arena after `createUnitNode` of a plain object of this `type` and
    * these other properties. */
  function Created(units: seq<Unit>, kind: string, slots: seq<Slot>): Result<seq<Unit>, UnitError>
    requires Linked(units) && SlotsWithin(slots, |units|)
  {
    var ids :- BodyStatements(units, slots);
    Success(Reparented(units, ids, |units|) + [Unit(kind, slots, None)])
  }

  /** Construction keeps the arena linked, gives the new node the type it
    * was built with and no parent, points each body statement at the new
    * node, and leaves every other node as it was. */
  lemma CreatedLinks(units: seq<Unit>, kind: string, slots: seq<Slot>)
    requires Linked(units) && SlotsWithin(slots, |units|)
    ensures Created(units, kind, slots).Success? <==> BodyStatements(units, slots).Success?
    ensures Created(units, kind, slots).Success? ==>
      var us := Created(units, kind, slots).value;
      var ids := BodyStatements(units, slots).value;
      && Linked(us)
      && |us| == |units| + 1
      && us[|units|] == Unit(kind, slots, None)
      && (forall i :: 0 <= i < |units| && i in ids ==> us[i].parent == Some(|units|))
      && (forall i :: 0 <= i < |units| && i !in ids ==> us[i] == units[i])
      && (forall i :: 0 <= i < |units| ==> us[i].kind == units[i].kind && us[i].slots == units[i].slots)
  {
    if Created(units, kind, slots).Success? {
      var us := Created(units, kind, slots).value;
      var ids := BodyStatements(units, slots).value;
      forall i | 0 <= i < |us|
        ensures SlotsWithin(us[i].slots, |us|)
        ensures us[i].parent.Some? ==> i < us[i].parent.value < |us|
      {
        if i < |units| {
          assert us[i].slots == units[i].slots;
          assert forall k :: 0 <= k < |units[i].slots| ==> ValueWithin(units[i].slots[k].value, |units|);
        }
      }
    }
  }

  /** A node that was never listed in a body has a null parent: its own
    * construction leaves `parent` unset and later constructions only set the
    * parent of the statements they list. */
  lemma NeverPlacedHasNoParent(units: seq<Unit>, kind: string, slots: seq<Slot>, i: nat)
    requires Linked(units) && SlotsWithin(slots, |units|)
    requires Created(units, kind, slots).Success?
    requires i < |units| && units[i].parent.None? && i !in BodyStatements(units, slots).value
    ensures Created(units, kind, slots).value[i].parent.None?
    ensures Created(units, kind, slots).value[|units|].parent.None?
  {
  }

  // ---------------------------------------------------------------------
  // findBlock
  // ---------------------------------------------------------------------

  /** How far a parent chain starting at `p` can still go. */
  function ChainRank(units: seq<Unit>, p: Option<nat>): nat
  {
    if p.Some? && p.value < |units| then |units| - p.value + 1 else 0
  }

  /** The chain of parents starting at `p`, nearest first. */
  ghost function Ancestors(units: seq<Unit>, p: Option<nat>): (r: seq<nat>)
    requires Linked(units) && (p.Some? ==> p.value < |units|)
    ensures forall k :: 0 <= k < |r| ==> r[k] < |units|
    decreases ChainRank(units, p)
  {
    if p.None? then [] else [p.value] + Ancestors(units, units[p.value].parent)
  }

  /** What `findBlock` yields for a node whose parent is `p`. */
  ghost function NearestBlock(units: seq<Unit>, p: Option<nat>): Option<nat>
    requires Linked(units) && (p.Some? ==> p.value < |units|)
    decreases ChainRank(units, p)
  {
    if p.None? then None
    else if units[p.value].kind == BlockStatement then p
    else NearestBlock(units, units[p.value].parent)
  }

  /** The result is the first ancestor whose type is `BlockStatement`, and
    * null exactly when no ancestor has that type. */
  lemma {:induction false} NearestBlockIsFirstBlockAncestor(units: seq<Unit>, p: Option<nat>)
    requires Linked(units) && (p.Some? ==> p.value < |units|)
    ensures var chain := Ancestors(units, p);
      match NearestBlock(units, p)
      case None => forall k :: 0 <= k < |chain| ==> units[chain[k]].kind != BlockStatement
      case Some(b) =>
        exists k :: 0 <= k < |chain| && chain[k] == b && units[b].kind == BlockStatement &&
          forall j :: 0 <= j < k ==> units[chain[j]].kind != BlockStatement
    decreases ChainRank(units, p)
  {
    if p.Some? {
      var q := units[p.value].parent;
      var chain := Ancestors(units, p);
      NearestBlockIsFirstBlockAncestor(units, q);
      assert chain == [p.value] + Ancestors(units, q);
      if units[p.value].kind != BlockStatement {
        match NearestBlock(units, q)
        case None =>
        case Some(b) =>
          var k :| 0 <= k < |Ancestors(units, q)| && Ancestors(units, q)[k] == b &&
            units[b].kind == BlockStatement &&
            forall j :: 0 <= j < k ==> units[Ancestors(units, q)[j]].kind != BlockStatement;
          assert chain[k + 1] == b;
          assert forall j :: 0 <= j < k + 1 ==> units[chain[j]].kind != BlockStatement by {
            forall j | 0 <= j < k + 1 ensures units[chain[j]].kind != BlockStatement {
              if j > 0 { assert chain[j] == Ancestors(units, q)[j - 1]; }
            }
          }
      } else {
        assert chain[0] == p.value;
      }
    }
  }

  // ---------------------------------------------------------------------
  // replaceWith
  // ---------------------------------------------------------------------

  /** Where the walk over the parent's keys stops: a property that is this
    * node, or an array property together with the item's position. */
  datatype Place = Whole(slot: nat) | Item(slot: nat, index: nat)

  /** The first property from `from` on that holds `id`. */
  function PlaceFrom(slots: seq<Slot>, id: nat, from: nat): (r: Option<Place>)
    requires from <= |slots|
    ensures r.Some? ==> from <= r.value.slot < |slots|
    decreases |slots| - from
  {
    if from == |slots| then None
    else
      match slots[from].value
      case Children(ids) =>
        if IndexOf(ids, id) < |ids| then Some(Item(from, IndexOf(ids, id)))
        else PlaceFrom(slots, id, from + 1)
      case Child(c) => if c == id then Some(Whole(from)) else PlaceFrom(slots, id, from + 1)
      case Plain(_) => PlaceFrom(slots, id, from + 1)
  }

  /** The property at `place` with `n` written where `id` stood. */
  function Put(slots: seq<Slot>, place: Place, n: nat): seq<Slot>
    requires place.slot < |slots|
  {
    var s := slots[place.slot];
    match place
    case Whole(k) => slots[k := Slot(s.key, Child(n))]
    case Item(k, i) =>
      if s.value.Children? && i < |s.value.ids| then
        slots[k := Slot(s.key, Children(s.value.ids[i := n]))]
      else slots
  }

  /** The outcome of `replaceWith` on node `id` with a plain object of this
    * `type` and these properties: whether it replaced, and the arena. */
  function Replaced(units: seq<Unit>, id: nat, kind: string, slots: seq<Slot>): Result<(bool, seq<Unit>), UnitError>
    requires Linked(units) && id < |units| && SlotsWithin(slots, |units|)
  {
    match units[id].parent
    case None => Success((false, units))
    case Some(p) =>
      match PlaceFrom(units[p].slots, id, 0)
      case None => Success((false, units))
      case Some(place) =>
        var us :- Created(units, kind, slots);
        Success((true, us[p := us[p].(slots := Put(us[p].slots, place, |units|))]))
  }

  /** `PlaceFrom` finds the first property, in key order, that holds the
    * node, and finds nothing exactly when no property holds it. */
  lemma {:induction false} PlaceIsFirstHolder(slots: seq<Slot>, id: nat, from: nat)
    requires from <= |slots|
    ensures PlaceFrom(slots, id, from).None? <==>
      forall k :: from <= k < |slots| ==> !Holds(slots[k].value, id)
    ensures PlaceFrom(slots, id, from).Some? ==>
      var place := PlaceFrom(slots, id, from).value;
      && Holds(slots[place.slot].value, id)
      && (forall j :: from <= j < place.slot ==> !Holds(slots[j].value, id))
      && (place.Item? ==>
            slots[place.slot].value.Children? &&
            place.index == IndexOf(slots[place.slot].value.ids, id))
      && (place.Whole? ==> slots[place.slot].value == Child(id))
    decreases |slots| - from
  {
    if from < |slots| {
      PlaceIsFirstHolder(slots, id, from + 1);
      match slots[from].value
      case Children(ids) =>
        if IndexOf(ids, id) == |ids| {
          assert id !in ids;
        } else {
          assert ids[IndexOf(ids, id)] == id;
        }
      case Child(c) =>
      case Plain(_) =>
    }
  }

  /** `Put` writes the new node into the one property at `place` and keeps
    * that property's key. */
  lemma PutWrites(slots: seq<Slot>, place: Place, n: nat)
    requires place.slot < |slots|
    requires place.Item? ==>
      slots[place.slot].value.Children? && place.index < |slots[place.slot].value.ids|
    ensures |Put(slots, place, n)| == |slots|
    ensures Put(slots, place, n)[place.slot].key == slots[place.slot].key
    ensures Holds(Put(slots, place, n)[place.slot].value, n)
    ensures forall j :: 0 <= j < |slots| && j != place.slot ==> Put(slots, place, n)[j] == slots[j]
  {
    match place
    case Whole(_) =>
    case Item(k, i) =>
      assert slots[k].value.ids[i := n][i] == n;
  }

  /** `replaceWith` without a parent, or under a parent none of whose
    * properties holds the node, changes nothing and yields false. */
  lemma ReplaceWithoutSlot(units: seq<Unit>, id: nat, kind: string, slots: seq<Slot>)
    requires Linked(units) && id < |units| && SlotsWithin(slots, |units|)
    ensures units[id].parent.None? ==> Replaced(units, id, kind, slots) == Success((false, units))
    ensures
      (units[id].parent.Some? &&
       forall k :: 0 <= k < |units[units[id].parent.value].slots| ==>
         !Holds(units[units[id].parent.value].slots[k].value, id))
      ==> Replaced(units, id, kind, slots) == Success((false, units))
  {
    if units[id].parent.Some? {
      PlaceIsFirstHolder(units[units[id].parent.value].slots, id, 0);
    }
  }

  /** When `replaceWith` yields true, the node had a parent, the new node was
    * built, and the first property of the parent holding the old node now
    * holds the new one, every other property left as it was. */
  lemma ReplaceWritesFirstHolder(units: seq<Unit>, id: nat, kind: string, slots: seq<Slot>)
    requires Linked(units) && id < |units| && SlotsWithin(slots, |units|)
    requires Replaced(units, id, kind, slots).Success? && Replaced(units, id, kind, slots).value.0
    ensures units[id].parent.Some?
    ensures
      var p := units[id].parent.value;
      var ps := units[p].slots;
      var us := Replaced(units, id, kind, slots).value.1;
      && |us| == |units| + 1
      && us[|units|] == Unit(kind, slots, None)
      && exists k :: 0 <= k < |ps| && Holds(ps[k].value, id)
          && (forall j :: 0 <= j < k ==> !Holds(ps[j].value, id))
          && |us[p].slots| == |ps|
          && us[p].slots[k].key == ps[k].key
          && Holds(us[p].slots[k].value, |units|)
          && (forall j :: 0 <= j < |ps| && j != k ==> us[p].slots[j] == ps[j])
  {
    var p := units[id].parent.value;
    var ps := units[p].slots;
    PlaceIsFirstHolder(ps, id, 0);
    CreatedLinks(units, kind, slots);
    var place := PlaceFrom(ps, id, 0).value;
    var us := Created(units, kind, slots).value;
    assert us[p].slots == ps;
    PutWrites(ps, place, |units|);
    assert Replaced(units, id, kind, slots).value.1 == us[p := us[p].(slots := Put(ps, place, |units|))];
  }

  /** The arena after building a statement and then a block listing it. */
  function BlockOfOne(stmt: string): seq<Unit>
  {
    [Unit(stmt, [], Some(1)), Unit(BlockStatement, [Slot("body", Children([0]))], None)]
  }

  /** `BlockOfOne` after building a function declaration whose body is the
    * block. */
  function FunctionOfOne(stmt: string): seq<Unit>
  {
    [Unit(stmt, [], Some(2)), Unit(BlockStatement, [Slot("body", Children([0]))], None),
     Unit("FunctionDeclaration", [Slot("body", Child(1))], None)]
  }

  /** A statement of a block body belongs to the node that holds the block,
    * whose own properties hold the block and not the statement, so it cannot
    * be replaced, and without any `BlockStatement` ancestor it has no
    * enclosing block either. */
  lemma FunctionBodyStatement(stmt: string, kind: string, slots: seq<Slot>)
    ensures Created([Unit(stmt, [], None)], BlockStatement, [Slot("body", Children([0]))])
      == Success(BlockOfOne(stmt))
    ensures Linked(BlockOfOne(stmt))
    ensures Created(BlockOfOne(stmt), "FunctionDeclaration", [Slot("body", Child(1))])
      == Success(FunctionOfOne(stmt))
    ensures Linked(FunctionOfOne(stmt))
    ensures FunctionOfOne(stmt)[0].parent == Some(2)
    ensures SlotsWithin(slots, 3) ==>
      Replaced(FunctionOfOne(stmt), 0, kind, slots) == Success((false, FunctionOfOne(stmt)))
    ensures NearestBlock(FunctionOfOne(stmt), Some(2)) == None
  {
    var s0 := Unit(stmt, [], None);
    var block := Unit(BlockStatement, [Slot("body", Children([0]))], None);
    var fn := Unit("FunctionDeclaration", [Slot("body", Child(1))], None);
    var units := FunctionOfOne(stmt);
    assert Linked([s0]);
    assert BodyStatements([s0], [Slot("body", Children([0]))]) == Success([0]);
    assert Reparented([s0], [0], 1) == [s0.(parent := Some(1))];
    assert Created([s0], BlockStatement, [Slot("body", Children([0]))])
      == Success([s0.(parent := Some(1))] + [block]);
    assert BlockOfOne(stmt) == [s0.(parent := Some(1))] + [block];
    assert Linked(BlockOfOne(stmt));
    assert BodyStatements(BlockOfOne(stmt), [Slot("body", Child(1))]) == Success([0]);
    assert Reparented(BlockOfOne(stmt), [0], 2) == [s0.(parent := Some(2)), block];
    assert Created(BlockOfOne(stmt), "FunctionDeclaration", [Slot("body", Child(1))])
      == Success([s0.(parent := Some(2)), block] + [fn]);
    assert units == [s0.(parent := Some(2)), block] + [fn];
    assert Linked(units);
    assert PlaceFrom(fn.slots, 0, 1) == None;
    assert PlaceFrom(fn.slots, 0, 0) == None;
    assert NearestBlock(units, None) == None;
  }

  // ---------------------------------------------------------------------
  // traverseChildren and findNodesByType
  // ---------------------------------------------------------------------

  /** The nodes `traverseChildren` hands to its callback, in pre-order: for
    * each property in key order, each node it holds, followed by that
    * node's own walk. The walk follows the node's copied properties only;
    * `depth` bounds the nesting (see `TraverseChildren`). */
  function Visits(units: seq<Unit>, id: nat, depth: nat): seq<nat>
    requires Linked(units) && id < |units|
    decreases depth, 3
  {
    SlotVisits(units, units[id].slots, depth)
  }

  function SlotVisits(units: seq<Unit>, slots: seq<Slot>, depth: nat): seq<nat>
    requires Linked(units) && SlotsWithin(slots, |units|)
    decreases depth, 2, |slots|
  {
    if slots == [] then []
    else ValueVisits(units, slots[0].value, depth) + SlotVisits(units, slots[1..], depth)
  }

  function ValueVisits(units: seq<Unit>, v: Value, depth: nat): seq<nat>
    requires Linked(units) && ValueWithin(v, |units|)
    decreases depth, 1
  {
    match v
    case Child(c) => if depth == 0 then [] else [c] + Visits(units, c, depth - 1)
    case Children(cs) => ItemVisits(units, cs, depth)
    case Plain(_) => []
  }

  function ItemVisits(units: seq<Unit>, cs: seq<nat>, depth: nat): seq<nat>
    requires Linked(units) && forall k :: 0 <= k < |cs| ==> cs[k] < |units|
    decreases depth, 0, |cs|
  {
    if cs == [] || depth == 0 then []
    else [cs[0]] + Visits(units, cs[0], depth - 1) + ItemVisits(units, cs[1..], depth)
  }

  /** The walk from the root: nesting is bounded by the arena's size, which
    * only cuts a walk around a cycle of properties. */
  function TraverseChildren(units: seq<Unit>, id: nat): (r: seq<nat>)
    requires Linked(units) && id < |units|
    ensures forall k :: 0 <= k < |r| ==> r[k] < |units|
  {
    VisitsExist(units, id, |units|);
    Visits(units, id, |units|)
  }

  /** Every node a walk visits exists. */
  lemma {:induction false} VisitsExist(units: seq<Unit>, id: nat, depth: nat)
    requires Linked(units) && id < |units|
    ensures forall k :: 0 <= k < |Visits(units, id, depth)| ==> Visits(units, id, depth)[k] < |units|
    decreases depth, 3
  {
    SlotVisitsExist(units, units[id].slots, depth);
  }

  lemma {:induction false} SlotVisitsExist(units: seq<Unit>, slots: seq<Slot>, depth: nat)
    requires Linked(units) && SlotsWithin(slots, |units|)
    ensures forall k :: 0 <= k < |SlotVisits(units, slots, depth)| ==> SlotVisits(units, slots, depth)[k] < |units|
    decreases depth, 2, |slots|
  {
    if slots != [] {
      ValueVisitsExist(units, slots[0].value, depth);
      SlotVisitsExist(units, slots[1..], depth);
    }
  }

  lemma {:induction false} ValueVisitsExist(units: seq<Unit>, v: Value, depth: nat)
    requires Linked(units) && ValueWithin(v, |units|)
    ensures forall k :: 0 <= k < |ValueVisits(units, v, depth)| ==> ValueVisits(units, v, depth)[k] < |units|
    decreases depth, 1
  {
    match v
    case Child(c) => if depth > 0 { VisitsExist(units, c, depth - 1); }
    case Children(cs) => ItemVisitsExist(units, cs, depth);
    case Plain(_) =>
  }

  lemma {:induction false} ItemVisitsExist(units: seq<Unit>, cs: seq<nat>, depth: nat)
    requires Linked(units) && forall k :: 0 <= k < |cs| ==> cs[k] < |units|
    ensures forall k :: 0 <= k < |ItemVisits(units, cs, depth)| ==> ItemVisits(units, cs, depth)[k] < |units|
    decreases depth, 0, |cs|
  {
    if cs != [] && depth > 0 {
      VisitsExist(units, cs[0], depth - 1);
      ItemVisitsExist(units, cs[1..], depth);
    }
  }

  /** A node held in a property is visited, and so is everything its own
    * walk visits, one level of nesting down. */
  lemma {:induction false} HeldNodesVisited(units: seq<Unit>, slots: seq<Slot>, k: nat, c: nat, depth: nat)
    requires Linked(units) && SlotsWithin(slots, |units|) && depth > 0
    requires k < |slots| && Holds(slots[k].value, c) && c < |units|
    ensures c in SlotVisits(units, slots, depth)
    ensures forall v :: v in Visits(units, c, depth - 1) ==> v in SlotVisits(units, slots, depth)
    decreases |slots|
  {
    if k == 0 {
      match slots[0].value
      case Child(_) =>
      case Children(cs) => HeldItemVisited(units, cs, c, depth);
    } else {
      HeldNodesVisited(units, slots[1..], k - 1, c, depth);
    }
  }

  lemma {:induction false} HeldItemVisited(units: seq<Unit>, cs: seq<nat>, c: nat, depth: nat)
    requires Linked(units) && (forall k :: 0 <= k < |cs| ==> cs[k] < |units|) && depth > 0
    requires c in cs && c < |units|
    ensures c in ItemVisits(units, cs, depth)
    ensures forall v :: v in Visits(units, c, depth - 1) ==> v in ItemVisits(units, cs, depth)
    decreases |cs|
  {
    if cs[0] != c {
      HeldItemVisited(units, cs[1..], c, depth);
    }
  }

  /** The nodes of a visit sequence whose type is `kind`, in order. */
  function OfKind(units: seq<Unit>, vs: seq<nat>, kind: string): seq<nat>
  {
    if vs == [] then []
    else (if vs[0] < |units| && units[vs[0]].kind == kind then [vs[0]] else []) + OfKind(units, vs[1..], kind)
  }

  /** The selection keeps exactly the visited nodes of that type. */
  lemma {:induction false} OfKindExactly(units: seq<Unit>, vs: seq<nat>, kind: string)
    requires forall k :: 0 <= k < |vs| ==> vs[k] < |units|
    ensures forall v :: v in OfKind(units, vs, kind) <==> v in vs && units[v].kind == kind
    ensures |OfKind(units, vs, kind)| <= |vs|
  {
    if vs != [] {
      OfKindExactly(units, vs[1..], kind);
      assert vs == [vs[0]] + vs[1..];
    }
  }

  /** Selecting from a longer walk extends the selection. */
  lemma {:induction false} OfKindAppend(units: seq<Unit>, vs: seq<nat>, v: nat, kind: string)
    ensures OfKind(units, vs + [v], kind) ==
      OfKind(units, vs, kind) + (if v < |units| && units[v].kind == kind then [v] else [])
  {
    if vs == [] {
      assert [] + [v] == [v];
    } else {
      assert (vs + [v])[1..] == vs[1..] + [v];
      OfKindAppend(units, vs[1..], v, kind);
    }
  }

  /** The walk as the source writes it. `for ... in` also reaches the own
    * enumerable `parent` getter that re-parenting installs (defined after
    * the copied properties, so it comes last), and a parent is a node with a
    * `type`, so the walk goes up into it as well. `None`: out of fuel. */
  function WalkAsWritten(units: seq<Unit>, id: nat, fuel: nat): Option<seq<nat>>
    requires Linked(units) && id < |units|
    decreases fuel, 3
  {
    match SlotWalkAsWritten(units, units[id].slots, fuel)
    case None => None
    case Some(below) =>
      match units[id].parent
      case None => Some(below)
      case Some(p) =>
        if fuel == 0 then None
        else
          match WalkAsWritten(units, p, fuel - 1)
          case None => None
          case Some(up) => Some(below + [p] + up)
  }

  function SlotWalkAsWritten(units: seq<Unit>, slots: seq<Slot>, fuel: nat): Option<seq<nat>>
    requires Linked(units) && SlotsWithin(slots, |units|)
    decreases fuel, 2, |slots|
  {
    if slots == [] then Some([])
    else
      match ValueWalkAsWritten(units, slots[0].value, fuel)
      case None => None
      case Some(first) =>
        match SlotWalkAsWritten(units, slots[1..], fuel)
        case None => None
        case Some(rest) => Some(first + rest)
  }

  function ValueWalkAsWritten(units: seq<Unit>, v: Value, fuel: nat): Option<seq<nat>>
    requires Linked(units) && ValueWithin(v, |units|)
    decreases fuel, 1
  {
    match v
    case Children(cs) => ItemWalkAsWritten(units, cs, fuel)
    case Plain(_) => Some([])
    case Child(c) =>
      if fuel == 0 then None
      else
        match WalkAsWritten(units, c, fuel - 1)
        case None => None
        case Some(inner) => Some([c] + inner)
  }

  function ItemWalkAsWritten(units: seq<Unit>, cs: seq<nat>, fuel: nat): Option<seq<nat>>
    requires Linked(units) && forall k :: 0 <= k < |cs| ==> cs[k] < |units|
    decreases fuel, 0, |cs|
  {
    if cs == [] then Some([])
    else if fuel == 0 then None
    else
      match WalkAsWritten(units, cs[0], fuel - 1)
      case None => None
      case Some(inner) =>
        match ItemWalkAsWritten(units, cs[1..], fuel)
        case None => None
        case Some(rest) => Some([cs[0]] + inner + rest)
  }

  /** The arena after building a statement and then a program whose body
    * lists it. */
  function OneStatementProgram(stmt: string): seq<Unit>
  {
    [Unit(stmt, [], Some(1)), Unit("Program", [Slot("body", Children([0]))], None)]
  }

  /** As written, walking a program with one statement never ends, whatever
    * the fuel: the statement's `parent` leads back to the program, whose
    * body leads to the statement again. */
  lemma {:induction false} OneStatementProgramNeverFinishes(stmt: string, fuel: nat)
    ensures Created([Unit(stmt, [], None)], "Program", [Slot("body", Children([0]))])
      == Success(OneStatementProgram(stmt))
    ensures Linked(OneStatementProgram(stmt))
    ensures WalkAsWritten(OneStatementProgram(stmt), 1, fuel) == None
    decreases fuel
  {
    var units := OneStatementProgram(stmt);
    assert Linked([Unit(stmt, [], None)]);
    assert BodyStatements([Unit(stmt, [], None)], [Slot("body", Children([0]))]) == Success([0]);
    assert Reparented([Unit(stmt, [], None)], [0], 1) == [Unit(stmt, [], Some(1))];
    assert Created([Unit(stmt, [], None)], "Program", [Slot("body", Children([0]))])
      == Success([Unit(stmt, [], Some(1))] + [Unit("Program", [Slot("body", Children([0]))], None)]);
    assert units == [Unit(stmt, [], Some(1))] + [Unit("Program", [Slot("body", Children([0]))], None)];
    assert Linked(units);
    var body := units[1].slots;
    assert body[1..] == [];
    if fuel >= 2 {
      OneStatementProgramNeverFinishes(stmt, fuel - 2);
      assert WalkAsWritten(units, 0, fuel - 1) == None;
    }
    assert ItemWalkAsWritten(units, [0], fuel) == None;
    assert SlotWalkAsWritten(units, body, fuel) == None;
  }

  /** The walk that skips the `parent` getter visits that program's one
    * statement and stops. */
  lemma OneStatementProgramWalk(stmt: string)
    ensures Linked(OneStatementProgram(stmt))
    ensures TraverseChildren(OneStatementProgram(stmt), 1) == [0]
  {
    var units := OneStatementProgram(stmt);
    assert Linked(units);
    assert Visits(units, 0, 1) == [];
    assert ItemVisits(units, [0], 2) == [0] + Visits(units, 0, 1) + ItemVisits(units, [], 2);
    assert SlotVisits(units, units[1].slots[1..], 2) == [];
  }

  // ---------------------------------------------------------------------
  // The arena
  // ---------------------------------------------------------------------

  class UnitHeap {
    var units: seq<Unit>

    ghost predicate Valid()
      reads this
    {
      Linked(units)
    }

    constructor()
      ensures Valid() && units == []
    {
      units := [];
    }

    /** `createUnitNode`: copy the properties, re-parent the body's
      * statements to the new node, and yield the new node's id. */
    method Create(kind: string, slots: seq<Slot>) returns (r: Result<nat, UnitError>)
      requires Valid() && SlotsWithin(slots, |units|)
      modifies this
      ensures Valid()
      ensures Created(old(units), kind, slots).Success? ==>
        r == Success(|old(units)|) && units == Created(old(units), kind, slots).value
      ensures Created(old(units), kind, slots).Failure? ==>
        r == Failure(NotIterable) && units == old(units)
      ensures r.Success? ==> r.value < |units| && GetType(r.value) == kind
    {
      CreatedLinks(units, kind, slots);
      var body := BodyStatements(units, slots);
      if body.Failure? {
        return Failure(NotIterable);
      }
      var id := |units|;
      ghost var before := units;
      units := units + [Unit(kind, slots, None)];
      var k := 0;
      while k < |body.value|
        invariant 0 <= k <= |body.value|
        invariant units == Reparented(before, body.value[..k], id) + [Unit(kind, slots, None)]
      {
        var s := body.value[k];
        ReparentOneMore(before, body.value[..k], s, id, Unit(kind, slots, None));
        units := units[s := units[s].(parent := Some(id))];
        assert body.value[..k + 1] == body.value[..k] + [s];
        k := k + 1;
      }
      assert body.value[..k] == body.value;
      r := Success(id);
    }

    /** `getType`: the type the node was built with. */
    function GetType(id: nat): (t: string)
      reads this
      requires id < |units|
    {
      units[id].kind
    }

    /** `findBlock`: climb the parent chain until a `BlockStatement`. */
    method FindBlock(id: nat) returns (b: Option<nat>)
      requires Valid() && id < |units|
      ensures b == NearestBlock(units, units[id].parent)
    {
      var p: Option<nat> := units[id].parent;
      while p.Some? && units[p.value].kind != BlockStatement
        invariant p.Some? ==> p.value < |units|
        invariant NearestBlock(units, p) == NearestBlock(units, units[id].parent)
        decreases ChainRank(units, p)
      {
        p := units[p.value].parent;
      }
      b := p;
    }

    /** `replaceWith`: walk the parent's properties in key order and write a
      * freshly built node into the first one holding this node. */
    method ReplaceWith(id: nat, kind: string, slots: seq<Slot>) returns (r: Result<bool, UnitError>)
      requires Valid() && id < |units| && SlotsWithin(slots, |units|)
      modifies this
      ensures Valid()
      ensures Replaced(old(units), id, kind, slots).Success? ==>
        r == Success(Replaced(old(units), id, kind, slots).value.0) &&
        units == Replaced(old(units), id, kind, slots).value.1
      ensures Replaced(old(units), id, kind, slots).Failure? ==>
        r == Failure(NotIterable) && units == old(units)
    {
      var parent := units[id].parent;
      if parent.None? {
        return Success(false);
      }
      var p := parent.value;
      var ps := units[p].slots;
      var k := 0;
      while k < |ps|
        invariant 0 <= k <= |ps| && units[p].slots == ps
        invariant PlaceFrom(ps, id, k) == PlaceFrom(ps, id, 0)
        invariant unchanged(this)
      {
        var place: Option<Place> := None;
        match ps[k].value {
          case Children(ids) =>
            var index := IndexOf(ids, id);
            if index < |ids| {
              place := Some(Item(k, index));
            }
          case Child(c) =>
            if c == id {
              place := Some(Whole(k));
            }
          case Plain(_) =>
        }
        if place.Some? {
          assert PlaceFrom(ps, id, 0) == place;
          r := ReplaceAt(p, place.value, kind, slots);
          return;
        }
        k := k + 1;
      }
      r := Success(false);
    }

    /** Build the new node, then write it where the walk stopped. */
    method ReplaceAt(p: nat, place: Place, kind: string, slots: seq<Slot>) returns (r: Result<bool, UnitError>)
      requires Valid() && p < |units| && place.slot < |units[p].slots| && SlotsWithin(slots, |units|)
      requires place.Item? ==>
        units[p].slots[place.slot].value.Children? &&
        place.index < |units[p].slots[place.slot].value.ids|
      modifies this
      ensures Valid()
      ensures Created(old(units), kind, slots).Success? ==>
        var us := Created(old(units), kind, slots).value;
        r == Success(true) &&
        units == us[p := us[p].(slots := Put(us[p].slots, place, |old(units)|))]
      ensures Created(old(units), kind, slots).Failure? ==>
        r == Failure(NotIterable) && units == old(units)
    {
      CreatedLinks(units, kind, slots);
      var n := Create(kind, slots);
      if n.Failure? {
        return Failure(NotIterable);
      }
      assert units[p].slots == old(units)[p].slots;
      units := units[p := units[p].(slots := Put(units[p].slots, place, n.value))];
      r := Success(true);
    }

    /** `findNodesByType`: the callback of the walk keeps each visited node
      * of the given type, in the order the walk reaches them. */
    method FindNodesByType(id: nat, kind: string) returns (found: seq<nat>)
      requires Valid() && id < |units|
      ensures found == OfKind(units, TraverseChildren(units, id), kind)
      ensures forall v :: v in found <==> v in TraverseChildren(units, id) && units[v].kind == kind
    {
      var visits := TraverseChildren(units, id);
      OfKindExactly(units, visits, kind);
      found := [];
      var k := 0;
      while k < |visits|
        invariant 0 <= k <= |visits|
        invariant found == OfKind(units, visits[..k], kind)
      {
        OfKindAppend(units, visits[..k], visits[k], kind);
        assert visits[..k + 1] == visits[..k] + [visits[k]];
        if units[visits[k]].kind == kind {
          found := found + [visits[k]];
        }
        k := k + 1;
      }
      assert visits[..k] == visits;
    }
  }
}
