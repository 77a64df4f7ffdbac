/**
 * The shopping list: how many machines and modules a set of production rows
 * needs (in total, already built, or still missing), what they cost, and the
 * breakdown of that list into the materials they are made from.
 */
module ShoppingList {
  import opened Wrappers
  import opened GameData
  import opened Sorting
  import RecipeParameters

  // ---------------------------------------------------------------------------
  // The saved preference: display state and "assume adequate" in one integer
  // ---------------------------------------------------------------------------

  newtype int32 = x: int | -0x8000_0000 <= x < 0x8000_0000

  datatype DisplayState = Total | Built | Missing

  function Code(s: DisplayState): (n: int)
    ensures 0 <= n <= 2
  {
    match s
    case Total => 0
    case Built => 1
    case Missing => 2
  }

  /** The enum value a stored number names, if any. */
  function DecodeDisplayState(n: int): (r: Option<DisplayState>)
    ensures r.Some? <==> 0 <= n <= 2
    ensures r.Some? ==> Code(r.value) == n
  {
    if n == 0 then Some(Total) else if n == 1 then Some(Built) else if n == 2 then Some(Missing) else None
  }

  /** `pref >> 1`: an arithmetic shift, rounding towards minus infinity. */
  function DisplayStateBits(pref: int32): int {
    (pref as int) / 2
  }

  /** `(pref & 1) != 0`: the lowest bit of the two's-complement value. */
  predicate AssumeAdequateBit(pref: int32) {
    (pref as int) % 2 != 0
  }

  /** `(int)s << 1 | (pref & 1)`: stores `s` above the lowest bit, which is kept. */
  function WithDisplayState(pref: int32, s: DisplayState): (r: int32)
    ensures DecodeDisplayState(DisplayStateBits(r)) == Some(s)
    ensures AssumeAdequateBit(r) == AssumeAdequateBit(pref)
  {
    (2 * Code(s) + (pref as int) % 2) as int32
  }

  /** `(pref & ~1) | (b ? 1 : 0)`: replaces the lowest bit, keeping the rest. */
  function WithAssumeAdequate(pref: int32, b: bool): (r: int32)
    ensures AssumeAdequateBit(r) == b
    ensures DisplayStateBits(r) == DisplayStateBits(pref)
  {
    ((pref as int) - (pref as int) % 2 + (if b then 1 else 0)) as int32
  }

  /** Storing the value already stored changes nothing. */
  lemma StoringReadValueIsIdentity(pref: int32)
    ensures WithAssumeAdequate(pref, AssumeAdequateBit(pref)) == pref
    ensures DecodeDisplayState(DisplayStateBits(pref)).Some? ==>
              WithDisplayState(pref, DecodeDisplayState(DisplayStateBits(pref)).value) == pref
  {
  }

  class Preferences {
    var shoppingDisplayState: int32

    constructor(shoppingDisplayState: int32)
      ensures this.shoppingDisplayState == shoppingDisplayState
    {
      this.shoppingDisplayState := shoppingDisplayState;
    }

    function DisplayStateSetting(): Option<DisplayState>
      reads this
    {
      DecodeDisplayState(DisplayStateBits(shoppingDisplayState))
    }

    predicate AssumeAdequate()
      reads this
    {
      AssumeAdequateBit(shoppingDisplayState)
    }

    /** The `displayState` setter (lines 18-21). */
    method SetDisplayState(s: DisplayState)
      modifies this
      ensures DisplayStateSetting() == Some(s)
      ensures AssumeAdequate() == old(AssumeAdequate())
    {
      shoppingDisplayState := WithDisplayState(shoppingDisplayState, s);
    }

    /** The `assumeAdequate` setter (lines 25-28). */
    method SetAssumeAdequate(b: bool)
      modifies this
      ensures AssumeAdequate() == b
      ensures DisplayStateSetting() == old(DisplayStateSetting())
    {
      shoppingDisplayState := WithAssumeAdequate(shoppingDisplayState, b);
    }
  }

  // ---------------------------------------------------------------------------
  // Counting machines and modules
  // ---------------------------------------------------------------------------

  /** The parts of a production row the list reads. */
  datatype RecipeRow = RecipeRow(
    entity: Option<Key>,
    buildingCount: real,
    builtBuildings: Option<int>,
    usedModules: RecipeParameters.UsedModule)

  /** `MathUtils.Ceil`: the least integer not below `x`. */
  function Ceil(x: real): (n: int)
    ensures x <= n as real < x + 1.0
  {
    -((-x).Floor)
  }

  lemma CeilShift(x: real, n: int)
    ensures Ceil(x - n as real) == Ceil(x) - n
  {
  }

  lemma CeilAtMost(x: real, n: int)
    ensures Ceil(x) <= n <==> x <= n as real
  {
  }

  /** The built count: the stated one, or else all or none of the required machines. */
  function BuiltCount(row: RecipeRow, assumeAdequate: bool): int {
    match row.builtBuildings
    case Some(n) => n
    case None => if assumeAdequate then Ceil(row.buildingCount) else 0
  }

  function DisplayCount(row: RecipeRow, state: DisplayState, assumeAdequate: bool): int {
    match state
    case Total => Ceil(row.buildingCount)
    case Built => BuiltCount(row, assumeAdequate)
    case Missing =>
      var shortfall := row.buildingCount - BuiltCount(row, assumeAdequate) as real;
      Ceil(if shortfall > 0.0 then shortfall else 0.0)
  }

  /** The missing count is the total count less the built count, and never negative. */
  lemma MissingIsShortfall(row: RecipeRow, assumeAdequate: bool)
    ensures var shortfall := DisplayCount(row, Total, assumeAdequate) - DisplayCount(row, Built, assumeAdequate);
            DisplayCount(row, Missing, assumeAdequate) == if shortfall > 0 then shortfall else 0
  {
    var built := BuiltCount(row, assumeAdequate);
    CeilShift(row.buildingCount, built);
    CeilAtMost(row.buildingCount, built);
  }

  /** Assuming adequate buildings, a row without a built count is complete. */
  lemma AssumedAdequateRowIsComplete(row: RecipeRow)
    requires row.builtBuildings.None?
    ensures DisplayCount(row, Built, true) == DisplayCount(row, Total, true)
    ensures DisplayCount(row, Missing, true) == 0
  {
    MissingIsShortfall(row, true);
  }

  /** The item a machine is bought as: the first item that places it, or the machine itself. */
  function ShopItem(db: Database, entity: Key): (k: Key)
    ensures k.quality == entity.quality
    ensures entity.target in db && db[entity.target].kind.EntityObject? && |db[entity.target].kind.itemsToPlace| > 0 ==>
              k.target == db[entity.target].kind.itemsToPlace[0]
    ensures !(entity.target in db && db[entity.target].kind.EntityObject?) ==> k == entity
    ensures entity.target in db && db[entity.target].kind.EntityObject? && db[entity.target].kind.itemsToPlace == [] ==> k == entity
  {
    if entity.target in db && db[entity.target].kind.EntityObject? && |db[entity.target].kind.itemsToPlace| > 0
    then Key(db[entity.target].kind.itemsToPlace[0], entity.quality)
    else entity
  }

  function Bump(counts: map<Key, int>, k: Key, n: int): (r: map<Key, int>)
    ensures r.Keys == counts.Keys + {k}
    ensures r[k] == (if k in counts then counts[k] else 0) + n
    ensures forall j :: j in counts && j != k ==> r[j] == counts[j]
  {
    counts[k := (if k in counts then counts[k] else 0) + n]
  }

  /** The modules of one row: machine modules at normal quality, `count` per machine. */
  function AddModuleCounts(counts: map<Key, int>, modules: seq<RecipeParameters.UsedModuleEntry>, displayCount: int): map<Key, int> {
    if modules == [] then counts
    else
      var m := modules[|modules| - 1];
      var before := AddModuleCounts(counts, modules[..|modules| - 1], displayCount);
      if m.beacon then before else Bump(before, Key(m.moduleId, Normal), displayCount * m.count)
  }

  function AddRowCounts(db: Database, counts: map<Key, int>, row: RecipeRow, state: DisplayState, assumeAdequate: bool): map<Key, int> {
    if row.entity.None? then counts
    else
      var displayCount := DisplayCount(row, state, assumeAdequate);
      var withMachine := Bump(counts, ShopItem(db, row.entity.value), displayCount);
      match row.usedModules.modules
      case None => withMachine
      case Some(modules) => AddModuleCounts(withMachine, modules, displayCount)
  }

  /** The tally of all rows. */
  function Counts(db: Database, rows: seq<RecipeRow>, state: DisplayState, assumeAdequate: bool): map<Key, int> {
    if rows == [] then map[]
    else AddRowCounts(db, Counts(db, rows[..|rows| - 1], state, assumeAdequate), rows[|rows| - 1], state, assumeAdequate)
  }

  /** The modules of a row that sit in the machine itself, in order. */
  function MachineModules(modules: seq<RecipeParameters.UsedModuleEntry>): seq<RecipeParameters.UsedModuleEntry> {
    if modules == [] then []
    else
      var m := modules[|modules| - 1];
      MachineModules(modules[..|modules| - 1]) + (if m.beacon then [] else [m])
  }

  /** Beacon modules are never counted: dropping them leaves the tally unchanged. */
  lemma {:induction false} BeaconModulesNotCounted(counts: map<Key, int>, modules: seq<RecipeParameters.UsedModuleEntry>, displayCount: int)
    ensures AddModuleCounts(counts, modules, displayCount) == AddModuleCounts(counts, MachineModules(modules), displayCount)
    decreases |modules|
  {
    if modules != [] {
      var init := modules[..|modules| - 1];
      var m := modules[|modules| - 1];
      BeaconModulesNotCounted(counts, init, displayCount);
      var kept := MachineModules(init);
      var before := AddModuleCounts(counts, init, displayCount);
      assert before == AddModuleCounts(counts, kept, displayCount);
      if !m.beacon {
        var r := kept + [m];
        assert MachineModules(modules) == r;
        assert r[..|r| - 1] == kept && r[|r| - 1] == m;
        var after := Bump(before, Key(m.moduleId, Normal), displayCount * m.count);
        assert AddModuleCounts(counts, modules, displayCount) == after;
        assert AddModuleCounts(counts, r, displayCount) == after;
      } else {
        assert MachineModules(modules) == kept + [];
        assert kept + [] == kept;
        assert AddModuleCounts(counts, modules, displayCount) == before;
      }
    }
  }

  /** A key the tally of a row may hold. */
  predicate RowKey(db: Database, row: RecipeRow, k: Key) {
    row.entity.Some? &&
    (k == ShopItem(db, row.entity.value) ||
     (k.quality == Normal && row.usedModules.modules.Some? &&
      exists m :: m in row.usedModules.modules.value && !m.beacon && m.moduleId == k.target))
  }

  lemma {:induction false} ModuleCountKeys(counts: map<Key, int>, modules: seq<RecipeParameters.UsedModuleEntry>, displayCount: int)
    ensures forall k :: k in AddModuleCounts(counts, modules, displayCount) ==>
              k in counts || (k.quality == Normal && exists m :: m in modules && !m.beacon && m.moduleId == k.target)
    decreases |modules|
  {
    if modules != [] {
      var init := modules[..|modules| - 1];
      ModuleCountKeys(counts, init, displayCount);
      forall m | m in init
        ensures m in modules
      {
      }
    }
  }

  /** Only the items of rows with a machine, and their machine modules at normal quality, are tallied. */
  lemma {:induction false} CountsKeys(db: Database, rows: seq<RecipeRow>, state: DisplayState, assumeAdequate: bool)
    ensures forall k :: k in Counts(db, rows, state, assumeAdequate) ==> exists i :: 0 <= i < |rows| && RowKey(db, rows[i], k)
    decreases |rows|
  {
    if rows != [] {
      var init := rows[..|rows| - 1];
      var row := rows[|rows| - 1];
      CountsKeys(db, init, state, assumeAdequate);
      var before := Counts(db, init, state, assumeAdequate);
      if row.entity.Some? {
        var withMachine := Bump(before, ShopItem(db, row.entity.value), DisplayCount(row, state, assumeAdequate));
        if row.usedModules.modules.Some? {
          ModuleCountKeys(withMachine, row.usedModules.modules.value, DisplayCount(row, state, assumeAdequate));
        }
      }
      forall k | k in Counts(db, rows, state, assumeAdequate)
        ensures exists i :: 0 <= i < |rows| && RowKey(db, rows[i], k)
      {
        if k in before {
          var i :| 0 <= i < |init| && RowKey(db, init[i], k);
          assert rows[i] == init[i];
        } else {
          assert RowKey(db, rows[|rows| - 1], k);
        }
      }
    }
  }

  /** The rows that name a machine, in order. */
  function MachineRows(rows: seq<RecipeRow>): seq<RecipeRow> {
    if rows == [] then []
    else
      var r := rows[|rows| - 1];
      MachineRows(rows[..|rows| - 1]) + (if r.entity.Some? then [r] else [])
  }

  /** Rows without a machine are skipped wherever they stand: the tally is that of the machine rows alone. */
  lemma {:induction false} MachinelessRowsNotCounted(db: Database, rows: seq<RecipeRow>, state: DisplayState, assumeAdequate: bool)
    ensures Counts(db, rows, state, assumeAdequate) == Counts(db, MachineRows(rows), state, assumeAdequate)
    decreases |rows|
  {
    if rows != [] {
      var init := rows[..|rows| - 1];
      var r := rows[|rows| - 1];
      assert rows == init + [r];
      MachinelessRowsNotCounted(db, init, state, assumeAdequate);
      var kept := MachineRows(init);
      CountsSnoc(db, init, r, state, assumeAdequate);
      MachineRowsSnoc(init, r);
      if r.entity.Some? {
        CountsSnoc(db, kept, r, state, assumeAdequate);
      } else {
        assert kept + [] == kept;
      }
    }
  }

  lemma CountsSnoc(db: Database, init: seq<RecipeRow>, r: RecipeRow, state: DisplayState, assumeAdequate: bool)
    ensures Counts(db, init + [r], state, assumeAdequate) == AddRowCounts(db, Counts(db, init, state, assumeAdequate), r, state, assumeAdequate)
  {
    var rows := init + [r];
    assert rows[..|rows| - 1] == init && rows[|rows| - 1] == r;
  }

  lemma MachineRowsSnoc(init: seq<RecipeRow>, r: RecipeRow)
    ensures MachineRows(init + [r]) == MachineRows(init) + (if r.entity.Some? then [r] else [])
  {
    var rows := init + [r];
    assert rows[..|rows| - 1] == init && rows[|rows| - 1] == r;
  }

  // ---------------------------------------------------------------------------
  // Totals over the list
  // ---------------------------------------------------------------------------

  datatype Measure = CostMeasure | BuildingsMeasure | ModulesMeasure

  /** What one list entry adds to a total: modules to modules, other entities and items to buildings. */
  function Term(db: Database, m: Measure, e: (Key, real)): real {
    match m
    case CostMeasure => Cost(db, e.0.target) * e.1
    case ModulesMeasure => if IsModule(db, e.0.target) then e.1 else 0.0
    case BuildingsMeasure => if !IsModule(db, e.0.target) && IsEntityOrItem(db, e.0.target) then e.1 else 0.0
  }

  function Sum(db: Database, m: Measure, s: seq<(Key, real)>): real {
    if s == [] then 0.0 else Sum(db, m, s[..|s| - 1]) + Term(db, m, s[|s| - 1])
  }

  lemma {:induction false} SumAppend(db: Database, m: Measure, s: seq<(Key, real)>, t: seq<(Key, real)>)
    ensures Sum(db, m, s + t) == Sum(db, m, s) + Sum(db, m, t)
    decreases |t|
  {
    if t == [] {
      assert s + t == s;
    } else {
      var init := t[..|t| - 1];
      assert (s + t)[..|s + t| - 1] == s + init;
      SumAppend(db, m, s, init);
    }
  }

  /** Taking one entry out of the list takes its term out of the sum. */
  lemma SumRemove(db: Database, m: Measure, t: seq<(Key, real)>, k: nat)
    requires k < |t|
    ensures Sum(db, m, t) == Sum(db, m, t[..k] + t[k + 1..]) + Term(db, m, t[k])
  {
    assert t == t[..k] + [t[k]] + t[k + 1..];
    SumAppend(db, m, t[..k] + [t[k]], t[k + 1..]);
    SumAppend(db, m, t[..k], [t[k]]);
    SumAppend(db, m, t[..k], t[k + 1..]);
    assert [t[k]][..0] == [];
  }

  lemma RemoveFromMultiset<T>(t: seq<T>, k: nat)
    requires k < |t|
    ensures multiset(t[..k] + t[k + 1..]) == multiset(t) - multiset{t[k]}
  {
    assert t == t[..k] + [t[k]] + t[k + 1..];
  }

  /** The totals do not depend on the order of the list. */
  lemma {:induction false} SumOrderFree(db: Database, m: Measure, s: seq<(Key, real)>, t: seq<(Key, real)>)
    requires multiset(s) == multiset(t)
    ensures Sum(db, m, s) == Sum(db, m, t)
    decreases |s|
  {
    if s != [] {
      var init := s[..|s| - 1];
      var x := s[|s| - 1];
      assert s == init + [x];
      assert x in multiset(t);
      assert x in t;
      var k :| 0 <= k < |t| && t[k] == x;
      var rest := t[..k] + t[k + 1..];
      RemoveFromMultiset(t, k);
      RemoveFromMultiset(s, |s| - 1);
      assert multiset(init) == multiset(rest);
      SumOrderFree(db, m, init, rest);
      SumRemove(db, m, t, k);
      assert Sum(db, m, s) == Sum(db, m, init) + Term(db, m, x);
    }
  }

  // ---------------------------------------------------------------------------
  // Breaking the list down into materials
  // ---------------------------------------------------------------------------

  /** The two locals `addDecomposition` updates: keys still to visit, and the amount of every key. */
  datatype Decomposition = Decomposition(queue: seq<Key>, result: map<Key, real>)

  /** `addDecomposition` (lines 193-200): adds `amount`, queueing `key` exactly when it had no amount. */
  function AddDecomposition(d: Decomposition, key: Key, amount: real): (r: Decomposition)
    ensures r.result.Keys == d.result.Keys + {key}
    ensures r.result[key] == if key in d.result then d.result[key] + amount else amount
    ensures forall k :: k in d.result && k != key ==> r.result[k] == d.result[k]
    ensures r.queue == if key in d.result then d.queue else d.queue + [key]
  {
    if key in d.result then Decomposition(d.queue, d.result[key := d.result[key] + amount])
    else Decomposition(d.queue + [key], d.result[key := amount])
  }

  function AddAll(d: Decomposition, adds: seq<(Key, real)>): Decomposition {
    if adds == [] then d
    else
      var last := adds[|adds| - 1];
      AddDecomposition(AddAll(d, adds[..|adds| - 1]), last.0, last.1)
  }

  /** The goods rule applies to goods used in at most five places, or to placeable or non-plain items. */
  predicate GoodsRuleApplies(goods: GoodsKind, usages: nat) {
    usages <= 5 || (goods.ItemGoods? && (goods.factorioType != "item" || goods.hasPlaceResult))
  }

  /** A key that the breakdown replaces by what it is made from. */
  ghost predicate Expands(db: Database, k: Key) {
    k.target in db &&
    match db[k.target].kind
    case EntityObject(items) => |items| == 1
    case RecipeObject(_, hasIngredientVariants, _) => !hasIngredientVariants
    case GoodsObject(goods, usages, production) => GoodsRuleApplies(goods, usages) && SingleAccessible(db, production).Some?
    case OtherObject => false
  }

  /** A recipe's ingredients for `amount` crafts: fluids at normal quality, the rest at the recipe's. */
  function IngredientAdditions(db: Database, ingredients: seq<Ingredient>, quality: Quality, amount: real): (r: seq<(Key, real)>)
    ensures |r| == |ingredients|
    ensures forall i :: 0 <= i < |r| ==> r[i].0.target == ingredients[i].goods && r[i].1 == ingredients[i].amount * amount
    ensures forall i :: 0 <= i < |r| ==> r[i].0.quality == (if IsFluid(db, ingredients[i].goods) then Normal else quality)
  {
    seq(|ingredients|, i requires 0 <= i < |ingredients| =>
      (Key(ingredients[i].goods, if IsFluid(db, ingredients[i].goods) then Normal else quality), ingredients[i].amount * amount))
  }

  /** The goods rule as intended: `amount` goods become that many crafts of the single accessible recipe. */
  function GoodsAddition(db: Database, goods: ObjectId, quality: Quality, amount: real, recipe: ObjectId): (Key, real)
    requires ProductionPerRecipe(db, recipe, goods) > 0.0
  {
    (Key(recipe, quality), amount / ProductionPerRecipe(db, recipe, goods))
  }

  /** The crafts the goods rule adds make exactly the amount of goods they replace, from an accessible recipe. */
  lemma GoodsAdditionConserves(db: Database, g: Key, amount: real)
    requires WellFormed(db) && Expands(db, g) && db[g.target].kind.GoodsObject?
    ensures var recipe := SingleAccessible(db, db[g.target].kind.production).value;
            var added := GoodsAddition(db, g.target, g.quality, amount, recipe);
            added.0.target == recipe && IsAccessible(db, recipe) && added.0.quality == g.quality &&
            added.1 * ProductionPerRecipe(db, recipe, g.target) == amount
  {
  }

  /**
   * The goods rule as the program writes it (line 229): the amount is divided
   * by the output of the single accessible recipe, but the key added is the
   * first producer listed, accessible or not.
   */
  function GoodsAdditionAsWritten(db: Database, goods: ObjectId, quality: Quality, amount: real,
                                  production: seq<ObjectId>, recipe: ObjectId): (Key, real)
    requires |production| > 0 && ProductionPerRecipe(db, recipe, goods) > 0.0
  {
    (Key(production[0], quality), amount / ProductionPerRecipe(db, recipe, goods))
  }

  /** Goods 0 made by recipe 1 (inaccessible, 2 per craft) or recipe 2 (accessible, 1 per craft). */
  const TwoProducerDb: Database := map[
    0 := FactorioObject(GoodsObject(ItemGoods("item", false, false), 1, [1, 2]), true, 1.0),
    1 := FactorioObject(RecipeObject([], false, map[0 := 2.0]), false, 0.0),
    2 := FactorioObject(RecipeObject([], false, map[0 := 1.0]), true, 0.0)]

  /**
   * As written, one unit of goods 0 becomes one craft of the inaccessible
   * recipe 1, which makes two units; the intended rule gives one craft of
   * recipe 2, which makes exactly the one unit. The breakdown follows the
   * program and adds recipe 1.
   */
  lemma AsWrittenGoodsRuleTakesInaccessibleRecipe()
    ensures WellFormed(TwoProducerDb) && Expands(TwoProducerDb, Key(0, Normal))
    ensures SingleAccessible(TwoProducerDb, [1, 2]) == Some(2)
    ensures var added := GoodsAdditionAsWritten(TwoProducerDb, 0, Normal, 1.0, [1, 2], 2);
            added == (Key(1, Normal), 1.0) && !IsAccessible(TwoProducerDb, added.0.target) &&
            added.1 * ProductionPerRecipe(TwoProducerDb, added.0.target, 0) == 2.0
    ensures GoodsAddition(TwoProducerDb, 0, Normal, 1.0, 2) == (Key(2, Normal), 1.0)
    ensures Expansion(TwoProducerDb, Key(0, Normal), 1.0) == [(Key(1, Normal), 1.0)]
  {
    SingleAccessibleAt(TwoProducerDb, [1, 2], 1);
  }

  /** The two rules agree exactly when the first producer listed is the single accessible one. */
  lemma AsWrittenAgreesWhenFirstIsAccessible(db: Database, goods: ObjectId, quality: Quality, amount: real,
                                            production: seq<ObjectId>, recipe: ObjectId)
    requires |production| > 0 && ProductionPerRecipe(db, recipe, goods) > 0.0
    ensures (GoodsAdditionAsWritten(db, goods, quality, amount, production, recipe) ==
             GoodsAddition(db, goods, quality, amount, recipe)) <==> production[0] == recipe
  {
  }

  /** What the breakdown adds for a key it replaces, in the order of the calls (lines 209-228). */
  ghost function Expansion(db: Database, k: Key, amount: real): seq<(Key, real)>
    requires WellFormed(db) && Expands(db, k)
  {
    match db[k.target].kind
    case EntityObject(items) => [(Key(items[0], k.quality), amount)]
    case RecipeObject(ingredients, _, _) => IngredientAdditions(db, ingredients, k.quality, amount)
    case GoodsObject(_, _, production) =>
      [GoodsAdditionAsWritten(db, k.target, k.quality, amount, production, SingleAccessible(db, production).value)]
  }

  /** No key is queued twice. */
  ghost predicate QueueDistinct(q: seq<Key>) {
    forall i, j :: 0 <= i < j < |q| ==> q[i] != q[j]
  }

  /** Between steps: every queued key has an amount, and every key with an amount that is not queued is final. */
  ghost predicate Settled(db: Database, d: Decomposition) {
    QueueDistinct(d.queue) &&
    (forall k :: k in d.queue ==> k in d.result) &&
    (forall k :: k in d.result && k !in d.queue ==> !Expands(db, k))
  }

  /** During the step on `elem`: the same, except for `elem`, which has been taken off the queue. */
  ghost predicate SettledExcept(db: Database, d: Decomposition, elem: Key) {
    QueueDistinct(d.queue) &&
    (forall k :: k in d.queue ==> k in d.result) &&
    elem in d.result && elem !in d.queue &&
    (forall k :: k in d.result && k !in d.queue && k != elem ==> !Expands(db, k))
  }

  lemma {:induction false} AddAllKeepsSettledExcept(db: Database, d: Decomposition, adds: seq<(Key, real)>, elem: Key)
    requires SettledExcept(db, d, elem)
    ensures SettledExcept(db, AddAll(d, adds), elem)
    decreases |adds|
  {
    if adds != [] {
      AddAllKeepsSettledExcept(db, d, adds[..|adds| - 1], elem);
    }
  }

  lemma {:induction false} AddAllKeepsQueueExact(d: Decomposition, adds: seq<(Key, real)>)
    requires QueueDistinct(d.queue) && forall k :: k in d.queue <==> k in d.result
    ensures var r := AddAll(d, adds); QueueDistinct(r.queue) && forall k :: k in r.queue <==> k in r.result
    decreases |adds|
  {
    if adds != [] {
      AddAllKeepsQueueExact(d, adds[..|adds| - 1]);
    }
  }

  lemma AddAllSnoc(d: Decomposition, adds: seq<(Key, real)>, x: (Key, real))
    ensures AddAll(d, adds + [x]) == AddDecomposition(AddAll(d, adds), x.0, x.1)
  {
    assert (adds + [x])[..|adds|] == adds;
  }

  /** Extending the prefix by one entry adds that entry. */
  lemma AddAllPrefixStep(d: Decomposition, adds: seq<(Key, real)>, i: nat)
    requires i < |adds|
    ensures AddAll(d, adds[..i + 1]) == AddDecomposition(AddAll(d, adds[..i]), adds[i].0, adds[i].1)
  {
    assert adds[..i + 1] == adds[..i] + [adds[i]];
    AddAllSnoc(d, adds[..i], adds[i]);
  }

  /** Takes the head off a settled queue: the head keeps its amount and is no longer queued. */
  function Dequeue(ghost db: Database, d: Decomposition): (r: Decomposition)
    requires Settled(db, d) && |d.queue| > 0
    ensures SettledExcept(db, r, d.queue[0])
    ensures r.result == d.result && r.queue == d.queue[1..]
    ensures !Expands(db, d.queue[0]) ==> Settled(db, r)
  {
    assert forall k :: k in d.queue[1..] ==> k in d.queue;
    Decomposition(d.queue[1..], d.result)
  }

  /** The recipe rule (lines 217-224): every ingredient added, `amount` crafts' worth, fluids at normal quality. */
  method AddIngredients(db: Database, ingredients: seq<Ingredient>, quality: Quality, amount: real, d: Decomposition)
    returns (d': Decomposition)
    ensures d' == AddAll(d, IngredientAdditions(db, ingredients, quality, amount))
  {
    d' := d;
    ghost var adds := IngredientAdditions(db, ingredients, quality, amount);
    for i := 0 to |ingredients|
      invariant d' == AddAll(d, adds[..i])
    {
      var ingredient := ingredients[i];
      var key := Key(ingredient.goods, if IsFluid(db, ingredient.goods) then Normal else quality);
      assert adds[i].0.target == key.target && adds[i].0.quality == key.quality;
      assert adds[i].0 == key && adds[i].1 == ingredient.amount * amount;
      AddAllPrefixStep(d, adds, i);
      d' := AddDecomposition(d', key, ingredient.amount * amount);
    }
    assert adds[..|ingredients|] == adds;
  }

  /** One step of the breakdown on `elem` (lines 209-228), applying the rule that matches, if any. */
  method Expand(db: Database, elem: Key, amount: real, d: Decomposition) returns (expanded: bool, d': Decomposition)
    requires WellFormed(db)
    ensures expanded <==> Expands(db, elem)
    ensures expanded ==> d' == AddAll(d, Expansion(db, elem, amount))
    ensures !expanded ==> d' == d
  {
    d' := d;
    expanded := false;
    if elem.target !in db {
      return;
    }
    var obj := db[elem.target];
    if obj.kind.EntityObject? && |obj.kind.itemsToPlace| == 1 {
      d' := AddDecomposition(d, Key(obj.kind.itemsToPlace[0], elem.quality), amount);
      expanded := true;
      AddAllSnoc(d, [], (Key(obj.kind.itemsToPlace[0], elem.quality), amount));
    } else if obj.kind.RecipeObject? {
      if obj.kind.hasIngredientVariants {
        return;
      }
      d' := AddIngredients(db, obj.kind.ingredients, elem.quality, amount, d);
      expanded := true;
    } else if obj.kind.GoodsObject? && GoodsRuleApplies(obj.kind.goods, obj.kind.usages) {
      var recipe := FindSingleProduction(db, obj.kind.production);
      if recipe.None? {
        return;
      }
      var added := GoodsAdditionAsWritten(db, elem.target, elem.quality, amount, obj.kind.production, recipe.value);
      d' := AddDecomposition(d, added.0, added.1);
      expanded := true;
      AddAllSnoc(d, [], added);
    }
  }

  /** The amounts and queue `Decompose` starts from: every list entry added in order (lines 201-203). */
  function Seeded(list: seq<(Key, real)>): (d: Decomposition)
    ensures QueueDistinct(d.queue) && forall k :: k in d.queue <==> k in d.result
  {
    AddAllKeepsQueueExact(Decomposition([], map[]), list);
    AddAll(Decomposition([], map[]), list)
  }

  /** `steps++ > 1000` (line 236): once this many expansions are done, the next one is the last. */
  const StepCap := 1001

  /** The amount recorded for `k`; every queued key has one (see `Settled`). */
  function AmountOf(d: Decomposition, k: Key): real {
    if k in d.result then d.result[k] else 0.0
  }

  /** One expansion (lines 208-235): the head's additions made, then the head's own amount removed. */
  ghost function ExpandHead(db: Database, d: Decomposition): Decomposition
    requires WellFormed(db) && d.queue != [] && Expands(db, d.queue[0])
  {
    var elem := d.queue[0];
    var next := AddAll(Decomposition(d.queue[1..], d.result), Expansion(db, elem, AmountOf(d, elem)));
    Decomposition(next.queue, next.result - {elem})
  }

  lemma ExpandHeadSettled(db: Database, d: Decomposition)
    requires WellFormed(db) && Settled(db, d) && d.queue != [] && Expands(db, d.queue[0])
    ensures Settled(db, ExpandHead(db, d))
  {
    var elem := d.queue[0];
    AddAllKeepsSettledExcept(db, Dequeue(db, d), Expansion(db, elem, AmountOf(d, elem)), elem);
  }

  /**
   * The loop of `Decompose` (lines 206-239) from state `d` after `steps`
   * expansions: the final amounts and the number of expansions made.
   */
  ghost function Run(db: Database, d: Decomposition, steps: nat): (Decomposition, nat)
    requires WellFormed(db) && steps <= StepCap
    decreases StepCap - steps, |d.queue|
  {
    if d.queue == [] then (d, steps)
    else if !Expands(db, d.queue[0]) then Run(db, Decomposition(d.queue[1..], d.result), steps)
    else if steps >= StepCap then (ExpandHead(db, d), steps + 1)
    else Run(db, ExpandHead(db, d), steps + 1)
  }

  /** Every seeded key comes from the list. */
  lemma {:induction false} AddAllKeys(d: Decomposition, adds: seq<(Key, real)>)
    ensures forall k :: k in AddAll(d, adds).result ==> k in d.result || exists i :: 0 <= i < |adds| && adds[i].0 == k
    decreases |adds|
  {
    if adds != [] {
      var init := adds[..|adds| - 1];
      AddAllKeys(d, init);
      forall k | k in AddAll(d, adds).result && k !in d.result
        ensures exists i :: 0 <= i < |adds| && adds[i].0 == k
      {
        if k != adds[|adds| - 1].0 {
          var i :| 0 <= i < |init| && init[i].0 == k;
          assert adds[i] == init[i];
        }
      }
    }
  }

  lemma SeededKeys(list: seq<(Key, real)>)
    ensures forall k :: k in Seeded(list).result ==> exists i :: 0 <= i < |list| && list[i].0 == k
  {
    AddAllKeys(Decomposition([], map[]), list);
  }

  /** Seeding one more entry with a new key records exactly its amount. */
  lemma SeededSnoc(init: seq<(Key, real)>, x: (Key, real))
    requires x.0 !in Seeded(init).result
    ensures Seeded(init + [x]).result == Seeded(init).result[x.0 := x.1]
  {
    AddAllSnoc(Decomposition([], map[]), init, x);
  }

  /** With distinct keys, the seeded amounts are the list entries themselves. */
  lemma {:induction false} SeededLists(list: seq<(Key, real)>)
    requires KeysDistinct(list)
    ensures Lists(list, Seeded(list).result)
    decreases |list|
  {
    if list != [] {
      var init := list[..|list| - 1];
      var x := list[|list| - 1];
      assert KeysDistinct(init);
      SeededLists(init);
      SeededKeys(init);
      assert list == init + [x];
      var before := Seeded(init).result;
      assert x.0 !in before;
      SeededSnoc(init, x);
      ListsSnoc(init, x, before);
    }
  }

  /** Appending an entry with a new key to a listed map lists the map with that key set. */
  lemma ListsSnoc(init: seq<(Key, real)>, x: (Key, real), m: map<Key, real>)
    requires Lists(init, m) && x.0 !in m
    ensures Lists(init + [x], m[x.0 := x.1])
  {
    var after := m[x.0 := x.1];
    forall e
      ensures e in init + [x] <==> e.0 in after && e.1 == after[e.0]
    {
      assert e in init + [x] <==> e in init || e == x;
    }
  }

  /** The loop ends settled, after at most one expansion past the cap, with an empty queue unless it was cut off. */
  lemma {:induction false} RunBounds(db: Database, d: Decomposition, steps: nat)
    requires WellFormed(db) && Settled(db, d) && steps <= StepCap
    ensures var (r, n) := Run(db, d, steps);
            steps <= n <= StepCap + 1 && (n <= StepCap ==> r.queue == []) &&
            forall k :: k in r.result ==> k in r.queue || !Expands(db, k)
    decreases StepCap - steps, |d.queue|
  {
    if d.queue != [] {
      if !Expands(db, d.queue[0]) {
        RunBounds(db, Dequeue(db, d), steps);
      } else {
        ExpandHeadSettled(db, d);
        if steps < StepCap {
          RunBounds(db, ExpandHead(db, d), steps + 1);
        }
      }
    }
  }

  /** Keys that are all final are left as they are. */
  lemma {:induction false} RunOnFinalKeys(db: Database, d: Decomposition, steps: nat)
    requires WellFormed(db) && Settled(db, d) && steps <= StepCap
    requires forall k :: k in d.result ==> !Expands(db, k)
    ensures Run(db, d, steps) == (Decomposition([], d.result), steps)
    decreases |d.queue|
  {
    if d.queue != [] {
      RunOnFinalKeys(db, Dequeue(db, d), steps);
    }
  }

  /** Item 0, made only by recipe 1 from `ratio` units of raw resource 2 per craft, `output` items per craft. */
  function ChainDb(ratio: real, output: real): Database {
    map[
      0 := FactorioObject(GoodsObject(ItemGoods("item", false, false), 1, [1]), true, 0.0),
      1 := FactorioObject(RecipeObject([Ingredient(2, ratio)], false, map[0 := output]), true, 0.0),
      2 := FactorioObject(GoodsObject(ItemGoods("item", false, false), 1, []), true, 0.0)]
  }

  lemma RunExpandsHead(db: Database, d: Decomposition, steps: nat)
    requires WellFormed(db) && steps < StepCap && d.queue != [] && Expands(db, d.queue[0])
    ensures Run(db, d, steps) == Run(db, ExpandHead(db, d), steps + 1)
  {
  }

  /** A one-entry list seeds one queued key with its amount. */
  lemma SeedOne(k: Key, amount: real)
    ensures Seeded([(k, amount)]) == Decomposition([k], map[k := amount])
  {
    assert [(k, amount)][..0] == [];
    assert AddAll(Decomposition([], map[]), []) == Decomposition([], map[]);
  }

  /** The item's only recipe is its single accessible producer. */
  lemma ChainItemExpansion(q: Quality, amount: real, ratio: real, output: real)
    requires output > 0.0
    ensures WellFormed(ChainDb(ratio, output)) && Expands(ChainDb(ratio, output), Key(0, q))
    ensures Expansion(ChainDb(ratio, output), Key(0, q), amount) == [(Key(1, q), amount / output)]
  {
    SingleAccessibleAt(ChainDb(ratio, output), [1], 0);
  }

  /** A single queued key replaced by a single new one: the new one alone is left, queued. */
  lemma ExpandHeadToOne(db: Database, h: Key, a: real, k: Key, c: real)
    requires WellFormed(db) && Expands(db, h) && k != h
    requires Expansion(db, h, a) == [(k, c)]
    ensures ExpandHead(db, Decomposition([h], map[h := a])) == Decomposition([k], map[k := c])
  {
    var d := Decomposition([h], map[h := a]);
    assert d.queue[1..] == [] && AmountOf(d, h) == a;
    assert [(k, c)][..0] == [];
    assert AddAll(Decomposition([], d.result), []) == Decomposition([], d.result);
    var next := AddAll(Decomposition([], d.result), [(k, c)]);
    assert next == AddDecomposition(Decomposition([], d.result), k, c);
    assert next.queue == [k];
    assert next.result - {h} == map[k := c];
  }

  /** The item becomes crafts of its recipe. */
  lemma ChainFirstStep(q: Quality, amount: real, ratio: real, output: real)
    requires output > 0.0
    ensures WellFormed(ChainDb(ratio, output))
    ensures var first := Decomposition([Key(1, q)], map[Key(1, q) := amount / output]);
            Run(ChainDb(ratio, output), Seeded([(Key(0, q), amount)]), 0) == Run(ChainDb(ratio, output), first, 1)
  {
    var db := ChainDb(ratio, output);
    SeedOne(Key(0, q), amount);
    ChainItemExpansion(q, amount, ratio, output);
    ExpandHeadToOne(db, Key(0, q), amount, Key(1, q), amount / output);
    RunExpandsHead(db, Decomposition([Key(0, q)], map[Key(0, q) := amount]), 0);
  }

  /** The recipe's one ingredient is the raw resource, `ratio` per craft. */
  lemma ChainRecipeExpansion(q: Quality, crafts: real, ratio: real, output: real)
    requires output > 0.0
    ensures WellFormed(ChainDb(ratio, output)) && Expands(ChainDb(ratio, output), Key(1, q))
    ensures Expansion(ChainDb(ratio, output), Key(1, q), crafts) == [(Key(2, q), ratio * crafts)]
  {
    var db := ChainDb(ratio, output);
    assert !IsFluid(db, 2);
    var adds := IngredientAdditions(db, [Ingredient(2, ratio)], q, crafts);
    assert |adds| == 1 && adds[0].0 == Key(2, q) && adds[0].1 == ratio * crafts;
  }

  /** The crafts become the raw resource they consume. */
  lemma ChainSecondStep(q: Quality, crafts: real, ratio: real, output: real)
    requires output > 0.0
    ensures WellFormed(ChainDb(ratio, output))
    ensures var first := Decomposition([Key(1, q)], map[Key(1, q) := crafts]);
            var second := Decomposition([Key(2, q)], map[Key(2, q) := ratio * crafts]);
            Run(ChainDb(ratio, output), first, 1) == Run(ChainDb(ratio, output), second, 2)
  {
    var db := ChainDb(ratio, output);
    ChainRecipeExpansion(q, crafts, ratio, output);
    ExpandHeadToOne(db, Key(1, q), crafts, Key(2, q), ratio * crafts);
    RunExpandsHead(db, Decomposition([Key(1, q)], map[Key(1, q) := crafts]), 1);
  }

  /** The raw resource has no producer and stays. */
  lemma ChainLastStep(q: Quality, amount: real, ratio: real, output: real)
    requires output > 0.0
    ensures WellFormed(ChainDb(ratio, output))
    ensures var d := Decomposition([Key(2, q)], map[Key(2, q) := amount]);
            Run(ChainDb(ratio, output), d, 2) == (Decomposition([], map[Key(2, q) := amount]), 2)
  {
    var db := ChainDb(ratio, output);
    NoSingleProducer(db, []);
    assert !Expands(db, Key(2, q));
    var d := Decomposition([Key(2, q)], map[Key(2, q) := amount]);
    assert Run(db, d, 2) == Run(db, Decomposition([], d.result), 2);
  }

  /** A list of distinct keys none of which breaks down comes out as it went in, with no expansion. */
  lemma FinalListKept(db: Database, list: seq<(Key, real)>)
    requires WellFormed(db) && KeysDistinct(list)
    requires forall i :: 0 <= i < |list| ==> !Expands(db, list[i].0)
    ensures Run(db, Seeded(list), 0).1 == 0 && Lists(list, Run(db, Seeded(list), 0).0.result)
  {
    SeededKeys(list);
    SeededLists(list);
    RunOnFinalKeys(db, Seeded(list), 0);
  }

  /** The three steps of the chain, joined. */
  lemma ChainRun(q: Quality, amount: real, ratio: real, output: real)
    requires output > 0.0
    ensures WellFormed(ChainDb(ratio, output))
    ensures Run(ChainDb(ratio, output), Seeded([(Key(0, q), amount)]), 0)
         == (Decomposition([], map[Key(2, q) := ratio * (amount / output)]), 2)
  {
    var db, crafts := ChainDb(ratio, output), amount / output;
    var raw := ratio * crafts;
    ChainFirstStep(q, amount, ratio, output);
    ChainSecondStep(q, crafts, ratio, output);
    ChainLastStep(q, raw, ratio, output);
    var first := Decomposition([Key(1, q)], map[Key(1, q) := crafts]);
    var second := Decomposition([Key(2, q)], map[Key(2, q) := raw]);
    assert Run(db, Seeded([(Key(0, q), amount)]), 0) == Run(db, first, 1);
    assert Run(db, first, 1) == Run(db, second, 2);
    assert Run(db, second, 2) == (Decomposition([], map[Key(2, q) := raw]), 2);
    assert raw == ratio * (amount / output);
    assert map[Key(2, q) := raw] == map[Key(2, q) := ratio * (amount / output)];
  }

  /** An item with a single recipe from one raw resource breaks down into exactly that resource, in two expansions. */
  lemma ChainDecomposesToRawResource(q: Quality, amount: real, ratio: real, output: real)
    requires output > 0.0
    ensures WellFormed(ChainDb(ratio, output))
    ensures var (r, expansions) := Run(ChainDb(ratio, output), Seeded([(Key(0, q), amount)]), 0);
            expansions == 2 && r.queue == [] && r.result.Keys == {Key(2, q)} && r.result[Key(2, q)] == ratio * (amount / output)
  {
    ChainRun(q, amount, ratio, output);
    var last := Decomposition([], map[Key(2, q) := ratio * (amount / output)]);
    assert last.result.Keys == {Key(2, q)};
  }

  /** A list of the amount of every key, highest first. */
  method ListAmounts(m: map<Key, real>) returns (s: seq<(Key, real)>)
    ensures forall e :: e in s <==> e.0 in m && e.1 == m[e.0]
    ensures KeysDistinct(s) && SortedDescending(s)
  {
    var unsorted: seq<(Key, real)> := [];
    var remaining := m.Keys;
    while remaining != {}
      invariant remaining <= m.Keys
      invariant forall e :: e in unsorted <==> e.0 in m && e.0 !in remaining && e.1 == m[e.0]
      invariant forall i :: 0 <= i < |unsorted| ==> unsorted[i].0 !in remaining
      invariant KeysDistinct(unsorted)
      decreases |remaining|
    {
      var k :| k in remaining;
      unsorted := unsorted + [(k, m[k])];
      remaining := remaining - {k};
    }
    s := SortDescending(unsorted);
    PermutationKeepsEntries(unsorted, s);
  }

  /** A list of the tallies that are positive, highest first. */
  method ListPositiveCounts(counts: map<Key, int>) returns (s: seq<(Key, real)>)
    ensures forall e :: e in s <==> e.0 in counts && counts[e.0] > 0 && e.1 == counts[e.0] as real
    ensures KeysDistinct(s) && SortedDescending(s)
  {
    var unsorted: seq<(Key, real)> := [];
    var remaining := counts.Keys;
    while remaining != {}
      invariant remaining <= counts.Keys
      invariant forall e :: e in unsorted <==> e.0 in counts && e.0 !in remaining && counts[e.0] > 0 && e.1 == counts[e.0] as real
      invariant forall i :: 0 <= i < |unsorted| ==> unsorted[i].0 !in remaining
      invariant KeysDistinct(unsorted)
      decreases |remaining|
    {
      var k :| k in remaining;
      if counts[k] > 0 {
        unsorted := unsorted + [(k, counts[k] as real)];
      }
      remaining := remaining - {k};
    }
    s := SortDescending(unsorted);
    PermutationKeepsEntries(unsorted, s);
  }

  /** The list `s` holds exactly the amounts of `m`. */
  ghost predicate Lists(s: seq<(Key, real)>, m: map<Key, real>) {
    forall e :: e in s <==> e.0 in m && e.1 == m[e.0]
  }

  // ---------------------------------------------------------------------------
  // The screen
  // ---------------------------------------------------------------------------

  class ShoppingListScreen {
    const recipes: seq<RecipeRow>
    var data: seq<(Key, real)>
    var shoppingCost: real
    var totalBuildings: real
    var totalModules: real
    var decomposed: bool

    /**
     * The screen over `recipes` (lines 33-37), with its list built at once. Where
     * the program throws from the constructor, the list here stays empty.
     */
    constructor(recipes: seq<RecipeRow>, db: Database, prefs: Preferences)
      ensures this.recipes == recipes && !decomposed
      ensures prefs.DisplayStateSetting().Some? ==>
                var counts := Counts(db, recipes, prefs.DisplayStateSetting().value, prefs.AssumeAdequate());
                forall e :: e in data <==> e.0 in counts && counts[e.0] > 0 && e.1 == counts[e.0] as real
      ensures prefs.DisplayStateSetting().None? ==> data == []
      ensures KeysDistinct(data) && SortedDescending(data)
      ensures shoppingCost == Sum(db, CostMeasure, data) && totalBuildings == Sum(db, BuildingsMeasure, data) &&
              totalModules == Sum(db, ModulesMeasure, data)
    {
      this.recipes := recipes;
      data := [];
      shoppingCost, totalBuildings, totalModules := 0.0, 0.0, 0.0;
      decomposed := false;
      new;
      var _ := RebuildData(db, prefs);
    }

    /**
     * `RebuildData` (lines 49-93). `ok` is false where the program throws: a
     * row with a machine is reached while the stored display state names no
     * state; the list and totals are then as they were.
     */
    method RebuildData(db: Database, prefs: Preferences) returns (ok: bool)
      modifies this
      ensures !decomposed
      ensures ok <==> prefs.DisplayStateSetting().Some? || forall i :: 0 <= i < |recipes| ==> recipes[i].entity.None?
      ensures ok && prefs.DisplayStateSetting().Some? ==>
                var counts := Counts(db, recipes, prefs.DisplayStateSetting().value, prefs.AssumeAdequate());
                forall e :: e in data <==> e.0 in counts && counts[e.0] > 0 && e.1 == counts[e.0] as real
      ensures ok && prefs.DisplayStateSetting().None? ==> data == []
      ensures ok ==> KeysDistinct(data) && SortedDescending(data)
      ensures ok ==> shoppingCost == Sum(db, CostMeasure, data) && totalBuildings == Sum(db, BuildingsMeasure, data) &&
                     totalModules == Sum(db, ModulesMeasure, data)
      ensures !ok ==> data == old(data) && shoppingCost == old(shoppingCost) &&
                      totalBuildings == old(totalBuildings) && totalModules == old(totalModules)
    {
      decomposed := false;
      var state := prefs.DisplayStateSetting();
      var counts;
      counts, ok := CountRows(db, recipes, state, prefs.AssumeAdequate());
      if !ok {
        return;
      }
      data := ListPositiveCounts(counts);
      shoppingCost, totalBuildings, totalModules := SumTotals(db, data);
    }

    /**
     * `Decompose` (lines 188-242): replaces the list by what its entries are
     * made from. `result` is the final amount map, and `expansions` counts
     * the keys that were replaced, which the program caps.
     */
    method Decompose(db: Database) returns (ghost result: map<Key, real>, ghost expansions: nat)
      requires WellFormed(db)
      modifies this
      ensures decomposed
      ensures (result, expansions) == (Run(db, Seeded(old(data)), 0).0.result, Run(db, Seeded(old(data)), 0).1)
      ensures Lists(data, result) && KeysDistinct(data) && SortedDescending(data)
      ensures expansions <= StepCap + 1
      ensures expansions <= StepCap ==> forall k :: k in result ==> !Expands(db, k)
      ensures KeysDistinct(old(data)) && (forall i :: 0 <= i < |old(data)| ==> !Expands(db, old(data)[i].0)) ==>
                forall e :: e in data <==> e in old(data)
      ensures shoppingCost == old(shoppingCost) && totalBuildings == old(totalBuildings) && totalModules == old(totalModules)
    {
      decomposed := true;
      var original := data;
      var d := Seed(original);
      var steps;
      d, steps := ExpandQueue(db, d);
      assert (d, steps) == Run(db, Seeded(original), 0);
      RunBounds(db, Seeded(original), 0);
      if KeysDistinct(original) && forall i :: 0 <= i < |original| ==> !Expands(db, original[i].0) {
        FinalListKept(db, original);
      }
      result := d.result;
      expansions := steps;
      data := ListAmounts(d.result);
    }

    /** The loop of `Decompose` (lines 206-239): expands queued keys until none is left or the cap is reached. */
    static method ExpandQueue(db: Database, start: Decomposition) returns (d: Decomposition, steps: nat)
      requires WellFormed(db) && Settled(db, start)
      ensures (d, steps) == Run(db, start, 0)
    {
      d := start;
      steps := 0;
      while |d.queue| > 0
        invariant steps <= StepCap
        invariant Settled(db, d)
        invariant Run(db, d, steps) == Run(db, start, 0)
        decreases StepCap - steps, |d.queue|
      {
        var elem := d.queue[0];
        var amount := d.result[elem];
        var taken := Dequeue(db, d);
        var expanded, next := Expand(db, elem, amount, taken);
        if !expanded {
          d := taken;
          continue;
        }
        ExpandHeadSettled(db, d);
        d := Decomposition(next.queue, next.result - {elem});
        var capped := steps >= StepCap;
        steps := steps + 1;
        if capped {
          break;
        }
      }
    }

    /**
     * The counting loop of `RebuildData` (lines 55-77). `ok` is false where the
     * display state is needed but names no state.
     */
    static method CountRows(db: Database, rows: seq<RecipeRow>, state: Option<DisplayState>, assumeAdequate: bool)
      returns (counts: map<Key, int>, ok: bool)
      ensures ok <==> state.Some? || forall i :: 0 <= i < |rows| ==> rows[i].entity.None?
      ensures ok && state.Some? ==> counts == Counts(db, rows, state.value, assumeAdequate)
      ensures ok && state.None? ==> counts == map[]
    {
      counts := map[];
      for i := 0 to |rows|
        invariant state.Some? ==> counts == Counts(db, rows[..i], state.value, assumeAdequate)
        invariant state.None? ==> counts == map[] && forall j :: 0 <= j < i ==> rows[j].entity.None?
      {
        assert rows[..i + 1][..i] == rows[..i];
        var recipe := rows[i];
        if recipe.entity.Some? {
          if state.None? {
            return map[], false;
          }
          var shopItem := ShopItem(db, recipe.entity.value);
          var displayCount := DisplayCount(recipe, state.value, assumeAdequate);
          counts := Bump(counts, shopItem, displayCount);
          if recipe.usedModules.modules.Some? {
            counts := CountModules(counts, recipe.usedModules.modules.value, displayCount);
          }
        }
      }
      ok := true;
      assert rows[..|rows|] == rows;
    }

    /** The totals of `RebuildData` (lines 80-92): cost, buildings and modules over the list. */
    static method SumTotals(db: Database, list: seq<(Key, real)>) returns (cost: real, buildings: real, modules: real)
      ensures cost == Sum(db, CostMeasure, list)
      ensures buildings == Sum(db, BuildingsMeasure, list)
      ensures modules == Sum(db, ModulesMeasure, list)
    {
      cost, buildings, modules := 0.0, 0.0, 0.0;
      for i := 0 to |list|
        invariant cost == Sum(db, CostMeasure, list[..i])
        invariant buildings == Sum(db, BuildingsMeasure, list[..i])
        invariant modules == Sum(db, ModulesMeasure, list[..i])
      {
        assert list[..i + 1][..i] == list[..i];
        var (obj, count) := list[i];
        if IsModule(db, obj.target) {
          modules := modules + count;
        } else if IsEntityOrItem(db, obj.target) {
          buildings := buildings + count;
        }
        cost := cost + Cost(db, obj.target) * count;
      }
      assert list[..|list|] == list;
    }

    /** The starting point of `Decompose`: the list entries, each queued once (lines 201-203). */
    static method Seed(list: seq<(Key, real)>) returns (d: Decomposition)
      ensures d == Seeded(list)
    {
      d := Decomposition([], map[]);
      for i := 0 to |list|
        invariant d == AddAll(Decomposition([], map[]), list[..i])
      {
        d := AddDecomposition(d, list[i].0, list[i].1);
        AddAllSnoc(Decomposition([], map[]), list[..i], list[i]);
        assert list[..i + 1] == list[..i] + [list[i]];
      }
      assert list[..|list|] == list;
    }
  }

  /** The module part of a row (lines 67-74): adds `displayCount * count` for each machine module. */
  method CountModules(counts: map<Key, int>, modules: seq<RecipeParameters.UsedModuleEntry>, displayCount: int) returns (r: map<Key, int>)
    ensures r == AddModuleCounts(counts, modules, displayCount)
  {
    r := counts;
    for i := 0 to |modules|
      invariant r == AddModuleCounts(counts, modules[..i], displayCount)
    {
      assert modules[..i + 1][..i] == modules[..i];
      var m := modules[i];
      if !m.beacon {
        r := Bump(r, Key(m.moduleId, Normal), displayCount * m.count);
      }
    }
    assert modules[..|modules|] == modules;
  }
}
