/**
 * The slice of the loaded game database the shopping list reads: objects by
 * id, their kinds, whether each is accessible, its cost, and for a recipe its
 * output per craft. Accessibility, cost, ingredient variants and output per
 * craft are computed elsewhere in the program; here they are stored values.
 */
module GameData {
  import opened Wrappers

  type ObjectId = nat

  /** A quality level; `Normal` is the reference quality fluids and modules are counted at. */
  type Quality = nat

  const Normal: Quality := 0

  /** `ObjectWithQuality`: an object at one quality, the key of every tally. */
  datatype Key = Key(target: ObjectId, quality: Quality)

  datatype Ingredient = Ingredient(goods: ObjectId, amount: real)

  datatype GoodsKind =
    | FluidGoods
    | ItemGoods(factorioType: string, hasPlaceResult: bool, isModule: bool)
    | SpecialGoods

  datatype ObjectKind =
    | EntityObject(itemsToPlace: seq<ObjectId>)
    | RecipeObject(ingredients: seq<Ingredient>, hasIngredientVariants: bool, productionPerRecipe: map<ObjectId, real>)
    | GoodsObject(goods: GoodsKind, usages: nat, production: seq<ObjectId>)
    | OtherObject

  datatype FactorioObject = FactorioObject(kind: ObjectKind, accessible: bool, cost: real)

  type Database = map<ObjectId, FactorioObject>

  predicate IsAccessible(db: Database, id: ObjectId) {
    id in db && db[id].accessible
  }

  predicate IsFluid(db: Database, id: ObjectId) {
    id in db && db[id].kind.GoodsObject? && db[id].kind.goods.FluidGoods?
  }

  predicate IsModule(db: Database, id: ObjectId) {
    id in db && db[id].kind.GoodsObject? && db[id].kind.goods.ItemGoods? && db[id].kind.goods.isModule
  }

  /** An entity, or an item of any kind (modules included). */
  predicate IsEntityOrItem(db: Database, id: ObjectId) {
    id in db && (db[id].kind.EntityObject? || (db[id].kind.GoodsObject? && db[id].kind.goods.ItemGoods?))
  }

  function Cost(db: Database, id: ObjectId): real {
    if id in db then db[id].cost else 0.0
  }

  /** `recipe.GetProductionPerRecipe(goods)`: none when the recipe does not make it. */
  function ProductionPerRecipe(db: Database, recipe: ObjectId, goods: ObjectId): real {
    if recipe in db && db[recipe].kind.RecipeObject? && goods in db[recipe].kind.productionPerRecipe
    then db[recipe].kind.productionPerRecipe[goods]
    else 0.0
  }

  /** What loaded game data guarantees: a goods' producers are recipes that make a positive amount of it. */
  predicate WellFormed(db: Database) {
    forall g, r :: g in db && db[g].kind.GoodsObject? && r in db[g].kind.production ==>
      r in db && db[r].kind.RecipeObject? && ProductionPerRecipe(db, r, g) > 0.0
  }

  // ---------------------------------------------------------------------------
  // The single accessible producer
  // ---------------------------------------------------------------------------

  /** Position `i` holds the one accessible recipe of `production`. */
  predicate OnlyAccessibleAt(db: Database, production: seq<ObjectId>, i: int) {
    0 <= i < |production| && IsAccessible(db, production[i]) &&
    forall j :: 0 <= j < |production| && j != i ==> !IsAccessible(db, production[j])
  }

  /** The recipe at the one accessible position, if exactly one position is accessible. */
  ghost function SingleAccessible(db: Database, production: seq<ObjectId>): Option<ObjectId> {
    if exists i :: OnlyAccessibleAt(db, production, i) then
      var i :| OnlyAccessibleAt(db, production, i); Some(production[i])
    else None
  }

  /** The single producer is the recipe at the one accessible position. */
  lemma SingleAccessibleAt(db: Database, production: seq<ObjectId>, i: int)
    requires OnlyAccessibleAt(db, production, i)
    ensures SingleAccessible(db, production) == Some(production[i])
  {
    forall j | OnlyAccessibleAt(db, production, j)
      ensures j == i
    {
    }
  }

  /** Two accessible positions, or none, leave no single producer. */
  lemma NoSingleProducer(db: Database, production: seq<ObjectId>)
    ensures (forall i :: 0 <= i < |production| ==> !IsAccessible(db, production[i])) ==>
              SingleAccessible(db, production) == None
    ensures (exists i, j :: 0 <= i < j < |production| && IsAccessible(db, production[i]) && IsAccessible(db, production[j])) ==>
              SingleAccessible(db, production) == None
  {
  }

  /** `FindSingleProduction` (lines 173-186): the accessible recipe when it is the only one. */
  method FindSingleProduction(db: Database, production: seq<ObjectId>) returns (r: Option<ObjectId>)
    ensures r == SingleAccessible(db, production)
    ensures r.Some? ==> r.value in production && IsAccessible(db, r.value)
  {
    var current: Option<ObjectId> := None;
    ghost var at := -1;
    for k := 0 to |production|
      invariant current.None? <==> at == -1
      invariant current.None? ==> forall j :: 0 <= j < k ==> !IsAccessible(db, production[j])
      invariant current.Some? ==> 0 <= at < k && current.value == production[at] && IsAccessible(db, production[at]) &&
                                  forall j :: 0 <= j < k && j != at ==> !IsAccessible(db, production[j])
    {
      var recipe := production[k];
      if IsAccessible(db, recipe) {
        if current.Some? {
          NoSingleProducer(db, production);
          return None;
        }
        current := Some(recipe);
        at := k;
      }
    }
    r := current;
    if r.Some? {
      assert OnlyAccessibleAt(db, production, at);
    } else {
      NoSingleProducer(db, production);
    }
  }
}
