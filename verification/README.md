# yafc-ce production-planning core in Dafny

This project models four pieces of the production-planning logic of yafc-ce,
a Factorio production calculator:

- **Per-node parameters** (`RecipeParameters.CalculateParameters`). From a
  recipe, the machine that runs it, its fuel, the project settings and the
  module configuration, it derives:
  - the effective time per craft;
  - the fuel drawn per building per second;
  - the total productivity bonus;
  - the node's `WarningFlags`.
- **The shopping list** (`ShoppingListScreen`):
  - the saved display preference, which packs a display state and an
    "assume adequate" bit into one integer;
  - the tally of machines and machine modules over the production rows, under
    three display policies (total, built, missing);
  - the cost, building and module totals;
  - the breakdown (`Decompose`) of the list into the materials it is made from.
    This is a worklist over a queue and an amount map, with a step cap.
- **The summary page's missing items** (`Summary.UpdateMissingItems`). Every
  good whose demand exceeds its supply gets its deficit, highest first.
- **Module slot counting on the module customization screen**:
  - internal modules take a machine's slots greedily;
  - beacon modules act through a beacon count computed with a truncating
    ceiling division;
  - the machine's base effect is added on top.

Files:

- `wrappers.dfy`: `Option`.
- `warning_flags.dfy`: the flag enumeration and its bit layout.
- `module_effects.dfy`: module effect sets and their accumulation.
- `game_data.dfy`: the database slice the shopping list reads, and
  `FindSingleProduction`.
- `recipe_parameters.dfy`: the per-node calculation.
- `sorting.dfy`: the descending sort used by both lists.
- `shopping_list.dfy`: the preference bits, the tally, the totals, the
  breakdown and the screen class.
- `summary.dfy`: the missing-items list.
- `module_customization.dfy`: the slot and beacon counting.

Modelling choices:

- `float` is `real`.
- C# `int` `/` is written out as truncating division (`TruncDiv`). The preference
  integer is an `int32` newtype: `>> 1` is a floor halving, `& 1` the parity, and
  `& ~1` clears the parity.
- The following are parameters or stored values:
  - the game database (accessibility, costs, output per craft);
  - the project settings;
  - the module-selection collaborator `row.GetModulesInfo`;
  - the floors of the speed and energy multipliers;
  - beacon efficiency and profile;
  - each module's own effect set.
- Stateful code is imperative Dafny:
  - `ShoppingListScreen`, `Preferences`, `Summary` and `ModuleTemplateBuilder`
    are classes whose methods update their fields;
  - each loop of the source is a loop with invariants, proved against a
    specification function (`Counts`, `Sum`, `Run`, `Allocation`,
    `BeaconContributions`, `TechnologyProductivity`).

Where the code differs from its evident or documented intent, the model follows the code:

- A machine whose entity lists no placeable item is tallied under the entity
  itself, not left out of the tally.
- The step cap lets 1002 expansions happen, not 1000. The test `steps++ > 1000`
  reads the value before the increment.
- An expanded key is removed from the amount map (line 235 of
  `Yafc/Windows/ShoppingListScreen.cs`). So a key that reappears later is queued
  and expanded again; it is not "never reprocessed".
- A heat-consuming machine whose fuel has no linked fluid keeps the fuel's fuel
  value as its energy per unit; the value is not zeroed.
- The idle drain is divided by the energy per unit without a guard. A zero
  divisor is a precondition (`DivisionsDefined`), not a fallback value.

## Model

| member | source | states |
|---|---|---|
| RecipeParameters.CalculateParameters | Yafc.Model/Model/RecipeParameters.cs:48-169 | With no machine, the result is exactly: the recipe's own time, zero fuel draw, zero productivity, only `EntityNotSpecified`, default effects and modules. Every flag raised lies in bits 0-2 or 8-12. A node with a machine never gets `EntityNotSpecified`, and carries all of `CalculateForMachine`'s guarantees: each flag iff its condition, the intake cap, the productivity sum, positive time and the draw's sign. |
| RecipeParameters.CalculateForMachine | Yafc.Model/Model/RecipeParameters.cs:62-167 | Each fuel flag is raised iff its condition holds; so are the reactor flag and the solar-panel flag. The fuel draw never exceeds a finite intake limit, and sits at the limit when `FuelUsageInputLimited` is raised. Productivity is the base effect plus the one settings source, the reactor bonus and the module productivity. A positive craft time stays positive. The draw is non-negative unless a drain is divided by a negative energy per unit. |
| RecipeParameters.PrepareMachine | Yafc.Model/Model/RecipeParameters.cs:62-147 | The same flag equivalences and productivity sum, before modules, drain and limit. |
| RecipeParameters.ResolveFuel | Yafc.Model/Model/RecipeParameters.cs:65-107 | With fuel and positive energy per unit, fuel draw × energy per unit × effectivity equals the machine's power. With a non-positive energy per unit the draw is 0. Without fuel or energy source the draw is the power. Flags are only added; each of the four fuel flags is added iff its condition holds. |
| RecipeParameters.EnergyPerUnitOfFuel | Yafc.Model/Model/RecipeParameters.cs:72-88 | A heat-consuming machine burning a fluid gets (min(temperature, working max) − working min) × heat capacity; any other machine gets the fuel value. Its properties are the three lemmas below. |
| RecipeParameters.FluidHeatEnergyCapped | Yafc.Model/Model/RecipeParameters.cs:74-88 | A heat-consuming machine credits at most (working max − working min) × heat capacity per unit, and exactly that when the fluid is hotter than the working max. |
| RecipeParameters.FluidHeatEnergyMonotone | Yafc.Model/Model/RecipeParameters.cs:79-87 | A hotter fluid never yields less energy per unit. |
| RecipeParameters.UnlinkedFluidKeepsFuelValue | Yafc.Model/Model/RecipeParameters.cs:72-77 | With no linked fluid, energy per unit stays the fuel value. |
| RecipeParameters.ScaleWithPower | Yafc.Model/Model/RecipeParameters.cs:109-118 | A power-scaled recipe with rated power gets time × power = 1. Without rated power it draws its full intake, and time × (intake × energy per unit × effectivity) = 1. Otherwise nothing changes. |
| RecipeParameters.SumTechnologyProductivity | Yafc.Model/Model/RecipeParameters.cs:129-138 | The loop yields Σ change per level × level over the technologies present in the level map. |
| RecipeParameters.MissingTechnologyAddsNothing | Yafc.Model/Model/RecipeParameters.cs:131-134 | A technology without a level adds nothing, wherever it stands in the list. |
| RecipeParameters.TechnologyProductivityAppend | Yafc.Model/Model/RecipeParameters.cs:131-137 | The technology sum is additive over concatenation. |
| RecipeParameters.AddSettingsProductivity | Yafc.Model/Model/RecipeParameters.cs:120-138 | Exactly one source is added: mining, else research, else the technology sum. |
| RecipeParameters.ApplyMachineKind | Yafc.Model/Model/RecipeParameters.cs:140-147 | A reactor with positive neighbour bonus adds bonus × multiplier and raises `ReactorsNeighborsFromPrefs`. A solar panel raises `AssumesNauvisSolarRatio`. No other flag is added. |
| RecipeParameters.ApplyModules | Yafc.Model/Model/RecipeParameters.cs:149-156 | If the machine accepts modules, time × speed multiplier is the old time and the draw is scaled by the energy multiplier. Otherwise time, draw, effects and modules stay at their defaults. Signs are kept. |
| RecipeParameters.AddDrain | Yafc.Model/Model/RecipeParameters.cs:158-160 | A positive drain adds drain / energy per unit to the draw; otherwise the draw is unchanged. |
| RecipeParameters.LimitFuelUsage | Yafc.Model/Model/RecipeParameters.cs:162-166 | After the cap the draw is at most the limit. Time × draw is unchanged. The flag is raised exactly when the cap fires. |
| WarningFlags.BitLayout | Yafc.Model/Model/RecipeParameters.cs:8-28 | No two flags share a bit, and each bit lies in its flag's severity byte. |
| WarningFlags.Raise | Yafc.Model/Model/RecipeParameters.cs:58 | Raising a flag adds it and clears nothing. |
| WarningFlags.CalculationFlagsAvoidSolverRanges | Yafc.Model/Model/RecipeParameters.cs:8-28 | The flags of the calculation are informational or static errors only. |
| Effects.SpeedMod | Yafc.Model/Model/RecipeParameters.cs:154 | The speed multiplier is positive and at least 1 + speed bonus. |
| Effects.EnergyUsageMod | Yafc.Model/Model/RecipeParameters.cs:155 | The energy multiplier is positive and at least 1 + consumption bonus. |
| GameData.FindSingleProduction | Yafc/Windows/ShoppingListScreen.cs:173-186 | Returns the recipe at the one accessible position when exactly one is accessible. The result is in the array and accessible. |
| GameData.NoSingleProducer | Yafc/Windows/ShoppingListScreen.cs:173-186 | No accessible recipe, or two, gives no result. |
| GameData.SingleAccessibleAt | Yafc/Windows/ShoppingListScreen.cs:173-186 | The one accessible recipe is the result. |
| ShoppingList.DecodeDisplayState | Yafc/Windows/ShoppingListScreen.cs:17 | A stored number names a display state iff it is 0-2, and encoding gives it back. |
| ShoppingList.WithDisplayState | Yafc/Windows/ShoppingListScreen.cs:18-21 | Reading the display state back gives the value set; bit 0 is kept. |
| ShoppingList.WithAssumeAdequate | Yafc/Windows/ShoppingListScreen.cs:25-28 | Reading bit 0 back gives the value set; the display bits are kept. |
| ShoppingList.StoringReadValueIsIdentity | Yafc/Windows/ShoppingListScreen.cs:16-29 | Storing what is read back leaves the integer unchanged. |
| ShoppingList.Preferences.SetDisplayState | Yafc/Windows/ShoppingListScreen.cs:18-21 | The setting reads back as set, and "assume adequate" is unchanged. |
| ShoppingList.Preferences.SetAssumeAdequate | Yafc/Windows/ShoppingListScreen.cs:25-28 | The flag reads back as set, and the display state is unchanged. |
| ShoppingList.Ceil | Yafc/Windows/ShoppingListScreen.cs:58-62 | The least integer not below its argument. |
| ShoppingList.MissingIsShortfall | Yafc/Windows/ShoppingListScreen.cs:58-64 | The missing count is max(total − built, 0). |
| ShoppingList.AssumedAdequateRowIsComplete | Yafc/Windows/ShoppingListScreen.cs:58-62 | Assuming adequacy, a row without a built count is fully built and misses nothing. |
| ShoppingList.BuiltCount | Yafc/Windows/ShoppingListScreen.cs:58 | The stated built count; failing that, ⌈required⌉ when adequacy is assumed, else 0. |
| ShoppingList.DisplayCount | Yafc/Windows/ShoppingListScreen.cs:59-64 | The count shown per display state. `MissingIsShortfall` proves that Missing is max(Total − Built, 0). |
| ShoppingList.Counts | Yafc/Windows/ShoppingListScreen.cs:53-75 | The tally over all rows. Its keys are described in `CountsKeys`, and the beacon-module rule in `BeaconModulesNotCounted`. |
| ShoppingList.ShopItem | Yafc/Windows/ShoppingListScreen.cs:56 | A machine is keyed at its own quality, under the first item that places it, or under the machine itself when there is none. |
| ShoppingList.Bump | Yafc/Windows/ShoppingListScreen.cs:65 | Adds `n` to one key's count, starting from 0, and leaves the other keys. |
| ShoppingList.BeaconModulesNotCounted | Yafc/Windows/ShoppingListScreen.cs:66-73 | Beacon modules never change the tally: dropping them gives the same counts. |
| ShoppingList.CountsKeys | Yafc/Windows/ShoppingListScreen.cs:54-75 | Every tallied key is a row's machine item, or a non-beacon module of a row with a machine at normal quality. |
| ShoppingList.MachinelessRowsNotCounted | Yafc/Windows/ShoppingListScreen.cs:54-55 | For any list of rows and any display state, the tally equals the tally of its machine rows alone (`MachineRows`): a row without a machine changes nothing wherever it stands. |
| ShoppingList.CountModules | Yafc/Windows/ShoppingListScreen.cs:66-73 | The module loop computes the module tally of a row. |
| ShoppingList.ShoppingListScreen.CountRows | Yafc/Windows/ShoppingListScreen.cs:53-75 | The row loop computes `Counts`. It fails exactly when a machine row meets a display state outside the enum, where the program throws. |
| ShoppingList.ListPositiveCounts | Yafc/Windows/ShoppingListScreen.cs:76 | The list holds exactly the positive counts, once each, in non-increasing order. |
| ShoppingList.ShoppingListScreen.SumTotals | Yafc/Windows/ShoppingListScreen.cs:79-92 | Cost is Σ cost × count. Module counts go to the module total, other entities and items to the building total. |
| ShoppingList.SumOrderFree | Yafc/Windows/ShoppingListScreen.cs:76-92 | The totals do not depend on the order of the list. |
| ShoppingList.ShoppingListScreen.RebuildData | Yafc/Windows/ShoppingListScreen.cs:49-93 | Clears `decomposed`. The list holds exactly the positive tallies, once each, sorted descending. The totals are the sums over the list. Where the program throws, list and totals are as before. |
| ShoppingList.ShoppingListScreen.constructor | Yafc/Windows/ShoppingListScreen.cs:33-37 | The new screen's list and totals are those `RebuildData` computes. |
| ShoppingList.AddDecomposition | Yafc/Windows/ShoppingListScreen.cs:193-200 | The key is queued iff it had no amount. The amount is always added. Other keys are untouched. |
| ShoppingList.ShoppingListScreen.Seed | Yafc/Windows/ShoppingListScreen.cs:201-203 | The seeding loop adds every list entry in order. |
| ShoppingList.Seeded | Yafc/Windows/ShoppingListScreen.cs:201-203 | After seeding, no key is queued twice, and the queued keys are exactly those with an amount. |
| ShoppingList.SeededLists | Yafc/Windows/ShoppingListScreen.cs:193-203 | With distinct keys, the seeded amounts are the list's entries. |
| ShoppingList.IngredientAdditions | Yafc/Windows/ShoppingListScreen.cs:217-224 | One addition per ingredient: ingredient amount × crafts, fluids at normal quality, other goods at the consumer's quality. |
| ShoppingList.AddIngredients | Yafc/Windows/ShoppingListScreen.cs:217-224 | The ingredient loop makes those additions in order. |
| ShoppingList.Expand | Yafc/Windows/ShoppingListScreen.cs:209-233 | A step expands iff one of the three rules applies. It then makes that rule's additions, with the goods rule as line 229 writes it; otherwise it changes nothing. |
| ShoppingList.GoodsAdditionAsWritten | Yafc/Windows/ShoppingListScreen.cs:229 | The goods rule as the program writes it: the amount divided by the single accessible recipe's output, as crafts of the first listed producer. |
| ShoppingList.Expansion | Yafc/Windows/ShoppingListScreen.cs:209-229 | The additions one expansion makes: the single placing item, the ingredients, or the goods rule as written. |
| ShoppingList.GoodsAdditionConserves | Yafc/Windows/ShoppingListScreen.cs:226-229 | The goods rule adds crafts of an accessible recipe whose output equals the amount replaced. |
| ShoppingList.AsWrittenGoodsRuleTakesInaccessibleRecipe | Yafc/Windows/ShoppingListScreen.cs:226-229 | For a concrete database, the rule as written adds an inaccessible recipe whose output is twice the amount replaced, and the breakdown step (`Expansion`) adds that recipe. The intended rule would add the accessible recipe. |
| ShoppingList.AsWrittenAgreesWhenFirstIsAccessible | Yafc/Windows/ShoppingListScreen.cs:229 | The rule as written and the intended rule give the same addition exactly when the first listed producer is the single accessible recipe. |
| ShoppingList.Dequeue | Yafc/Windows/ShoppingListScreen.cs:207-208 | Taking the head keeps its amount. A final head leaves the state settled: queued keys distinct, each with an amount, and unqueued keys final. |
| ShoppingList.ExpandHeadSettled | Yafc/Windows/ShoppingListScreen.cs:209-235 | An expansion followed by removing the expanded key keeps the state settled. |
| ShoppingList.ShoppingListScreen.ExpandQueue | Yafc/Windows/ShoppingListScreen.cs:205-239 | The loop computes `Run`: the final state and the number of expansions. |
| ShoppingList.Run | Yafc/Windows/ShoppingListScreen.cs:205-239 | The breakdown loop: non-expanding heads are dropped, expanding ones are replaced by their `Expansion`, and the loop stops after the expansion that passes the cap. `RunBounds` gives its bounds. |
| ShoppingList.RunBounds | Yafc/Windows/ShoppingListScreen.cs:205-239 | The loop terminates after at most 1002 expansions. Unless cut off, the queue ends empty. Every remaining unqueued key is final. |
| ShoppingList.RunOnFinalKeys | Yafc/Windows/ShoppingListScreen.cs:205-239 | Keys that are all final are left as they are. |
| ShoppingList.FinalListKept | Yafc/Windows/ShoppingListScreen.cs:201-241 | A list of distinct final keys is broken down into itself, with no expansion. |
| ShoppingList.ChainDecomposesToRawResource | Yafc/Windows/ShoppingListScreen.cs:205-239 | An item with one recipe from one raw resource breaks down, in two expansions, into ratio × (amount / output) of that resource alone. |
| ShoppingList.ListAmounts | Yafc/Windows/ShoppingListScreen.cs:241 | The list holds exactly the final amounts, once each, in non-increasing order. |
| ShoppingList.ShoppingListScreen.Decompose | Yafc/Windows/ShoppingListScreen.cs:188-242 | Sets `decomposed`. The list is the result of `Run` on the seeded list, distinct and sorted. There are at most 1002 expansions, and without cut-off every key is final. A list of distinct final keys is unchanged. The totals are untouched. |
| Sorting.SortDescending | Yafc.Model/Model/Summary.cs:28 | Non-increasing order, a permutation of the input, distinct keys kept. |
| Summary.Summary.UpdateMissingItems | Yafc.Model/Model/Summary.cs:15-29 | The list depends only on `allGoods`. It holds exactly the goods with needed > available and needed > 0, with deficit needed − available, once each. Deficits are positive and sorted descending. |
| Summary.MissingDeficitPositive | Yafc.Model/Model/Summary.cs:19-23 | A missing good has a positive deficit; missing iff deficit > 0 and needed > 0. |
| Summary.MissingEntriesPositive | Yafc.Model/Model/Summary.cs:22-23 | Every listed entry has a positive deficit. |
| Summary.DeficitClosedForm | Yafc.Model/Model/Summary.cs:19-23 | The deficit is total needed − net flow − extra production. |
| Summary.NeededPositiveIsImplied | Yafc.Model/Model/Summary.cs:22 | With non-negative extra production, the second test never excludes a good. |
| Summary.Summary.constructor | Yafc.Model/Model/Summary.cs:11 | The list starts empty. |
| ModuleCustomization.ApplyEdit | Yafc/Workspace/ProductionTable/ModuleCustomizationScreen.cs:234-235 | An edit of entry `i` with a non-negative amount stores ⌊amount⌋ as that entry's fixed count. Any other edit (negative, absent or out of range) leaves the list unchanged. The length is kept. |
| ModuleCustomization.ApplyEditKeepsEntries | Yafc/Workspace/ProductionTable/ModuleCustomizationScreen.cs:234-235 | An edit keeps every module and every other entry, and never makes a count negative. |
| ModuleCustomization.EditEntry | Yafc/Workspace/ProductionTable/ModuleCustomizationScreen.cs:234-235 | Entry `i` is stored as edited only when the edit is at `i`. |
| ModuleCustomization.SlotsTaken | Yafc/Workspace/ProductionTable/ModuleCustomizationScreen.cs:240-244 | An entry never takes a negative number of slots. |
| ModuleCustomization.AllocationWithinSlots | Yafc/Workspace/ProductionTable/ModuleCustomizationScreen.cs:239-244 | What is left stays within 0 and the slot count. The counts taken plus what is left equal the slot count. |
| ModuleCustomization.AllocationAt | Yafc/Workspace/ProductionTable/ModuleCustomizationScreen.cs:240 | Entry `k` takes min(left, fixed count or unlimited) from what the earlier entries left. |
| ModuleCustomization.FillTakesRest | Yafc/Workspace/ProductionTable/ModuleCustomizationScreen.cs:240-243 | A zero fixed count takes every slot left, leaving none. |
| ModuleCustomization.ExhaustedAddsNothing | Yafc/Workspace/ProductionTable/ModuleCustomizationScreen.cs:240-244 | Once no slot is left, later entries take and add nothing. |
| ModuleCustomization.NoSlotsAddNothing | Yafc/Workspace/ProductionTable/ModuleCustomizationScreen.cs:209 | With no machine bound, no internal entry adds a module. |
| ModuleCustomization.FixedCountsWithinSlotsAreGranted | Yafc/Workspace/ProductionTable/ModuleCustomizationScreen.cs:240-244 | Positive fixed counts that fit the slots are granted in full. |
| ModuleCustomization.Allocation | Yafc/Workspace/ProductionTable/ModuleCustomizationScreen.cs:239-244 | The count each internal entry is granted, one per entry. Its bounds are in `AllocationWithinSlots` and `AllocationAt`. |
| ModuleCustomization.InternalContributions | Yafc/Workspace/ProductionTable/ModuleCustomizationScreen.cs:239-244 | The `AddModules` calls of the internal loop: one per entry whose slot count is positive, in list order. |
| ModuleCustomization.InternalContributionsAreAllocation | Yafc/Workspace/ProductionTable/ModuleCustomizationScreen.cs:239-244 | The internal calls are exactly the entries `Allocation` grants a positive count, with that count, in order. The modules added total Σ `Allocation`. |
| ModuleCustomization.InternalModulesWithinSlots | Yafc/Workspace/ProductionTable/ModuleCustomizationScreen.cs:239-244 | The modules the internal list adds number slots − remaining, between 0 and the slot count. |
| ModuleCustomization.BeaconCount | Yafc/Workspace/ProductionTable/ModuleCustomizationScreen.cs:247 | `(Σ − 1) / slots + 1` with C#'s truncating division. `BeaconCountIsCeiling` gives its meaning. |
| ModuleCustomization.BeaconContributions | Yafc/Workspace/ProductionTable/ModuleCustomizationScreen.cs:246-249 | The `AddModules` calls of the beacon loop. Each uses the pre-edit count, and the beacon count of the list as edited so far. |
| ModuleCustomization.BeaconCountIsCeiling | Yafc/Workspace/ProductionTable/ModuleCustomizationScreen.cs:247 | For Σ ≥ 1 the beacon count is ⌈Σ / slots⌉. For Σ = 0 it is 1, or 0 when a beacon has one slot. |
| ModuleCustomization.UneditedBeaconsShareCount | Yafc/Workspace/ProductionTable/ModuleCustomizationScreen.cs:246-249 | Without an edit, every beacon entry acts through the same beacon count. |
| ModuleCustomization.SumFixedCounts | Yafc/Workspace/ProductionTable/ModuleCustomizationScreen.cs:247 | The loop sums the fixed counts. |
| ModuleCustomization.DrawInternalEntry | Yafc/Workspace/ProductionTable/ModuleCustomizationScreen.cs:234-244 | One entry stores its edit, then takes its slots from what is left and adds them. |
| ModuleCustomization.DrawInternalModules | Yafc/Workspace/ProductionTable/ModuleCustomizationScreen.cs:239-245 | The edited list is stored. The effects gain exactly `InternalContributions`, which `InternalContributionsAreAllocation` shows to be the allocation's grants. |
| ModuleCustomization.DrawBeaconEntry | Yafc/Workspace/ProductionTable/ModuleCustomizationScreen.cs:246-249 | One beacon entry stores its edit, then adds fixed count × efficiency × profile at the beacon count of the list as edited so far, extending the contributions made so far by exactly its own. |
| ModuleCustomization.DrawBeaconModules | Yafc/Workspace/ProductionTable/ModuleCustomizationScreen.cs:246-249 | The edited beacon list is stored. The effects gain exactly the beacon contributions. |
| ModuleCustomization.DrawRecipeModules | Yafc/Workspace/ProductionTable/ModuleCustomizationScreen.cs:208-250 | The walk over the internal or beacon list, as above. The other list and the counts' non-negativity are kept. |
| ModuleCustomization.ModuleTemplateBuilder.AddModule | Yafc/Workspace/ProductionTable/ModuleCustomizationScreen.cs:253-257 | A picked module is appended with count 0 to the list drawn; the other list is unchanged. |
| ModuleCustomization.AddBaseEffect | Yafc/Workspace/ProductionTable/ModuleCustomizationScreen.cs:125-129 | Adds the base productivity, speed and consumption, but not quality. |
| ModuleCustomization.BaseEffectCommutes | Yafc/Workspace/ProductionTable/ModuleCustomizationScreen.cs:125-129 | Adding the base effect after the modules equals starting from it. |
| Effects.AccumulateSwap | Yafc/Workspace/ProductionTable/ModuleCustomizationScreen.cs:242 | The order in which module contributions are added does not matter. |

## Left out

- Drawing, input handling and persistence are not modelled:
  - `Build`, `ElementDrawer`, dropdowns, `Show`, `SelectBeacon`, `GetModules`;
  - `Preferences.Save()`;
  - undo recording.
  The edit typed during a frame is an input instead.
- Blueprint export (`ExportGoods`, `ExportBlueprintDropdown`) is not modelled.
- IEEE floating point, including rounding, infinities and NaN, is not modelled. Two C# divisions that could give an infinity are preconditions instead (`DivisionsDefined`):
  - the drain divided by a zero energy per unit;
  - the power-scaled formula with zero power and no intake limit.
  The other divisors and signs are set by `Entity.Valid()`, listed next.
- RecipeParameters.CalculateParameters / ResolveFuel: `Entity.Valid()` is required of the machine (also by `ScaleWithPower`, `PrepareMachine` and `CalculateForMachine`). It holds of loaded game data and sets aside these cases of `Yafc.Model/Model/RecipeParameters.cs`:
  - `craftingSpeed > 0`: line 63 divides the recipe time by it; zero or negative speed (an infinite or negative time) is not modelled.
  - `effectivity > 0`: lines 96 and 113 divide by it; a zero or negative effectivity is not modelled.
  - `power >= 0`: line 96 maps a non-positive power to a zero draw, and the model only covers the zero case of that guard.
  - `drain >= 0`: line 158 adds the drain only when positive, so a negative drain would act as none; the model does not take negative drains.
  - a limited fuel intake has a rate > 0: line 162 caps the draw at it, and lines 113 and 163 divide by it; a zero or negative rate is not modelled.
- ShoppingList.Run: the goods rule of line 229 of `Yafc/Windows/ShoppingListScreen.cs` divides by the chosen recipe's output without a guard. A zero output would give an infinity. The breakdown members require `WellFormed(db)`, a property of loaded game data: every listed producer makes a positive amount of the goods.
- `qualityMod` is not modelled. `speedMod` and `energyUsageMod` are 1 + the summed bonus, floored by the parameters `MultiplierFloors` (positive components). The game's values of those floors are not fixed here.
- `row.GetModulesInfo`, `GetBeaconEfficiency`, `GetProfile`, `IsAccessible`, `HasIngredientVariants`, `GetProductionPerRecipe` and `Cost()` are stored values or function parameters. `MathUtils.Ceil` is the exact ceiling on reals.
- ShoppingList.Ceil: the 32-bit overflow of the C# `int` result is not modelled.
- ShoppingList.Counts: the tallies and the `displayCount * moduleCount` product are unbounded integers, without 32-bit wrap-around.
- ModuleCustomization.ApplyEdit: the `(int)` cast of the typed amount (line 235 of `Yafc/Workspace/ProductionTable/ModuleCustomizationScreen.cs`) is exact here. For amounts of 2^31 or more, C#'s unchecked conversion gives an unspecified value (on x64, `int.MinValue`), which can be negative. So the non-negativity that `ApplyEditKeepsEntries` states holds for amounts below 2^31 in the program, not for every amount.
- ModuleCustomization.SumFixedCounts: the sum of fixed counts is an unbounded integer. `Enumerable.Sum` over `int` is checked and throws `OverflowException` past 32 bits; that throw is not modelled.
- Sorting.SortDescending: the order among entries with equal amounts is left open; only sortedness and permutation are stated. On the summary page (line 28 of `Yafc.Model/Model/Summary.cs`) `List.Sort` is not stable. On the shopping list (lines 76 and 241 of `Yafc/Windows/ShoppingListScreen.cs`) `OrderByDescending` is stable, but its input is a `Dictionary` enumeration, whose order is not specified, so ties still come out in an order the program does not fix.
- The default-beacon branch of the customization screen (lines 109-113 of `Yafc/Workspace/ProductionTable/ModuleCustomizationScreen.cs`) is not modelled. It reads a module filler that is not part of this model.
- Module quality scaling of effects is not modelled.
- ModuleCustomization.DrawRecipeModules: the per-entry `beacon == null` test is hoisted out of the loop, since it cannot change during one call.
- ShoppingList.Expands: an object absent from the database matches no rule. In the program every object is present.
- ShoppingList.ShoppingListScreen.constructor: when the stored display state is invalid, the program throws from the constructor. Here the list stays empty.
- `Yafc/Windows/WelcomeScreen.cs` is not part of this model.
- The global flow solver and the solution-error flags it raises are not part of this model.

## Findings

| source | as written | input that shows it | evidently intended | confidence | as-written member | corrected member |
|---|---|---|---|---|---|---|
| Yafc/Windows/ShoppingListScreen.cs:229 | The goods rule adds crafts of `g.production[0]`, but divides the amount by the output of `rec`, the single accessible recipe. The breakdown in this model keeps that behaviour (`Expansion`, `Expand`, `Run`, `Decompose`). The intended rule is stated and proved separately. | Goods 0 with producers [1, 2]. Recipe 1 is inaccessible and makes 2 per craft; recipe 2 is accessible and makes 1 per craft. One unit becomes one craft of recipe 1, which is inaccessible and makes 2 units. | Add crafts of `rec`: one craft of recipe 2, making exactly the 1 unit. | medium, not executed | ShoppingList.AsWrittenGoodsRuleTakesInaccessibleRecipe | ShoppingList.GoodsAdditionConserves |
