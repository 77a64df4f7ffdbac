/**
 * Per-node parameter calculation: from a recipe, the machine that runs it, the
 * fuel it burns, the project settings and the module configuration, derive the
 * effective time per craft, the fuel drawn per building per second, the total
 * productivity bonus and the warning flags of the node.
 *
 * Game data comes in as plain values. The module-selection collaborator
 * (`row.GetModulesInfo`) is a function parameter that maps the current time per
 * craft and fuel draw to an effect set and a used-module record.
 */
module RecipeParameters {
  import opened Wrappers
  import opened WarningFlags
  import opened Effects
  import GameData

  type TechnologyId = string

  datatype TemperatureRange = TemperatureRange(min: int, max: int) {
    predicate Contains(t: int) {
      min <= t <= max
    }
  }

  datatype EnergyType = Void | Generic | FluidHeat

  /** `fuelConsumptionLimit`, whose default is positive infinity. */
  datatype ConsumptionLimit = Unlimited | Limited(rate: real) {
    predicate ExceededBy(draw: real) {
      Limited? && draw > rate
    }
  }

  datatype EntityEnergy = EntityEnergy(
    kind: EnergyType,
    workingTemperature: TemperatureRange,
    acceptedTemperature: TemperatureRange,
    effectivity: real,
    drain: real,
    fuelConsumptionLimit: ConsumptionLimit)
  {
    /** What the game data guarantees of a machine's energy source. */
    predicate Valid() {
      effectivity > 0.0 && drain >= 0.0 &&
      (fuelConsumptionLimit.Limited? ==> fuelConsumptionLimit.rate > 0.0)
    }
  }

  /**
   * `new EntityEnergy { type = EntityEnergyType.Void }`. Of its fields only the
   * type, the drain (none) and the consumption limit (none) are ever read.
   */
  const VoidEnergy := EntityEnergy(Void, TemperatureRange(0, 0), TemperatureRange(0, 0), 1.0, 0.0, Unlimited)

  datatype EntityKind = Crafter | Reactor(reactorNeighborBonus: real)

  datatype Entity = Entity(
    craftingSpeed: real,
    power: real,
    energy: Option<EntityEnergy>,
    baseEffect: Option<ModuleEffects>,        // `effectReceiver?.baseEffect`
    kind: EntityKind,
    factorioType: string,
    allowsEffects: bool,                      // `allowedEffects != AllowedEffects.None`
    allowedModuleCategories: seq<string>)
  {
    /** What the game data guarantees of a crafting machine. */
    predicate Valid() {
      craftingSpeed > 0.0 && power >= 0.0 && (energy.Some? ==> energy.value.Valid())
    }
  }

  datatype Fluid = Fluid(temperature: int, heatCapacity: real)

  /** The goods burnt as fuel; `fluid` is the goods itself when it is a fluid. */
  datatype Fuel = Fuel(fuelValue: real, fluid: Option<Fluid>)

  datatype RecipeKind =
    | Recipe(technologyProductivity: seq<(TechnologyId, real)>)
    | Technology

  datatype RecipeOrTechnology = RecipeOrTechnology(
    time: real,
    scaleProductionWithPower: bool,
    usesMiningProductivity: bool,
    kind: RecipeKind)

  /** The snapshot of `Project.current.settings` the calculation reads. */
  datatype Settings = Settings(
    miningProductivity: real,
    researchProductivity: real,
    productivityTechnologyLevels: map<TechnologyId, int>,
    reactorBonusMultiplier: real)               // `GetReactorBonusMultiplier()`

  datatype UsedModuleEntry = UsedModuleEntry(moduleId: GameData.ObjectId, count: int, beacon: bool)

  datatype UsedModule = UsedModule(modules: Option<seq<UsedModuleEntry>>, beacon: Option<GameData.ObjectId>, beaconCount: int)

  /** `default(UsedModule)` */
  const NoModules := UsedModule(None, None, 0)

  /** What the module-selection collaborator hands back. */
  datatype ModulesInfo = ModulesInfo(effects: ModuleEffects, modules: UsedModule)

  datatype RecipeParameters = RecipeParameters(
    recipeTime: real,
    fuelUsagePerSecondPerBuilding: real,
    productivity: real,
    warningFlags: Flags,
    activeEffects: ModuleEffects,
    modules: UsedModule)
  {
    function FuelUsagePerSecondPerRecipe(): real {
      recipeTime * fuelUsagePerSecondPerBuilding
    }
  }

  const Empty := RecipeParameters(0.0, 0.0, 0.0, {}, NoEffects, NoModules)

  // ---------------------------------------------------------------------------
  // Specification functions
  // ---------------------------------------------------------------------------

  /** The energy source after defaulting: the machine's own, or a void one. */
  function EffectiveEnergy(entity: Entity): EntityEnergy {
    entity.energy.GetOr(VoidEnergy)
  }

  /** The machine has an energy source and a fuel is chosen: fuel is burnt. */
  predicate FuelPath(entity: Entity, fuel: Option<Fuel>) {
    entity.energy.Some? && fuel.Some?
  }

  /**
   * Energy one unit of fuel delivers. A heat-consuming machine gets the heat
   * between the bottom of its working range and the fluid's temperature, capped
   * at the top of that range; any other machine, or a fuel with no fluid, gets
   * the fuel value.
   */
  function EnergyPerUnitOfFuel(energy: EntityEnergy, fuel: Fuel): real {
    if energy.kind == FluidHeat && fuel.fluid.Some? then
      (MinInt(fuel.fluid.value.temperature, energy.workingTemperature.max) - energy.workingTemperature.min) as real
        * fuel.fluid.value.heatCapacity
    else
      fuel.fuelValue
  }

  /** Energy per unit of fuel as the calculation sees it: zero when no fuel is burnt. */
  function ResolvedEnergyPerUnit(entity: Entity, fuel: Option<Fuel>): real {
    if FuelPath(entity, fuel) then EnergyPerUnitOfFuel(entity.energy.value, fuel.value) else 0.0
  }

  predicate TemperatureExceedsMaximum(entity: Entity, fuel: Option<Fuel>) {
    FuelPath(entity, fuel) && entity.energy.value.kind == FluidHeat && fuel.value.fluid.Some? &&
    fuel.value.fluid.value.temperature > entity.energy.value.workingTemperature.max
  }

  predicate TemperatureNotLinked(entity: Entity, fuel: Option<Fuel>) {
    FuelPath(entity, fuel) && entity.energy.value.kind == FluidHeat && fuel.value.fluid.None?
  }

  /** The fuel gives no usable energy: its fluid is outside the accepted range, or its energy per unit is not positive. */
  predicate FuelGivesNoEnergy(entity: Entity, fuel: Option<Fuel>) {
    FuelPath(entity, fuel) &&
    ((fuel.value.fluid.Some? && !entity.energy.value.acceptedTemperature.Contains(fuel.value.fluid.value.temperature))
     || EnergyPerUnitOfFuel(entity.energy.value, fuel.value) <= 0.0)
  }

  /** A generator-like recipe whose throughput follows the machine's power. */
  predicate PowerScaled(recipe: RecipeOrTechnology, entity: Entity, fuel: Option<Fuel>) {
    recipe.scaleProductionWithPower && ResolvedEnergyPerUnit(entity, fuel) > 0.0 &&
    entity.energy.Some? && entity.energy.value.kind != Void
  }

  /** The divisions of the calculation have non-zero divisors (C# would yield an infinity). */
  predicate DivisionsDefined(recipe: RecipeOrTechnology, entity: Entity, fuel: Option<Fuel>) {
    (PowerScaled(recipe, entity, fuel) && entity.power == 0.0 ==> EffectiveEnergy(entity).fuelConsumptionLimit.Limited?) &&
    (EffectiveEnergy(entity).drain > 0.0 ==> ResolvedEnergyPerUnit(entity, fuel) != 0.0)
  }

  predicate ModulesApply(entity: Entity) {
    entity.allowsEffects && entity.allowedModuleCategories != []
  }

  function BaseProductivity(entity: Entity): real {
    if entity.baseEffect.Some? then entity.baseEffect.value.productivity else 0.0
  }

  /** One technology's share: its per-level change times its level, or nothing when it has no level. */
  function TechnologyShare(tech: (TechnologyId, real), levels: map<TechnologyId, int>): real {
    if tech.0 in levels then tech.1 * levels[tech.0] as real else 0.0
  }

  /** The productivity research gives a recipe: the shares of its technologies. */
  function TechnologyProductivity(techs: seq<(TechnologyId, real)>, levels: map<TechnologyId, int>): real
    decreases |techs|
  {
    if techs == [] then 0.0
    else TechnologyProductivity(techs[..|techs| - 1], levels) + TechnologyShare(techs[|techs| - 1], levels)
  }

  /** The one settings-driven productivity source that applies: mining, research, or technology levels. */
  function SettingsProductivity(recipe: RecipeOrTechnology, settings: Settings): real {
    if recipe.usesMiningProductivity then settings.miningProductivity
    else if recipe.kind.Technology? then settings.researchProductivity
    else TechnologyProductivity(recipe.kind.technologyProductivity, settings.productivityTechnologyLevels)
  }

  function ReactorBonus(entity: Entity, settings: Settings): real {
    if entity.kind.Reactor? && entity.kind.reactorNeighborBonus > 0.0
    then entity.kind.reactorNeighborBonus * settings.reactorBonusMultiplier
    else 0.0
  }

  // ---------------------------------------------------------------------------
  // Lemmas about the specification functions
  // ---------------------------------------------------------------------------

  /** A heat-consuming machine never credits heat above its working maximum. */
  lemma FluidHeatEnergyCapped(energy: EntityEnergy, fuel: Fuel)
    requires energy.kind == FluidHeat && fuel.fluid.Some?
    requires fuel.fluid.value.heatCapacity >= 0.0
    ensures EnergyPerUnitOfFuel(energy, fuel) <=
            (energy.workingTemperature.max - energy.workingTemperature.min) as real * fuel.fluid.value.heatCapacity
    ensures fuel.fluid.value.temperature > energy.workingTemperature.max ==>
            EnergyPerUnitOfFuel(energy, fuel) ==
            (energy.workingTemperature.max - energy.workingTemperature.min) as real * fuel.fluid.value.heatCapacity
  {
    var t := fuel.fluid.value.temperature;
    var w := energy.workingTemperature;
    var h := fuel.fluid.value.heatCapacity;
    assert (MinInt(t, w.max) - w.min) as real <= (w.max - w.min) as real;
    MultiplyMonotone((MinInt(t, w.max) - w.min) as real, (w.max - w.min) as real, h);
  }

  lemma MultiplyMonotone(a: real, b: real, h: real)
    requires a <= b && h >= 0.0
    ensures a * h <= b * h
  {
  }

  /** A hotter fluid never yields less energy per unit, as long as heat capacity is not negative. */
  lemma FluidHeatEnergyMonotone(energy: EntityEnergy, fluid: Fluid, hotter: Fluid, fuelValue: real)
    requires energy.kind == FluidHeat
    requires fluid.heatCapacity == hotter.heatCapacity && fluid.heatCapacity >= 0.0
    requires fluid.temperature <= hotter.temperature
    ensures EnergyPerUnitOfFuel(energy, Fuel(fuelValue, Some(fluid))) <= EnergyPerUnitOfFuel(energy, Fuel(fuelValue, Some(hotter)))
  {
    var w := energy.workingTemperature;
    MultiplyMonotone((MinInt(fluid.temperature, w.max) - w.min) as real,
                     (MinInt(hotter.temperature, w.max) - w.min) as real, fluid.heatCapacity);
  }

  /** A heat-consuming machine without a linked fluid keeps the fuel value; it is not zeroed. */
  lemma UnlinkedFluidKeepsFuelValue(energy: EntityEnergy, fuel: Fuel)
    requires energy.kind == FluidHeat && fuel.fluid.None?
    ensures EnergyPerUnitOfFuel(energy, fuel) == fuel.fuelValue
  {
  }

  lemma {:induction false} TechnologyProductivityAppend(a: seq<(TechnologyId, real)>, b: seq<(TechnologyId, real)>, levels: map<TechnologyId, int>)
    ensures TechnologyProductivity(a + b, levels) == TechnologyProductivity(a, levels) + TechnologyProductivity(b, levels)
    decreases |b|
  {
    if b == [] {
      assert a + b == a;
    } else {
      var b' := b[..|b| - 1];
      assert (a + b)[..|a + b| - 1] == a + b';
      assert (a + b)[|a + b| - 1] == b[|b| - 1];
      TechnologyProductivityAppend(a, b', levels);
    }
  }

  /** Technologies without a level in the settings add nothing, wherever they stand in the list. */
  lemma MissingTechnologyAddsNothing(a: seq<(TechnologyId, real)>, tech: (TechnologyId, real), b: seq<(TechnologyId, real)>, levels: map<TechnologyId, int>)
    requires tech.0 !in levels
    ensures TechnologyProductivity(a + [tech] + b, levels) == TechnologyProductivity(a + b, levels)
  {
    TechnologyProductivityAppend(a + [tech], b, levels);
    TechnologyProductivityAppend(a, [tech], levels);
    TechnologyProductivityAppend(a, b, levels);
    assert [tech][..0] == [];
  }

  // ---------------------------------------------------------------------------
  // The calculation, step by step
  // ---------------------------------------------------------------------------

  /**
   * Lines 65-107: choose the energy source, work out the energy one unit of
   * fuel delivers and the fuel drawn per second, raising the fuel warnings.
   */
  method ResolveFuel(entity: Entity, fuel: Option<Fuel>, flags: Flags)
    returns (energy: EntityEnergy, energyPerUnitOfFuel: real, fuelUsage: real, flags': Flags)
    requires entity.Valid()
    ensures energy == EffectiveEnergy(entity)
    ensures energyPerUnitOfFuel == ResolvedEnergyPerUnit(entity, fuel)
    // Burning fuel: the fuel's energy, after the machine's efficiency, pays for its power.
    ensures FuelPath(entity, fuel) && energyPerUnitOfFuel > 0.0 ==>
              fuelUsage * energyPerUnitOfFuel * energy.effectivity == entity.power
    ensures FuelPath(entity, fuel) && energyPerUnitOfFuel <= 0.0 ==> fuelUsage == 0.0
    // No fuel concept: the draw is the machine's power itself.
    ensures !FuelPath(entity, fuel) ==> fuelUsage == entity.power
    ensures fuelUsage >= 0.0
    ensures flags <= flags'
    ensures flags' - flags <= {FuelNotSpecified, FuelWithTemperatureNotLinked, FuelTemperatureExceedsMaximum, FuelDoesNotProvideEnergy}
    ensures FuelNotSpecified in flags' <==> FuelNotSpecified in flags || !FuelPath(entity, fuel)
    ensures FuelWithTemperatureNotLinked in flags' <==> FuelWithTemperatureNotLinked in flags || TemperatureNotLinked(entity, fuel)
    ensures FuelTemperatureExceedsMaximum in flags' <==> FuelTemperatureExceedsMaximum in flags || TemperatureExceedsMaximum(entity, fuel)
    ensures FuelDoesNotProvideEnergy in flags' <==> FuelDoesNotProvideEnergy in flags || FuelGivesNoEnergy(entity, fuel)
  {
    flags' := flags;
    var energyUsage := entity.power;
    energyPerUnitOfFuel := 0.0;
    if entity.energy.Some? && fuel.Some? {
      energy := entity.energy.value;
      var fluid := fuel.value.fluid;
      energyPerUnitOfFuel := fuel.value.fuelValue;

      if energy.kind == FluidHeat {
        if fluid.None? {
          flags' := Raise(flags', FuelWithTemperatureNotLinked);
        } else {
          var temperature := fluid.value.temperature;
          if temperature > energy.workingTemperature.max {
            temperature := energy.workingTemperature.max;
            flags' := Raise(flags', FuelTemperatureExceedsMaximum);
          }
          var heatCap := fluid.value.heatCapacity;
          energyPerUnitOfFuel := (temperature - energy.workingTemperature.min) as real * heatCap;
        }
      }

      if fluid.Some? && !energy.acceptedTemperature.Contains(fluid.value.temperature) {
        flags' := Raise(flags', FuelDoesNotProvideEnergy);
      }

      if energyPerUnitOfFuel > 0.0 {
        fuelUsage := if energyUsage <= 0.0 then 0.0 else energyUsage / (energyPerUnitOfFuel * energy.effectivity);
      } else {
        fuelUsage := 0.0;
        flags' := Raise(flags', FuelDoesNotProvideEnergy);
      }
    } else {
      fuelUsage := energyUsage;
      flags' := Raise(flags', FuelNotSpecified);
      energy := entity.energy.GetOr(VoidEnergy);
    }
  }

  /**
   * Lines 110-118: a generator-like recipe runs one craft per unit of power,
   * or, for a machine with no rated power, as fast as its fuel intake allows.
   */
  method ScaleWithPower(recipe: RecipeOrTechnology, entity: Entity, fuel: Option<Fuel>, energyPerUnitOfFuel: real,
                        recipeTime: real, fuelUsage: real)
    returns (recipeTime': real, fuelUsage': real)
    requires entity.Valid() && DivisionsDefined(recipe, entity, fuel)
    requires energyPerUnitOfFuel == ResolvedEnergyPerUnit(entity, fuel)
    ensures !PowerScaled(recipe, entity, fuel) ==> recipeTime' == recipeTime && fuelUsage' == fuelUsage
    // With rated power: one craft per unit of power.
    ensures PowerScaled(recipe, entity, fuel) && entity.power != 0.0 ==>
              recipeTime' * entity.power == 1.0 && fuelUsage' == fuelUsage
    // Without: the machine draws its full fuel intake, and one craft uses exactly the energy that intake delivers per second.
    ensures PowerScaled(recipe, entity, fuel) && entity.power == 0.0 ==>
              var energy := entity.energy.value;
              fuelUsage' == energy.fuelConsumptionLimit.rate &&
              recipeTime' * (fuelUsage' * energyPerUnitOfFuel * energy.effectivity) == 1.0
    ensures PowerScaled(recipe, entity, fuel) ==> recipeTime' > 0.0
    ensures fuelUsage >= 0.0 ==> fuelUsage' >= 0.0
  {
    recipeTime', fuelUsage' := recipeTime, fuelUsage;
    // `entity.energy` is dereferenced here unguarded: a positive energy per
    // unit is only ever computed when the machine has an energy source.
    if recipe.scaleProductionWithPower && energyPerUnitOfFuel > 0.0 && entity.energy.value.kind != Void {
      var energyUsage := entity.power;
      var energy := entity.energy.value;
      if energyUsage == 0.0 {
        var limit := energy.fuelConsumptionLimit.rate;
        fuelUsage' := limit;
        var intake := limit * energyPerUnitOfFuel * energy.effectivity;
        assert intake > 0.0 by { PositiveProduct(limit, energyPerUnitOfFuel, energy.effectivity); }
        recipeTime' := 1.0 / intake;
      } else {
        recipeTime' := 1.0 / energyUsage;
      }
    }
  }

  lemma PositiveProduct(a: real, b: real, c: real)
    requires a > 0.0 && b > 0.0 && c > 0.0
    ensures a * b * c > 0.0
  {
    assert a * b > 0.0;
  }

  /** The `foreach` of lines 131-137 over the recipe's productivity technologies. */
  method SumTechnologyProductivity(techs: seq<(TechnologyId, real)>, levels: map<TechnologyId, int>)
    returns (productivity: real)
    ensures productivity == TechnologyProductivity(techs, levels)
  {
    productivity := 0.0;
    for i := 0 to |techs|
      invariant productivity == TechnologyProductivity(techs[..i], levels)
    {
      var (productivityTechnology, changePerLevel) := techs[i];
      assert techs[..i + 1][..i] == techs[..i];
      if productivityTechnology !in levels {
        continue;
      }
      var productivityTechLevel := levels[productivityTechnology];
      productivity := productivity + changePerLevel * productivityTechLevel as real;
    }
    assert techs[..|techs|] == techs;
  }

  /** Lines 120-138: exactly one of mining, research or technology productivity. */
  method AddSettingsProductivity(recipe: RecipeOrTechnology, settings: Settings, productivity: real)
    returns (productivity': real)
    ensures productivity' == productivity + SettingsProductivity(recipe, settings)
  {
    productivity' := productivity;
    var isMining := recipe.usesMiningProductivity;
    if isMining {
      productivity' := productivity' + settings.miningProductivity;
    } else if recipe.kind.Technology? {
      productivity' := productivity' + settings.researchProductivity;
    } else {
      var research := SumTechnologyProductivity(recipe.kind.technologyProductivity, settings.productivityTechnologyLevels);
      productivity' := productivity' + research;
    }
  }

  /**
   * Lines 162-166: a draw above the machine's fuel intake limit is clipped to
   * the limit and the craft time stretched by the same ratio, so the fuel used
   * per craft is unchanged.
   */
  method LimitFuelUsage(recipeTime: real, fuelUsage: real, limit: ConsumptionLimit, flags: Flags)
    returns (recipeTime': real, fuelUsage': real, flags': Flags)
    requires limit.Limited? ==> limit.rate > 0.0
    ensures limit.Limited? ==> fuelUsage' <= limit.rate
    ensures recipeTime' * fuelUsage' == recipeTime * fuelUsage
    ensures limit.ExceededBy(fuelUsage) ==> fuelUsage' == limit.rate && recipeTime' * limit.rate == recipeTime * fuelUsage
    ensures !limit.ExceededBy(fuelUsage) ==> recipeTime' == recipeTime && fuelUsage' == fuelUsage
    ensures recipeTime > 0.0 ==> recipeTime' > 0.0
    ensures fuelUsage >= 0.0 ==> fuelUsage' >= 0.0
    ensures flags' == if limit.ExceededBy(fuelUsage) then Raise(flags, FuelUsageInputLimited) else flags
  {
    recipeTime', fuelUsage', flags' := recipeTime, fuelUsage, flags;
    if limit.Limited? && fuelUsage > limit.rate {
      var ratio := fuelUsage / limit.rate;
      QuotientAboveOne(fuelUsage, limit.rate);
      recipeTime' := recipeTime * ratio;
      fuelUsage' := limit.rate;
      flags' := Raise(flags, FuelUsageInputLimited);
      assert recipeTime' * fuelUsage' == recipeTime * (ratio * limit.rate);
    }
  }

  lemma QuotientSign(a: real, b: real)
    requires b > 0.0
    ensures a > 0.0 ==> a / b > 0.0
    ensures a >= 0.0 ==> a / b >= 0.0
  {
  }

  lemma ProductSign(a: real, b: real)
    requires b > 0.0
    ensures a >= 0.0 ==> a * b >= 0.0
  {
  }

  lemma QuotientAboveOne(a: real, b: real)
    requires a > b > 0.0
    ensures a / b > 1.0 && a / b * b == a
  {
  }

  /**
   * Lines 140-147: a reactor with a neighbour bonus gains the bonus the settings
   * assume, and a solar panel is flagged as assuming Nauvis' solar ratio.
   */
  method ApplyMachineKind(entity: Entity, settings: Settings, productivity: real, flags: Flags)
    returns (productivity': real, flags': Flags)
    ensures productivity' == productivity + ReactorBonus(entity, settings)
    ensures flags <= flags' && flags' - flags <= {ReactorsNeighborsFromPrefs, AssumesNauvisSolarRatio}
    ensures ReactorsNeighborsFromPrefs in flags' <==>
              ReactorsNeighborsFromPrefs in flags || (entity.kind.Reactor? && entity.kind.reactorNeighborBonus > 0.0)
    ensures AssumesNauvisSolarRatio in flags' <==> AssumesNauvisSolarRatio in flags || entity.factorioType == "solar-panel"
  {
    productivity', flags' := productivity, flags;
    if entity.kind.Reactor? && entity.kind.reactorNeighborBonus > 0.0 {
      productivity' := productivity' + entity.kind.reactorNeighborBonus * settings.reactorBonusMultiplier;
      flags' := Raise(flags', ReactorsNeighborsFromPrefs);
    }
    if entity.factorioType == "solar-panel" {
      flags' := Raise(flags', AssumesNauvisSolarRatio);
    }
  }

  /**
   * Lines 149-156: when the machine accepts modules, the collaborator's effects
   * speed up the craft, scale the power draw and add productivity.
   */
  method ApplyModules(entity: Entity, floors: MultiplierFloors, getModulesInfo: (real, real) -> ModulesInfo,
                      recipeTime: real, fuelUsage: real, productivity: real)
    returns (recipeTime': real, fuelUsage': real, productivity': real, activeEffects: ModuleEffects, modules: UsedModule)
    requires floors.Valid()
    ensures !ModulesApply(entity) ==>
              recipeTime' == recipeTime && fuelUsage' == fuelUsage && activeEffects == NoEffects && modules == NoModules
    ensures ModulesApply(entity) ==>
              var info := getModulesInfo(recipeTime, fuelUsage);
              activeEffects == info.effects && modules == info.modules &&
              recipeTime' * SpeedMod(activeEffects, floors) == recipeTime &&
              fuelUsage' == fuelUsage * EnergyUsageMod(activeEffects, floors)
    ensures productivity' == productivity + activeEffects.productivity
    ensures recipeTime > 0.0 ==> recipeTime' > 0.0
    ensures fuelUsage >= 0.0 ==> fuelUsage' >= 0.0
  {
    recipeTime', fuelUsage', productivity' := recipeTime, fuelUsage, productivity;
    activeEffects, modules := NoEffects, NoModules;
    if ModulesApply(entity) {
      var info := getModulesInfo(recipeTime, fuelUsage);
      activeEffects, modules := info.effects, info.modules;
      productivity' := productivity + activeEffects.productivity;
      var speedMod := SpeedMod(activeEffects, floors);
      var energyUsageMod := EnergyUsageMod(activeEffects, floors);
      QuotientSign(recipeTime, speedMod);
      ProductSign(fuelUsage, energyUsageMod);
      recipeTime' := recipeTime / speedMod;
      fuelUsage' := fuelUsage * energyUsageMod;
    }
  }

  /** Lines 158-160: an idle drain adds its own fuel draw on top of the working draw. */
  method AddDrain(energy: EntityEnergy, energyPerUnitOfFuel: real, fuelUsage: real) returns (fuelUsage': real)
    requires energy.drain > 0.0 ==> energyPerUnitOfFuel != 0.0
    ensures energy.drain > 0.0 ==> fuelUsage' * energyPerUnitOfFuel == fuelUsage * energyPerUnitOfFuel + energy.drain
    ensures energy.drain <= 0.0 ==> fuelUsage' == fuelUsage
    ensures fuelUsage >= 0.0 && !(energy.drain > 0.0 && energyPerUnitOfFuel < 0.0) ==> fuelUsage' >= 0.0
  {
    fuelUsage' := fuelUsage;
    if energy.drain > 0.0 {
      if energyPerUnitOfFuel > 0.0 {
        QuotientSign(energy.drain, energyPerUnitOfFuel);
      }
      fuelUsage' := fuelUsage + energy.drain / energyPerUnitOfFuel;
    }
  }

  /** Lines 62-147 of `CalculateParameters`: fuel, power scaling, settings and machine-kind bonuses. */
  method PrepareMachine(recipe: RecipeOrTechnology, e: Entity, fuel: Option<Fuel>, settings: Settings)
    returns (energy: EntityEnergy, energyPerUnitOfFuel: real, recipeTime: real, fuelUsage: real,
             productivity: real, flags: Flags)
    requires e.Valid() && DivisionsDefined(recipe, e, fuel)
    ensures energy == EffectiveEnergy(e) && energyPerUnitOfFuel == ResolvedEnergyPerUnit(e, fuel)
    ensures flags <= CalculationFlags - {EntityNotSpecified, FuelUsageInputLimited}
    ensures FuelNotSpecified in flags <==> !FuelPath(e, fuel)
    ensures FuelWithTemperatureNotLinked in flags <==> TemperatureNotLinked(e, fuel)
    ensures FuelTemperatureExceedsMaximum in flags <==> TemperatureExceedsMaximum(e, fuel)
    ensures FuelDoesNotProvideEnergy in flags <==> FuelGivesNoEnergy(e, fuel)
    ensures ReactorsNeighborsFromPrefs in flags <==> e.kind.Reactor? && e.kind.reactorNeighborBonus > 0.0
    ensures AssumesNauvisSolarRatio in flags <==> e.factorioType == "solar-panel"
    ensures productivity == BaseProductivity(e) + SettingsProductivity(recipe, settings) + ReactorBonus(e, settings)
    ensures recipe.time > 0.0 ==> recipeTime > 0.0
    ensures fuelUsage >= 0.0
  {
    recipeTime := recipe.time / e.craftingSpeed;
    QuotientSign(recipe.time, e.craftingSpeed);
    productivity := BaseProductivity(e);
    energy, energyPerUnitOfFuel, fuelUsage, flags := ResolveFuel(e, fuel, {});
    assert flags <= {FuelNotSpecified, FuelWithTemperatureNotLinked, FuelTemperatureExceedsMaximum, FuelDoesNotProvideEnergy};

    recipeTime, fuelUsage := ScaleWithPower(recipe, e, fuel, energyPerUnitOfFuel, recipeTime, fuelUsage);

    productivity := AddSettingsProductivity(recipe, settings, productivity);

    ghost var fuelFlags := flags;
    productivity, flags := ApplyMachineKind(e, settings, productivity, flags);
    assert flags <= fuelFlags + {ReactorsNeighborsFromPrefs, AssumesNauvisSolarRatio};
    assert forall f :: f !in {ReactorsNeighborsFromPrefs, AssumesNauvisSolarRatio} ==> (f in flags <==> f in fuelFlags);
  }

  /** Lines 62-167 of `CalculateParameters`: the machine is known. */
  method CalculateForMachine(recipe: RecipeOrTechnology, e: Entity, fuel: Option<Fuel>,
                             settings: Settings, floors: MultiplierFloors,
                             getModulesInfo: (real, real) -> ModulesInfo)
    returns (r: RecipeParameters)
    requires floors.Valid()
    requires e.Valid() && DivisionsDefined(recipe, e, fuel)
    ensures r.warningFlags <= CalculationFlags
    ensures EntityNotSpecified !in r.warningFlags
    ensures FuelNotSpecified in r.warningFlags <==> !FuelPath(e, fuel)
    ensures FuelWithTemperatureNotLinked in r.warningFlags <==> TemperatureNotLinked(e, fuel)
    ensures FuelTemperatureExceedsMaximum in r.warningFlags <==> TemperatureExceedsMaximum(e, fuel)
    ensures FuelDoesNotProvideEnergy in r.warningFlags <==> FuelGivesNoEnergy(e, fuel)
    ensures ReactorsNeighborsFromPrefs in r.warningFlags <==> e.kind.Reactor? && e.kind.reactorNeighborBonus > 0.0
    ensures AssumesNauvisSolarRatio in r.warningFlags <==> e.factorioType == "solar-panel"
    // The fuel draw never exceeds the intake limit, and sits at it when it was clipped.
    ensures EffectiveEnergy(e).fuelConsumptionLimit.Limited? ==>
              r.fuelUsagePerSecondPerBuilding <= EffectiveEnergy(e).fuelConsumptionLimit.rate
    ensures FuelUsageInputLimited in r.warningFlags ==>
              EffectiveEnergy(e).fuelConsumptionLimit.Limited? &&
              r.fuelUsagePerSecondPerBuilding == EffectiveEnergy(e).fuelConsumptionLimit.rate
    // Productivity: the machine's own bonus, one settings-driven source, the reactor bonus and the modules.
    ensures r.productivity == BaseProductivity(e) + SettingsProductivity(recipe, settings)
                              + ReactorBonus(e, settings) + r.activeEffects.productivity
    ensures !ModulesApply(e) ==> r.activeEffects == NoEffects && r.modules == NoModules
    // A positive craft time stays positive; the fuel draw is negative only when
    // a drain is divided by a negative energy per unit.
    ensures recipe.time > 0.0 ==> r.recipeTime > 0.0
    ensures !(EffectiveEnergy(e).drain > 0.0 && ResolvedEnergyPerUnit(e, fuel) < 0.0) ==>
              r.fuelUsagePerSecondPerBuilding >= 0.0
  {
    var energy, energyPerUnitOfFuel, recipeTime, fuelUsagePerSecondPerBuilding, productivity, warningFlags :=
      PrepareMachine(recipe, e, fuel, settings);

    var activeEffects, modules;
    recipeTime, fuelUsagePerSecondPerBuilding, productivity, activeEffects, modules :=
      ApplyModules(e, floors, getModulesInfo, recipeTime, fuelUsagePerSecondPerBuilding, productivity);

    fuelUsagePerSecondPerBuilding := AddDrain(energy, energyPerUnitOfFuel, fuelUsagePerSecondPerBuilding);

    ghost var beforeLimit := warningFlags;
    recipeTime, fuelUsagePerSecondPerBuilding, warningFlags :=
      LimitFuelUsage(recipeTime, fuelUsagePerSecondPerBuilding, energy.fuelConsumptionLimit, warningFlags);
    assert warningFlags - {FuelUsageInputLimited} == beforeLimit - {FuelUsageInputLimited};

    r := RecipeParameters(recipeTime, fuelUsagePerSecondPerBuilding, productivity, warningFlags, activeEffects, modules);
  }

  /** `RecipeParameters.CalculateParameters(row)`: a node without a machine gets a fixed fallback. */
  method CalculateParameters(recipe: RecipeOrTechnology, entity: Option<Entity>, fuel: Option<Fuel>,
                             settings: Settings, floors: MultiplierFloors,
                             getModulesInfo: (real, real) -> ModulesInfo)
    returns (r: RecipeParameters)
    requires floors.Valid()
    requires entity.Some? ==> entity.value.Valid() && DivisionsDefined(recipe, entity.value, fuel)
    ensures entity.None? ==>
              r == RecipeParameters(recipe.time, 0.0, 0.0, {EntityNotSpecified}, NoEffects, NoModules)
    ensures OnlyCalculationFlags(r.warningFlags)
    ensures entity.Some? ==> EntityNotSpecified !in r.warningFlags
    // With a machine, everything `CalculateForMachine` promises.
    ensures entity.Some? ==> (FuelNotSpecified in r.warningFlags <==> !FuelPath(entity.value, fuel))
    ensures entity.Some? ==> (FuelWithTemperatureNotLinked in r.warningFlags <==> TemperatureNotLinked(entity.value, fuel))
    ensures entity.Some? ==> (FuelTemperatureExceedsMaximum in r.warningFlags <==> TemperatureExceedsMaximum(entity.value, fuel))
    ensures entity.Some? ==> (FuelDoesNotProvideEnergy in r.warningFlags <==> FuelGivesNoEnergy(entity.value, fuel))
    ensures entity.Some? ==> (ReactorsNeighborsFromPrefs in r.warningFlags <==>
                                entity.value.kind.Reactor? && entity.value.kind.reactorNeighborBonus > 0.0)
    ensures entity.Some? ==> (AssumesNauvisSolarRatio in r.warningFlags <==> entity.value.factorioType == "solar-panel")
    ensures entity.Some? && EffectiveEnergy(entity.value).fuelConsumptionLimit.Limited? ==>
              r.fuelUsagePerSecondPerBuilding <= EffectiveEnergy(entity.value).fuelConsumptionLimit.rate
    ensures entity.Some? && FuelUsageInputLimited in r.warningFlags ==>
              EffectiveEnergy(entity.value).fuelConsumptionLimit.Limited? &&
              r.fuelUsagePerSecondPerBuilding == EffectiveEnergy(entity.value).fuelConsumptionLimit.rate
    ensures entity.Some? ==>
              r.productivity == BaseProductivity(entity.value) + SettingsProductivity(recipe, settings)
                                + ReactorBonus(entity.value, settings) + r.activeEffects.productivity
    ensures entity.Some? && !ModulesApply(entity.value) ==> r.activeEffects == NoEffects && r.modules == NoModules
    ensures recipe.time > 0.0 ==> r.recipeTime > 0.0
    ensures entity.Some? && !(EffectiveEnergy(entity.value).drain > 0.0 && ResolvedEnergyPerUnit(entity.value, fuel) < 0.0) ==>
              r.fuelUsagePerSecondPerBuilding >= 0.0
  {
    if entity.None? {
      r := RecipeParameters(recipe.time, 0.0, 0.0, Raise({}, EntityNotSpecified), NoEffects, NoModules);
    } else {
      r := CalculateForMachine(recipe, entity.value, fuel, settings, floors, getModulesInfo);
    }
    CalculationFlagsOnly(r.warningFlags);
  }
}
