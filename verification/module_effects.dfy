/**
 * Module and beacon effect sets. Contributions are additive per component;
 * the speed and energy-usage multipliers are `1 + sum`, floored by a game
 * balance constant. That constant is not part of this model: it comes in as
 * a `MultiplierFloors` value whose components are positive.
 */
module Effects {

  datatype ModuleEffects = ModuleEffects(productivity: real, speed: real, consumption: real, quality: real)

  /** `default(ModuleEffects)` and `new ModuleEffects()`: no effect at all. */
  const NoEffects := ModuleEffects(0.0, 0.0, 0.0, 0.0)

  datatype MultiplierFloors = MultiplierFloors(speed: real, energyUsage: real) {
    predicate Valid() {
      speed > 0.0 && energyUsage > 0.0
    }
  }

  function Max(a: real, b: real): real {
    if a >= b then a else b
  }

  function MinInt(a: int, b: int): int {
    if a <= b then a else b
  }

  /** `speedMod`: the factor crafting speed is multiplied by; never zero or negative. */
  function SpeedMod(e: ModuleEffects, floors: MultiplierFloors): (m: real)
    requires floors.Valid()
    ensures m > 0.0 && m >= 1.0 + e.speed && m >= floors.speed
    ensures m == 1.0 + e.speed || m == floors.speed
  {
    Max(1.0 + e.speed, floors.speed)
  }

  /** `energyUsageMod`: the factor energy draw is multiplied by; never zero or negative. */
  function EnergyUsageMod(e: ModuleEffects, floors: MultiplierFloors): (m: real)
    requires floors.Valid()
    ensures m > 0.0 && m >= 1.0 + e.consumption && m >= floors.energyUsage
    ensures m == 1.0 + e.consumption || m == floors.energyUsage
  {
    Max(1.0 + e.consumption, floors.energyUsage)
  }

  function Plus(a: ModuleEffects, b: ModuleEffects): ModuleEffects {
    ModuleEffects(a.productivity + b.productivity, a.speed + b.speed,
                  a.consumption + b.consumption, a.quality + b.quality)
  }

  function Scale(e: ModuleEffects, count: real): ModuleEffects {
    ModuleEffects(e.productivity * count, e.speed * count, e.consumption * count, e.quality * count)
  }

  /** `effects.AddModules(module, count)`: adds `count` times the module's own effect set. */
  function AddModules(effects: ModuleEffects, moduleEffect: ModuleEffects, count: real): ModuleEffects {
    Plus(effects, Scale(moduleEffect, count))
  }

  /** One module kind and the (possibly fractional) number of copies that act. */
  datatype Contribution = Contribution(moduleEffect: ModuleEffects, count: real)

  /** Adding a sequence of contributions one after the other. */
  function Accumulate(effects: ModuleEffects, cs: seq<Contribution>): ModuleEffects
    decreases |cs|
  {
    if cs == [] then effects
    else Accumulate(AddModules(effects, cs[0].moduleEffect, cs[0].count), cs[1..])
  }

  /** The sum of all contributions, independent of a starting value. */
  function Total(cs: seq<Contribution>): ModuleEffects
    decreases |cs|
  {
    if cs == [] then NoEffects
    else Plus(Scale(cs[0].moduleEffect, cs[0].count), Total(cs[1..]))
  }

  /** Accumulating is adding the total: the result does not depend on how the additions are grouped. */
  lemma {:induction false} AccumulateIsPlusTotal(effects: ModuleEffects, cs: seq<Contribution>)
    ensures Accumulate(effects, cs) == Plus(effects, Total(cs))
    decreases |cs|
  {
    if cs != [] {
      AccumulateIsPlusTotal(AddModules(effects, cs[0].moduleEffect, cs[0].count), cs[1..]);
    }
  }

  lemma {:induction false} TotalAppend(a: seq<Contribution>, b: seq<Contribution>)
    ensures Total(a + b) == Plus(Total(a), Total(b))
    decreases |a|
  {
    if a == [] {
      assert a + b == b;
    } else {
      assert (a + b)[1..] == a[1..] + b;
      TotalAppend(a[1..], b);
    }
  }

  /** Accumulating `a` and then `b` equals accumulating `a + b` in one pass. */
  lemma AccumulateAppend(effects: ModuleEffects, a: seq<Contribution>, b: seq<Contribution>)
    ensures Accumulate(Accumulate(effects, a), b) == Accumulate(effects, a + b)
  {
    AccumulateIsPlusTotal(effects, a);
    AccumulateIsPlusTotal(Accumulate(effects, a), b);
    AccumulateIsPlusTotal(effects, a + b);
    TotalAppend(a, b);
  }

  /** Accumulating one more contribution is one more `AddModules` call. */
  lemma AccumulateSnoc(effects: ModuleEffects, cs: seq<Contribution>, c: Contribution)
    ensures Accumulate(effects, cs + [c]) == AddModules(Accumulate(effects, cs), c.moduleEffect, c.count)
  {
    AccumulateAppend(effects, cs, [c]);
    assert [c][1..] == [];
  }

  /** The order in which two contributions are added does not matter. */
  lemma AccumulateSwap(effects: ModuleEffects, a: seq<Contribution>, b: seq<Contribution>)
    ensures Accumulate(effects, a + b) == Accumulate(effects, b + a)
  {
    AccumulateIsPlusTotal(effects, a + b);
    AccumulateIsPlusTotal(effects, b + a);
    TotalAppend(a, b);
    TotalAppend(b, a);
  }
}
