/**
 * The counting behind the module customization screen: internal modules take
 * a machine's module slots greedily, beacon modules act through a beacon count
 * derived from the number of beacon modules, and the machine's own base effect
 * is added on top.
 *
 * One call of `DrawRecipeModules` is one frame of the screen. The amount typed
 * into at most one entry during that frame is an input (`Edit`); the modules'
 * own effect sets, the beacon efficiency and the beacon profile are parameters.
 */
module ModuleCustomization {
  import opened Wrappers
  import opened Effects

  /** `int.MaxValue`: a fixed count of zero or less means "no limit". */
  const IntMaxValue: int := 0x7fff_ffff

  type ModuleId = string

  /** One `(module, fixedCount)` entry of a template list. */
  datatype Entry = Entry(moduleId: ModuleId, fixedCount: int)

  /** An amount typed into entry `index` during the frame. */
  datatype Edit = Edit(index: nat, value: real)

  /** The beacon the beacon list is drawn for: its slot count and efficiency. */
  datatype Beacon = Beacon(moduleSlots: int, efficiency: real)

  predicate AllNonNegative(list: seq<Entry>) {
    forall i :: 0 <= i < |list| ==> list[i].fixedCount >= 0
  }

  /** C#'s `/` on `int`: the quotient truncated toward zero. */
  function TruncDiv(a: int, b: int): int
    requires b > 0
  {
    if a >= 0 then a / b else -((-a) / b)
  }

  /** Lines 234-235: a typed amount is stored, truncated, only when it is not negative. */
  function ApplyEdit(list: seq<Entry>, edit: Option<Edit>): (r: seq<Entry>)
    ensures |r| == |list|
    ensures edit.Some? && edit.value.index < |list| && edit.value.value >= 0.0 ==>
              r[edit.value.index].fixedCount == edit.value.value.Floor
    ensures !(edit.Some? && edit.value.index < |list| && edit.value.value >= 0.0) ==> r == list
  {
    if edit.Some? && edit.value.index < |list| && edit.value.value >= 0.0 then
      list[edit.value.index := Entry(list[edit.value.index].moduleId, edit.value.value.Floor)]
    else
      list
  }

  /**
   * An edit keeps every module and every other entry, and never stores a
   * negative count: fixed counts stay zero or more.
   */
  lemma ApplyEditKeepsEntries(list: seq<Entry>, edit: Option<Edit>)
    ensures forall i :: 0 <= i < |list| ==> ApplyEdit(list, edit)[i].moduleId == list[i].moduleId
    ensures forall i :: 0 <= i < |list| && (edit.None? || edit.value.index != i) ==> ApplyEdit(list, edit)[i] == list[i]
    ensures AllNonNegative(list) ==> AllNonNegative(ApplyEdit(list, edit))
  {
  }

  // ---------------------------------------------------------------------------
  // Internal modules: the greedy slot budget
  // ---------------------------------------------------------------------------

  /** Lines 240-244: the slots one entry takes from what is left. */
  function SlotsTaken(remaining: int, fixedCount: int): (c: int)
    ensures c >= 0
  {
    var count := MinInt(remaining, if fixedCount > 0 then fixedCount else IntMaxValue);
    if count > 0 then count else 0
  }

  /** The slots left after the entries of `list` have taken theirs. */
  function RemainingAfter(slots: int, list: seq<Entry>): int
    decreases |list|
  {
    if list == [] then slots
    else
      var r := RemainingAfter(slots, list[..|list| - 1]);
      r - SlotsTaken(r, list[|list| - 1].fixedCount)
  }

  /** The number of modules each entry contributes. */
  function Allocation(slots: int, list: seq<Entry>): (counts: seq<int>)
    ensures |counts| == |list|
    decreases |list|
  {
    if list == [] then []
    else
      var init := list[..|list| - 1];
      Allocation(slots, init) + [SlotsTaken(RemainingAfter(slots, init), list[|list| - 1].fixedCount)]
  }

  /** The `AddModules` calls the internal list makes: one per entry that takes a slot. */
  function InternalContributions(slots: int, list: seq<Entry>, moduleEffect: ModuleId -> ModuleEffects): seq<Contribution>
    decreases |list|
  {
    if list == [] then []
    else
      var init := list[..|list| - 1];
      var count := SlotsTaken(RemainingAfter(slots, init), list[|list| - 1].fixedCount);
      InternalContributions(slots, init, moduleEffect) +
        (if count > 0 then [Contribution(moduleEffect(list[|list| - 1].moduleId), count as real)] else [])
  }

  /** The contributions of the entries whose count is positive, in list order. */
  function Granted(list: seq<Entry>, counts: seq<int>, moduleEffect: ModuleId -> ModuleEffects): seq<Contribution>
    requires |counts| == |list|
    decreases |list|
  {
    if list == [] then []
    else
      var n := |list| - 1;
      Granted(list[..n], counts[..n], moduleEffect) +
        (if counts[n] > 0 then [Contribution(moduleEffect(list[n].moduleId), counts[n] as real)] else [])
  }

  /** The number of modules a sequence of contributions adds. */
  function ModuleCount(cs: seq<Contribution>): real
    decreases |cs|
  {
    if cs == [] then 0.0 else ModuleCount(cs[..|cs| - 1]) + cs[|cs| - 1].count
  }

  lemma ModuleCountSnoc(cs: seq<Contribution>, tail: seq<Contribution>)
    requires |tail| <= 1
    ensures ModuleCount(cs + tail) == ModuleCount(cs) + (if tail == [] then 0.0 else tail[0].count)
  {
    if tail == [] {
      assert cs + tail == cs;
    } else {
      assert (cs + tail)[..|cs|] == cs;
    }
  }

  /**
   * The internal list adds exactly the allocation: one contribution per entry
   * granted a positive count, of that many modules, so the modules added are
   * the allocation's total.
   */
  lemma {:induction false} InternalContributionsAreAllocation(slots: int, list: seq<Entry>,
                                                              moduleEffect: ModuleId -> ModuleEffects)
    ensures InternalContributions(slots, list, moduleEffect) == Granted(list, Allocation(slots, list), moduleEffect)
    ensures ModuleCount(InternalContributions(slots, list, moduleEffect)) == Sum(Allocation(slots, list)) as real
    decreases |list|
  {
    if list != [] {
      var n := |list| - 1;
      var init := list[..n];
      InternalContributionsAreAllocation(slots, init, moduleEffect);
      var counts := Allocation(slots, list);
      assert counts[..n] == Allocation(slots, init);
      var count := counts[n];
      var tail := if count > 0 then [Contribution(moduleEffect(list[n].moduleId), count as real)] else [];
      assert InternalContributions(slots, list, moduleEffect) == InternalContributions(slots, init, moduleEffect) + tail;
      ModuleCountSnoc(InternalContributions(slots, init, moduleEffect), tail);
    }
  }

  /** The internal list never adds more modules than the machine has slots. */
  lemma InternalModulesWithinSlots(slots: int, list: seq<Entry>, moduleEffect: ModuleId -> ModuleEffects)
    requires slots >= 0
    ensures ModuleCount(InternalContributions(slots, list, moduleEffect)) == (slots - RemainingAfter(slots, list)) as real
    ensures 0.0 <= ModuleCount(InternalContributions(slots, list, moduleEffect)) <= slots as real
  {
    InternalContributionsAreAllocation(slots, list, moduleEffect);
    AllocationWithinSlots(slots, list);
  }

  function Sum(counts: seq<int>): int
    decreases |counts|
  {
    if counts == [] then 0 else Sum(counts[..|counts| - 1]) + counts[|counts| - 1]
  }

  /** The budget is never overdrawn: what the entries take plus what is left is the slot count. */
  lemma {:induction false} AllocationWithinSlots(slots: int, list: seq<Entry>)
    requires slots >= 0
    ensures 0 <= RemainingAfter(slots, list) <= slots
    ensures Sum(Allocation(slots, list)) + RemainingAfter(slots, list) == slots
    ensures forall i :: 0 <= i < |list| ==> Allocation(slots, list)[i] >= 0
    decreases |list|
  {
    if list != [] {
      var init := list[..|list| - 1];
      AllocationWithinSlots(slots, init);
      var counts := Allocation(slots, list);
      assert counts[..|counts| - 1] == Allocation(slots, init);
    }
  }

  /** The count at position `k` is the entry's take from what the entries before it left. */
  lemma {:induction false} AllocationAt(slots: int, list: seq<Entry>, k: nat)
    requires k < |list|
    ensures Allocation(slots, list)[k] == SlotsTaken(RemainingAfter(slots, list[..k]), list[k].fixedCount)
    decreases |list|
  {
    var init := list[..|list| - 1];
    if k < |init| {
      AllocationAt(slots, init, k);
      assert init[..k] == list[..k];
    } else {
      assert init == list[..k];
    }
  }

  /** An entry whose fixed count is zero takes every slot still left. */
  lemma FillTakesRest(slots: int, list: seq<Entry>, k: nat)
    requires 0 <= slots <= IntMaxValue && k < |list| && list[k].fixedCount <= 0
    ensures Allocation(slots, list)[k] == RemainingAfter(slots, list[..k])
    ensures RemainingAfter(slots, list[..k + 1]) == 0
  {
    AllocationAt(slots, list, k);
    AllocationWithinSlots(slots, list[..k]);
    assert list[..k + 1][..k] == list[..k];
  }

  /** Once the slots run out, every later entry takes nothing and adds no module. */
  lemma {:induction false} ExhaustedAddsNothing(slots: int, a: seq<Entry>, b: seq<Entry>, moduleEffect: ModuleId -> ModuleEffects)
    requires RemainingAfter(slots, a) == 0
    ensures RemainingAfter(slots, a + b) == 0
    ensures forall i :: |a| <= i < |a + b| ==> Allocation(slots, a + b)[i] == 0
    ensures InternalContributions(slots, a + b, moduleEffect) == InternalContributions(slots, a, moduleEffect)
    decreases |b|
  {
    if b == [] {
      assert a + b == a;
    } else {
      var b' := b[..|b| - 1];
      assert (a + b)[..|a + b| - 1] == a + b';
      ExhaustedAddsNothing(slots, a, b', moduleEffect);
    }
  }

  /** With no machine bound the budget is zero: no internal entry adds a module. */
  lemma NoSlotsAddNothing(list: seq<Entry>, moduleEffect: ModuleId -> ModuleEffects)
    ensures RemainingAfter(0, list) == 0
    ensures InternalContributions(0, list, moduleEffect) == []
  {
    assert [] + list == list;
    ExhaustedAddsNothing(0, [], list, moduleEffect);
  }

  /** Positive fixed counts that fit the slots are all granted in full. */
  lemma {:induction false} FixedCountsWithinSlotsAreGranted(slots: int, list: seq<Entry>)
    requires forall i :: 0 <= i < |list| ==> 0 < list[i].fixedCount
    requires Sum(FixedCounts(list)) <= slots
    ensures forall i :: 0 <= i < |list| ==> Allocation(slots, list)[i] == list[i].fixedCount
    ensures RemainingAfter(slots, list) == slots - Sum(FixedCounts(list))
    decreases |list|
  {
    if list != [] {
      var init := list[..|list| - 1];
      assert FixedCounts(list)[..|list| - 1] == FixedCounts(init);
      SumNonNegative(FixedCounts(init));
      FixedCountsWithinSlotsAreGranted(slots, init);
      assert Allocation(slots, list)[..|init|] == Allocation(slots, init);
    }
  }

  function FixedCounts(list: seq<Entry>): (r: seq<int>)
    ensures |r| == |list| && forall i :: 0 <= i < |list| ==> r[i] == list[i].fixedCount
  {
    seq(|list|, i requires 0 <= i < |list| => list[i].fixedCount)
  }

  lemma {:induction false} SumNonNegative(counts: seq<int>)
    requires forall i :: 0 <= i < |counts| ==> counts[i] >= 0
    ensures Sum(counts) >= 0
    decreases |counts|
  {
    if counts != [] {
      SumNonNegative(counts[..|counts| - 1]);
    }
  }

  // ---------------------------------------------------------------------------
  // Beacon modules
  // ---------------------------------------------------------------------------

  /** Line 247: `(Σ fixedCount - 1) / moduleSlots + 1` with truncating division. */
  function BeaconCount(totalModules: int, moduleSlots: int): int
    requires moduleSlots > 0
  {
    TruncDiv(totalModules - 1, moduleSlots) + 1
  }

  /**
   * For at least one module the beacon count is the fewest beacons that hold
   * them all; for none it is one beacon, or zero when a beacon has one slot.
   */
  lemma BeaconCountIsCeiling(totalModules: int, moduleSlots: int)
    requires moduleSlots > 0 && totalModules >= 0
    ensures totalModules >= 1 ==>
              (BeaconCount(totalModules, moduleSlots) - 1) * moduleSlots < totalModules <=
              BeaconCount(totalModules, moduleSlots) * moduleSlots
    ensures totalModules == 0 ==> BeaconCount(totalModules, moduleSlots) == if moduleSlots > 1 then 1 else 0
  {
    if totalModules >= 1 {
      var q := (totalModules - 1) / moduleSlots;
      var r := (totalModules - 1) % moduleSlots;
      assert totalModules - 1 == q * moduleSlots + r && 0 <= r < moduleSlots;
      assert BeaconCount(totalModules, moduleSlots) == q + 1;
      assert (q + 1) * moduleSlots == q * moduleSlots + moduleSlots;
    } else if moduleSlots > 1 {
      assert 1 / moduleSlots == 0;
    }
  }

  /** The list once the first `n` entries have been drawn: an edit takes effect in its own iteration. */
  function EditedBefore(list: seq<Entry>, edit: Option<Edit>, n: nat): seq<Entry> {
    if edit.Some? && edit.value.index < n then ApplyEdit(list, edit) else list
  }

  /**
   * The `AddModules` calls of the first `n` beacon entries. The amount an entry
   * contributes uses its count before this frame's edit, while the beacon count
   * sums the list as it stands at that point of the frame.
   */
  function BeaconContributions(list: seq<Entry>, edit: Option<Edit>, n: nat, beacon: Beacon, profile: int -> real,
                               moduleEffect: ModuleId -> ModuleEffects): seq<Contribution>
    requires n <= |list| && beacon.moduleSlots > 0
  {
    if n == 0 then []
    else
      BeaconContributions(list, edit, n - 1, beacon, profile, moduleEffect) +
        [BeaconContribution(list[n - 1], beacon, profile(BeaconCountAt(list, edit, n, beacon.moduleSlots)), moduleEffect)]
  }

  /** The beacon count while entry `n - 1` is drawn: of the list with the edits made so far. */
  function BeaconCountAt(list: seq<Entry>, edit: Option<Edit>, n: nat, moduleSlots: int): int
    requires moduleSlots > 0
  {
    BeaconCount(Sum(FixedCounts(EditedBefore(list, edit, n))), moduleSlots)
  }

  /** Line 248: the modules that act, an entry's fixed count scaled by the beacon's efficiency and its profile. */
  function BeaconAmount(fixedCount: int, efficiency: real, profileAtCount: real): real {
    fixedCount as real * efficiency * profileAtCount
  }

  function BeaconContribution(entry: Entry, beacon: Beacon, profileAtCount: real, moduleEffect: ModuleId -> ModuleEffects): Contribution {
    Contribution(moduleEffect(entry.moduleId), BeaconAmount(entry.fixedCount, beacon.efficiency, profileAtCount))
  }

  /** Without an edit in the frame, every beacon entry acts through the same beacon count. */
  lemma {:induction false} UneditedBeaconsShareCount(list: seq<Entry>, n: nat, beacon: Beacon, profile: int -> real,
                                                     moduleEffect: ModuleId -> ModuleEffects)
    requires n <= |list| && beacon.moduleSlots > 0
    ensures var cs := BeaconContributions(list, None, n, beacon, profile, moduleEffect);
            var count := BeaconCount(Sum(FixedCounts(list)), beacon.moduleSlots);
            |cs| == n &&
            forall i :: 0 <= i < n ==> cs[i] == BeaconContribution(list[i], beacon, profile(count), moduleEffect)
    decreases n
  {
    if n > 0 {
      UneditedBeaconsShareCount(list, n - 1, beacon, profile, moduleEffect);
      var count := BeaconCount(Sum(FixedCounts(list)), beacon.moduleSlots);
      var prefix := BeaconContributions(list, None, n - 1, beacon, profile, moduleEffect);
      var last := BeaconContribution(list[n - 1], beacon, profile(count), moduleEffect);
      assert BeaconCountAt(list, None, n, beacon.moduleSlots) == count;
      assert BeaconContributions(list, None, n, beacon, profile, moduleEffect) == prefix + [last];
    }
  }

  // ---------------------------------------------------------------------------
  // The template being edited and one frame of the list
  // ---------------------------------------------------------------------------

  /** `ModuleTemplateBuilder`: the internal and beacon module lists under edit. */
  class ModuleTemplateBuilder {
    var list: seq<Entry>
    var beaconList: seq<Entry>

    /** Every fixed count is zero or more. */
    predicate Valid()
      reads this
    {
      AllNonNegative(list) && AllNonNegative(beaconList)
    }

    constructor()
      ensures list == [] && beaconList == [] && Valid()
    {
      list := [];
      beaconList := [];
    }

    /** Lines 254-256: a module picked with the add button joins the list with count zero. */
    method AddModule(moduleId: ModuleId, toBeacons: bool)
      requires Valid()
      modifies this
      ensures Valid()
      ensures !toBeacons ==> list == old(list) + [Entry(moduleId, 0)] && beaconList == old(beaconList)
      ensures toBeacons ==> beaconList == old(beaconList) + [Entry(moduleId, 0)] && list == old(list)
    {
      if toBeacons {
        beaconList := beaconList + [Entry(moduleId, 0)];
      } else {
        list := list + [Entry(moduleId, 0)];
      }
    }
  }

  /**
   * `DrawRecipeModules` (lines 208-250): walks the internal list (no beacon) or
   * the beacon list, applies this frame's edit and adds each entry's modules to
   * `effects`. `moduleSlots` is the bound machine's slot count, or zero when no
   * recipe or no machine is bound. The per-entry test on the beacon does not
   * change during the walk, so each branch is its own loop here.
   */
  method DrawRecipeModules(modules: ModuleTemplateBuilder, moduleSlots: int, beacon: Option<Beacon>,
                           edit: Option<Edit>, profile: int -> real, moduleEffect: ModuleId -> ModuleEffects,
                           effects: ModuleEffects)
    returns (effects': ModuleEffects)
    requires modules.Valid() && moduleSlots >= 0
    requires beacon.Some? ==> beacon.value.moduleSlots > 0
    modifies modules
    ensures modules.Valid()
    ensures beacon.None? ==>
              modules.list == ApplyEdit(old(modules.list), edit) && modules.beaconList == old(modules.beaconList) &&
              effects' == Accumulate(effects, InternalContributions(moduleSlots, old(modules.list), moduleEffect))
    ensures beacon.Some? ==>
              modules.beaconList == ApplyEdit(old(modules.beaconList), edit) && modules.list == old(modules.list) &&
              effects' == Accumulate(effects, BeaconContributions(old(modules.beaconList), edit, |old(modules.beaconList)|,
                                                                  beacon.value, profile, moduleEffect))
  {
    ApplyEditKeepsEntries(modules.list, edit);
    ApplyEditKeepsEntries(modules.beaconList, edit);
    if beacon.None? {
      effects' := DrawInternalModules(modules, moduleSlots, edit, moduleEffect, effects);
    } else {
      effects' := DrawBeaconModules(modules, beacon.value, edit, profile, moduleEffect, effects);
    }
  }

  /** Lines 234-235 at entry `i`: the entry as stored after this frame's edit. */
  method EditEntry(list: seq<Entry>, i: nat, edit: Option<Edit>) returns (list': seq<Entry>)
    requires i < |list|
    ensures list' == if edit.Some? && edit.value.index == i then ApplyEdit(list, edit) else list
  {
    list' := list;
    if edit.Some? && edit.value.index == i && edit.value.value >= 0.0 {
      list' := list[i := Entry(list[i].moduleId, edit.value.value.Floor)];
    }
  }

  /** The internal list: each entry takes its slots from what is left, lines 239-245. */
  method DrawInternalModules(modules: ModuleTemplateBuilder, moduleSlots: int, edit: Option<Edit>,
                             moduleEffect: ModuleId -> ModuleEffects, effects: ModuleEffects)
    returns (effects': ModuleEffects)
    requires modules.Valid() && moduleSlots >= 0
    modifies modules
    ensures modules.Valid()
    ensures modules.list == ApplyEdit(old(modules.list), edit) && modules.beaconList == old(modules.beaconList)
    ensures effects' == Accumulate(effects, InternalContributions(moduleSlots, old(modules.list), moduleEffect))
  {
    var remainingModules := moduleSlots;
    var original := modules.list;
    effects' := effects;
    ghost var applied: seq<Contribution> := [];
    for i := 0 to |original|
      invariant modules.list == EditedBefore(original, edit, i)
      invariant modules.beaconList == old(modules.beaconList)
      invariant remainingModules == RemainingAfter(moduleSlots, original[..i])
      invariant applied == InternalContributions(moduleSlots, original[..i], moduleEffect)
      invariant effects' == Accumulate(effects, applied)
    {
      assert modules.list[i] == original[i];
      ghost var added;
      remainingModules, effects', added := DrawInternalEntry(modules, i, edit, remainingModules, moduleEffect, effects');
      assert modules.list == EditedBefore(original, edit, i + 1);
      assert original[..i + 1][..i] == original[..i];
      AccumulateAppend(effects, applied, added);
      applied := applied + added;
    }
    assert original[..|original|] == original;
    ApplyEditKeepsEntries(original, edit);
  }

  /** One entry of the internal list: its edit, then the slots it takes from what is left. */
  method DrawInternalEntry(modules: ModuleTemplateBuilder, i: nat, edit: Option<Edit>, remainingModules: int,
                           moduleEffect: ModuleId -> ModuleEffects, effects: ModuleEffects)
    returns (remainingModules': int, effects': ModuleEffects, ghost added: seq<Contribution>)
    requires i < |modules.list|
    modifies modules
    ensures modules.beaconList == old(modules.beaconList)
    ensures modules.list == if edit.Some? && edit.value.index == i then ApplyEdit(old(modules.list), edit)
                            else old(modules.list)
    ensures var entry := old(modules.list)[i];
            var count := SlotsTaken(remainingModules, entry.fixedCount);
            remainingModules' == remainingModules - count &&
            added == if count > 0 then [Contribution(moduleEffect(entry.moduleId), count as real)] else []
    ensures effects' == Accumulate(effects, added)
  {
    remainingModules', effects' := remainingModules, effects;
    var Entry(moduleId, fixedCount) := modules.list[i];
    modules.list := EditEntry(modules.list, i, edit);
    var count := MinInt(remainingModules, if fixedCount > 0 then fixedCount else IntMaxValue);
    added := [];
    if count > 0 {
      effects' := AddModules(effects, moduleEffect(moduleId), count as real);
      added := [Contribution(moduleEffect(moduleId), count as real)];
      remainingModules' := remainingModules - count;
      assert added[1..] == [];
    }
  }

  /** The beacon list: every entry acts through the beacon count of the list as it stands, lines 246-249. */
  method DrawBeaconModules(modules: ModuleTemplateBuilder, beacon: Beacon, edit: Option<Edit>, profile: int -> real,
                           moduleEffect: ModuleId -> ModuleEffects, effects: ModuleEffects)
    returns (effects': ModuleEffects)
    requires modules.Valid() && beacon.moduleSlots > 0
    modifies modules
    ensures modules.Valid()
    ensures modules.beaconList == ApplyEdit(old(modules.beaconList), edit) && modules.list == old(modules.list)
    ensures effects' == Accumulate(effects, BeaconContributions(old(modules.beaconList), edit, |old(modules.beaconList)|,
                                                                beacon, profile, moduleEffect))
  {
    var original := modules.beaconList;
    ghost var internal := modules.list;
    effects' := effects;
    ghost var applied: seq<Contribution> := [];
    for i := 0 to |original|
      invariant modules.beaconList == EditedBefore(original, edit, i)
      invariant modules.list == internal
      invariant applied == BeaconContributions(original, edit, i, beacon, profile, moduleEffect)
      invariant effects' == Accumulate(effects, applied)
    {
      effects', applied := DrawBeaconEntry(modules, beacon, original, i, edit, profile, moduleEffect, effects, applied, effects');
    }
    ApplyEditKeepsEntries(original, edit);
  }

  /**
   * One entry of the beacon list: its edit, then its modules through the
   * current beacon count, extending the contributions made so far.
   */
  method DrawBeaconEntry(modules: ModuleTemplateBuilder, beacon: Beacon, ghost original: seq<Entry>, i: nat,
                         edit: Option<Edit>, profile: int -> real, moduleEffect: ModuleId -> ModuleEffects,
                         ghost start: ModuleEffects, ghost applied: seq<Contribution>, effects: ModuleEffects)
    returns (effects': ModuleEffects, ghost applied': seq<Contribution>)
    requires i < |original| && beacon.moduleSlots > 0
    requires modules.beaconList == EditedBefore(original, edit, i)
    requires applied == BeaconContributions(original, edit, i, beacon, profile, moduleEffect)
    requires effects == Accumulate(start, applied)
    modifies modules
    ensures modules.list == old(modules.list)
    ensures modules.beaconList == EditedBefore(original, edit, i + 1)
    ensures applied' == BeaconContributions(original, edit, i + 1, beacon, profile, moduleEffect)
    ensures effects' == Accumulate(start, applied')
  {
    var Entry(moduleId, fixedCount) := modules.beaconList[i];
    assert modules.beaconList[i] == original[i];
    modules.beaconList := EditEntry(modules.beaconList, i, edit);
    assert modules.beaconList == EditedBefore(original, edit, i + 1);
    var total := SumFixedCounts(modules.beaconList);
    var beaconCount := BeaconCount(total, beacon.moduleSlots);
    var amount := BeaconAmount(fixedCount, beacon.efficiency, profile(beaconCount));
    effects' := AddModules(effects, moduleEffect(moduleId), amount);
    ghost var added := Contribution(moduleEffect(moduleId), amount);
    assert added == BeaconContribution(original[i], beacon, profile(BeaconCountAt(original, edit, i + 1, beacon.moduleSlots)),
                                       moduleEffect);
    AccumulateSnoc(start, applied, added);
    applied' := applied + [added];
  }

  /** `beaconList.Sum(x => x.fixedCount)` */
  method SumFixedCounts(list: seq<Entry>) returns (total: int)
    ensures total == Sum(FixedCounts(list))
  {
    total := 0;
    for i := 0 to |list|
      invariant total == Sum(FixedCounts(list[..i]))
    {
      assert FixedCounts(list[..i + 1])[..i] == FixedCounts(list[..i]);
      total := total + list[i].fixedCount;
    }
    assert list[..|list|] == list;
  }

  // ---------------------------------------------------------------------------
  // The machine's base effect
  // ---------------------------------------------------------------------------

  /** Lines 125-129: the base effect's productivity, speed and consumption; not its quality. */
  function AddBaseEffect(effects: ModuleEffects, baseEffect: Option<ModuleEffects>): (r: ModuleEffects)
    ensures baseEffect.None? ==> r == effects
    ensures baseEffect.Some? ==>
              r == Plus(effects, ModuleEffects(baseEffect.value.productivity, baseEffect.value.speed,
                                               baseEffect.value.consumption, 0.0))
  {
    match baseEffect
    case None => effects
    case Some(b) =>
      effects.(productivity := effects.productivity + b.productivity,
               speed := effects.speed + b.speed,
               consumption := effects.consumption + b.consumption)
  }

  /** Adding the base effect last is the same as starting from it: modules and base effect commute. */
  lemma BaseEffectCommutes(effects: ModuleEffects, cs: seq<Contribution>, baseEffect: Option<ModuleEffects>)
    ensures AddBaseEffect(Accumulate(effects, cs), baseEffect) == Accumulate(AddBaseEffect(effects, baseEffect), cs)
  {
    AccumulateIsPlusTotal(effects, cs);
    AccumulateIsPlusTotal(AddBaseEffect(effects, baseEffect), cs);
  }
}
