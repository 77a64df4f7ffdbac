/**
 * The summary page's list of missing goods: for every good whose demand is
 * not covered by what the page provides, its deficit, highest first.
 */
module Summary {
  import opened Sorting

  /** The per-good totals the summary page is handed. */
  datatype GoodInfo = GoodInfo(totalProvided: real, totalNeeded: real, extraProduced: real, sum: real)

  /** A positive net flow counts as available, together with any extra production. */
  function Available(g: GoodInfo): real {
    (if g.totalProvided > 0.0 then g.totalProvided else 0.0) + g.extraProduced
  }

  /** A negative net flow counts as needed, together with the explicit demand. */
  function Needed(g: GoodInfo): real {
    (if g.totalProvided < 0.0 then -g.totalProvided else 0.0) + g.totalNeeded
  }

  predicate IsMissing(g: GoodInfo) {
    Needed(g) > Available(g) && Needed(g) > 0.0
  }

  function Deficit(g: GoodInfo): real {
    Needed(g) - Available(g)
  }

  /** The entry the list holds for a good, if any. */
  predicate IsMissingEntry(allGoods: map<string, GoodInfo>, e: (string, real)) {
    e.0 in allGoods && IsMissing(allGoods[e.0]) && e.1 == Deficit(allGoods[e.0])
  }

  /** However the net flow splits, the deficit is demand minus net flow minus extra production. */
  lemma DeficitClosedForm(g: GoodInfo)
    ensures Deficit(g) == g.totalNeeded - g.totalProvided - g.extraProduced
  {
  }

  /** A missing good has a positive deficit. */
  lemma MissingDeficitPositive(g: GoodInfo)
    ensures IsMissing(g) ==> Deficit(g) > 0.0
    ensures IsMissing(g) <==> Deficit(g) > 0.0 && Needed(g) > 0.0
  {
  }

  /** When extra production is not negative, the second test never excludes a good the first admits. */
  lemma NeededPositiveIsImplied(g: GoodInfo)
    requires g.extraProduced >= 0.0
    ensures IsMissing(g) <==> Deficit(g) > 0.0
  {
  }

  /** Every entry of a list of missing goods has a positive deficit. */
  lemma MissingEntriesPositive(allGoods: map<string, GoodInfo>, list: seq<(string, real)>)
    requires forall e :: e in list ==> IsMissingEntry(allGoods, e)
    ensures forall i :: 0 <= i < |list| ==> list[i].1 > 0.0
  {
    forall i | 0 <= i < |list|
      ensures list[i].1 > 0.0
    {
      assert IsMissingEntry(allGoods, list[i]);
      MissingDeficitPositive(allGoods[list[i].0]);
    }
  }

  class Summary {
    var missingItems: seq<(string, real)>

    constructor()
      ensures missingItems == []
    {
      missingItems := [];
    }

    /** `Summary.UpdateMissingItems`: rebuilds the list from `allGoods` alone. */
    method UpdateMissingItems(allGoods: map<string, GoodInfo>)
      modifies this
      ensures forall e :: e in missingItems <==> IsMissingEntry(allGoods, e)
      ensures KeysDistinct(missingItems)
      ensures SortedDescending(missingItems)
      ensures forall i :: 0 <= i < |missingItems| ==> missingItems[i].1 > 0.0
    {
      missingItems := [];
      var remaining := allGoods.Keys;
      while remaining != {}
        invariant remaining <= allGoods.Keys
        invariant forall e :: e in missingItems <==> e.0 !in remaining && IsMissingEntry(allGoods, e)
        invariant forall i :: 0 <= i < |missingItems| ==> missingItems[i].0 !in remaining
        invariant KeysDistinct(missingItems)
        decreases |remaining|
      {
        var goodsName :| goodsName in remaining;
        var info := allGoods[goodsName];
        var amountAvailable := (if info.totalProvided > 0.0 then info.totalProvided else 0.0) + info.extraProduced;
        var amountNeeded := (if info.totalProvided < 0.0 then -info.totalProvided else 0.0) + info.totalNeeded;
        assert amountAvailable == Available(info) && amountNeeded == Needed(info);
        if amountNeeded > amountAvailable && amountNeeded > 0.0 {
          missingItems := missingItems + [(goodsName, amountNeeded - amountAvailable)];
        }
        remaining := remaining - {goodsName};
      }
      var unsorted := missingItems;
      missingItems := SortDescending(missingItems);
      PermutationKeepsEntries(unsorted, missingItems);
      MissingEntriesPositive(allGoods, missingItems);
    }
  }
}
