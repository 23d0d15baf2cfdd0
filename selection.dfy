/** The add-on selection of the add-ons page: `toggle` and what it does to the total. */
module Selection {
  import opened Types
  import opened Lists
  import opened Catalog

  /** `prev.filter(i => i !== id)` */
  function RemoveAll(s: seq<Id>, id: Id): (r: seq<Id>)
    ensures forall x :: x in r <==> x in s && x != id
  {
    Filter(s, (i: Id) => i != id)
  }

  /** Removing an id keeps every other id as often as before, and in order. */
  lemma RemoveAllKeepsOthers(s: seq<Id>, id: Id)
    ensures forall x :: multiset(RemoveAll(s, id))[x] == if x == id then 0 else multiset(s)[x]
    ensures IsSubsequence(RemoveAll(s, id), s)
  {
    forall x {
      FilterCounts(s, (i: Id) => i != id, x);
    }
    FilterIsSubsequence(s, (i: Id) => i != id);
  }

  /**
   * `prev.includes(id) ? prev.filter(i => i !== id) : [...prev, id]`: the toggled
   * id's membership flips and no other id's does; an unselected id goes to the end.
   */
  function ToggleId(prev: seq<Id>, id: Id): (r: seq<Id>)
    ensures forall x :: x in r <==> (x in prev <==> x != id)
    ensures id in prev ==> r == RemoveAll(prev, id)
    ensures id !in prev ==> r == prev + [id]
  {
    if id in prev then RemoveAll(prev, id) else prev + [id]
  }

  lemma ToggleKeepsNoDuplicates(s: seq<Id>, id: Id)
    requires NoDuplicates(s)
    ensures NoDuplicates(ToggleId(s, id))
  {
    if id in s {
      FilterNoDuplicates(s, (i: Id) => i != id);
    } else {
      ConsNoDuplicatesAtEnd(s, id);
    }
  }

  lemma ConsNoDuplicatesAtEnd(s: seq<Id>, id: Id)
    requires NoDuplicates(s) && id !in s
    ensures NoDuplicates(s + [id])
  {
  }

  /** Toggling an unselected id twice gives back the selection exactly. */
  lemma ToggleTwiceRestores(s: seq<Id>, id: Id)
    requires id !in s
    ensures ToggleId(ToggleId(s, id), id) == s
  {
    FilterAppend(s, [id], (i: Id) => i != id);
    FilterKeepsAll(s, (i: Id) => i != id);
  }

  /** Toggling a selected id twice moves it to the end, once, after the other ids. */
  lemma ToggleTwiceMovesToEnd(s: seq<Id>, id: Id)
    requires id in s
    ensures ToggleId(ToggleId(s, id), id) == RemoveAll(s, id) + [id]
  {
  }

  lemma RemoveAllCons(x: Id, rest: seq<Id>, id: Id)
    ensures RemoveAll([x] + rest, id) == if x == id then RemoveAll(rest, id) else [x] + RemoveAll(rest, id)
  {
    assert ([x] + rest)[1..] == rest;
  }

  lemma SumCons(addOns: seq<AddOn>, x: Id, rest: seq<Id>)
    ensures SumPrices(addOns, [x] + rest) == PriceOf(addOns, x) + SumPrices(addOns, rest)
  {
    assert ([x] + rest)[1..] == rest;
  }

  /** Removing every occurrence of `id` takes away its price once per occurrence. */
  lemma {:induction false} SumWithout(addOns: seq<AddOn>, ids: seq<Id>, id: Id)
    ensures SumPrices(addOns, ids) == SumPrices(addOns, RemoveAll(ids, id)) + multiset(ids)[id] * PriceOf(addOns, id)
    decreases |ids|
  {
    if ids != [] {
      var x, rest := ids[0], ids[1..];
      var p := PriceOf(addOns, id);
      var t := RemoveAll(rest, id);
      SumWithout(addOns, rest, id);
      RemoveAllCons(x, rest, id);
      SumCons(addOns, x, rest);
      assert ids == [x] + rest;
      var c := multiset(rest)[id];
      var k := multiset(ids)[id];
      assert k == if x == id then c + 1 else c;
      if x == id {
        OneMoreOccurrence(c, p);
      } else {
        SumCons(addOns, x, t);
      }
    }
  }

  lemma OneMoreOccurrence(c: int, p: int)
    ensures (c + 1) * p == c * p + p
  {
  }

  /**
   * The running total after a toggle: adding an id adds its price; removing it
   * subtracts its price once per occurrence it had.
   */
  lemma TotalAfterToggle(addOns: seq<AddOn>, s: seq<Id>, id: Id)
    ensures AddOnsTotal(addOns, ToggleId(s, id)) ==
      if id in s then AddOnsTotal(addOns, s) - multiset(s)[id] * PriceOf(addOns, id)
      else AddOnsTotal(addOns, s) + PriceOf(addOns, id)
  {
    if id in s {
      SumWithout(addOns, s, id);
    } else {
      SumAppend(addOns, s, [id]);
    }
  }

  /** On a duplicate-free selection a double toggle leaves the total where it was. */
  lemma ToggleTwiceKeepsTotal(addOns: seq<AddOn>, s: seq<Id>, id: Id)
    requires NoDuplicates(s)
    ensures AddOnsTotal(addOns, ToggleId(ToggleId(s, id), id)) == AddOnsTotal(addOns, s)
  {
    if id in s {
      NoDuplicatesCountsOne(s, id);
      TotalAfterToggle(addOns, s, id);
      TotalAfterToggle(addOns, ToggleId(s, id), id);
    } else {
      ToggleTwiceRestores(s, id);
    }
  }
}
