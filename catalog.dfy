/**
 * Read-only computations over the fleet and add-on catalogs (`CARS`, `ADD_ONS`),
 * which are passed in as parameters: car lookup, the add-on total the add-ons
 * page shows, the fleet filter of the listing page and the payment breakdown.
 */
module Catalog {
  import opened Types
  import opened Lists

  /** `CARS.find(c => c.id === id)` */
  function FindCar(cars: seq<Car>, id: Id): (r: Option<Car>)
    ensures r.None? <==> forall i :: 0 <= i < |cars| ==> cars[i].id != id
    ensures r.Some? ==> r.value.id == id && r.value in cars
  {
    Find(cars, (c: Car) => c.id == id)
  }

  /** Among several cars with the same id, the first one is found. */
  lemma FindCarIsFirst(cars: seq<Car>, id: Id, k: nat)
    requires k < |cars| && cars[k].id == id
    requires forall j :: 0 <= j < k ==> cars[j].id != id
    ensures FindCar(cars, id) == Some(cars[k])
  {
    FindIsFirst(cars, (c: Car) => c.id == id, k);
  }

  /** `ADD_ONS.find(a => a.id === id)` */
  function FindAddOn(addOns: seq<AddOn>, id: Id): (r: Option<AddOn>)
    ensures r.None? <==> forall i :: 0 <= i < |addOns| ==> addOns[i].id != id
    ensures r.Some? ==> r.value.id == id && r.value in addOns
  {
    Find(addOns, (a: AddOn) => a.id == id)
  }

  /** `item?.price || 0`: the price of the add-on found, 0 when there is none. */
  function PriceOf(addOns: seq<AddOn>, id: Id): (p: int)
    ensures (forall i :: 0 <= i < |addOns| ==> addOns[i].id != id) ==> p == 0
    ensures (exists i :: 0 <= i < |addOns| && addOns[i].id == id) ==>
      exists a :: a in addOns && a.id == id && p == a.price
  {
    match FindAddOn(addOns, id)
    case Some(a) => a.price
    case None => 0
  }

  /** The price charged for an id is that of the first add-on carrying it. */
  lemma PriceOfFirst(addOns: seq<AddOn>, id: Id, k: nat)
    requires k < |addOns| && addOns[k].id == id
    requires forall j :: 0 <= j < k ==> addOns[j].id != id
    ensures PriceOf(addOns, id) == addOns[k].price
  {
    FindIsFirst(addOns, (a: AddOn) => a.id == id, k);
  }

  /** The reference sum: the price of every selected id, unknown ids counting 0. */
  function SumPrices(addOns: seq<AddOn>, ids: seq<Id>): (t: int) {
    if ids == [] then 0 else PriceOf(addOns, ids[0]) + SumPrices(addOns, ids[1..])
  }

  /** `ids.reduce((a, id) => a + price(id), acc)`: a left fold over the selection. */
  function ReducePrices(addOns: seq<AddOn>, ids: seq<Id>, acc: int): (t: int) {
    if ids == [] then acc else ReducePrices(addOns, ids[1..], acc + PriceOf(addOns, ids[0]))
  }

  lemma {:induction false} ReduceIsSum(addOns: seq<AddOn>, ids: seq<Id>, acc: int)
    ensures ReducePrices(addOns, ids, acc) == acc + SumPrices(addOns, ids)
    decreases |ids|
  {
    if ids != [] {
      ReduceIsSum(addOns, ids[1..], acc + PriceOf(addOns, ids[0]));
    }
  }

  /** `addOnsTotal` of the add-ons page: the reduce starting from 0. */
  function AddOnsTotal(addOns: seq<AddOn>, selected: seq<Id>): (t: int)
    ensures t == SumPrices(addOns, selected)
  {
    ReduceIsSum(addOns, selected, 0);
    ReducePrices(addOns, selected, 0)
  }

  lemma {:induction false} SumAppend(addOns: seq<AddOn>, a: seq<Id>, b: seq<Id>)
    ensures SumPrices(addOns, a + b) == SumPrices(addOns, a) + SumPrices(addOns, b)
    decreases |a|
  {
    if a == [] {
      assert a + b == b;
    } else {
      assert (a + b)[1..] == a[1..] + b;
      SumAppend(addOns, a[1..], b);
    }
  }

  /** Ids that match no add-on contribute nothing to the total. */
  lemma {:induction false} SumOfUnknownIds(addOns: seq<AddOn>, ids: seq<Id>)
    requires forall i, k :: 0 <= i < |ids| && 0 <= k < |addOns| ==> addOns[k].id != ids[i]
    ensures SumPrices(addOns, ids) == 0
    decreases |ids|
  {
    if ids != [] {
      SumOfUnknownIds(addOns, ids[1..]);
    }
  }

  /**
   * `filter === 'All' ? CARS : CARS.filter(c => c.type === filter)`: the whole
   * fleet for 'All', otherwise exactly the cars of that type in fleet order.
   */
  function FilterCars(cars: seq<Car>, filter: string): (r: seq<Car>)
    ensures filter == "All" ==> r == cars
    ensures filter != "All" ==> forall c :: c in r <==> c in cars && c.carType == filter
    ensures filter != "All" ==> forall c :: multiset(r)[c] == if c.carType == filter then multiset(cars)[c] else 0
    ensures IsSubsequence(r, cars)
  {
    if filter == "All" then
      SubsequenceOfItself(cars);
      cars
    else
      var p := (c: Car) => c.carType == filter;
      FilterIsSubsequence(cars, p);
      assert forall c :: multiset(Filter(cars, p))[c] == if p(c) then multiset(cars)[c] else 0 by {
        forall c {
          FilterCounts(cars, p, c);
        }
      }
      Filter(cars, p)
  }

  /** The two priced lines of the payment page. */
  datatype Breakdown = Breakdown(baseRental: int, addOns: int)

  /**
   * Base line: the catalog price of the draft's car, 0 when the draft has no car
   * or the id is unknown. Add-ons line: the draft total (0 if missing) minus it.
   */
  function PaymentBreakdown(cars: seq<Car>, draft: Draft): (r: Breakdown)
    ensures r.baseRental + r.addOns == OrZero(draft.totalPrice)
    ensures draft.carId.Some? && FindCar(cars, draft.carId.value).Some? ==>
      r.baseRental == FindCar(cars, draft.carId.value).value.pricePerDay
    ensures draft.carId.None? || FindCar(cars, draft.carId.value).None? ==>
      r.baseRental == 0 && r.addOns == OrZero(draft.totalPrice)
  {
    var base :=
      if draft.carId.Some? then
        match FindCar(cars, draft.carId.value)
        case Some(car) => car.pricePerDay
        case None => 0
      else 0;
    Breakdown(base, OrZero(draft.totalPrice) - base)
  }
}
