/**
 * The booking-draft flow of the app: the state the provider and the add-ons
 * page hold (the draft, the ledger of bookings and the add-on selection) and
 * the handlers that replace it step by step.
 */
module Flow {
  import opened Types
  import opened Lists
  import opened Catalog
  import opened Selection
  import opened BookingIds

  /** The two bookings the ledger starts with. */
  const InitialBookings: seq<Booking> := [
    Booking("BK-101", "h1", "Maruti Suzuki Swift", Completed, "2023-12-01", 3600, None, None),
    Booking("BK-102", "s1", "Tata Nexon EV", Ongoing, "2024-05-20", 7500, None, None)
  ]

  /** The draft `handleBookNow` installs for a car of the catalog: that car, at its daily rate. */
  function StartedDraft(car: Car): (d: Draft)
    ensures d.carId == Some(car.id) && d.carName == Some(car.name)
    ensures d.totalPrice == Some(car.pricePerDay)
  {
    Draft(Some(car.id), Some(car.name), Some(car.pricePerDay))
  }

  /** The updater `prev => ({ ...prev, totalPrice: basePrice + addOnsTotal })` of `handleNext`. */
  function CommittedDraft(prev: Draft, addOns: seq<AddOn>, selected: seq<Id>): (d: Draft)
    ensures d.carId == prev.carId && d.carName == prev.carName
    ensures d.totalPrice == Some(OrZero(prev.totalPrice) + SumPrices(addOns, selected))
  {
    prev.(totalPrice := Some(OrZero(prev.totalPrice) + AddOnsTotal(addOns, selected)))
  }

  /**
   * The booking `handlePay` builds from the draft, a draw `n` and today's date:
   * an upcoming booking of the draft's car at the draft's total, with the
   * source's fallbacks for a missing or empty car and a missing total.
   */
  function NewBooking(draft: Draft, n: nat, date: string): (b: Booking)
    ensures b.status == Upcoming && b.date == date
    ensures b.totalPrice == (if draft.totalPrice.Some? then draft.totalPrice.value else 0)
    ensures b.carId == (if draft.carId.Some? && draft.carId.value != "" then draft.carId.value else "s1")
    ensures b.carName == (if draft.carName.Some? && draft.carName.value != "" then draft.carName.value else "Vehicle")
    ensures b.id == BookingId(n) && b.imageBefore.None? && b.imageAfter.None?
  {
    Booking(
      BookingId(n),
      StringOr(draft.carId, "s1"),
      StringOr(draft.carName, "Vehicle"),
      Upcoming,
      date,
      OrZero(draft.totalPrice),
      None,
      None)
  }

  /** For a draw in the random range, the new booking's id is `BK-` and the four digits of the draw. */
  lemma NewBookingId(draft: Draft, n: nat, date: string)
    requires 1000 <= n <= 9999
    ensures var id := NewBooking(draft, n, date).id;
      |id| == 7 && id[..3] == "BK-" && AllDigits(id[3..]) && ParseDecimal(id[3..]) == n
  {
    BookingIdShape(n);
  }

  /** A fresh booking never reuses the identifier of a booking the ledger starts with. */
  lemma NewBookingIdNotInitial(draft: Draft, n: nat, date: string)
    requires 1000 <= n <= 9999
    ensures forall i :: 0 <= i < |InitialBookings| ==> InitialBookings[i].id != NewBooking(draft, n, date).id
  {
    BookingIdShape(n);
  }

  /**
   * Along the intended path (book a catalog car, commit one selection) the
   * payment page shows the car's rate and the add-on total on its two lines, and
   * the booking records their sum.
   */
  lemma BookedTotal(cars: seq<Car>, addOns: seq<AddOn>, id: Id, selected: seq<Id>, n: nat, date: string)
    requires FindCar(cars, id).Some?
    ensures var car := FindCar(cars, id).value;
      var d := CommittedDraft(StartedDraft(car), addOns, selected);
      && PaymentBreakdown(cars, d) == Breakdown(car.pricePerDay, AddOnsTotal(addOns, selected))
      && NewBooking(d, n, date).totalPrice == car.pricePerDay + AddOnsTotal(addOns, selected)
  {
  }

  /** `handleNext` is not idempotent: committing the same selection twice adds it twice. */
  lemma CommitTwiceAddsTwice(prev: Draft, addOns: seq<AddOn>, selected: seq<Id>)
    ensures CommittedDraft(CommittedDraft(prev, addOns, selected), addOns, selected).totalPrice
      == Some(OrZero(prev.totalPrice) + 2 * AddOnsTotal(addOns, selected))
  {
  }

  class BookingFlow {
    const cars: seq<Car>
    const addOns: seq<AddOn>
    /** `currentBooking` of the provider. */
    var currentBooking: Draft
    /** `bookings` of the provider, newest first. */
    var bookings: seq<Booking>
    /** `selected` of the add-ons page. */
    var selected: seq<Id>

    /**
     * The add-on selection has no repeated id, and a draft that names a car names
     * one of the catalog, with its catalog name and a total.
     */
    ghost predicate Valid()
      reads this
    {
      && NoDuplicates(selected)
      && (currentBooking.carId.Some? <==> currentBooking.carName.Some?)
      && (currentBooking.carId.Some? ==>
            && currentBooking.totalPrice.Some?
            && FindCar(cars, currentBooking.carId.value).Some?
            && FindCar(cars, currentBooking.carId.value).value.name == currentBooking.carName.value)
    }

    /** The provider's initial state, over the given catalogs. */
    constructor (cars: seq<Car>, addOns: seq<AddOn>)
      ensures Valid()
      ensures this.cars == cars && this.addOns == addOns
      ensures currentBooking == EmptyDraft && bookings == InitialBookings && selected == []
    {
      this.cars := cars;
      this.addOns := addOns;
      currentBooking := EmptyDraft;
      bookings := InitialBookings;
      selected := [];
    }

    /**
     * `handleBookNow`: for a car of the catalog the draft becomes exactly that
     * car's id, name and daily rate, whatever it held before. For an unknown id
     * the page has no button, so nothing changes.
     */
    method BookNow(id: Id)
      requires Valid()
      modifies this
      ensures Valid()
      ensures FindCar(cars, id).Some? ==> currentBooking == StartedDraft(FindCar(cars, id).value)
      ensures FindCar(cars, id).None? ==> currentBooking == old(currentBooking)
      ensures bookings == old(bookings) && selected == old(selected)
    {
      var car := FindCar(cars, id);
      if car.Some? {
        currentBooking := StartedDraft(car.value);
      }
    }

    /**
     * The two priced lines of the payment page for the current draft. When the
     * draft names a car, the invariant makes the base line that car's catalog
     * rate and the add-ons line the rest of the draft total; the name shown is
     * the catalog name of that car.
     */
    method PaymentLines() returns (lines: Breakdown)
      requires Valid()
      ensures lines == PaymentBreakdown(cars, currentBooking)
      ensures currentBooking.carId.Some? ==>
        var car := FindCar(cars, currentBooking.carId.value).value;
        && lines.baseRental == car.pricePerDay
        && lines.addOns == currentBooking.totalPrice.value - car.pricePerDay
        && currentBooking.carName == Some(car.name)
      ensures currentBooking.carId.None? ==> lines == Breakdown(0, OrZero(currentBooking.totalPrice))
    {
      lines := PaymentBreakdown(cars, currentBooking);
    }

    /** Mounting the add-ons page: `useState<string[]>([])` starts an empty selection. */
    method OpenAddOns()
      requires Valid()
      modifies this
      ensures Valid()
      ensures selected == []
      ensures currentBooking == old(currentBooking) && bookings == old(bookings)
    {
      selected := [];
    }

    /** `toggle`: select an unselected add-on, unselect a selected one. */
    method Toggle(id: Id)
      requires Valid()
      modifies this
      ensures Valid()
      ensures selected == ToggleId(old(selected), id)
      ensures AddOnsTotal(addOns, selected) ==
        if id in old(selected) then AddOnsTotal(addOns, old(selected)) - PriceOf(addOns, id)
        else AddOnsTotal(addOns, old(selected)) + PriceOf(addOns, id)
      ensures currentBooking == old(currentBooking) && bookings == old(bookings)
    {
      ToggleKeepsNoDuplicates(selected, id);
      TotalAfterToggle(addOns, selected, id);
      if id in selected {
        NoDuplicatesCountsOne(selected, id);
      }
      selected := ToggleId(selected, id);
    }

    /**
     * `handleNext`: the draft's total becomes its old total (0 if missing) plus
     * the add-on total of the selection; the car is kept.
     */
    method Next()
      requires Valid()
      modifies this
      ensures Valid()
      ensures currentBooking == CommittedDraft(old(currentBooking), addOns, selected)
      ensures currentBooking.carId == old(currentBooking.carId) && currentBooking.carName == old(currentBooking.carName)
      ensures currentBooking.totalPrice == Some(OrZero(old(currentBooking.totalPrice)) + SumPrices(addOns, selected))
      ensures bookings == old(bookings) && selected == old(selected)
    {
      currentBooking := CommittedDraft(currentBooking, addOns, selected);
    }

    /**
     * `handlePay` once its timer fires: the booking built from the draft is put in
     * front of the ledger; the draft and the selection stay as they were.
     */
    method Pay(n: nat, date: string)
      requires Valid()
      requires 1000 <= n <= 9999
      modifies this
      ensures Valid()
      ensures bookings == [NewBooking(old(currentBooking), n, date)] + old(bookings)
      ensures |bookings| == |old(bookings)| + 1 && bookings[1..] == old(bookings)
      ensures bookings[0].status == Upcoming && bookings[0].totalPrice == OrZero(currentBooking.totalPrice)
      ensures currentBooking == old(currentBooking) && selected == old(selected)
    {
      var newBooking := NewBooking(currentBooking, n, date);
      bookings := [newBooking] + bookings;
    }
  }

  /**
   * A walk through the flow with a one-car fleet and two add-ons: a rate of 2500
   * with add-ons of 100 and 150 books at 2750; reopening the add-ons page and
   * committing the same two add-ons again raises the draft to 3000.
   */
  method ExampleBooking() {
    var nexon := Car("s1", "Tata Nexon EV", "SUV", 2500, Available, "", 5, Automatic, Electric, "Hub", 4.8);
    var gps := AddOn("gps", "GPS", 100, "");
    var seat := AddOn("childseat", "Child seat", 150, "");
    var flow := new BookingFlow([nexon], [gps, seat]);
    flow.BookNow("s1");
    assert flow.currentBooking == Draft(Some("s1"), Some("Tata Nexon EV"), Some(2500));
    flow.OpenAddOns();
    flow.Toggle("gps");
    flow.Toggle("childseat");
    assert flow.selected == ["gps", "childseat"];
    assert PriceOf([gps, seat], "gps") == 100 && PriceOf([gps, seat], "childseat") == 150 by {
      assert [gps, seat][0] == gps && [gps, seat][1] == seat;
    }
    assert SumPrices([gps, seat], ["childseat"]) == 150;
    flow.Next();
    assert flow.currentBooking.totalPrice == Some(2750);
    flow.Pay(4821, "2024-06-01");
    assert |flow.bookings| == 3 && flow.bookings[1..] == InitialBookings;
    assert flow.bookings[0].totalPrice == 2750 && flow.bookings[0].carId == "s1";
    flow.OpenAddOns();
    flow.Toggle("gps");
    flow.Toggle("childseat");
    flow.Next();
    assert flow.currentBooking.totalPrice == Some(3000);
  }
}
