/** The record shapes of the rental front end (types.ts) as Dafny values. */
module Types {

  datatype Option<+T> = None | Some(value: T)

  /** Identifiers of cars, add-ons and bookings are plain strings. */
  type Id = string

  datatype Availability = Available | Rented | Maintenance

  datatype Transmission = Automatic | Manual

  datatype Fuel = Petrol | Diesel | Electric

  /** A vehicle of the fleet. The TypeScript field `type` is called `carType` here. */
  datatype Car = Car(
    id: Id,
    name: string,
    carType: string,
    pricePerDay: int,
    availability: Availability,
    image: string,
    seats: int,
    transmission: Transmission,
    fuel: Fuel,
    owner: string,
    rating: real)

  datatype AddOn = AddOn(id: Id, name: string, price: int, icon: string)

  datatype BookingStatus = Ongoing | Completed | Upcoming

  /** A committed booking; the two image fields are optional in the source. */
  datatype Booking = Booking(
    id: Id,
    carId: Id,
    carName: string,
    status: BookingStatus,
    date: string,
    totalPrice: int,
    imageBefore: Option<string>,
    imageAfter: Option<string>)

  /**
   * The draft booking, a `Partial<Booking>`. The flow only ever sets
   * `carId`, `carName` and `totalPrice`, so those are the fields kept.
   */
  datatype Draft = Draft(carId: Option<Id>, carName: Option<string>, totalPrice: Option<int>)

  /** The draft before any car is chosen: the empty object `{}`. */
  const EmptyDraft: Draft := Draft(None, None, None)

  /**
   * `x || 0` on an optional number: a missing value becomes 0, and a present
   * value is kept (0 is falsy, but `0 || 0` is 0 again).
   */
  function OrZero(x: Option<int>): (r: int)
    ensures x.None? ==> r == 0
    ensures x.Some? ==> r == x.value
  {
    match x
    case Some(v) => v
    case None => 0
  }

  /**
   * `x || fallback` on an optional string: a missing value and the empty
   * string (falsy in JavaScript) both give the fallback.
   */
  function StringOr(x: Option<string>, fallback: string): (r: string)
    ensures x.Some? && x.value != "" ==> r == x.value
    ensures x.None? || x.value == "" ==> r == fallback
  {
    if x.Some? && x.value != "" then x.value else fallback
  }
}
