# DriveEase booking-draft flow in Dafny

DriveEase is a client-side front end for a car-rental prototype. The only logic in it
is the booking-draft flow. A user picks a car ("Book now") and the app starts a draft
booking with that car's id, name and daily rate. On the add-ons page the user toggles
extras, and "Next" adds their total to the draft. "Pay" builds an `Upcoming` booking
from the draft and puts it at the front of the ledger. The fleet listing filters cars
by type, and the payment page splits the draft total into a base line and an add-ons line.

This project models that flow and proves its properties:

- `types.dfy`: module `Types`. The records of `types.ts` (`Car`, `AddOn`, `Booking`,
  the draft `Partial<Booking>`) and the JavaScript `||` fallbacks the flow uses.
- `lists.dfy`: module `Lists`. `Array.prototype.find` and `Array.prototype.filter`,
  with what they return (first match; exactly the passing elements, in order).
- `catalog.dfy`: module `Catalog`. Car and add-on lookup, the add-on total (the `reduce`), the fleet
  filter and the payment breakdown. The catalogs `CARS` and `ADD_ONS` are parameters.
- `selection.dfy`: module `Selection`. The add-on `toggle` and how it moves the running total.
- `booking_ids.dfy`: module `BookingIds`. The identifiers `'BK-' + n` and their decimal digits.
- `flow.dfy`: module `Flow`. The class `BookingFlow` holds the three pieces of React state
  (`currentBooking`, `bookings`, `selected`). Its methods are the event handlers, and
  their `ensures` give each field's new value. The module also holds lemmas that relate
  several steps, and `ExampleBooking`, a client that walks the flow on a
  one-car fleet.

What the code does, and does not do:

- Booking an unknown car id changes nothing: the details page shows "not found" and has no button.
- No handler checks which step came before it. Every handler runs in any state.
- There are no error results anywhere in the flow.
- Payment does not clear the draft. Paying twice records two bookings built from the same draft.
- "Next" is not idempotent. It adds the add-on total to whatever total the draft already has, so a second commit adds the add-ons again (`CommitTwiceAddsTwice`, `ExampleBooking`).
- If a catalog car is booked and the add-ons are committed once, the draft total is the car's rate plus the add-on total, and the payment page shows those two amounts on its lines (`BookedTotal`).
- The home-delivery surcharge appears on the preferences page only as text. It is never charged.
- If an id was not selected, toggling it twice restores the list (`ToggleTwiceRestores`). If it was selected, toggling it twice gives the other ids in their order followed by that id once (`ToggleTwiceMovesToEnd`), so the order can change. For a duplicate-free list the total always comes back (`ToggleTwiceKeepsTotal`).

## Model

| member | source | states |
|---|---|---|
| Catalog.FindCar | App.tsx:436 | a car is found exactly when some car has the id, and the car found has that id and is in the fleet |
| Catalog.FindCarIsFirst | App.tsx:436 | when several cars share the id, the first of them is the one found |
| Catalog.FindAddOn | App.tsx:606 | an add-on is found exactly when some add-on has the id, and the one found has that id and is in the catalog |
| Catalog.PriceOf | App.tsx:606-607 | an id no add-on has costs 0; a known id costs the price of a catalog add-on with that id |
| Catalog.PriceOfFirst | App.tsx:606-607 | the price charged is that of the first add-on carrying the id |
| Catalog.AddOnsTotal | App.tsx:605-608 | the reduce from 0 over the selection equals the sum of the prices of the selected ids |
| Catalog.ReducePrices | App.tsx:605-608 | the `reduce` itself, a left fold over the selection; what it computes is stated by `ReduceIsSum` |
| Catalog.ReduceIsSum | App.tsx:605-608 | the left fold from any start value equals that value plus the sum of the prices |
| Catalog.SumAppend | App.tsx:605-608 | the total of a concatenation is the sum of the two totals |
| Catalog.SumOfUnknownIds | App.tsx:606-607 | a selection of ids that match no add-on totals 0 |
| Catalog.FilterCars | App.tsx:352 | 'All' yields the whole fleet; any other value yields exactly the cars of that type, with their multiplicities, in fleet order |
| Catalog.PaymentBreakdown | App.tsx:769-770 | base line + add-ons line = draft total (0 if missing); the base line is the catalog rate of the draft's car, or 0 when the draft has no car or the id is unknown |
| Lists.Find | App.tsx:436 | an element is found exactly when some element passes, and the one found passes and is in the list |
| Lists.Filter | App.tsx:611 | every element of the result passes, and an element is in the result exactly when it is in the input and passes |
| Lists.FilterCounts | App.tsx:352 | a passing element occurs in the result as often as in the input; a failing one not at all |
| Lists.FilterIsSubsequence | App.tsx:352 | the result keeps the input's order |
| Selection.RemoveAll | App.tsx:611 | the result holds every other selected id and never the removed one |
| Selection.RemoveAllKeepsOthers | App.tsx:611 | the removed id occurs 0 times; every other id occurs as often as before, in the same order |
| Selection.ToggleId | App.tsx:611 | membership flips for the toggled id and for no other; a selected id loses all occurrences; an unselected id is appended at the end |
| Selection.ToggleKeepsNoDuplicates | App.tsx:611 | toggling a duplicate-free selection keeps it duplicate-free |
| Selection.ToggleTwiceRestores | App.tsx:611 | toggling an unselected id twice gives back the original list |
| Selection.ToggleTwiceMovesToEnd | App.tsx:611 | toggling a selected id twice leaves the other ids in order, with that id once at the end |
| Selection.SumWithout | App.tsx:605-611 | removing an id lowers the total by its price times its number of occurrences |
| Selection.TotalAfterToggle | App.tsx:605-612 | after a toggle the total rises by the id's price, or falls by its price once per occurrence |
| Selection.ToggleTwiceKeepsTotal | App.tsx:605-612 | on a duplicate-free selection a double toggle leaves the add-on total unchanged |
| BookingIds.Decimal | App.tsx:732 | the rendering of n is non-empty, all digits, without a leading zero |
| BookingIds.ParseDecimalOfDecimal | App.tsx:732 | reading back the decimal rendering of n gives n |
| BookingIds.BookingId | App.tsx:732 | the id is 'BK-' followed by the decimal rendering of the draw |
| BookingIds.BookingIdShape | App.tsx:732 | for 1000 <= n <= 9999 the id is 'BK-' and four digits, the first non-zero, reading back as n |
| BookingIds.BookingIdInjective | App.tsx:732 | two ids are equal exactly when their draws are equal, so collisions come only from equal draws |
| Flow.CommittedDraft | App.tsx:615 | car id and name kept; new total = old total (0 if missing) + sum of the selected prices |
| Types.OrZero | App.tsx:737 | the JavaScript fallback to 0: a missing number gives 0, a present one is kept |
| Types.StringOr | App.tsx:733-734 | the JavaScript fallback for strings: a missing or empty string gives the fallback, any other is kept |
| Flow.StartedDraft | App.tsx:441 | the draft names exactly the car's id and name, at its daily rate |
| Flow.NewBooking | App.tsx:731-738 | status Upcoming, the given date, the draft total or 0, car id or 's1', car name or 'Vehicle' (empty strings fall back too), id 'BK-' + n, no images |
| Flow.NewBookingId | App.tsx:732 | for a draw in 1000..9999 the new booking's id is 'BK-' and four digits reading back as the draw |
| Flow.NewBookingIdNotInitial | App.tsx:24-27 | an id drawn in 1000..9999 differs from both ids the ledger starts with |
| Flow.BookedTotal | App.tsx:769-770 | after booking a catalog car and one commit, the breakdown shows the car's rate and the add-on total, and the booking records their sum |
| Flow.CommitTwiceAddsTwice | App.tsx:604-615 | committing the same selection twice adds the add-on total twice |
| Flow.BookingFlow.constructor | App.tsx:20-27 | empty draft, the two initial bookings, empty selection; the invariant holds |
| Flow.BookingFlow.BookNow | App.tsx:436-442 | a catalog car replaces the draft with exactly its id, name and rate; an unknown id changes nothing; ledger and selection unchanged |
| Flow.BookingFlow.PaymentLines | App.tsx:763-770 | the payment lines of the current draft; with a car, the base line is its catalog rate, the add-ons line the rest of the total, and the name shown its catalog name; without a car, 0 and the whole total |
| Flow.BookingFlow.OpenAddOns | App.tsx:602 | the selection starts empty; draft and ledger unchanged |
| Flow.BookingFlow.Toggle | App.tsx:610-612 | the selection becomes its toggle; the running total moves by exactly the id's price; it stays duplicate-free; draft and ledger unchanged |
| Flow.BookingFlow.Next | App.tsx:614-616 | the draft total becomes old total (0 if missing) + add-on total; car kept; ledger and selection unchanged |
| Flow.BookingFlow.Pay | App.tsx:726-741 | the ledger becomes the new booking followed by the old ledger: one longer, same tail in the same order, new head Upcoming with the draft total; draft and selection unchanged |

`BookingFlow.Valid()` is the invariant that every method keeps, and `PaymentLines` relies on it. The selection has no
repeated id. A draft names a car and its name together. A draft that names a car has
a total, and its car id is in the catalog under that name.

## Left out

- JSX markup, styling and static pages (home, footer, dashboards, owner tables): view code with no logic.
- Routing and navigation (`HashRouter`, `navigate`, `Navigate`) and the React context plumbing: the state is three fields of one object.
- The two-second `setTimeout` and the `loading` and `success` flags of the payment page: payment is one atomic step.
- `Math.random` and `new Date().toISOString()`: the draw `n` (with `1000 <= n <= 9999`) and the date string are parameters of `Pay`.
- The contents of `data/mockData` (`CARS`, `ADD_ONS`, `NEARBY_SERVICES`) are not part of this model. The catalogs are constructor parameters.
- The nearby-services page and the `NearbyService` record: a static list, with no state or computation.
- The preferences page: its pick-up option is local state that never reaches the draft. The OTP digits are fixed demo values.
- The condition-report page: browser file inputs and object URLs. The optional image fields of `Booking` are never set by the flow.
- Login and the role flag: a demo switch with no credential check.
- The listing page's filter state (`useState('All')`, `setFilter`): `FilterCars` takes the chosen value as a parameter.
- JavaScript numbers are doubles. Prices here are unbounded integers, so precision loss and NaN are not modelled.
- Fields of `Partial<Booking>` other than `carId`, `carName` and `totalPrice`: the flow never sets them.
- React closure timing: `handleNext` reads `basePrice` from the last render and `prev` from the pending state. In a single-user sequential run the two are the same draft, and the model uses one value.
- `BookingFlow.Toggle` accepts any id. The page only ever passes ids of catalog add-ons.
- Booking-id collision checks: the code has none (see `BookingIdInjective`).
