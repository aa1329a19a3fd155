# BookIt front-end: slot selection, pricing, promo and search, in Dafny

This project models the three pieces of logic in the BookIt booking front-end that are
more than rendering and HTTP calls:

- **The experience details screen** (`src/pages/ExperienceDetails.tsx`). The screen holds a
  selected date, a selected time and a quantity. Four buttons change them: choose a date,
  choose a time, minus and plus. Several values are derived from that state and the
  experience's slots: the tax, the total, the distinct dates offered, the slots on the chosen
  date, whether the confirm link is enabled, and the summary handed to the checkout screen.
  `DetailsScreen` is a class with those three fields. Its invariant `Valid()` says:
  - the quantity is at least one;
  - a chosen date is one of the offered dates;
  - a chosen time belongs to a slot on the chosen date that has places left.
- **The checkout screen** (`src/pages/Checkout.tsx`). It computes the percentage and flat
  promo discounts and updates the promo state when "Apply" is pressed. It also gates
  "Pay and Confirm" on a complete form and builds the booking request. `CheckoutScreen` is a
  class over the form fields and the promo state.
- **The search on the home screen** (`src/pages/Home.tsx`). It keeps the experiences whose
  name contains the search term, ignoring case, in list order.

Modules: `Seqs` (filter, first-occurrence de-duplication, subsequence), `Text` (ASCII case
mapping and `includes`), `Catalog` (the `Slot` and `Experience` records), `ExperienceDetails`,
`Checkout`, `Home`, and `Wrappers` (an `Option` type).

Money is modelled as exact integers. `Math.round(x)` is `floor(x + 1/2)`, so
`Math.round(price * 0.06)` becomes `(6 * price + 50) / 100`. Likewise
`Math.round(total * (1 - v / 100))` becomes `(total * (100 - v) + 50) / 100`. Both are
exact for every integer input, because Dafny's `/` by a positive divisor rounds down.
The contracts state the rounding itself: the result `r` satisfies
`100*r - 50 <= exact*100 < 100*r + 50`.

The source's quirk is kept: the tax is taken once, on the unit price, and is not
multiplied by the quantity (`TaxChargedOnce`).

Promo behaviour worth knowing:
- A rejected promo clears the valid flag but leaves the displayed total as it was. After an
  accepted promo, that total therefore stays discounted (`RejectedPromoKeepsTotal`).
- `Math.round` rounds halves up, and the model does the same.
- Any promo type other than `"percent"` is applied as a flat amount, because the code
  takes its `else` branch for it.

The network replies are inputs to the model, not calls:
- the promo validator's answer is a `PromoReply`;
- the booking API's answer is a `BookingReply`.

## Model

| member | source | states |
|---|---|---|
| ExperienceDetails.Tax | src/pages/ExperienceDetails.tsx:47 | the tax is the integer nearest to 6% of the price, with halves rounded up (`Math.round`) |
| ExperienceDetails.Subtotal | src/pages/ExperienceDetails.tsx:189 | `price * quantity` is never negative for a non-negative price, at least the unit price from one unit on, and the unit price for one unit |
| ExperienceDetails.Total | src/pages/ExperienceDetails.tsx:48 | the total exceeds price times quantity by 6% of the unit price, rounded half up, whatever the quantity |
| ExperienceDetails.CanConfirm | src/pages/ExperienceDetails.tsx:51 | `selectedDate && selectedTime` is truthy exactly when both strings are non-empty |
| Catalog.Remaining | src/pages/ExperienceDetails.tsx:121 | a slot has places left exactly when fewer places are booked than it has; with a non-negative booking count it never exceeds the capacity |
| ExperienceDetails.TaxChargedOnce | src/pages/ExperienceDetails.tsx:47-48 | each extra unit adds exactly the unit price to the total, so the tax does not grow with quantity; total minus subtotal is the tax |
| ExperienceDetails.PricingExample | src/pages/ExperienceDetails.tsx:47-48 | price 1000 gives tax 60, total 1060 for one unit and 2060 for two |
| ExperienceDetails.SlotDates | src/pages/ExperienceDetails.tsx:54 | `slots.map((slot) => slot.date)` has one date per slot in slot order, and holds exactly the dates some slot has |
| ExperienceDetails.AvailableDates | src/pages/ExperienceDetails.tsx:54 | the offered dates have no duplicates and are exactly the dates some slot has |
| ExperienceDetails.AvailableDatesInSlotOrder | src/pages/ExperienceDetails.tsx:54 | the offered dates appear in the order of their first occurrence among the slots |
| ExperienceDetails.AvailableTimes | src/pages/ExperienceDetails.tsx:57 | the time buttons are the slots on the chosen date: every one matches, none that matches is dropped (with multiplicity), and slot order is kept |
| ExperienceDetails.SummaryOf | src/pages/ExperienceDetails.tsx:206-215 | the hand-off's total is its subtotal plus its taxes and equals the total shown on screen; the subtotal is price times quantity; date, time and quantity are the current selection |
| ExperienceDetails.DetailsScreen.constructor | src/pages/ExperienceDetails.tsx:27-29 | the screen opens with no date, no time and quantity 1, satisfying the invariant |
| ExperienceDetails.DetailsScreen.ChooseDate | src/pages/ExperienceDetails.tsx:101-104 | choosing an offered date sets it, always clears the time, keeps the quantity and preserves the invariant |
| ExperienceDetails.DetailsScreen.ChooseTime | src/pages/ExperienceDetails.tsx:120-126 | clicking a time on the chosen date selects it only when the slot has places left; a sold-out slot changes nothing; the invariant is preserved |
| ExperienceDetails.DetailsScreen.DecreaseQuantity | src/pages/ExperienceDetails.tsx:173 | minus gives `max(1, q - 1)`, so 1 stays 1 and the quantity never drops below 1 |
| ExperienceDetails.DetailsScreen.IncreaseQuantity | src/pages/ExperienceDetails.tsx:180 | plus adds one and keeps the invariant |
| ExperienceDetails.DetailsScreen.Proceed | src/pages/ExperienceDetails.tsx:204-222 | the summary is handed over exactly when both a date and a time are chosen; it is then `SummaryOf` the selection, its quantity is at least 1, and it names a slot on that date and time with places left |
| Checkout.PercentOff | src/pages/Checkout.tsx:43-44 | a percentage promo gives the integer nearest to `total * (100 - v) / 100`, with halves rounded up |
| Checkout.FlatOff | src/pages/Checkout.tsx:45-46 | a flat promo gives a result that is never negative and never below `total - v`, and is either 0 or `total - v` |
| Checkout.Discounted | src/pages/Checkout.tsx:42-47 | a `"percent"` promo gives the half-up rounding of the percentage off the handed-over total; any other type gives the flat amount off, never below zero |
| Checkout.PercentOffBounds | src/pages/Checkout.tsx:43-44 | for a non-negative total and `0 <= v <= 100` the result lies between 0 and the total; 0% leaves it unchanged, 100% gives 0 |
| Checkout.FlatOffBounds | src/pages/Checkout.tsx:46 | for a non-negative total and amount the result lies between 0 and the total |
| Checkout.DiscountExamples | src/pages/Checkout.tsx:42-47 | 10% off 1060 is 954; 200 off 1060 is 860; 2000 off 1060 is 0 |
| Checkout.TrimStart | src/pages/Checkout.tsx:35 | removing leading white space leaves a suffix of the code that does not begin with white space, and only white space was removed |
| Checkout.TrimEnd | src/pages/Checkout.tsx:35 | removing trailing white space leaves a prefix of the code that does not end with white space, and only white space was removed |
| Checkout.Trim | src/pages/Checkout.tsx:35 | `promo.trim()` is a slice of the code surrounded only by white space, and it neither begins nor ends with white space |
| Checkout.IsBlank | src/pages/Checkout.tsx:35 | `!promo.trim()` holds exactly when every character of the code is white space that `trim` removes |
| Checkout.AfterPromo | src/pages/Checkout.tsx:34-59 | a promo newly marked valid comes from an accepted, non-blank code, and the total then becomes that promo's discount of the handed-over total; only an accepted promo changes the total; a blank code or failed request never changes the flag |
| Checkout.SavingShown | src/pages/Checkout.tsx:190-194 | a saving is shown exactly when a promo is marked valid, and it is the handed-over total minus the displayed total |
| Checkout.PromosDoNotStack | src/pages/Checkout.tsx:42-49 | two accepted promos in a row give the second promo's result on the original total, whatever came before |
| Checkout.BlankCodeOrFailureChangesNothing | src/pages/Checkout.tsx:35-58 | a blank or white-space-only code, or a failed validation request, leaves the promo state unchanged |
| Checkout.RejectedPromoKeepsTotal | src/pages/Checkout.tsx:51-54 | a rejected code leaves the displayed total as it was and, for a non-blank code, clears the valid flag |
| Checkout.SavingWithinTotal | src/pages/Checkout.tsx:190-194 | after an accepted promo with sensible values, the saving shown is present and lies between 0 and the original total |
| Checkout.IsFormComplete | src/pages/Checkout.tsx:30 | `fullName && email && agreed` holds exactly when name and email are non-empty and the box is ticked |
| Checkout.WhiteSpaceCompletesForm | src/pages/Checkout.tsx:30 | the form is not trimmed: one space for name and email completes it, an empty name or email does not |
| Checkout.BookingRequestFor | src/pages/Checkout.tsx:70-78 | the booking request carries the form's name and email and the hand-off's experience id, date and time |
| Checkout.BookingRequestIgnoresPricing | src/pages/Checkout.tsx:70-78 | the request does not depend on quantity, prices or experience name |
| Checkout.CheckoutScreen.constructor | src/pages/Checkout.tsx:22-27 | the form opens empty, not agreed, with the handed-over total and no promo applied |
| Checkout.CheckoutScreen.ApplyPromo | src/pages/Checkout.tsx:34-59 | "Apply" does nothing for a blank code. An accepted promo sets the discount of the original total and marks it valid. A rejected one only clears the flag. A failed request changes nothing |
| Checkout.CheckoutScreen.Confirm | src/pages/Checkout.tsx:62-88 | an incomplete form sends nothing; a complete one sends exactly the booking request, and the API's answer decides confirmation, refusal or error |
| Checkout.CheckoutScreen.SetFullName | src/pages/Checkout.tsx:118 | typing in the name field sets the name |
| Checkout.CheckoutScreen.SetEmail | src/pages/Checkout.tsx:129 | typing in the email field sets the email |
| Checkout.CheckoutScreen.SetPromoCode | src/pages/Checkout.tsx:140 | typing in the promo field sets the code |
| Checkout.CheckoutScreen.SetAgreed | src/pages/Checkout.tsx:154 | ticking the box sets the agreement |
| Home.SearchResults | src/pages/Home.tsx:36-38 | every experience shown has a name containing the term, ignoring case; every such experience is shown, as often as it occurs in the list; list order is kept |
| Home.EmptySearchShowsAll | src/pages/Home.tsx:19 | the empty term shows the whole list |
| Home.SearchIgnoresCase | src/pages/Home.tsx:37 | upper-casing the term gives the same results |
| Home.SearchIsIdempotent | src/pages/Home.tsx:36-38 | searching the results again for the same term gives the same list |
| Text.Includes | src/pages/Home.tsx:37 | `includes` holds exactly when the term occurs at some position of the name |
| Text.Lower | src/pages/Home.tsx:37 | `toLowerCase` over ASCII: no upper-case letter is left, each becomes its lower-case partner, other characters stay |
| Text.Upper | src/pages/Home.tsx:37 | `toUpperCase` over ASCII: no lower-case letter is left, each becomes its upper-case partner, other characters stay |
| Text.LowerOfUpper | src/pages/Home.tsx:37 | lower-casing an upper-cased string gives the string lower-cased |
| Seqs.Filter | src/pages/ExperienceDetails.tsx:57 | `filter` keeps exactly the elements that pass, with multiplicity, in their original order |
| Seqs.Distinct | src/pages/ExperienceDetails.tsx:54 | `Array.from(new Set(...))` has no duplicates and the same elements as its input |
| Seqs.DistinctKeepsFirstOccurrenceOrder | src/pages/ExperienceDetails.tsx:54 | the elements come in the order of their first occurrence |

## Left out

- Fetching the experience, the list and the booking, and the promo request, with their
  asynchronous timing and stale replies. The replies are inputs instead.
- Rendering, CSS classes, alerts, console output, navigation and the route table.
- The `loading` flag and disabling the confirm button while a request is in flight.
- Locale formatting of dates (`toLocaleDateString`).
- Floating point: `price * 0.06` and `total * (1 - v / 100)` are computed exactly.
  Where the binary value of `0.06` or `v / 100` moves a product across a half, JavaScript
  may round differently from the model.
- Promo values and prices are whole numbers in the model; JavaScript numbers may have
  fractions.
- Case mapping covers ASCII letters only; `toLowerCase` and `toUpperCase` also map other
  Unicode letters. The space separators that `trim` removes are those of the Unicode version
  current when the model was written.
- The confirm link on the details screen is disabled only through CSS
  (`pointer-events-none`). `Proceed` models the intended gate; keyboard activation of the
  link is not modelled.
- ExperienceDetails.DetailsScreen.ChooseDate: requires the date to be one of the offered
  dates, because the handler can only be reached from a date button.
- ExperienceDetails.DetailsScreen.ChooseTime: requires the slot to be one of the time
  buttons for the chosen date, for the same reason.
- Opening the checkout without a hand-off crashes the page. This is not modelled.
- The header trims the query before handing it to the search (`src/components/Header.tsx`),
  so " kayak " finds "Kayaking". That trimming is not part of this model; `SearchResults`
  accepts any term, trimmed terms included.
- The experience card and the confirmation page hold no logic beyond display.
