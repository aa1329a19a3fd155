/** The details screen of one experience: the pricing it shows, the dates and times it
    offers, and the selection state its buttons change (src/pages/ExperienceDetails.tsx). */
module ExperienceDetails {
  import opened Wrappers
  import opened Seqs
  import opened Catalog

  // ---------------------------------------------------------------- pricing

  /** `Math.round(price * 0.06)`, in exact arithmetic: `Math.round(x)` is `floor(x + 1/2)`,
      so the tax is the integer nearest to 6% of the price, halves rounded up. */
  function Tax(price: int): (tax: int)
    ensures 100 * tax - 50 <= 6 * price < 100 * tax + 50
  {
    (price * 6 + 50) / 100
  }

  /** `experience.price * quantity`: the cost of the units before tax. For a non-negative
      price it never drops below zero and, from one unit on, never below the unit price. */
  function Subtotal(price: int, quantity: int): (subtotal: int)
    ensures price >= 0 && quantity >= 0 ==> subtotal >= 0
    ensures price >= 0 && quantity >= 1 ==> subtotal >= price
    ensures quantity == 1 ==> subtotal == price
  {
    price * quantity
  }

  /** The total shown on the screen. The tax is taken once, on the unit price. */
  function Total(price: int, quantity: int): (total: int)
    ensures 100 * (total - Subtotal(price, quantity)) - 50 <= 6 * price
    ensures 6 * price < 100 * (total - Subtotal(price, quantity)) + 50
  {
    Subtotal(price, quantity) + Tax(price)
  }

  /** Each extra unit adds exactly the unit price: the tax does not grow with quantity. */
  lemma TaxChargedOnce(price: int, quantity: int)
    ensures Total(price, quantity + 1) == Total(price, quantity) + price
    ensures Total(price, quantity) - Subtotal(price, quantity) == Tax(price)
  {
  }

  /** A price of 1000 carries a tax of 60, so one unit costs 1060 and two cost 2060. */
  lemma PricingExample()
    ensures Tax(1000) == 60 && Total(1000, 1) == 1060 && Total(1000, 2) == 2060
  {
  }

  /** `selectedDate && selectedTime`: truthy exactly when neither string is empty, so the
      confirm link is enabled only when a date and a time have been chosen. */
  predicate CanConfirm(selectedDate: string, selectedTime: string)
    ensures CanConfirm(selectedDate, selectedTime) ==> |selectedDate| > 0 && |selectedTime| > 0
    ensures |selectedDate| > 0 && |selectedTime| > 0 ==> CanConfirm(selectedDate, selectedTime)
  {
    selectedDate != "" && selectedTime != ""
  }

  // ---------------------------------------------------------------- dates and times

  /** `experience.slots.map((slot) => slot.date)`: one date per slot, in slot order, and
      no date that no slot has. */
  function SlotDates(slots: seq<Slot>): (dates: seq<string>)
    ensures |dates| == |slots|
    ensures forall i :: 0 <= i < |slots| ==> dates[i] == slots[i].date
    ensures forall d :: d in dates <==> exists s :: s in slots && s.date == d
  {
    assert forall s :: s in slots ==> exists i :: 0 <= i < |slots| && slots[i] == s;

    seq(|slots|, i requires 0 <= i < |slots| => slots[i].date)
  }

  /** The date buttons: every date some slot has, once each. */
  function AvailableDates(slots: seq<Slot>): (dates: seq<string>)
    ensures NoDuplicates(dates)
    ensures forall d :: d in dates <==> exists s :: s in slots && s.date == d
  {
    var all := SlotDates(slots);
    assert forall s :: s in slots ==> s.date in all;
    Distinct(all)
  }

  /** The date buttons come in the order in which their dates first occur among the slots. */
  lemma AvailableDatesInSlotOrder(slots: seq<Slot>)
    ensures forall i, j :: 0 <= i < j < |AvailableDates(slots)| ==>
      IndexOf(SlotDates(slots), AvailableDates(slots)[i]) <
      IndexOf(SlotDates(slots), AvailableDates(slots)[j])
  {
    DistinctKeepsFirstOccurrenceOrder(SlotDates(slots));
  }

  /** The time buttons: the slots on the chosen date, in their original order. */
  function AvailableTimes(slots: seq<Slot>, selectedDate: string): (times: seq<Slot>)
    ensures forall s :: s in times ==> s in slots && s.date == selectedDate
    ensures forall s :: s in slots && s.date == selectedDate ==> s in times
    ensures forall s :: multiset(times)[s] == if s.date == selectedDate then multiset(slots)[s] else 0
    ensures IsSubsequence(times, slots)
  {
    Filter(slots, (s: Slot) => s.date == selectedDate)
  }

  // ---------------------------------------------------------------- hand-off to checkout

  /** The state the confirm link hands to the checkout screen. */
  datatype CheckoutSummary = CheckoutSummary(
    experienceName: string,
    experienceId: string,
    date: string,
    time: string,
    quantity: int,
    subtotal: int,
    taxes: int,
    total: int)

  function SummaryOf(e: Experience, selectedDate: string, selectedTime: string, quantity: int): (s: CheckoutSummary)
    ensures s.total == s.subtotal + s.taxes
    ensures s.subtotal == Subtotal(e.price, quantity) && s.taxes == Tax(e.price)
    ensures s.total == Total(e.price, quantity)
    ensures s.date == selectedDate && s.time == selectedTime && s.quantity == quantity
    ensures s.experienceId == e.id && s.experienceName == e.name
  {
    CheckoutSummary(e.name, e.id, selectedDate, selectedTime, quantity,
                    Subtotal(e.price, quantity), Tax(e.price), Total(e.price, quantity))
  }

  // ---------------------------------------------------------------- the screen

  /** The selection a user builds on the details screen of a fetched experience. */
  class DetailsScreen {
    const experience: Experience
    var selectedDate: string
    var selectedTime: string
    var quantity: int

    /** The quantity never drops below one; a chosen date is one of the offered dates;
        a chosen time belongs to a slot on the chosen date that still has room. */
    ghost predicate Valid()
      reads this
    {
      quantity >= 1 &&
      (selectedDate == "" || selectedDate in AvailableDates(experience.slots)) &&
      (selectedTime != "" ==>
        exists s :: s in experience.slots && s.date == selectedDate &&
                    s.time == selectedTime && Remaining(s) > 0)
    }

    /** The screen opens with nothing chosen and a quantity of one. */
    constructor (e: Experience)
      ensures Valid()
      ensures experience == e && selectedDate == "" && selectedTime == "" && quantity == 1
    {
      experience := e;
      selectedDate := "";
      selectedTime := "";
      quantity := 1;
    }

    /** A date button: choose the date and always drop the chosen time. */
    method ChooseDate(date: string)
      requires Valid()
      requires date in AvailableDates(experience.slots)
      modifies this
      ensures Valid()
      ensures selectedDate == date && selectedTime == "" && quantity == old(quantity)
    {
      selectedDate := date;
      selectedTime := "";
    }

    /** A time button: choose the slot's time, unless the slot is sold out, in which
        case the button is disabled and the click changes nothing. */
    method ChooseTime(slot: Slot)
      requires Valid()
      requires slot in AvailableTimes(experience.slots, selectedDate)
      modifies this
      ensures Valid()
      ensures selectedDate == old(selectedDate) && quantity == old(quantity)
      ensures selectedTime == if Remaining(slot) > 0 then slot.time else old(selectedTime)
    {
      if Remaining(slot) > 0 {
        selectedTime := slot.time;
      }
    }

    /** The minus button: one less, but never below one. */
    method DecreaseQuantity()
      requires Valid()
      modifies this
      ensures Valid()
      ensures quantity == if old(quantity) > 1 then old(quantity) - 1 else 1
      ensures selectedDate == old(selectedDate) && selectedTime == old(selectedTime)
    {
      quantity := if quantity - 1 > 1 then quantity - 1 else 1;
    }

    /** The plus button: one more, with no upper bound. */
    method IncreaseQuantity()
      requires Valid()
      modifies this
      ensures Valid()
      ensures quantity == old(quantity) + 1
      ensures selectedDate == old(selectedDate) && selectedTime == old(selectedTime)
    {
      quantity := quantity + 1;
    }

    /** Following the confirm link: the summary is handed over only when a date and
        a time are chosen, and then it names a slot that had room when it was picked. */
    method Proceed() returns (summary: Option<CheckoutSummary>)
      requires Valid()
      ensures summary.Some? <==> CanConfirm(selectedDate, selectedTime)
      ensures summary.Some? ==>
        summary.value == SummaryOf(experience, selectedDate, selectedTime, quantity)
      ensures summary.Some? ==> summary.value.quantity >= 1
      ensures summary.Some? ==>
        exists s :: s in experience.slots && s.date == summary.value.date &&
                    s.time == summary.value.time && Remaining(s) > 0
    {
      if CanConfirm(selectedDate, selectedTime) {
        summary := Some(SummaryOf(experience, selectedDate, selectedTime, quantity));
      } else {
        summary := None;
      }
    }
  }
}
