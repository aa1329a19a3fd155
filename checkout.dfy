/** The checkout screen: the promo discount, the promo state it updates, and the gate
    and request of the final confirmation (src/pages/Checkout.tsx). */
module Checkout {
  import opened Wrappers
  import opened ExperienceDetails

  // ---------------------------------------------------------------- discounts

  /** A promo as the validator describes it. Any type other than "percent" is applied
      as a flat amount. */
  datatype Promo = Promo(discountType: string, value: int)

  /** `Math.round(total * (1 - percent / 100))` in exact arithmetic: the integer nearest
      to the discounted total, halves rounded up. */
  function PercentOff(total: int, percent: int): (r: int)
    ensures 100 * r - 50 <= total * (100 - percent) < 100 * r + 50
  {
    (total * (100 - percent) + 50) / 100
  }

  /** `Math.max(0, total - amount)`: the amount is taken off, but never below zero. */
  function FlatOff(total: int, amount: int): (r: int)
    ensures r >= 0 && r >= total - amount
    ensures r == 0 || r == total - amount
  {
    if total - amount > 0 then total - amount else 0
  }

  /** The total after a promo, always computed from the total the checkout was opened with. */
  function Discounted(total: int, promo: Promo): (r: int)
    ensures promo.discountType == "percent" ==>
      100 * r - 50 <= total * (100 - promo.value) < 100 * r + 50
    ensures promo.discountType != "percent" ==>
      r >= 0 && r >= total - promo.value && (r == 0 || r == total - promo.value)
  {
    if promo.discountType == "percent" then PercentOff(total, promo.value)
    else FlatOff(total, promo.value)
  }

  /** A percentage between 0 and 100 keeps a non-negative total between 0 and itself;
      0% leaves it alone and 100% brings it to 0. */
  lemma PercentOffBounds(total: int, percent: int)
    requires 0 <= total && 0 <= percent <= 100
    ensures 0 <= PercentOff(total, percent) <= total
    ensures percent == 0 ==> PercentOff(total, percent) == total
    ensures percent == 100 ==> PercentOff(total, percent) == 0
  {
  }

  /** A non-negative flat amount never raises a non-negative total. */
  lemma FlatOffBounds(total: int, amount: int)
    requires 0 <= total && 0 <= amount
    ensures 0 <= FlatOff(total, amount) <= total
  {
  }

  /** 10% off 1060 is 954; 200 off 1060 is 860; 2000 off 1060 is 0. */
  lemma DiscountExamples()
    ensures Discounted(1060, Promo("percent", 10)) == 954
    ensures Discounted(1060, Promo("flat", 200)) == 860
    ensures Discounted(1060, Promo("flat", 2000)) == 0
  {
  }

  // ---------------------------------------------------------------- promo state

  /** Characters `String.prototype.trim` removes: tab, vertical tab, form feed, the
      byte-order mark, the Unicode space separators and the line terminators. */
  predicate IsWhitespace(c: char) {
    c == '\t' || c == '\U{000B}' || c == '\U{000C}' || c == '\U{FEFF}' ||
    c == ' ' || c == '\U{00A0}' || c == '\U{1680}' || '\U{2000}' <= c <= '\U{200A}' ||
    c == '\U{202F}' || c == '\U{205F}' || c == '\U{3000}' ||
    c == '\n' || c == '\r' || c == '\U{2028}' || c == '\U{2029}'
  }

  /** `s` without its leading white space. */
  function TrimStart(s: string): (r: string)
    ensures |r| <= |s| && r == s[|s| - |r|..]
    ensures r == [] || !IsWhitespace(r[0])
    ensures forall i :: 0 <= i < |s| - |r| ==> IsWhitespace(s[i])
  {
    if s != [] && IsWhitespace(s[0]) then TrimStart(s[1..]) else s
  }

  /** `s` without its trailing white space. */
  function TrimEnd(s: string): (r: string)
    ensures |r| <= |s| && r == s[..|r|]
    ensures r == [] || !IsWhitespace(r[|r| - 1])
    ensures forall i :: |r| <= i < |s| ==> IsWhitespace(s[i])
  {
    if s != [] && IsWhitespace(s[|s| - 1]) then TrimEnd(s[..|s| - 1]) else s
  }

  /** `r` is `s` with the white space before position `i` and after `r` cut away. */
  predicate TrimmedAt(s: string, r: string, i: int) {
    0 <= i && i + |r| <= |s| && r == s[i..i + |r|] &&
    (forall k :: 0 <= k < i ==> IsWhitespace(s[k])) &&
    (forall k :: i + |r| <= k < |s| ==> IsWhitespace(s[k]))
  }

  /** `s.trim()`: a slice of `s` that only white space surrounds, and that neither begins
      nor ends with white space. */
  function Trim(s: string): (r: string)
    ensures exists i :: TrimmedAt(s, r, i)
    ensures r == [] || (!IsWhitespace(r[0]) && !IsWhitespace(r[|r| - 1]))
  {
    var t := TrimStart(s);
    var r := TrimEnd(t);
    var i := |s| - |t|;
    CutBothEnds(s, t, r, IsWhitespace);
    assert TrimmedAt(s, r, i);
    r
  }

  /** Cutting a prefix and then a suffix whose characters all pass `w` leaves a slice of
      the original with only `w` characters after it. */
  lemma CutBothEnds(s: string, t: string, r: string, w: char -> bool)
    requires |t| <= |s| && t == s[|s| - |t|..] && |r| <= |t| && r == t[..|r|]
    requires forall k :: 0 <= k < |s| - |t| ==> w(s[k])
    requires forall k :: |r| <= k < |t| ==> w(t[k])
    ensures r == s[|s| - |t|..|s| - |t| + |r|]
    ensures forall k :: |s| - |t| + |r| <= k < |s| ==> w(s[k])
  {
    var i := |s| - |t|;
    forall k | i + |r| <= k < |s|
      ensures w(s[k])
    {
      assert s[k] == t[k - i];
    }
  }

  /** `!code.trim()`: the trimmed code is empty, which is the case exactly when every
      character of the code is white space. */
  predicate IsBlank(code: string)
    ensures IsBlank(code) <==> forall i :: 0 <= i < |code| ==> IsWhitespace(code[i])
  {
    var start := TrimStart(code);
    assert forall i :: |code| - |start| <= i < |code| ==> code[i] == start[i - (|code| - |start|)];
    Trim(code) == ""
  }

  /** What the promo validator answered, or that the request failed. */
  datatype PromoReply = Accepted(promo: Promo) | Rejected | RequestFailed

  /** The part of the screen's state that applying a promo changes. */
  datatype PromoState = PromoState(discountedTotal: int, promoValid: bool)

  /** One press of "Apply": a blank code sends nothing; an accepted promo replaces the
      displayed total with the discount of `baseTotal`; a rejected one only clears the
      valid flag; a failed request changes nothing. */
  function AfterPromo(baseTotal: int, st: PromoState, code: string, reply: PromoReply): (r: PromoState)
    ensures r.promoValid && !st.promoValid ==>
      !IsBlank(code) && reply.Accepted? && r.discountedTotal == Discounted(baseTotal, reply.promo)
    ensures r.discountedTotal != st.discountedTotal ==> !IsBlank(code) && reply.Accepted?
    ensures r.promoValid != st.promoValid ==> !IsBlank(code) && !reply.RequestFailed?
  {
    if IsBlank(code) then st
    else match reply
      case Accepted(promo) => PromoState(Discounted(baseTotal, promo), true)
      case Rejected => st.(promoValid := false)
      case RequestFailed => st
  }

  /** Promos do not stack: the second of two accepted promos decides the total alone. */
  lemma PromosDoNotStack(baseTotal: int, st: PromoState, code1: string, p1: Promo, code2: string, p2: Promo)
    requires !IsBlank(code1) && !IsBlank(code2)
    ensures AfterPromo(baseTotal, AfterPromo(baseTotal, st, code1, Accepted(p1)), code2, Accepted(p2))
         == AfterPromo(baseTotal, st, code2, Accepted(p2))
    ensures AfterPromo(baseTotal, st, code2, Accepted(p2)) == PromoState(Discounted(baseTotal, p2), true)
  {
  }

  /** A blank code sends no request, and a failed request is only reported: in both
      cases the promo state stays as it was. */
  lemma BlankCodeOrFailureChangesNothing(baseTotal: int, st: PromoState, code: string, reply: PromoReply)
    requires IsBlank(code) || reply.RequestFailed?
    ensures AfterPromo(baseTotal, st, code, reply) == st
  {
  }

  /** A rejected code marks no promo applied and leaves the displayed total as it was;
      after an accepted promo that total therefore stays discounted. */
  lemma RejectedPromoKeepsTotal(baseTotal: int, st: PromoState, code: string)
    ensures AfterPromo(baseTotal, st, code, Rejected).discountedTotal == st.discountedTotal
    ensures !IsBlank(code) ==> !AfterPromo(baseTotal, st, code, Rejected).promoValid
  {
  }

  /** The saving the summary shows, and only while a promo is marked valid. */
  function SavingShown(baseTotal: int, st: PromoState): (saving: Option<int>)
    ensures saving.Some? <==> st.promoValid
    ensures saving.Some? ==> st.discountedTotal + saving.value == baseTotal
  {
    if st.promoValid then Some(baseTotal - st.discountedTotal) else None
  }

  /** After an accepted promo of 0 to 100 percent, or a non-negative flat amount, the
      saving shown lies between 0 and the original total. */
  lemma SavingWithinTotal(baseTotal: int, st: PromoState, code: string, promo: Promo)
    requires 0 <= baseTotal && !IsBlank(code)
    requires promo.discountType == "percent" ==> 0 <= promo.value <= 100
    requires promo.discountType != "percent" ==> 0 <= promo.value
    ensures SavingShown(baseTotal, AfterPromo(baseTotal, st, code, Accepted(promo))).Some?
    ensures 0 <= SavingShown(baseTotal, AfterPromo(baseTotal, st, code, Accepted(promo))).value <= baseTotal
  {
    if promo.discountType == "percent" {
      PercentOffBounds(baseTotal, promo.value);
    } else {
      FlatOffBounds(baseTotal, promo.value);
    }
  }

  // ---------------------------------------------------------------- confirmation

  /** `fullName && email && agreed`: both fields non-empty (white space counts) and the
      terms accepted. */
  predicate IsFormComplete(fullName: string, email: string, agreed: bool)
    ensures IsFormComplete(fullName, email, agreed) ==> |fullName| > 0 && |email| > 0 && agreed
    ensures |fullName| > 0 && |email| > 0 && agreed ==> IsFormComplete(fullName, email, agreed)
  {
    fullName != "" && email != "" && agreed
  }

  /** The form is not trimmed: a name and an email of one space each complete it. */
  lemma WhiteSpaceCompletesForm()
    ensures IsFormComplete(" ", " ", true)
    ensures !IsFormComplete("", "a@b.c", true) && !IsFormComplete("a", "", true)
  {
  }

  datatype SlotRef = SlotRef(date: string, time: string)

  /** The body of the booking request. Quantity and prices are not part of it. */
  datatype BookingRequest = BookingRequest(name: string, email: string, experienceId: string, slot: SlotRef)

  function BookingRequestFor(fullName: string, email: string, data: CheckoutSummary): (req: BookingRequest)
    ensures req.name == fullName && req.email == email
    ensures req.experienceId == data.experienceId
    ensures req.slot.date == data.date && req.slot.time == data.time
  {
    BookingRequest(fullName, email, data.experienceId, SlotRef(data.date, data.time))
  }

  /** Two hand-offs that differ only in name, quantity or prices give the same request. */
  lemma BookingRequestIgnoresPricing(fullName: string, email: string, a: CheckoutSummary, b: CheckoutSummary)
    requires a.experienceId == b.experienceId && a.date == b.date && a.time == b.time
    ensures BookingRequestFor(fullName, email, a) == BookingRequestFor(fullName, email, b)
  {
  }

  /** What the booking API answered, or that the request failed. */
  datatype BookingReply = Created(bookingId: string) | NotCreated | BookingFailed

  /** Where pressing "Pay and Confirm" leaves the user. */
  datatype ConfirmOutcome =
    | FormIncomplete        // alerted before anything is sent
    | Confirmed(bookingId: string)  // sent on to the confirmation screen
    | BookingRefused        // "Booking failed, please try again."
    | BookingError          // "Error during booking process"

  // ---------------------------------------------------------------- the screen

  /** The checkout form, opened with the summary the details screen handed over. */
  class CheckoutScreen {
    const data: CheckoutSummary
    var fullName: string
    var email: string
    var promo: string
    var agreed: bool
    var discountedTotal: int
    var promoValid: bool

    function PromoStatus(): PromoState
      reads this
    {
      PromoState(discountedTotal, promoValid)
    }

    /** The form opens empty, with the handed-over total and no promo applied. */
    constructor (summary: CheckoutSummary)
      ensures data == summary
      ensures fullName == "" && email == "" && promo == "" && !agreed
      ensures discountedTotal == summary.total && !promoValid
    {
      data := summary;
      fullName, email, promo, agreed := "", "", "", false;
      discountedTotal, promoValid := summary.total, false;
    }

    method SetFullName(value: string)
      modifies this`fullName
      ensures fullName == value
    {
      fullName := value;
    }

    method SetEmail(value: string)
      modifies this`email
      ensures email == value
    {
      email := value;
    }

    method SetPromoCode(value: string)
      modifies this`promo
      ensures promo == value
    {
      promo := value;
    }

    method SetAgreed(value: bool)
      modifies this`agreed
      ensures agreed == value
    {
      agreed := value;
    }

    /** The "Apply" button, with the validator's answer as an input. */
    method ApplyPromo(reply: PromoReply)
      modifies this`discountedTotal, this`promoValid
      ensures PromoStatus() == AfterPromo(data.total, old(PromoStatus()), promo, reply)
    {
      if IsBlank(promo) {
        return;
      }
      match reply {
        case Accepted(p) =>
          var newTotal := Discounted(data.total, p);
          discountedTotal := newTotal;
          promoValid := true;
        case Rejected =>
          promoValid := false;
        case RequestFailed =>
      }
    }

    /** The "Pay and Confirm" button, with the booking API's answer as an input: an
        incomplete form sends nothing; a complete one sends exactly the name, email,
        experience and slot, and the answer decides where the user goes. */
    method Confirm(reply: BookingReply) returns (sent: Option<BookingRequest>, outcome: ConfirmOutcome)
      ensures sent.None? <==> !IsFormComplete(fullName, email, agreed)
      ensures outcome.FormIncomplete? <==> sent.None?
      ensures sent.Some? ==> sent.value == BookingRequestFor(fullName, email, data)
      ensures sent.Some? ==> match reply
        case Created(id) => outcome == Confirmed(id)
        case NotCreated => outcome == BookingRefused
        case BookingFailed => outcome == BookingError
    {
      if !IsFormComplete(fullName, email, agreed) {
        return None, FormIncomplete;
      }
      sent := Some(BookingRequestFor(fullName, email, data));
      match reply {
        case Created(id) => outcome := Confirmed(id);
        case NotCreated => outcome := BookingRefused;
        case BookingFailed => outcome := BookingError;
      }
    }
  }
}
