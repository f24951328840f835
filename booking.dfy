/** The booking form: the room and nightly rate taken from the query string,
    the two date pickers, the guest count, the price summary and the submit
    button that simulates payment. Money is in integer cents; the nightly rate
    is a whole number of dollars, as `parseInt` produces. */
module Booking {
  import opened Options
  import opened Stays

  /** Room shown when the `room` query parameter is absent or empty. */
  const DefaultRoomType: string := "Standard Room"

  /** Nightly rate in dollars when the `price` query parameter is absent or
      empty (the string "199" parsed). */
  const DefaultRate: int := 199

  /** Taxes and fees, as a percentage of the room total. */
  const TaxPercent: int := 15

  /** Where the page goes once the simulated payment completes. */
  const AfterBookingRoute: string := "/customer-dashboard"

  /** `searchParams.get('room') || 'Standard Room'`. */
  function RoomTypeOf(param: Option<string>): (r: string)
    ensures param.Some? && param.value != "" ==> r == param.value
    ensures param.None? || param.value == "" ==> r == DefaultRoomType
  {
    if param.Some? && param.value != "" then param.value else DefaultRoomType
  }

  /** `parseInt(searchParams.get('price') || '199')`, with the parameter given
      already parsed (`None` when it is absent or empty). */
  function RoomRateOf(param: Option<int>): (rate: int)
    ensures param.Some? ==> rate == param.value
    ensures param.None? ==> rate == DefaultRate
  {
    param.GetOr(DefaultRate)
  }

  /** The summary's "Subtotal" line: nights times the nightly rate, in cents. */
  function SubtotalCents(nights: int, rate: int): int {
    nights * rate * 100
  }

  /** The summary's "Taxes & Fees" line: `subtotal * 0.15` dollars, which is
      exactly `subtotal * 15` cents for a whole-dollar subtotal. */
  function TaxCents(nights: int, rate: int): int {
    nights * rate * TaxPercent
  }

  /** `calculateTotal()`: 0 while either date is missing, otherwise the room
      total for the ceiling number of nights plus 15% taxes, in cents. */
  function CalculateTotal(checkIn: Option<int>, checkOut: Option<int>, rate: int): (cents: int)
    ensures checkIn.None? || checkOut.None? ==> cents == 0
    ensures checkIn.Some? && checkOut.Some? ==>
      cents * 100 == SubtotalCents(Nights(checkIn.value, checkOut.value), rate) * (100 + TaxPercent)
    ensures checkIn.Some? && checkOut.Some? && checkIn.value < checkOut.value && rate >= 0 ==>
      cents >= rate * (100 + TaxPercent)
  {
    if checkIn.None? || checkOut.None? then 0
    else
      var nights := Nights(checkIn.value, checkOut.value);
      var roomTotal := nights * rate;
      var taxes := roomTotal * TaxPercent;
      roomTotal * 100 + taxes
  }

  /** The summary lines add up: the displayed subtotal plus the displayed
      taxes is the displayed total. */
  lemma SummaryAddsUp(checkIn: int, checkOut: int, rate: int)
    ensures SubtotalCents(Nights(checkIn, checkOut), rate) + TaxCents(Nights(checkIn, checkOut), rate)
         == CalculateTotal(Some(checkIn), Some(checkOut), rate)
  {
  }

  /** The worked example: 2024-01-15 to 2024-01-18 at $199 is 3 nights,
      $597.00 subtotal, $89.55 taxes and $686.55 in all. */
  lemma ThreeNightExample()
    ensures Nights(DayStart(19737), DayStart(19740)) == 3
    ensures SubtotalCents(3, 199) == 59700 && TaxCents(3, 199) == 8955
    ensures CalculateTotal(Some(DayStart(19737)), Some(DayStart(19740)), 199) == 68655
  {
    NightsBetweenMidnights(19737, 3);
  }

  /** The check-in calendar disables every date before now. */
  function CheckInSelectable(date: int, now: int): (selectable: bool)
    ensures selectable <==> now <= date
  {
    !(date < now)
  }

  /** The check-out calendar disables every date up to and including the
      chosen check-in, or up to now when no check-in is chosen yet. */
  function CheckOutSelectable(date: int, checkIn: Option<int>, now: int): (selectable: bool)
    ensures checkIn.Some? ==> (selectable <==> checkIn.value < date)
    ensures checkIn.None? ==> (selectable <==> now < date)
  {
    !(date <= checkIn.GetOr(now))
  }

  /** A check-out picked after a check-in is strictly later, so the stay
      is at least one night and costs at least one night's rate with taxes. */
  lemma SelectedRangeIsOneNightOrMore(checkIn: int, checkOut: int, now: int, rate: int)
    requires CheckInSelectable(checkIn, now)
    requires CheckOutSelectable(checkOut, Some(checkIn), now)
    ensures checkIn >= now && Nights(checkIn, checkOut) >= 1
    ensures rate >= 0 ==> CalculateTotal(Some(checkIn), Some(checkOut), rate) >= rate * (100 + TaxPercent)
  {
  }

  /** The check-out guard is applied only when the check-out is picked.
      Picking a later check-in afterwards is not prevented, and the total then
      counts zero or negative nights: here check-in on day 3, check-out on
      day 2, which the pickers allow in that order. */
  lemma CheckInPickedLaterInvertsRange()
    ensures CheckInSelectable(DayStart(1), DayStart(0))
    ensures CheckOutSelectable(DayStart(2), Some(DayStart(1)), DayStart(0))
    ensures CheckInSelectable(DayStart(3), DayStart(0))
    ensures Nights(DayStart(3), DayStart(2)) == -1
    ensures CalculateTotal(Some(DayStart(3)), Some(DayStart(2)), DefaultRate) == -22885
  {
    NightsBetweenMidnights(3, -1);
  }

  /** The state of the booking page. */
  class BookingPage {
    const roomType: string
    const rate: int
    var checkIn: Option<int>
    var checkOut: Option<int>
    var guests: string
    var isLoading: bool

    constructor (roomParam: Option<string>, priceParam: Option<int>)
      ensures roomType == RoomTypeOf(roomParam) && rate == RoomRateOf(priceParam)
      ensures checkIn == None && checkOut == None
      ensures guests == "1" && !isLoading
    {
      roomType := RoomTypeOf(roomParam);
      rate := RoomRateOf(priceParam);
      checkIn, checkOut := None, None;
      guests := "1";
      isLoading := false;
    }

    /** The total shown on the submit button and in the summary. */
    function Total(): int
      reads this
    {
      CalculateTotal(checkIn, checkOut, rate)
    }

    /** The submit button is enabled only when not loading and both dates
        are chosen, and then the total shown is the form's total for those
        two dates. */
    function SubmitEnabled(): (enabled: bool)
      reads this
      ensures enabled <==> !isLoading && checkIn.Some? && checkOut.Some?
      ensures enabled ==> Total() * 100 == SubtotalCents(Nights(checkIn.value, checkOut.value), rate) * (100 + TaxPercent)
    {
      !isLoading && checkIn.Some? && checkOut.Some?
    }

    /** A click on a day of the check-in calendar: disabled days are ignored;
        a click on the day already chosen clears it, since the single-date
        calendar is not marked `required`; any other day becomes the
        check-in. */
    method PickCheckIn(date: int, now: int) returns (accepted: bool)
      modifies this
      ensures accepted == CheckInSelectable(date, now)
      ensures checkIn == (if !accepted then old(checkIn) else if old(checkIn) == Some(date) then None else Some(date))
      ensures accepted && old(checkIn) == Some(date) ==> !SubmitEnabled() && Total() == 0
      ensures checkOut == old(checkOut) && guests == old(guests) && isLoading == old(isLoading)
    {
      accepted := CheckInSelectable(date, now);
      if accepted {
        checkIn := if checkIn == Some(date) then None else Some(date);
      }
    }

    /** A click on a day of the check-out calendar: only days after the
        current check-in (or after now) are taken, so a taken check-out
        always gives at least one night against the current check-in; a
        click on the day already chosen clears it, as for the check-in. */
    method PickCheckOut(date: int, now: int) returns (accepted: bool)
      modifies this
      ensures accepted == CheckOutSelectable(date, checkIn, now)
      ensures checkOut == (if !accepted then old(checkOut) else if old(checkOut) == Some(date) then None else Some(date))
      ensures accepted && checkIn.Some? ==> Nights(checkIn.value, date) >= 1
      ensures accepted && old(checkOut) == Some(date) ==> !SubmitEnabled() && Total() == 0
      ensures checkIn == old(checkIn) && guests == old(guests) && isLoading == old(isLoading)
    {
      accepted := CheckOutSelectable(date, checkIn, now);
      if accepted {
        checkOut := if checkOut == Some(date) then None else Some(date);
      }
    }

    /** The guest selector offers "1" to "4". */
    method ChooseGuests(g: string)
      requires g in ["1", "2", "3", "4"]
      modifies this
      ensures guests == g
      ensures checkIn == old(checkIn) && checkOut == old(checkOut) && isLoading == old(isLoading)
    {
      guests := g;
    }

    /** `handleBooking` up to the delay: the button shows "Processing
        Payment..." and is disabled. */
    method Submit()
      requires SubmitEnabled()
      modifies this
      ensures isLoading && !SubmitEnabled()
      ensures checkIn == old(checkIn) && checkOut == old(checkOut) && guests == old(guests)
    {
      isLoading := true;
    }

    /** The delayed completion: loading ends and the page navigates to the
        customer dashboard. */
    method CompleteSubmit() returns (route: string)
      requires isLoading
      modifies this
      ensures !isLoading && route == AfterBookingRoute
      ensures checkIn == old(checkIn) && checkOut == old(checkOut) && guests == old(guests)
    {
      isLoading := false;
      route := AfterBookingRoute;
    }
  }
}
