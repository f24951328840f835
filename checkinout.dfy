/** The check-in/check-out desk: look a booking up by its id, then check in a
    confirmed booking or check out a checked-in one. Each action sets a
    loading flag, and a delayed callback completes it; the callback is one
    atomic step here. */
module CheckInOut {
  import opened Options
  import opened Stays

  const Confirmed: string := "confirmed"
  const CheckedIn: string := "checked-in"
  const CheckedOut: string := "checked-out"

  /** Where check-out and "View Invoice" navigate. */
  const InvoiceRoute: string := "/invoice"

  /** The desk's two mock bookings. */
  function MockBookings(): seq<Stay> {
    [ Stay("BK001", "101", "Deluxe Room", Confirmed, DayStart(19737), DayStart(19740), 2,
           "John Doe", 597, ["WiFi", "Parking", "Breakfast", "Room Service"]),
      Stay("BK002", "205", "Suite", CheckedIn, DayStart(19736), DayStart(19738), 1,
           "Jane Smith", 798, ["WiFi", "Breakfast"]) ]
  }

  /** The position of the first booking whose id is exactly `id`, or `|bs|`
      when there is none. */
  function FirstIndexOf(bs: seq<Stay>, id: string): (i: nat)
    ensures i <= |bs|
    ensures i < |bs| ==> bs[i].id == id
    ensures forall j :: 0 <= j < i ==> bs[j].id != id
    decreases |bs|
  {
    if bs == [] then 0
    else if bs[0].id == id then 0
    else 1 + FirstIndexOf(bs[1..], id)
  }

  /** `bookings.find(b => b.id === id)`: the first booking with exactly that
      id (case-sensitive), or nothing. */
  function FindById(bs: seq<Stay>, id: string): (r: Option<Stay>)
    ensures r.Some? ==> r.value in bs && r.value.id == id
    ensures r.Some? ==> exists i :: 0 <= i < |bs| && bs[i] == r.value && forall j :: 0 <= j < i ==> bs[j].id != id
    ensures r.None? <==> forall b :: b in bs ==> b.id != id
  {
    var i := FirstIndexOf(bs, id);
    if i < |bs| then Some(bs[i]) else None
  }

  /** "BK001" finds John Doe's booking, while "bk001" finds nothing: the
      comparison is exact. */
  lemma LookupIsExact()
    ensures FindById(MockBookings(), "BK001") == Some(MockBookings()[0])
    ensures FindById(MockBookings(), "BK002") == Some(MockBookings()[1])
    ensures FindById(MockBookings(), "bk001") == None
  {
    assert MockBookings()[0].id == "BK001";
    assert MockBookings()[1].id == "BK002";
    assert MockBookings()[0].id != "bk001" && MockBookings()[1].id != "bk001";
  }

  /** An outlined badge: its label and the colour classes it adds, none for
      an unknown status. */
  datatype Badge = Badge(text: string, classes: string)

  /** `getStatusBadge`: blue for a confirmed booking, green once checked in,
      gray once checked out, and a plain "Unknown" otherwise. */
  function StatusBadge(status: string): (badge: Badge)
    ensures status == Confirmed ==> badge == Badge("Confirmed", "bg-blue-50 text-blue-700")
    ensures status == CheckedIn ==> badge == Badge("Checked In", "bg-green-50 text-green-700")
    ensures status == CheckedOut ==> badge == Badge("Checked Out", "bg-gray-50 text-gray-700")
    ensures badge.text == "Unknown" <==> status !in [Confirmed, CheckedIn, CheckedOut]
    ensures badge.classes == "" <==> status !in [Confirmed, CheckedIn, CheckedOut]
  {
    if status == Confirmed then Badge("Confirmed", "bg-blue-50 text-blue-700")
    else if status == CheckedIn then Badge("Checked In", "bg-green-50 text-green-700")
    else if status == CheckedOut then Badge("Checked Out", "bg-gray-50 text-gray-700")
    else Badge("Unknown", "")
  }

  /** The icons of `getServiceIcon`. */
  datatype Icon = WifiIcon | CarIcon | CoffeeIcon | UtensilsIcon | CheckCircleIcon

  function ServiceIcon(service: string): (icon: Icon)
    ensures service == "WiFi" <==> icon == WifiIcon
    ensures service == "Parking" <==> icon == CarIcon
    ensures service == "Breakfast" <==> icon == CoffeeIcon
    ensures service == "Room Service" <==> icon == UtensilsIcon
  {
    match service
    case "WiFi" => WifiIcon
    case "Parking" => CarIcon
    case "Breakfast" => CoffeeIcon
    case "Room Service" => UtensilsIcon
    case _ => CheckCircleIcon
  }

  /** The panel of the "Check-in/Out" tab for a booking status. */
  datatype Panel = CheckInPanel | CheckOutPanel | InvoicePanel | NoPanel

  /** Each panel is offered for exactly one status, and other statuses get
      no action at all. */
  function PanelFor(status: string): (p: Panel)
    ensures p == CheckInPanel <==> status == Confirmed
    ensures p == CheckOutPanel <==> status == CheckedIn
    ensures p == InvoicePanel <==> status == CheckedOut
  {
    if status == Confirmed then CheckInPanel
    else if status == CheckedIn then CheckOutPanel
    else if status == CheckedOut then InvoicePanel
    else NoPanel
  }

  /** The callback a click has scheduled, with the booking it captured at
      click time. */
  datatype Timer = Idle | CheckInDue(captured: Stay) | CheckOutDue(captured: Stay)

  /** Changing the status of a copy of a listed booking gives another copy. */
  lemma StatusCopy(bs: seq<Stay>, b: Stay, i: int, s: string)
    requires 0 <= i < |bs| && b == bs[i].(status := b.status)
    ensures b.(status := s) == bs[i].(status := s)
  {
  }

  class CheckInOutPage {
    /** The mock list; being a constant, nothing on the page can change it. */
    const bookings: seq<Stay> := MockBookings()
    var bookingId: string
    var selected: Option<Stay>
    var isLoading: bool
    var timer: Timer

    /** `b` is one of the listed bookings, with at most its status changed. */
    ghost predicate Listed(b: Stay)
      reads this
    {
      exists i :: 0 <= i < |bookings| && b == bookings[i].(status := b.status)
    }

    /** The loading flag is on exactly while a callback is pending; the
        selection and any captured booking are copies of listed bookings; a
        pending check-in captured a confirmed booking and a pending check-out a
        checked-in one. */
    ghost predicate Valid()
      reads this
    {
      && (isLoading <==> !timer.Idle?)
      && (selected.Some? ==> Listed(selected.value))
      && (timer.CheckInDue? ==> Listed(timer.captured) && timer.captured.status == Confirmed)
      && (timer.CheckOutDue? ==> Listed(timer.captured) && timer.captured.status == CheckedIn)
    }

    constructor ()
      ensures Valid()
      ensures bookingId == "" && selected == None && !isLoading && timer == Idle
    {
      bookingId := "";
      selected := None;
      isLoading := false;
      timer := Idle;
    }

    /** The panel the page shows for the selected booking. */
    function Shown(): Panel
      reads this
    {
      if selected.Some? then PanelFor(selected.value.status) else NoPanel
    }

    /** Typing in the booking id field. */
    method EnterBookingId(s: string)
      requires Valid()
      modifies this`bookingId
      ensures Valid() && bookingId == s
    {
      bookingId := s;
    }

    /** `handleSearch`: select the booking with exactly the entered id; on a
        miss report it and keep the current selection. */
    method Search() returns (found: bool)
      requires Valid()
      modifies this`selected
      ensures Valid()
      ensures found <==> exists b :: b in bookings && b.id == bookingId
      ensures found ==> selected.Some? && selected.value in bookings && selected.value.id == bookingId
      ensures selected == (if found then FindById(bookings, bookingId) else old(selected))
    {
      var r := FindById(bookings, bookingId);
      found := r.Some?;
      if found {
        var i := FirstIndexOf(bookings, bookingId);
        assert bookings[i] == bookings[i].(status := bookings[i].status);
        selected := r;
      }
    }

    /** The "Check In Now" click: only on the check-in panel, and only while
        no action is pending (the button is disabled while loading). */
    method BeginCheckIn()
      requires Valid() && Shown() == CheckInPanel && !isLoading
      modifies this`isLoading, this`timer
      ensures Valid() && isLoading
      ensures timer == CheckInDue(selected.value)
    {
      isLoading := true;
      timer := CheckInDue(selected.value);
    }

    /** The check-in callback: loading ends and the selection becomes the
        captured booking with status "checked-in", every other field kept. */
    method CompleteCheckIn()
      requires Valid() && timer.CheckInDue?
      modifies this`isLoading, this`timer, this`selected
      ensures Valid() && !isLoading && timer == Idle
      ensures old(timer.captured.status) == Confirmed
      ensures selected == Some(old(timer.captured).(status := CheckedIn))
    {
      var b := timer.captured;
      var i :| 0 <= i < |bookings| && b == bookings[i].(status := b.status);
      StatusCopy(bookings, b, i, CheckedIn);
      isLoading := false;
      timer := Idle;
      selected := Some(b.(status := CheckedIn));
    }

    /** The "Check Out" click: only on the check-out panel, and only while no
        action is pending. */
    method BeginCheckOut()
      requires Valid() && Shown() == CheckOutPanel && !isLoading
      modifies this`isLoading, this`timer
      ensures Valid() && isLoading
      ensures timer == CheckOutDue(selected.value)
    {
      isLoading := true;
      timer := CheckOutDue(selected.value);
    }

    /** The check-out callback: the selection becomes the captured booking
        with status "checked-out", and the page navigates to the invoice with
        the booking as captured, which still says "checked-in". */
    method CompleteCheckOut() returns (route: string, invoiceBooking: Stay)
      requires Valid() && timer.CheckOutDue?
      modifies this`isLoading, this`timer, this`selected
      ensures Valid() && !isLoading && timer == Idle
      ensures route == InvoiceRoute
      ensures invoiceBooking == old(timer.captured) && invoiceBooking.status == CheckedIn
      ensures selected == Some(invoiceBooking.(status := CheckedOut))
    {
      var b := timer.captured;
      var i :| 0 <= i < |bookings| && b == bookings[i].(status := b.status);
      StatusCopy(bookings, b, i, CheckedOut);
      isLoading := false;
      timer := Idle;
      selected := Some(b.(status := CheckedOut));
      route, invoiceBooking := InvoiceRoute, b;
    }

    /** The "View Invoice" click on the checked-out panel hands the invoice
        the selected booking. */
    method ViewInvoice() returns (route: string, invoiceBooking: Stay)
      requires Valid() && Shown() == InvoicePanel
      ensures route == InvoiceRoute
      ensures invoiceBooking == selected.value && invoiceBooking.status == CheckedOut
    {
      route, invoiceBooking := InvoiceRoute, selected.value;
    }
  }
}
