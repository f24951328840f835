/** The guest's "My Bookings" page: a list of reservations filtered by a
    search term and a status, a badge per status, the actions offered on
    each card, and three summary figures over the whole list. */
module CustomerBookings {
  import opened Options
  import opened Text
  import Seqs
  import Uri
  import Booking

  /** A reservation as the page lists it. Dates are kept as the strings the
      page formats for display; amounts are whole dollars. */
  datatype Reservation = Reservation(
    id: string,
    roomName: string,
    roomNumber: string,
    checkIn: string,
    checkOut: string,
    guests: nat,
    totalAmount: int,
    status: string,
    bookingDate: string,
    nights: nat,
    amenities: seq<string>)

  /** The page's four mock reservations. */
  function MockReservations(): seq<Reservation> {
    [ Reservation("BK001", "Deluxe Room", "304", "2024-12-20", "2024-12-23", 2, 450, "confirmed",
                  "2024-11-15", 3, ["Free WiFi", "AC", "Mini Bar"]),
      Reservation("BK002", "Executive Suite", "501", "2024-12-25", "2024-12-28", 4, 897, "upcoming",
                  "2024-11-20", 3, ["Free WiFi", "AC", "Mini Bar", "Kitchen", "Living Area"]),
      Reservation("BK003", "Standard Room", "205", "2024-10-15", "2024-10-18", 2, 297, "completed",
                  "2024-09-10", 3, ["Free WiFi", "AC"]),
      Reservation("BK004", "Deluxe Room", "306", "2024-09-05", "2024-09-07", 2, 300, "completed",
                  "2024-08-20", 2, ["Free WiFi", "AC", "Mini Bar"]) ]
  }

  /** The status filter's "All Bookings" choice, which is also its initial
      value. */
  const AllStatuses: string := "all"

  /** The term occurs, ignoring case, in the room name or in the id. */
  predicate MatchesSearch(b: Reservation, term: string) {
    IncludesIgnoringCase(b.roomName, term) || IncludesIgnoringCase(b.id, term)
  }

  predicate MatchesStatus(b: Reservation, statusFilter: string) {
    statusFilter == AllStatuses || b.status == statusFilter
  }

  predicate Matches(b: Reservation, term: string, statusFilter: string) {
    MatchesSearch(b, term) && MatchesStatus(b, statusFilter)
  }

  /** The filter callback, and its negation. */
  function Criteria(term: string, statusFilter: string): Reservation -> bool {
    b => Matches(b, term, statusFilter)
  }

  function Rejected(term: string, statusFilter: string): Reservation -> bool {
    b => !Matches(b, term, statusFilter)
  }

  /** `filteredBookings`: the reservations that match both the search and
      the status filter, in their listed order. */
  function FilteredBookings(bs: seq<Reservation>, term: string, statusFilter: string): (r: seq<Reservation>)
    ensures forall b :: b in r <==> b in bs && Matches(b, term, statusFilter)
    ensures Seqs.IsSubsequence(r, bs)
    ensures |r| == |Seqs.Positions(bs, Criteria(term, statusFilter))|
  {
    Seqs.FilterMembership(bs, Criteria(term, statusFilter));
    Seqs.FilterCount(bs, Criteria(term, statusFilter));
    Seqs.FilterIsSubsequence(bs, Criteria(term, statusFilter));
    Seqs.Filter(bs, Criteria(term, statusFilter))
  }

  /** With no search term and "All Bookings" every reservation is listed. */
  lemma NoCriteriaKeepsAll(bs: seq<Reservation>)
    ensures FilteredBookings(bs, "", AllStatuses) == bs
  {
    forall k | 0 <= k < |bs|
      ensures Criteria("", AllStatuses)(bs[k])
    {
      IncludesEmpty(Lower(bs[k].roomName));
    }
    Seqs.FilterKeepsAll(bs, Criteria("", AllStatuses));
  }

  /** The search ignores the case of the term. */
  lemma SearchIgnoresCaseOfTerm(bs: seq<Reservation>, term: string, statusFilter: string)
    ensures FilteredBookings(bs, Lower(term), statusFilter) == FilteredBookings(bs, term, statusFilter)
  {
    forall k | 0 <= k < |bs|
      ensures Criteria(Lower(term), statusFilter)(bs[k]) == Criteria(term, statusFilter)(bs[k])
    {
      IgnoringCaseOfTerm(bs[k].roomName, term);
      IgnoringCaseOfTerm(bs[k].id, term);
    }
    Seqs.FilterCongruent(bs, Criteria(Lower(term), statusFilter), Criteria(term, statusFilter));
  }

  /** The two texts of the empty list. */
  const NoMatchesHint: string := "Try adjusting your search or filter criteria"
  const NoBookingsYet: string := "You haven't made any bookings yet. Start planning your next stay!"

  /** The hint under "No bookings found": a non-empty term or a status other
      than "all" means the criteria are to blame. */
  function EmptyStateMessage(term: string, statusFilter: string): (msg: string)
    ensures msg == NoMatchesHint <==> term != "" || statusFilter != AllStatuses
    ensures msg == NoBookingsYet <==> term == "" && statusFilter == AllStatuses
  {
    if term != "" || statusFilter != AllStatuses then NoMatchesHint else NoBookingsYet
  }

  /** The "no bookings yet" text appears only when there really are none. */
  lemma EmptyStateIsAccurate(bs: seq<Reservation>, term: string, statusFilter: string)
    requires FilteredBookings(bs, term, statusFilter) == []
    ensures EmptyStateMessage(term, statusFilter) == NoBookingsYet ==> bs == []
  {
    if EmptyStateMessage(term, statusFilter) == NoBookingsYet {
      NoCriteriaKeepsAll(bs);
    }
  }

  /** The four statuses with their own badge. */
  const KnownStatuses: seq<string> := ["confirmed", "upcoming", "completed", "cancelled"]

  datatype BadgeStyle = PrimaryBadge | BlueBadge | SecondaryBadge | DestructiveBadge

  datatype StatusBadge = StatusBadge(text: string, style: BadgeStyle)

  /** `getStatusBadge`: a known status is shown capitalised in its own style;
      any other status is shown verbatim in the secondary style. */
  function StatusBadgeOf(status: string): (badge: StatusBadge)
    ensures status == "confirmed" ==> badge == StatusBadge("Confirmed", PrimaryBadge)
    ensures status == "upcoming" ==> badge == StatusBadge("Upcoming", BlueBadge)
    ensures status == "completed" ==> badge == StatusBadge("Completed", SecondaryBadge)
    ensures status == "cancelled" ==> badge == StatusBadge("Cancelled", DestructiveBadge)
    ensures status in KnownStatuses ==> |badge.text| > 0 && IsUpper(badge.text[0]) && Lower(badge.text) == status
    ensures status !in KnownStatuses ==> badge == StatusBadge(status, SecondaryBadge)
    ensures badge.style == PrimaryBadge <==> status == "confirmed"
    ensures badge.style == BlueBadge <==> status == "upcoming"
    ensures badge.style == DestructiveBadge <==> status == "cancelled"
  {
    match status
    case "confirmed" =>
      assert Lower("Confirmed") == "confirmed";
      StatusBadge("Confirmed", PrimaryBadge)
    case "upcoming" =>
      assert Lower("Upcoming") == "upcoming";
      StatusBadge("Upcoming", BlueBadge)
    case "completed" =>
      assert Lower("Completed") == "completed";
      StatusBadge("Completed", SecondaryBadge)
    case "cancelled" =>
      assert Lower("Cancelled") == "cancelled";
      StatusBadge("Cancelled", DestructiveBadge)
    case _ => StatusBadge(status, SecondaryBadge)
  }

  /** A string without capital letters. */
  predicate NoCapitals(s: string) {
    forall i :: 0 <= i < |s| ==> !IsUpper(s[i])
  }

  /** Among statuses written without capitals, different statuses get
      different badges. */
  lemma BadgeDistinguishesStatuses(s: string, t: string)
    requires NoCapitals(s) && NoCapitals(t)
    requires StatusBadgeOf(s) == StatusBadgeOf(t)
    ensures s == t
  {
  }

  /** A capitalised status outside the four is shown exactly like the known
      one: "Completed" and "completed" share a badge. */
  lemma CapitalisedStatusLooksKnown()
    ensures StatusBadgeOf("Completed") == StatusBadgeOf("completed")
  {
    assert "Completed" !in KnownStatuses;
  }

  /** `totalAmount` of one reservation. */
  function Amount(b: Reservation): int {
    b.totalAmount
  }

  /** "Total Spent": `bookings.reduce((sum, b) => sum + b.totalAmount, 0)`;
      nothing spent on an empty list, and no negative amounts give no
      negative total. */
  function TotalSpent(bs: seq<Reservation>): (total: int)
    ensures bs == [] ==> total == 0
    ensures (forall k :: 0 <= k < |bs| ==> bs[k].totalAmount >= 0) ==> total >= 0
  {
    if forall k :: 0 <= k < |bs| ==> bs[k].totalAmount >= 0 then
      Seqs.SumNonNegative(bs, Amount);
      Seqs.Sum(bs, Amount)
    else
      Seqs.Sum(bs, Amount)
  }

  /** The total is over the whole list: it is the spend of the reservations
      the filters show plus the spend of those they hide. */
  lemma TotalSpentCoversHiddenBookings(bs: seq<Reservation>, term: string, statusFilter: string)
    ensures TotalSpent(bs)
         == TotalSpent(FilteredBookings(bs, term, statusFilter))
          + TotalSpent(Seqs.Filter(bs, Rejected(term, statusFilter)))
  {
    Seqs.SumPartition(bs, Amount, Criteria(term, statusFilter), Rejected(term, statusFilter));
  }

  /** With no negative amounts, what the filters show never adds up to more
      than the figure shown. */
  lemma FilteredSpendAtMostTotal(bs: seq<Reservation>, term: string, statusFilter: string)
    requires forall k :: 0 <= k < |bs| ==> bs[k].totalAmount >= 0
    ensures TotalSpent(FilteredBookings(bs, term, statusFilter)) <= TotalSpent(bs)
  {
    TotalSpentCoversHiddenBookings(bs, term, statusFilter);
    var hidden := Seqs.Filter(bs, Rejected(term, statusFilter));
    Seqs.FilterMembership(bs, Rejected(term, statusFilter));
    forall k | 0 <= k < |hidden| ensures Amount(hidden[k]) >= 0 {
      assert hidden[k] in bs;
    }
    Seqs.SumNonNegative(hidden, Amount);
  }

  /** A stay still ahead: "upcoming" or "confirmed". */
  predicate IsUpcoming(b: Reservation) {
    b.status == "upcoming" || b.status == "confirmed"
  }

  /** "Upcoming Stays": `bookings.filter(upcoming or confirmed).length`, the
      number of positions holding such a reservation. */
  function UpcomingCount(bs: seq<Reservation>): (n: nat)
    ensures n == |Seqs.Positions(bs, IsUpcoming)|
    ensures n <= |bs|
  {
    Seqs.FilterCount(bs, IsUpcoming);
    |Seqs.Filter(bs, IsUpcoming)|
  }

  /** The summary row: "Total Bookings", "Total Spent" and "Upcoming Stays",
      all three over the whole list whatever the filters. */
  datatype Summary = Summary(totalBookings: nat, totalSpent: int, upcomingStays: nat)

  function SummaryOf(bs: seq<Reservation>): (s: Summary)
    ensures s.upcomingStays <= s.totalBookings == |bs|
    ensures s.totalSpent == TotalSpent(bs)
    ensures s.upcomingStays == |Seqs.Positions(bs, IsUpcoming)|
  {
    Summary(|bs|, TotalSpent(bs), UpcomingCount(bs))
  }

  /** The mock list: 4 bookings, $1944 spent, 2 stays ahead. */
  lemma MockSummary()
    ensures SummaryOf(MockReservations()) == Summary(4, 1944, 2)
  {
    var bs := MockReservations();
    assert bs[..4] == bs && bs[..4][..3] == bs[..3] && bs[..3][..2] == bs[..2];
    assert bs[..2][..1] == bs[..1] && bs[..1][..0] == [];
    assert Seqs.Filter(bs[..1], IsUpcoming) == [bs[0]];
    assert Seqs.Filter(bs[..2], IsUpcoming) == [bs[0], bs[1]];
    assert Seqs.Filter(bs[..3], IsUpcoming) == [bs[0], bs[1]];
    assert Seqs.Sum(bs[..1], Amount) == 450;
    assert Seqs.Sum(bs[..2], Amount) == 1347;
    assert Seqs.Sum(bs[..3], Amount) == 1644;
  }

  /** The buttons at the foot of a card, with where each navigates. */
  datatype Action =
    | ViewInvoice(route: string)
    | CheckInOut(route: string)
    | ModifyBooking(route: string)
    | BookAgain(route: string)

  /** An id holding no `&`, so that it reads back whole from a query. */
  predicate Unsplit(id: string) {
    forall i :: 0 <= i < |id| ==> id[i] != '&'
  }

  /** "View Invoice": the invoice page, with the id in its `booking`
      parameter. */
  function InvoiceLink(id: string): string {
    "/invoice?booking=" + id
  }

  /** "Check-in/out": the front desk page, with the id in its `booking`
      parameter. */
  function CheckInOutLink(id: string): string {
    "/checkinout?booking=" + id
  }

  /** "Modify Booking": the booking form, with the id in an `edit`
      parameter. */
  function ModifyLink(id: string): string {
    "/booking?edit=" + id
  }

  /** "Book Again": the booking form, with the room's name, encoded, in its
      `room` parameter. */
  function BookAgainLink(roomName: string): string {
    "/booking?room=" + Uri.EncodeURIComponent(roomName)
  }

  /** The invoice link's query is `booking=<id>`, and an id without `&`
      reads back from it. */
  lemma InvoiceLinkReadsBack(id: string)
    ensures InvoiceLink(id)[..8] == "/invoice" && Uri.QueryOf(InvoiceLink(id)) == "booking=" + id
    ensures Unsplit(id) ==> Uri.SearchParam(Uri.QueryOf(InvoiceLink(id)), "booking") == Uri.FormDecode(id)
  {
    assert InvoiceLink(id) == "/invoice" + "?" + "booking" + "=" + id;
    Uri.RawParamReadsBack("/invoice", "booking", id, "booking");
  }

  /** The check-in/out link's query is `booking=<id>`, and an id without `&`
      reads back from it. */
  lemma CheckInOutLinkReadsBack(id: string)
    ensures CheckInOutLink(id)[..11] == "/checkinout" && Uri.QueryOf(CheckInOutLink(id)) == "booking=" + id
    ensures Unsplit(id) ==> Uri.SearchParam(Uri.QueryOf(CheckInOutLink(id)), "booking") == Uri.FormDecode(id)
  {
    assert CheckInOutLink(id) == "/checkinout" + "?" + "booking" + "=" + id;
    Uri.RawParamReadsBack("/checkinout", "booking", id, "booking");
  }

  /** The actions of a card: "View Invoice" always comes first; a stay still
      ahead offers "Check-in/out" and "Modify Booking", any other offers
      "Book Again" instead. */
  function ActionsFor(b: Reservation): (actions: seq<Action>)
    ensures |actions| == (if IsUpcoming(b) then 3 else 2)
    ensures actions[0] == ViewInvoice(InvoiceLink(b.id))
    ensures IsUpcoming(b) ==> actions[1] == CheckInOut(CheckInOutLink(b.id)) && actions[2] == ModifyBooking(ModifyLink(b.id))
    ensures !IsUpcoming(b) ==> actions[1] == BookAgain(BookAgainLink(b.roomName))
    ensures (exists a :: a in actions && a.CheckInOut?) <==> IsUpcoming(b)
    ensures (exists a :: a in actions && a.ModifyBooking?) <==> IsUpcoming(b)
    ensures (exists a :: a in actions && a.BookAgain?) <==> !IsUpcoming(b)
    ensures forall a :: a in actions && a.ViewInvoice? ==> a.route == InvoiceLink(b.id)
    ensures forall a :: a in actions && a.CheckInOut? ==> a.route == CheckInOutLink(b.id)
    ensures forall a :: a in actions && a.ModifyBooking? ==> a.route == ModifyLink(b.id)
    ensures forall a :: a in actions && a.BookAgain? ==> a.route == BookAgainLink(b.roomName)
  {
    if IsUpcoming(b) then
      var r := [ViewInvoice(InvoiceLink(b.id)), CheckInOut(CheckInOutLink(b.id)), ModifyBooking(ModifyLink(b.id))];
      assert r[1] in r && r[2] in r;
      r
    else
      var r := [ViewInvoice(InvoiceLink(b.id)), BookAgain(BookAgainLink(b.roomName))];
      assert r[1] in r;
      r
  }

  /** "Book Again" opens the booking form on the same room, whatever
      characters its name holds, at the form's default rate, since the link
      carries no price. */
  lemma BookAgainOpensSameRoom(roomName: string)
    requires roomName != ""
    ensures Uri.SearchParam(Uri.QueryOf(BookAgainLink(roomName)), "room") == Some(roomName)
    ensures Booking.RoomTypeOf(Uri.SearchParam(Uri.QueryOf(BookAgainLink(roomName)), "room")) == roomName
    ensures Uri.SearchParam(Uri.QueryOf(BookAgainLink(roomName)), "price") == None
  {
    var e := Uri.EncodeURIComponent(roomName);
    assert "room" == ['r', 'o', 'o', 'm'];
    assert BookAgainLink(roomName) == "/booking" + "?" + ("room" + "=" + e);
    Uri.QueryAfterPath("/booking", "room" + "=" + e);
    Uri.SingleParam("room", e, "price");
    Uri.FormDecodeInvertsEncode(roomName);
  }

  /** "Modify Booking" opens the form with the id under `edit` and no room
      in the query, so it shows the default room rather than the booked
      one. */
  lemma ModifyOpensDefaultRoom(id: string)
    requires Unsplit(id)
    ensures Uri.SearchParam(Uri.QueryOf(ModifyLink(id)), "edit") == Uri.FormDecode(id)
    ensures Uri.SearchParam(Uri.QueryOf(ModifyLink(id)), "room") == None
    ensures Booking.RoomTypeOf(Uri.SearchParam(Uri.QueryOf(ModifyLink(id)), "room")) == Booking.DefaultRoomType
  {
    assert "edit" == ['e', 'd', 'i', 't'];
    assert ModifyLink(id) == "/booking" + "?" + ("edit" + "=" + id);
    Uri.QueryAfterPath("/booking", "edit" + "=" + id);
    Uri.SingleParam("edit", id, "room");
  }
}
