/** The guest's room browser: a search by room name, a card per room with an
    availability badge, amenity chips and a "Book Now" button, and the link
    the button follows. */
module CustomerDashboard {
  import opened Options
  import opened Text
  import Seqs
  import Chips
  import Uri
  import Booking

  /** A room offered to guests. The rating is kept in tenths (4.8 is 48); the
      picture is left out. */
  datatype Offer = Offer(
    id: nat,
    name: string,
    price: nat,
    capacity: nat,
    amenities: seq<string>,
    available: bool,
    ratingTenths: nat,
    description: string)

  /** The page's three mock rooms; the suite is booked. */
  function MockOffers(): seq<Offer> {
    [ Offer(1, "Deluxe Room", 150, 2, ["Free WiFi", "AC", "Mini Bar"], true, 48,
            "Spacious room with city view and modern amenities"),
      Offer(2, "Standard Room", 99, 2, ["Free WiFi", "AC"], true, 45,
            "Comfortable room with essential amenities"),
      Offer(3, "Executive Suite", 299, 4, ["Free WiFi", "AC", "Mini Bar", "Kitchen", "Living Area"], false, 49,
            "Luxurious suite with separate living area and premium amenities") ]
  }

  /** Only the name is searched, ignoring case. */
  predicate NameMatches(r: Offer, term: string) {
    IncludesIgnoringCase(r.name, term)
  }

  function ByName(term: string): Offer -> bool {
    r => NameMatches(r, term)
  }

  /** `filteredRooms`: the rooms whose name contains the term, in order. */
  function FilteredOffers(rooms: seq<Offer>, term: string): (r: seq<Offer>)
    ensures forall x :: x in r <==> x in rooms && NameMatches(x, term)
    ensures Seqs.IsSubsequence(r, rooms)
    ensures |r| == |Seqs.Positions(rooms, ByName(term))|
  {
    Seqs.FilterMembership(rooms, ByName(term));
    Seqs.FilterCount(rooms, ByName(term));
    Seqs.FilterIsSubsequence(rooms, ByName(term));
    Seqs.Filter(rooms, ByName(term))
  }

  /** An empty search shows every room. */
  lemma EmptySearchShowsAll(rooms: seq<Offer>)
    ensures FilteredOffers(rooms, "") == rooms
  {
    forall k | 0 <= k < |rooms|
      ensures ByName("")(rooms[k])
    {
      IncludesEmpty(Lower(rooms[k].name));
    }
    Seqs.FilterKeepsAll(rooms, ByName(""));
  }

  /** Two rooms with the same name are shown or hidden together, whatever
      their price, type or availability. */
  lemma SearchSeesOnlyTheName(rooms: seq<Offer>, term: string, i: int, j: int)
    requires 0 <= i < |rooms| && 0 <= j < |rooms| && rooms[i].name == rooms[j].name
    ensures rooms[i] in FilteredOffers(rooms, term) <==> rooms[j] in FilteredOffers(rooms, term)
  {
  }

  /** What a room's card shows. */
  datatype Card = Card(badge: string, destructiveBadge: bool, button: string, buttonEnabled: bool)

  /** The badge says "Available" or "Booked", and the button is enabled and
      reads "Book Now" exactly when the room is available. */
  function CardFor(r: Offer): (c: Card)
    ensures c.buttonEnabled <==> r.available
    ensures c.badge == "Available" <==> r.available
    ensures c.badge == "Booked" <==> !r.available
    ensures c.destructiveBadge <==> !c.buttonEnabled
    ensures c.button == "Book Now" <==> c.buttonEnabled
    ensures c.button == "Not Available" <==> !c.buttonEnabled
  {
    if r.available then Card("Available", false, "Book Now", true)
    else Card("Booked", true, "Not Available", false)
  }

  /** The mock suite cannot be booked; the other two can. */
  lemma MockAvailability()
    ensures CardFor(MockOffers()[0]).buttonEnabled && CardFor(MockOffers()[1]).buttonEnabled
    ensures !CardFor(MockOffers()[2]).buttonEnabled && CardFor(MockOffers()[2]).badge == "Booked"
  {
  }

  /** The overflow chip of a card: "+k more" for k amenities not shown. */
  function MoreText(hidden: nat): string {
    "+" + DecimalString(hidden) + " more"
  }

  /** The overflow chip names how many amenities it stands for. */
  lemma MoreTextReadsBack(hidden: nat)
    ensures var t := MoreText(hidden);
      |t| >= 7 && t[0] == '+' && t[|t| - 5..] == " more" && DecimalValue(t[1..|t| - 5]) == hidden
  {
    var t := MoreText(hidden);
    assert t[1..|t| - 5] == DecimalString(hidden);
    assert t[|t| - 5..] == " more";
    DecimalRoundTrip(hidden);
  }

  /** The suite's five amenities show as three chips and "+2 more". */
  lemma SuiteChips()
    ensures Chips.AmenityChips(MockOffers()[2].amenities, MoreText)
         == [Chips.AmenityChip("Free WiFi"), Chips.AmenityChip("AC"), Chips.AmenityChip("Mini Bar"),
             Chips.MoreChip("+2 more")]
  {
    var a := MockOffers()[2].amenities;
    assert DecimalString(2) == "2";
    assert MoreText(2) == "+2 more";
    assert a[..3] == ["Free WiFi", "AC", "Mini Bar"];
  }

  /** The paths the application routes; anything else shows "not found". */
  const RoutedPaths: seq<string> := [
    "/", "/customer-login", "/customer-dashboard", "/customer-bookings", "/booking", "/checkinout",
    "/invoice", "/admin-login", "/admin-dashboard", "/admin-rooms", "/admin-reports", "/admin-notifications"]

  /** A link's path, the part before any `?`. */
  function PathOf(url: string): string {
    url[..Uri.IndexOf(url, '?')]
  }

  predicate Routed(url: string) {
    PathOf(url) in RoutedPaths
  }

  const BookRoomPrefix: string := "/customer-booking/"

  /** `handleBookRoom`, reachable only from an enabled button: the link
      `/customer-booking/<id>`. */
  function BookRoomTarget(r: Offer): (url: string)
    requires r.available
    ensures |url| > |BookRoomPrefix|
    ensures url[..|BookRoomPrefix|] == BookRoomPrefix && url[|BookRoomPrefix|..] == DecimalString(r.id)
  {
    var url := BookRoomPrefix + DecimalString(r.id);
    assert url[|BookRoomPrefix|..] == DecimalString(r.id);
    url
  }

  /** Different rooms lead to different links: the link names the room. */
  lemma BookRoomTargetNamesRoom(r1: Offer, r2: Offer)
    requires r1.available && r2.available
    requires BookRoomTarget(r1) == BookRoomTarget(r2)
    ensures r1.id == r2.id
  {
    var u := BookRoomTarget(r1);
    assert u[|BookRoomPrefix|..] == DecimalString(r1.id) == DecimalString(r2.id);
    DecimalStringInjective(r1.id, r2.id);
  }

  /** No route matches that link, so the button leads to the not-found
      page. */
  lemma BookRoomTargetIsUnrouted(r: Offer)
    requires r.available
    ensures !Routed(BookRoomTarget(r))
  {
    var url := BookRoomTarget(r);
    var d := DecimalString(r.id);
    assert url == BookRoomPrefix + d;
    assert forall i :: 0 <= i < |url| ==> url[i] != '?' by {
      forall i | 0 <= i < |url| ensures url[i] != '?' {
        if i >= |BookRoomPrefix| {
          assert url[i] == d[i - |BookRoomPrefix|];
        }
      }
    }
    assert PathOf(url) == url;
    assert url[10] == 'b';
    assert |url| >= 19;
  }

  /** The link the button evidently means: the booking form, with the room
      name and the nightly price in its query, as that form reads them. */
  function BookRoomLink(r: Offer): (url: string)
    requires r.available
    ensures Routed(url)
    ensures Booking.RoomTypeOf(Uri.SearchParam(Uri.QueryOf(url), "room")) == r.name || r.name == ""
    ensures Uri.SearchParam(Uri.QueryOf(url), "price") == Some(DecimalString(r.price))
  {
    var e := Uri.EncodeURIComponent(r.name);
    var d := DecimalString(r.price);
    var url := "/booking?room=" + e + "&price=" + d;
    BookRoomLinkReadsBack(r.name, r.price);
    url
  }

  /** A link to the booking form with a given query. */
  lemma BookingFormLink(q: string)
    ensures PathOf("/booking" + "?" + q) == "/booking" && Routed("/booking" + "?" + q)
    ensures Uri.QueryOf("/booking" + "?" + q) == q
  {
    var url := "/booking" + "?" + q;
    assert url[8] == '?';
    assert forall j :: 0 <= j < 8 ==> url[j] != '?';
    assert Uri.IndexOf(url, '?') == 8;
    assert url[..8] == "/booking";
    Uri.QueryAfterPath("/booking", q);
  }

  /** The query `room=<encoded name>&price=<digits>` reads back both. */
  lemma BookRoomQueryReadsBack(name: string, price: nat)
    ensures var q := "room" + "=" + Uri.EncodeURIComponent(name) + "&" + "price" + "=" + DecimalString(price);
      && Uri.SearchParam(q, "room") == Some(name)
      && Uri.SearchParam(q, "price") == Some(DecimalString(price))
  {
    var e := Uri.EncodeURIComponent(name);
    var d := DecimalString(price);
    assert "room" == ['r', 'o', 'o', 'm'] && "price" == ['p', 'r', 'i', 'c', 'e'];
    assert forall i :: 0 <= i < |d| ==> Uri.Unreserved(d[i]);
    Uri.TwoParams("room", e, "price", d);
    Uri.FormDecodeInvertsEncode(name);
    Uri.EncodeUnreservedIdentity(d);
    Uri.FormDecodeInvertsEncode(d);
  }

  lemma BookRoomLinkReadsBack(name: string, price: nat)
    ensures var url := "/booking?room=" + Uri.EncodeURIComponent(name) + "&price=" + DecimalString(price);
      && Routed(url)
      && Uri.SearchParam(Uri.QueryOf(url), "room") == Some(name)
      && Uri.SearchParam(Uri.QueryOf(url), "price") == Some(DecimalString(price))
  {
    var e := Uri.EncodeURIComponent(name);
    var d := DecimalString(price);
    var q := "room" + "=" + e + "&" + "price" + "=" + d;
    assert "/booking?room=" + e + "&price=" + d == "/booking" + "?" + q;
    BookingFormLink(q);
    BookRoomQueryReadsBack(name, price);
  }
}
