/** The invoice page: the booking handed over by the check-out desk (or a
    fallback), the invoice and transaction numbers formed from its id, the
    stay length, and the itemised bill. Money is in integer cents. */
module Invoice {
  import opened Options
  import opened Stays
  import Booking
  import Seqs
  import CheckInOut

  /** The booking shown when the page is opened without one. */
  function FallbackBooking(): Stay {
    Stay("BK001", "101", "Deluxe Room", "checked-out", DayStart(19737), DayStart(19740), 2,
         "John Doe", 597, ["WiFi", "Parking", "Breakfast", "Room Service"])
  }

  /** `location.state?.booking || fallback`. */
  function InvoiceBooking(handedOver: Option<Stay>): (b: Stay)
    ensures handedOver.Some? ==> b == handedOver.value
    ensures handedOver.None? ==> b == FallbackBooking() && b.id == "BK001"
  {
    handedOver.GetOr(FallbackBooking())
  }

  const Year: string := "-2024"
  const InvoicePrefix: string := "INV-"
  const TransactionPrefix: string := "TXN-"

  /** `${prefix}${id}-2024`, the shape of both reference numbers. */
  function Reference(prefix: string, id: string): string {
    prefix + id + Year
  }

  /** Reads the booking id back out of a reference number with the given
      prefix, or nothing when the number does not have that shape. */
  function BookingIdOf(prefix: string, reference: string): Option<string> {
    if |reference| >= |prefix| + |Year|
       && reference[..|prefix|] == prefix
       && reference[|reference| - |Year|..] == Year
    then Some(reference[|prefix|..|reference| - |Year|])
    else None
  }

  /** A reference number determines the booking id it was formed from. */
  lemma ReferenceRoundTrip(prefix: string, id: string)
    ensures BookingIdOf(prefix, Reference(prefix, id)) == Some(id)
  {
    var r := Reference(prefix, id);
    assert r[..|prefix|] == prefix;
    assert r[|r| - |Year|..] == Year;
    assert r[|prefix|..|r| - |Year|] == id;
  }

  /** `INV-${booking.id}-2024`: the booking id reads back from it. */
  function InvoiceNumber(id: string): (number: string)
    ensures |number| == |id| + 9 && number[..4] == "INV-" && number[|number| - 5..] == "-2024"
    ensures BookingIdOf(InvoicePrefix, number) == Some(id)
  {
    ReferenceRoundTrip(InvoicePrefix, id);
    Reference(InvoicePrefix, id)
  }

  /** `TXN-${booking.id}-2024`: the booking id reads back from it. */
  function TransactionId(id: string): (number: string)
    ensures |number| == |id| + 9 && number[..4] == "TXN-" && number[|number| - 5..] == "-2024"
    ensures BookingIdOf(TransactionPrefix, number) == Some(id)
  {
    ReferenceRoundTrip(TransactionPrefix, id);
    Reference(TransactionPrefix, id)
  }

  /** Distinct bookings get distinct invoice numbers and distinct
      transaction ids, and the two numbers of one booking never coincide. */
  lemma ReferencesDistinguishBookings(a: string, b: string)
    ensures InvoiceNumber(a) == InvoiceNumber(b) ==> a == b
    ensures TransactionId(a) == TransactionId(b) ==> a == b
    ensures InvoiceNumber(a) != TransactionId(b)
  {
    ReferenceRoundTrip(InvoicePrefix, a);
    ReferenceRoundTrip(InvoicePrefix, b);
    ReferenceRoundTrip(TransactionPrefix, a);
    ReferenceRoundTrip(TransactionPrefix, b);
    assert InvoiceNumber(a)[0] == 'I' && TransactionId(b)[0] == 'T';
  }

  /** An ancillary service with its flat price in dollars. */
  datatype Service = Service(name: string, price: int)

  /** The fields of `invoiceData` that the bill uses. */
  datatype InvoiceData = InvoiceData(
    invoiceNumber: string,
    nights: int,
    roomRate: int,
    services: seq<Service>,
    taxesCents: int,
    totalCents: int)

  /** The four listed services. */
  function ListedServices(): seq<Service> {
    [Service("WiFi", 0), Service("Parking", 25), Service("Breakfast", 35), Service("Room Service", 45)]
  }

  /** `invoiceData`: the number and the nights come from the booking; the
      rate, the services, the taxes ($89.55) and the total ($597) are fixed. */
  function InvoiceDataOf(b: Stay): (inv: InvoiceData)
    ensures BookingIdOf(InvoicePrefix, inv.invoiceNumber) == Some(b.id)
    ensures (inv.nights - 1) * MsPerDay < b.checkOut - b.checkIn <= inv.nights * MsPerDay
    ensures inv.roomRate == Booking.DefaultRate
    ensures inv.services == ListedServices()
    ensures inv.taxesCents == 8955 && inv.totalCents == 59700
  {
    InvoiceData(InvoiceNumber(b.id), Nights(b.checkIn, b.checkOut), 199, ListedServices(), 8955, 59700)
  }

  /** The room-charge line: nights times the nightly rate, the same figure
      the booking form calls its subtotal. */
  function RoomChargeCents(inv: InvoiceData): (cents: int)
    ensures cents == Booking.SubtotalCents(inv.nights, inv.roomRate)
    ensures inv.nights >= 0 && inv.roomRate >= 0 ==> cents >= 0
  {
    inv.nights * inv.roomRate * 100
  }

  /** Whatever booking is shown, the fixed $597 total equals the room charge
      only for a stay of exactly 3 nights. */
  lemma TotalIsRoomChargeOnlyForThreeNights(b: Stay)
    ensures InvoiceDataOf(b).totalCents == RoomChargeCents(InvoiceDataOf(b)) <==> InvoiceDataOf(b).nights == 3
  {
    var n := InvoiceDataOf(b).nights;
    assert RoomChargeCents(InvoiceDataOf(b)) == n * 19900;
    if n <= 2 {
      assert n * 19900 <= 2 * 19900;
    } else if n >= 4 {
      assert n * 19900 >= 4 * 19900;
    }
  }

  /** The "Subtotal" line, computed as total minus taxes. */
  function SubtotalCents(inv: InvoiceData): (cents: int)
    ensures cents + inv.taxesCents == inv.totalCents
  {
    inv.totalCents - inv.taxesCents
  }

  /** What a service line shows. */
  datatype PriceLabel = Complimentary | Amount(cents: int)

  /** `service.price === 0 ? "Complimentary" : $price`. */
  function ServicePriceLabel(price: int): (l: PriceLabel)
    ensures l == Complimentary <==> price == 0
    ensures l.Amount? ==> l.cents == price * 100 && l.cents != 0
  {
    if price == 0 then Complimentary else Amount(price * 100)
  }

  function ServicePrice(s: Service): int {
    s.price
  }

  /** The fallback invoice: 3 nights; a room charge of $597; WiFi free and
      $105 of other services listed; a total of $597, so the services are not
      added to it; and a subtotal of $507.45, which is not the room charge. */
  lemma FallbackBill()
    ensures InvoiceDataOf(InvoiceBooking(None)).nights == 3
    ensures RoomChargeCents(InvoiceDataOf(InvoiceBooking(None))) == 59700
    ensures ServicePriceLabel(ListedServices()[0].price) == Complimentary
    ensures Seqs.Sum(ListedServices(), ServicePrice) == 105
    ensures InvoiceDataOf(InvoiceBooking(None)).totalCents == RoomChargeCents(InvoiceDataOf(InvoiceBooking(None)))
    ensures SubtotalCents(InvoiceDataOf(InvoiceBooking(None))) == 50745
  {
    NightsBetweenMidnights(19737, 3);
    var s := ListedServices();
    assert s[..4] == s && s[..4][..3] == s[..3] && s[..3][..2] == s[..2];
    assert s[..2][..1] == s[..1] && s[..1][..0] == [];
    assert Seqs.Sum(s[..1], ServicePrice) == 0;
    assert Seqs.Sum(s[..2], ServicePrice) == 25;
    assert Seqs.Sum(s[..3], ServicePrice) == 60;
  }

  /** The booking the check-out desk hands over for Jane Smith: 2 nights, a
      room charge of $398, yet still the fixed $597 total and $89.55 taxes,
      so the subtotal of $507.45 exceeds the room charge. */
  lemma HandedOverBill()
    ensures InvoiceDataOf(InvoiceBooking(Some(CheckInOut.MockBookings()[1]))).nights == 2
    ensures RoomChargeCents(InvoiceDataOf(InvoiceBooking(Some(CheckInOut.MockBookings()[1])))) == 39800
    ensures InvoiceDataOf(InvoiceBooking(Some(CheckInOut.MockBookings()[1]))).totalCents == 59700
    ensures SubtotalCents(InvoiceDataOf(InvoiceBooking(Some(CheckInOut.MockBookings()[1])))) == 50745
  {
    NightsBetweenMidnights(19736, 2);
  }

  /** The bill as the taxes line implies it: subtotal = room charge, taxes =
      15% of it, total = subtotal + taxes. */
  datatype Bill = Bill(subtotalCents: int, taxesCents: int, totalCents: int)

  function ConsistentBill(b: Stay, rate: int): (bill: Bill)
    ensures bill.subtotalCents == Booking.SubtotalCents(Nights(b.checkIn, b.checkOut), rate)
    ensures bill.taxesCents * 100 == bill.subtotalCents * Booking.TaxPercent
    ensures bill.subtotalCents + bill.taxesCents == bill.totalCents
    ensures bill.totalCents == Booking.CalculateTotal(Some(b.checkIn), Some(b.checkOut), rate)
  {
    var nights := Nights(b.checkIn, b.checkOut);
    Bill(Booking.SubtotalCents(nights, rate), Booking.TaxCents(nights, rate),
         Booking.CalculateTotal(Some(b.checkIn), Some(b.checkOut), rate))
  }

  /** For the fallback booking the consistent bill keeps the page's $89.55
      taxes and gives $597.00 + $89.55 = $686.55. */
  lemma ConsistentFallbackBill()
    ensures ConsistentBill(FallbackBooking(), Booking.DefaultRate)
         == Bill(59700, InvoiceDataOf(FallbackBooking()).taxesCents, 68655)
  {
    NightsBetweenMidnights(19737, 3);
  }
}
