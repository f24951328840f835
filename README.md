# PulSaints hotel pages, modelled in Dafny

This project models the page logic of the PulSaints hotel web application.
The application is a React front end. Its pages hold mock data and compute
everything they show from that data and from a few pieces of state.

The model covers these pages:

- **Booking form**: the room and nightly rate read from the query string, the
  two date pickers and their guards, the guest selector, the price summary, and
  the submit button with its simulated payment delay.
- **Check-in/out desk**: the lookup by booking id, the check-in and check-out
  actions with their delayed completion, the status badge, the service icons,
  the panel for each status, and the "View Invoice" hand-over.
- **Invoice**: the fallback booking, the invoice and transaction numbers, the
  stay length, and the itemised bill.
- **My Bookings**: the search and status filter, the empty-state text, the
  status badges, the actions on each card and the links they follow, and the
  three summary figures.
- **Room administration**: the search, the status counts, the status labels
  and colours, the amenity chips, and the toast-only delete and edit buttons.
- **Room browser**: the search by name, the card of each room, the amenity
  chips, and the "Book Now" link.
- **Notification centre**: the unread count, the four tabs, the priority
  badges, the "Mark as Read" buttons, and the eleven notification preferences.

Shared modules hold the pieces several pages use:

- `Text`: ASCII lower-casing, `includes` and decimal numerals.
- `Seqs`: `filter`, `filter(...).length`, `reduce` with `+`, and `slice` with
  an overflow chip.
- `Stays`: stay dates in milliseconds, `Math.ceil` night counts, and the
  booking record.
- `Uri`: `encodeURIComponent` and `URLSearchParams.get`.
- `Chips`: the amenity row of a room card, which two pages draw alike except for
  the overflow chip's text.

The model uses these representations:

- Money is in integer cents. The 15% tax is exact in cents.
- Dates are integer milliseconds since 1970-01-01 UTC, which is what
  `getTime()` returns.
- Statuses stay strings, because the pages compare strings and show unknown
  statuses verbatim.
- A button that is disabled or not rendered becomes a precondition of the
  handler method behind it.
- A state update that a timer delays is split into two methods: one for the
  click, one for the timer callback.

## Model

| member | source | states |
|---|---|---|
| Stays.Nights | src/pages/Booking.tsx:29 | the night count is the ceiling of the day difference: `(n-1)·day < out-in <= n·day`; at least 1 when check-out is later, at most 0 otherwise |
| Stays.NightsUnique | src/pages/Booking.tsx:29 | the ceiling is the only integer with that bracketing |
| Stays.NightsBetweenMidnights | src/pages/Invoice.tsx:41 | between two midnights the count equals the number of calendar days |
| Stays.ClockChangeNights | src/pages/Booking.tsx:29 | a 25-hour night between local midnights counts as 2 nights, a 23-hour one as 1 |
| Booking.RoomTypeOf | src/pages/Booking.tsx:19 | the `room` parameter is used when present and non-empty, and "Standard Room" otherwise |
| Booking.RoomRateOf | src/pages/Booking.tsx:20 | the parsed `price` parameter is used when present, and 199 otherwise |
| Booking.CalculateTotal | src/pages/Booking.tsx:27-33 | 0 while a date is missing; otherwise subtotal × 115%; at least one night's rate with taxes for a forward range |
| Booking.SummaryAddsUp | src/pages/Booking.tsx:259-276 | the summary's subtotal line plus its taxes line equals its total line |
| Booking.ThreeNightExample | src/pages/Booking.tsx:248-276 | Jan 15 to Jan 18 at $199 shows 3 nights, $597.00, $89.55 and $686.55 |
| Booking.SelectedRangeIsOneNightOrMore | src/pages/Booking.tsx:128-154 | dates the two calendars allow give a check-in not in the past, and a stay of one night or more |
| Booking.CheckInSelectable | src/pages/Booking.tsx:128 | a check-in day is selectable exactly when it is not before now |
| Booking.CheckOutSelectable | src/pages/Booking.tsx:154 | a check-out day is selectable exactly when it is after the chosen check-in, or after now when there is none |
| Booking.BookingPage.SubmitEnabled | src/pages/Booking.tsx:208 | the button is enabled exactly when not loading with both dates chosen, and then the total shown is those dates' subtotal plus 15% |
| Booking.CheckInPickedLaterInvertsRange | src/pages/Booking.tsx:128-154 | re-picking check-in after check-out is allowed, and then gives -1 nights and a negative total |
| Booking.BookingPage.constructor | src/pages/Booking.tsx:19-25 | the room and rate come from the query, no dates are set, 1 guest, not loading |
| Booking.BookingPage.PickCheckIn | src/pages/Booking.tsx:124-128 | a day before now is refused; a click on the chosen day clears it, which zeroes the total and disables the button; any other day becomes the check-in; nothing else changes |
| Booking.BookingPage.PickCheckOut | src/pages/Booking.tsx:150-154 | only a day after the current check-in (or after now) is taken, which gives at least one night; a click on the chosen day clears it, which zeroes the total and disables the button; nothing else changes |
| Booking.BookingPage.ChooseGuests | src/pages/Booking.tsx:162-171 | the guest count becomes one of "1".."4", and nothing else changes |
| Booking.BookingPage.Submit | src/pages/Booking.tsx:35-37 | callable only while the button is enabled (line 208); it starts loading, which disables the button |
| Booking.BookingPage.CompleteSubmit | src/pages/Booking.tsx:39-46 | loading ends, the dates are kept, and the page goes to the customer dashboard |
| CheckInOut.FirstIndexOf | src/pages/CheckInOut.tsx:59 | the first position holding exactly that id, or the length when there is none |
| CheckInOut.FindById | src/pages/CheckInOut.tsx:59 | `find` returns the first listed booking whose id is exactly that id, and nothing only when no booking has it |
| CheckInOut.LookupIsExact | src/pages/CheckInOut.tsx:31-59 | "BK001" and "BK002" find their bookings; "bk001" finds nothing |
| CheckInOut.StatusBadge | src/pages/CheckInOut.tsx:100-111 | "confirmed", "checked-in" and "checked-out" show "Confirmed" in blue, "Checked In" in green and "Checked Out" in gray; any other status shows a plain "Unknown" |
| CheckInOut.ServiceIcon | src/pages/CheckInOut.tsx:113-126 | each of the four services has its own icon, and no other service gets one of those four |
| CheckInOut.PanelFor | src/pages/CheckInOut.tsx:250-310 | the check-in, check-out and invoice panels are each shown for exactly one status |
| CheckInOut.StatusCopy | src/pages/CheckInOut.tsx:79 | re-stamping the status of a copy of a listed booking gives a copy of that booking |
| CheckInOut.CheckInOutPage.constructor | src/pages/CheckInOut.tsx:26-28 | empty id, no selection, not loading, nothing pending |
| CheckInOut.CheckInOutPage.EnterBookingId | src/pages/CheckInOut.tsx:156 | the typed id replaces the old one |
| CheckInOut.CheckInOutPage.Search | src/pages/CheckInOut.tsx:58-73 | found exactly when a booking has that id; then it is selected, and otherwise the selection is kept |
| CheckInOut.CheckInOutPage.BeginCheckIn | src/pages/CheckInOut.tsx:75-77 | callable only on the check-in panel when not loading (line 261); starts loading and captures the selected booking |
| CheckInOut.CheckInOutPage.CompleteCheckIn | src/pages/CheckInOut.tsx:77-84 | loading ends; the selection becomes the captured confirmed booking with status "checked-in" |
| CheckInOut.CheckInOutPage.BeginCheckOut | src/pages/CheckInOut.tsx:87-89 | callable only on the check-out panel when not loading (line 282); starts loading and captures the selected booking |
| CheckInOut.CheckInOutPage.CompleteCheckOut | src/pages/CheckInOut.tsx:89-97 | the selection becomes "checked-out", but the invoice is handed the captured booking, still "checked-in" |
| CheckInOut.CheckInOutPage.ViewInvoice | src/pages/CheckInOut.tsx:292-302 | only on the checked-out panel; hands the invoice the selected, checked-out booking |
| Invoice.InvoiceBooking | src/pages/Invoice.tsx:21-32 | the handed-over booking when there is one, and the BK001 fallback otherwise |
| Invoice.ReferenceRoundTrip | src/pages/Invoice.tsx:35 | a reference number gives back the booking id it was formed from |
| Invoice.ReferencesDistinguishBookings | src/pages/Invoice.tsx:246 | distinct bookings get distinct invoice numbers and distinct transaction ids, and an invoice number is never a transaction id |
| Invoice.InvoiceNumber | src/pages/Invoice.tsx:35 | `INV-`, the id, `-2024`; the id reads back from the number |
| Invoice.TransactionId | src/pages/Invoice.tsx:246 | `TXN-`, the id, `-2024`; the id reads back from the number |
| Invoice.InvoiceDataOf | src/pages/Invoice.tsx:34-51 | the invoice number names the booking and the nights are the ceiling of the stay, while the rate ($199), the four listed services, the taxes ($89.55) and the total ($597) are the same for every booking |
| Invoice.RoomChargeCents | src/pages/Invoice.tsx:193 | the room-charge line is the booking form's subtotal for the invoice's nights and rate, never negative |
| Invoice.TotalIsRoomChargeOnlyForThreeNights | src/pages/Invoice.tsx:49-50 | for any booking, the fixed total equals the room charge exactly when the stay is 3 nights |
| Invoice.HandedOverBill | src/pages/CheckInOut.tsx:96 | the booking handed over at check-out (2 nights) shows a $398 room charge, yet a $597 total and a $507.45 subtotal |
| Invoice.SubtotalCents | src/pages/Invoice.tsx:214 | the subtotal line plus the taxes line equals the total line |
| Invoice.ServicePriceLabel | src/pages/Invoice.tsx:204 | "Complimentary" exactly for a zero price; otherwise the price in cents |
| Invoice.FallbackBill | src/pages/Invoice.tsx:193-228 | the fallback invoice shows 3 nights and a $597 room charge; its services total $105 but are not in the total; the total is $597 and the subtotal $507.45 |
| Invoice.ConsistentBill | src/pages/Invoice.tsx:214-228 | subtotal = room charge; taxes = 15% of it; subtotal + taxes = total = the booking form's total |
| Invoice.ConsistentFallbackBill | src/pages/Invoice.tsx:49-50 | for the fallback booking the consistent bill keeps the $89.55 taxes and totals $686.55 |
| Text.Lower | src/pages/CustomerBookings.tsx:87-88 | same length; capitals lowered; other characters kept; no capitals left |
| Text.IncludesIffOccurs | src/pages/CustomerBookings.tsx:87 | `includes` holds exactly when the term occurs at some position |
| Text.IgnoringCaseOfTerm | src/pages/AdminRooms.tsx:84 | lower-casing the term first does not change a case-insensitive search |
| Text.DecimalString | src/pages/AdminRooms.tsx:274 | a non-empty string of digits without a leading zero |
| Text.DecimalRoundTrip | src/pages/AdminRooms.tsx:274 | the numeral reads back as the number it was written from |
| Seqs.Filter | src/pages/CustomerBookings.tsx:86-91 | never longer than the input; every kept element passes the test |
| Seqs.FilterMembership | src/pages/CustomerBookings.tsx:86-91 | an element is kept exactly when it is listed and passes the test |
| Seqs.FilterIsSubsequence | src/pages/AdminRooms.tsx:83-87 | the kept elements stay in their listed order |
| Seqs.FilterCount | src/pages/AdminRooms.tsx:134-136 | `filter(p).length` is the number of positions passing `p` |
| Seqs.SumPartition | src/pages/CustomerBookings.tsx:322 | the sum over a list is the sum over what a filter keeps plus the sum over what it drops |
| Uri.EncodeURIComponent | src/pages/CustomerBookings.tsx:287 | never shorter than its input; only unreserved characters and `%` remain |
| Uri.Utf8RoundTrip | src/pages/CustomerBookings.tsx:287 | UTF-8 decoding inverts UTF-8 encoding |
| Uri.FormDecodeInvertsEncode | src/pages/Booking.tsx:19 | a value written with `encodeURIComponent` reads back unchanged |
| Uri.Split | src/pages/Booking.tsx:18 | at least one piece; a string without the separator is a single piece |
| Uri.SingleParam | src/pages/Booking.tsx:18-19 | a one-parameter query returns the decoded value for its key and nothing for any other key |
| Uri.TwoParams | src/pages/Booking.tsx:18-20 | a two-parameter query returns each key's own decoded value |
| Uri.EncodedParamReadsBack | src/pages/Booking.tsx:18-19 | `path?key=` followed by an encoded value reads back that value, and no other name |
| Uri.RawParamReadsBack | src/pages/CustomerBookings.tsx:259 | `path?key=value` has the query `key=value`, and a value without `&` reads back decoded under `key` and under no other name |
| Uri.Lookup | src/pages/Booking.tsx:18-19 | the decoded value of the first segment naming the parameter, and nothing when no segment names it |
| Uri.SearchParam | src/pages/Booking.tsx:18-19 | `get` over the `&`-separated segments of a query: the first segment naming the parameter decides, and nothing is found when none does |
| CustomerBookings.FilteredBookings | src/pages/CustomerBookings.tsx:86-91 | a booking is listed exactly when it matches the search in name or id ignoring case and the status filter; the listed order is kept and each match appears once per position it holds |
| CustomerBookings.NoCriteriaKeepsAll | src/pages/CustomerBookings.tsx:86-91 | with an empty search and "all", every booking is listed |
| CustomerBookings.SearchIgnoresCaseOfTerm | src/pages/CustomerBookings.tsx:87-88 | searching the lower-cased term lists the same bookings |
| CustomerBookings.EmptyStateMessage | src/pages/CustomerBookings.tsx:157-160 | the "adjust your criteria" hint is shown exactly when a term or a status filter is set |
| CustomerBookings.EmptyStateIsAccurate | src/pages/CustomerBookings.tsx:151-160 | "no bookings yet" is shown for an empty list only when there are no bookings at all |
| CustomerBookings.StatusBadgeOf | src/pages/CustomerBookings.tsx:71-84 | "confirmed", "upcoming", "completed" and "cancelled" show "Confirmed" (primary), "Upcoming" (blue), "Completed" (secondary) and "Cancelled" (destructive); any other status is shown verbatim in the secondary style |
| CustomerBookings.BadgeDistinguishesStatuses | src/pages/CustomerBookings.tsx:71-84 | among statuses written without capitals, different statuses get different badges |
| CustomerBookings.CapitalisedStatusLooksKnown | src/pages/CustomerBookings.tsx:78-82 | "Completed" is shown with the same badge as "completed" |
| CustomerBookings.TotalSpentCoversHiddenBookings | src/pages/CustomerBookings.tsx:322 | "Total Spent" counts the filtered-out bookings as well as the shown ones |
| CustomerBookings.TotalSpent | src/pages/CustomerBookings.tsx:322 | nothing is spent on an empty list, and the sum is never negative when no amount is |
| CustomerBookings.FilteredSpendAtMostTotal | src/pages/CustomerBookings.tsx:322 | with non-negative amounts, the shown bookings never add up to more than "Total Spent" |
| CustomerBookings.UpcomingCount | src/pages/CustomerBookings.tsx:337 | the number of positions holding an upcoming or confirmed booking, at most the list length |
| CustomerBookings.SummaryOf | src/pages/CustomerBookings.tsx:308-337 | total bookings is the list length, total spent the sum of all amounts, and upcoming stays the number of upcoming or confirmed positions, never more than the total |
| CustomerBookings.MockSummary | src/pages/CustomerBookings.tsx:16-69 | the mock list shows 4 bookings, $1944 spent and 2 upcoming stays |
| CustomerBookings.ActionsFor | src/pages/CustomerBookings.tsx:255-292 | "View Invoice" comes first; an upcoming or confirmed booking then has "Check-in/out" and "Modify Booking", three buttons in all, and any other booking "Book Again", two in all; each route carries the booking id or the room name |
| CustomerBookings.InvoiceLinkReadsBack | src/pages/CustomerBookings.tsx:259 | "View Invoice" goes to `/invoice` with the query `booking=<id>`, from which an id without `&` reads back |
| CustomerBookings.CheckInOutLinkReadsBack | src/pages/CustomerBookings.tsx:270 | "Check-in/out" goes to `/checkinout` with the query `booking=<id>`, from which an id without `&` reads back |
| CustomerBookings.BookAgainOpensSameRoom | src/pages/CustomerBookings.tsx:287 | the `room` parameter of the "Book Again" link reads back as the room name, whatever characters it holds, so the form shows the same room; no price is given |
| CustomerBookings.ModifyOpensDefaultRoom | src/pages/CustomerBookings.tsx:278 | the "Modify Booking" link carries the id under `edit` and has no room parameter, so the form shows "Standard Room" |
| AdminRooms.FilteredRooms | src/pages/AdminRooms.tsx:83-87 | a room is listed exactly when the term is in its name or type ignoring case, or in its number as typed; the order is kept and each match appears once per position it holds |
| AdminRooms.EmptySearchKeepsAll | src/pages/AdminRooms.tsx:83-87 | the empty search lists every room |
| AdminRooms.SearchExamples | src/pages/AdminRooms.tsx:83-87 | "suite" finds the suite by its type, and "30" finds it by its number |
| AdminRooms.CountWithStatus | src/pages/AdminRooms.tsx:134-136 | the number of positions with that status, at most the number of rooms |
| AdminRooms.CountsAtMostTotal | src/pages/AdminRooms.tsx:133-138 | the three counts sum to at most the total, and to the total exactly when every room is available, occupied or under maintenance |
| AdminRooms.StatusCountsOf | src/pages/AdminRooms.tsx:133-138 | each count is the number of positions holding a room with that status, and the total is the number of rooms |
| AdminRooms.MockCounts | src/pages/AdminRooms.tsx:28-81 | the mock rooms count 2 available, 1 occupied, 1 under maintenance, 4 in all |
| AdminRooms.StatusText | src/pages/AdminRooms.tsx:104-117 | "available", "occupied", "maintenance" and "cleaning" become "Available", "Occupied", "Maintenance" and "Cleaning"; any other status is returned unchanged |
| AdminRooms.StatusColor | src/pages/AdminRooms.tsx:89-102 | "available", "occupied", "maintenance" and "cleaning" get the success, warning, destructive and blue classes with white text; the neutral colour is given exactly to unknown statuses |
| AdminRooms.ColorsDistinct | src/pages/AdminRooms.tsx:89-102 | no two known statuses share a colour |
| AdminRooms.ColorAndTextAgree | src/pages/AdminRooms.tsx:89-117 | for a lower-case status, its own colour and its relabelling go together |
| AdminRooms.CleaningIsLabelledButNotCounted | src/pages/AdminRooms.tsx:97-138 | "cleaning" has a label and a colour but is in no count |
| AdminRooms.MoreTextReadsBack | src/pages/AdminRooms.tsx:274 | the overflow chip "+k" reads back as k |
| Chips.AmenityChips | src/pages/AdminRooms.tsx:266-276 | the first three amenities in order, then an overflow chip exactly when more than three exist, its text given the number left out |
| AdminRooms.SuiteChips | src/pages/AdminRooms.tsx:267-276 | the suite's five amenities show as three chips and "+2" |
| AdminRooms.DeleteRoom | src/pages/AdminRooms.tsx:119-124 | the notice says "Room Deleted" but the list, and so every count, is unchanged |
| AdminRooms.EditRoom | src/pages/AdminRooms.tsx:126-131 | the notice "Edit Room" and an unchanged list |
| CustomerDashboard.FilteredOffers | src/pages/CustomerDashboard.tsx:53-55 | a room is listed exactly when its name contains the term ignoring case; the order is kept and each match appears once per position it holds |
| CustomerDashboard.EmptySearchShowsAll | src/pages/CustomerDashboard.tsx:53-55 | the empty search lists every room |
| CustomerDashboard.SearchSeesOnlyTheName | src/pages/CustomerDashboard.tsx:53-55 | two rooms with the same name are listed or hidden together |
| CustomerDashboard.CardFor | src/pages/CustomerDashboard.tsx:119-177 | "Available" badge, "Book Now" and an enabled button exactly for an available room; "Booked", a red badge and "Not Available" otherwise |
| CustomerDashboard.MockAvailability | src/pages/CustomerDashboard.tsx:17-51 | the suite cannot be booked, and the other two rooms can |
| CustomerDashboard.MoreTextReadsBack | src/pages/CustomerDashboard.tsx:166 | the overflow chip "+k more" reads back as k |
| CustomerDashboard.SuiteChips | src/pages/CustomerDashboard.tsx:158-168 | the suite's five amenities show as three chips and "+2 more" |
| CustomerDashboard.BookRoomTarget | src/pages/CustomerDashboard.tsx:57-59 | reachable only from an enabled button; the link is `/customer-booking/` followed by the room id |
| CustomerDashboard.BookRoomTargetNamesRoom | src/pages/CustomerDashboard.tsx:58 | different rooms give different links |
| CustomerDashboard.BookRoomTargetIsUnrouted | src/App.tsx:30-43 | no route matches that link |
| CustomerDashboard.BookRoomLink | src/pages/Booking.tsx:18-20 | the corrected link is routed and opens the booking form with the room's own name and price |
| CustomerDashboard.BookRoomLinkReadsBack | src/pages/Booking.tsx:18-20 | `/booking?room=<encoded name>&price=<digits>` reads back the name and the price |
| AdminNotifications.UnreadCount | src/pages/AdminNotifications.tsx:110 | the number of positions holding an unread notification, at most the list length |
| AdminNotifications.UnreadAndReadMakeAll | src/pages/AdminNotifications.tsx:110 | unread plus read is everything; all are unread exactly when the count is the length |
| AdminNotifications.UnreadLabel | src/pages/AdminNotifications.tsx:165 | the header is the count, then " unread notification", then an "s" exactly when the count is not 1, and nothing else |
| AdminNotifications.UnreadLabelReadsBack | src/pages/AdminNotifications.tsx:165 | the header's leading numeral reads back as the count |
| AdminNotifications.TabList | src/pages/AdminNotifications.tsx:186-315 | each tab keeps the feed order; the unread tab lists exactly the unread notifications and the high tab exactly the high-priority ones, once per position each holds; the other two list everything |
| AdminNotifications.TodayIsAll | src/pages/AdminNotifications.tsx:313-315 | "Today" lists the same notifications as "All" |
| AdminNotifications.UnreadTabAgreesWithCount | src/pages/AdminNotifications.tsx:205-251 | every card in the unread tab rightly offers "Mark as Read"; the tab has as many cards as the header count, as does the "all" tab's number of buttons |
| AdminNotifications.MockUnread | src/pages/AdminNotifications.tsx:41-110 | the mock feed has 2 unread notifications, and the header says "2 unread notifications" |
| AdminNotifications.MockHighTab | src/pages/AdminNotifications.tsx:41-108 | the high-priority tab lists notifications 1 and 3 |
| AdminNotifications.PriorityBadge | src/pages/AdminNotifications.tsx:138-149 | "high", "medium" and "low" show "High" in red, "Medium" in yellow and "Low" plain; any other priority shows "Normal" plain |
| AdminNotifications.HighTabBadges | src/pages/AdminNotifications.tsx:138-149 | a listed notification wears the red badge exactly when it is in the high-priority tab |
| AdminNotifications.InitialSettings | src/pages/AdminNotifications.tsx:26-38 | exactly the eleven preferences, all on except check-outs, weekly reports and SMS |
| AdminNotifications.ChangeSetting | src/pages/AdminNotifications.tsx:128-131 | the named preference takes the value; the others are kept; the key set gains at most that key |
| AdminNotifications.ChangeSettingIdempotent | src/pages/AdminNotifications.tsx:128-131 | setting a value twice equals setting it once |
| AdminNotifications.ChangeSettingsCommute | src/pages/AdminNotifications.tsx:128-131 | changes to two different preferences may be made in either order |
| AdminNotifications.ToggleTwiceRestores | src/pages/AdminNotifications.tsx:128-131 | flipping a switch and flipping it back restores the preferences |
| AdminNotifications.ChangeSettingKeepsKeys | src/pages/AdminNotifications.tsx:380-501 | the page's switches name only the eleven preferences, so a change adds no key |
| AdminNotifications.NotificationsPage.constructor | src/pages/AdminNotifications.tsx:26-108 | the mock feed and the initial preferences |
| AdminNotifications.NotificationsPage.SettingChange | src/pages/AdminNotifications.tsx:127-136 | the preferences become the updated map, and a "Settings Updated" notice is raised |
| AdminNotifications.NotificationsPage.MarkAsRead | src/pages/AdminNotifications.tsx:112-118 | a notice only: an unread notification stays in the unread tab |
| AdminNotifications.NotificationsPage.MarkAllAsRead | src/pages/AdminNotifications.tsx:120-125 | a notice only: the unread tab still has as many cards as the unread count |

## Left out

- Booking.BookingPage.Submit: requires only that the button is enabled. The form also has eight `required` inputs (first name, last name, an email of type `email`, phone, card number, expiry, CVV and cardholder name), and the browser does not submit while one is empty or the email is malformed; that check and those inputs are not modelled.
- Timers, toasts and navigation are not modelled as effects. A delayed callback is a second method, a toast is a returned notice, and a navigation is a returned route.
- Date parsing and formatting are left out. Dates are integer milliseconds, and the mock dates are given as day numbers counted from 1970-01-01 (2024-01-15 is day 19737). The current time is a parameter.
- Stays.Nights: works on UTC instants, with no time zone. The calendars pick local midnights, so a stay across a change of clocks spans 25 or 23 hours, and the ceiling then counts one night too many or the right number; Stays.ClockChangeNights shows both counts.
- Booking.RoomRateOf: takes the `price` parameter already parsed. `parseInt` itself, and the `NaN` a non-numeric price gives, are not modelled.
- Floating-point arithmetic and `toFixed(2)` are left out. Amounts are exact integer cents, so the rounding of `0.15 ×` in floating point is not reproduced.
- Text.Lower: lowers ASCII capitals only. JavaScript's `toLowerCase` also lowers non-ASCII letters.
- Uri.FormDecode: gives nothing for malformed UTF-8 after percent-decoding. Browsers substitute U+FFFD instead. No link the pages build produces such input.
- Uri.QueryOf: does not strip a `#` fragment. No link the pages build has one.
- Uri.SingleParam: is stated only for keys made of unreserved characters, which are all the pages use. Uri.Lookup itself decodes names as `URLSearchParams` does.
- Pictures, icons' appearance, layout and CSS classes are left out, except the colour of each status and priority badge. CheckInOut.StatusBadge and AdminRooms.StatusColor keep the colour class strings. CustomerBookings.StatusBadgeOf and AdminNotifications.PriorityBadge keep the badge's variant as a style value, so hover classes and the outline variant are not modelled.
- Only the route paths of `src/App.tsx` are used. `backend/Server.js`, the landing page, the login pages, the navigation bar, the admin dashboard and the reports page are not part of this model.
- The invoice and check-in/out pages ignore the `booking` query parameter that "View Invoice" and "Check-in/out" add on the My Bookings page. The model shows the links but gives the parameter no reader, as the pages do.
- CheckInOut.CheckInOutPage.CompleteCheckOut: the "Check-out Complete" toast is not returned. The invoice hand-over is.
- AdminNotifications.NotificationsPage.MarkAsRead: the handlers change nothing, as on the page. That is carried by the constant feed and the absence of a `modifies` clause. The second postcondition of each handler only spells out a consequence.

## Findings

| source | as written | input that shows it | evidently intended | confidence | as-written member | corrected member |
|---|---|---|---|---|---|---|
| src/pages/Invoice.tsx:49-50 | the total is fixed at $597 whatever the stay, and the subtotal is computed as total − taxes | the fallback booking: 3 nights at $199 shows a $597.00 room charge, a $507.45 subtotal, $89.55 taxes and a $597.00 total; Jane Smith's booking handed over at check-out: 2 nights, a $398.00 room charge, yet the same $597.00 total; the total matches the room charge only for 3-night stays | subtotal = room charge; taxes 15% of it; total = subtotal + taxes, as the booking form charges: $597.00 + $89.55 = $686.55 for the fallback booking | not executed | Invoice.HandedOverBill | Invoice.ConsistentBill |
| src/pages/CustomerDashboard.tsx:58 | "Book Now" navigates to `/customer-booking/<id>`, a path no route of src/App.tsx:30-43 matches, so the not-found page is shown | room 1, "Deluxe Room": `/customer-booking/1` | the booking form at `/booking` with the room's name and nightly price in the query, as src/pages/Booking.tsx:18-20 reads them | not executed | CustomerDashboard.BookRoomTargetIsUnrouted | CustomerDashboard.BookRoomLink |
