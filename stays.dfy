/** Stay dates and the booking record shared by the check-in/out desk and the
    invoice. Dates are integer milliseconds since 1970-01-01 UTC, which is
    what `Date.getTime()` returns. */
module Stays {

  /** `1000 * 60 * 60 * 24`, the length of a day in milliseconds. */
  const MsPerDay: int := 1000 * 60 * 60 * 24

  /** Midnight UTC at the start of the given day, counted from 1970-01-01:
      the instant `new Date("YYYY-MM-DD")` denotes. */
  function DayStart(day: int): int {
    day * MsPerDay
  }

  /** `Math.ceil((checkOut - checkIn) / (1000 * 60 * 60 * 24))`: the number of
      started days between the two instants. Dafny's `/` rounds down for a
      positive divisor, so the ceiling is the negated floor of the negation. */
  function Nights(checkIn: int, checkOut: int): (n: int)
    ensures (n - 1) * MsPerDay < checkOut - checkIn <= n * MsPerDay
    ensures checkIn < checkOut ==> n >= 1
    ensures checkOut <= checkIn ==> n <= 0
  {
    -((checkIn - checkOut) / MsPerDay)
  }

  /** The ceiling is the only whole number with that property. */
  lemma NightsUnique(checkIn: int, checkOut: int, n: int)
    requires (n - 1) * MsPerDay < checkOut - checkIn <= n * MsPerDay
    ensures n == Nights(checkIn, checkOut)
  {
  }

  /** From midnight to midnight the count is the number of calendar days. */
  lemma NightsBetweenMidnights(first: int, days: int)
    ensures Nights(DayStart(first), DayStart(first + days)) == days
  {
    NightsUnique(DayStart(first), DayStart(first + days), days);
  }

  /** One hour in milliseconds. */
  const MsPerHour: int := 1000 * 60 * 60

  /** Between two local midnights around a change of clocks the interval is
      not a whole day: the 25-hour night of a fall-back change counts as two
      nights, and the 23-hour night of a spring-forward change as one. */
  lemma ClockChangeNights(first: int)
    ensures Nights(DayStart(first), DayStart(first + 1) + MsPerHour) == 2
    ensures Nights(DayStart(first), DayStart(first + 1) - MsPerHour) == 1
  {
    NightsUnique(DayStart(first), DayStart(first + 1) + MsPerHour, 2);
    NightsUnique(DayStart(first), DayStart(first + 1) - MsPerHour, 1);
  }

  /** A booking as the check-in/out desk and the invoice hold it. */
  datatype Stay = Stay(
    id: string,
    roomNumber: string,
    roomType: string,
    status: string,
    checkIn: int,
    checkOut: int,
    guests: nat,
    guestName: string,
    amount: int,
    services: seq<string>)
}
