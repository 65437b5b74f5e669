/** Time as the controller sees it: instants are integers (nanoseconds since the Unix epoch)
    and the server's zone is a fixed offset, so calendar days are integer arithmetic.
    Go's zero time is the first instant of year 1; it is not the Unix epoch, which is 0 here. */
module Clocks {

  type Time = int

  const SECOND: int := 1_000_000_000
  const DAY: int := 86_400_000_000_000

  const ZERO_TIME: Time := -62_135_596_800_000_000_000

  /** One reading of the server's clock, together with the zone it is shown in. */
  datatype Clock = Clock(now: Time, zone: int)

  predicate IsZero(t: Time) {
    t == ZERO_TIME
  }

  /** The calendar day an instant falls on; its decimal form is the usage date. */
  function LocalDay(t: Time, zone: int): int {
    (t + zone) / DAY
  }

  function Today(c: Clock): int {
    LocalDay(c.now, c.zone)
  }

  /** The first instant after calendar day `day`. */
  function MidnightAfter(day: int, zone: int): (m: Time)
    ensures forall t :: LocalDay(t, zone) <= day <==> t < m
  {
    (day + 1) * DAY - zone
  }

  function NextLocalMidnight(c: Clock): (m: Time)
    ensures c.now < m <= c.now + DAY
    ensures forall t :: LocalDay(t, c.zone) <= Today(c) <==> t < m
    ensures LocalDay(m, c.zone) == Today(c) + 1 && (m + c.zone) % DAY == 0
  {
    MidnightAfter(Today(c), c.zone)
  }

  /** Two instants at least two days apart never share a calendar day. */
  lemma DistantInstantsDifferInDay(t: Time, u: Time, zone: int)
    requires u - t >= 2 * DAY
    ensures LocalDay(t, zone) < LocalDay(u, zone)
  {
  }
}
