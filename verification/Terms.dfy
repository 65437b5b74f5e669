/** The words in which the answers of the operations are stated: conditions on the fields of the
    inputs and of the state before a call, without the functions the operations are made of. */
module Terms {
  import opened Clocks
  import opened Records
  import opened Operations

  const MINUTE: int := 60_000_000_000
  const HOUR: int := 3_600_000_000_000

  function DayOf(c: Clock): int {
    (c.now + c.zone) / (24 * HOUR)
  }

  /** The first instant of the next day. */
  function EndOfDay(c: Clock): Time {
    (DayOf(c) + 1) * (24 * HOUR) - c.zone
  }

  /** What the current mode asks of a record. */
  predicate OfMode(mode: Mode, r: PeerRecord) {
    && (mode.SecretMode? ==> r.keyID.IssuedId? && r.generation == Digest(mode.digest))
    && (mode.SharedMode? ==> r.keyID == SharedId && r.generation == Digest(mode.digest))
  }

  /** The bytes an owner has used on the clock's day. */
  function UsedToday(quotas: map<Owner, QuotaRecord>, o: Owner, c: Clock): Int64 {
    if o in quotas && quotas[o].usageDate == Day(DayOf(c)) then quotas[o].usedBytes else 0
  }

  /** The end of the block that stands on the clock's day; Go's zero time if there is none. */
  function BlockEnd(quotas: map<Owner, QuotaRecord>, o: Owner, c: Clock): Time {
    if o in quotas && quotas[o].usageDate == Day(DayOf(c)) && c.now < quotas[o].blockedUntil
    then quotas[o].blockedUntil else ZERO_TIME
  }

  /** An owner's account on the clock's day, last seen at `seen`. */
  function DaysAccount(quotas: map<Owner, QuotaRecord>, o: Owner, c: Clock, seen: Time): QuotaRecord {
    QuotaRecord(Day(DayOf(c)), UsedToday(quotas, o, c), BlockEnd(quotas, o, c), seen)
  }

  /** Neither blocked nor over a positive limit. */
  predicate WithinQuota(quotas: map<Owner, QuotaRecord>, o: Owner, limit: int, c: Clock) {
    c.now >= BlockEnd(quotas, o, c) && (limit > 0 ==> UsedToday(quotas, o, c) <= limit)
  }

  /** The record has an endpoint that was seen in the last 15 minutes. */
  predicate SeenLately(r: PeerRecord, now: Time) {
    r.endpoint.Some? && r.endpointSeenAt != ZERO_TIME && 0 <= now - r.endpointSeenAt < 15 * MINUTE
  }

  lemma DayIs(c: Clock)
    ensures Today(c) == DayOf(c) && NextLocalMidnight(c) == EndOfDay(c)
  {
  }

  lemma AccountIsOfTheDay(quotas: map<Owner, QuotaRecord>, o: Owner, c: Clock)
    ensures AccountOf(quotas, o, c) == DaysAccount(quotas, o, c, if o in quotas then quotas[o].lastSeen else c.now)
    ensures o in quotas ==> Normalize(quotas[o], c) == DaysAccount(quotas, o, c, quotas[o].lastSeen)
  {
    DayIs(c);
  }

  lemma OverQuotaIsNotWithin(quotas: map<Owner, QuotaRecord>, o: Owner, limit: int, c: Clock)
    ensures OverQuota(AccountOf(quotas, o, c), limit, c.now) <==> !WithinQuota(quotas, o, limit, c)
  {
    AccountIsOfTheDay(quotas, o, c);
    hide AccountOf, UsedToday, BlockEnd;
  }
}
