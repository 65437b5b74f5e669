/** The controller's records and the small pure rules that every operation uses. */
module Records {
  import opened Clocks

  datatype Option<+T> = None | Some(value: T)

  const STATE_VERSION: int := 2
  const PEER_STATE_RETENTION: int := 172_800_000_000_000
  const RESTORE_ENDPOINT_MAX_AGE: int := 900_000_000_000
  const STALE_PEER_MAX_IDLE: int := 1_800_000_000_000
  const MAX_ACTIVE_PEERS: int := 3
  const MAX_INT64: int := 9_223_372_036_854_775_807

  type Int64 = x: int | -9_223_372_036_854_775_808 <= x <= MAX_INT64

  /** Texts the controller only compares (addresses, ids, digests, keys) are numbered: equal
      numbers are equal texts. Module OwnerNames relates the owner's numbered parts to its text. */
  type Name = nat

  type Key = nat

  /** A key id: the empty text, the two reserved words, or an issued id. */
  datatype KeyID = NoId | OpenId | SharedId | IssuedId(name: Name)

  /** The digest of a secret; the empty secret has none. */
  datatype Generation = NoGeneration | Digest(name: Name)

  datatype PeerRecord = PeerRecord(
    keyID: KeyID,
    generation: Generation,
    createdAt: Time,
    lastSeen: Time,
    endpoint: Option<Name>,
    endpointSeenAt: Time)

  datatype UsageDate = Day(day: int) | Malformed(text: Name)

  datatype QuotaRecord = QuotaRecord(
    usageDate: UsageDate,
    usedBytes: Int64,
    blockedUntil: Time,
    lastSeen: Time)

  datatype Runtime = Runtime(lastRx: int, lastTx: int, addedAt: Time)

  /** Who a peer's traffic is charged to. The last two are texts that no peer produces. */
  datatype Owner =
    | PeerOwner(peer: Key)
    | KeyOwner(generation: Generation, keyID: KeyID)
    | EmptyOwner
    | OtherOwner(text: Name)

  datatype Credential = Credential(keyID: KeyID, generation: Generation)

  const NO_CREDENTIAL := Credential(NoId, NoGeneration)

  /** Which of the three authentication modes the server runs in. */
  datatype Mode =
    | SecretMode(digest: Name)
    | SharedMode(key: Name, digest: Name)
    | OpenMode

  datatype Error =
    | NoError
    | Unauthorized
    | RevocationsUnavailable
    | PeerBlocked
    | PeerLimitReached
    | RateLimited(retryAfter: int)
    | StateUnavailable
    | InvalidState
    | IssueFailed
    | AddFailed
    | AddAndCleanupFailed
    | SnapshotFailed

  function QuotaOwner(peer: Key, keyID: KeyID, generation: Generation): Owner {
    if keyID.OpenId? then PeerOwner(peer) else KeyOwner(generation, keyID)
  }

  function OwnerOf(peer: Key, record: PeerRecord): Owner {
    QuotaOwner(peer, record.keyID, record.generation)
  }

  function FreshQuota(c: Clock): QuotaRecord {
    QuotaRecord(Day(Today(c)), 0, ZERO_TIME, c.now)
  }

  /** Starts a new day's account, or lifts a block whose time has passed. */
  function Normalize(q: QuotaRecord, c: Clock): (r: QuotaRecord)
    ensures r.usageDate == Day(Today(c)) && r.lastSeen == q.lastSeen
    ensures r.blockedUntil == ZERO_TIME || c.now < r.blockedUntil
  {
    if q.usageDate != Day(Today(c)) then
      q.(usageDate := Day(Today(c)), usedBytes := 0, blockedUntil := ZERO_TIME)
    else if !IsZero(q.blockedUntil) && !(c.now < q.blockedUntil) then
      q.(blockedUntil := ZERO_TIME)
    else
      q
  }

  /** Saturating 64-bit addition that ignores a delta that is not positive. */
  function AddUsage(current: Int64, delta: int): (r: Int64)
    ensures current <= r
  {
    if delta <= 0 then current
    else if current > MAX_INT64 - delta then MAX_INT64
    else current + delta
  }

  datatype Authorization = Authorization(credential: Credential, error: Error)

  /** `validated` is the id the signature check accepted; `revoked` is None when the list cannot be read. */
  function Authorize(mode: Mode, request: Name, validated: Option<KeyID>, revoked: Option<set<KeyID>>): Authorization {
    match mode
    case SecretMode(digest) =>
      if validated.None? then
        Authorization(NO_CREDENTIAL, Unauthorized)
      else
        var credential := Credential(validated.value, Digest(digest));
        if revoked.None? then Authorization(credential, RevocationsUnavailable)
        else if validated.value in revoked.value then Authorization(credential, Unauthorized)
        else Authorization(credential, NoError)
    case SharedMode(key, digest) =>
      if request != key then Authorization(NO_CREDENTIAL, Unauthorized)
      else Authorization(Credential(SharedId, Digest(digest)), NoError)
    case OpenMode =>
      Authorization(Credential(OpenId, NoGeneration), NoError)
  }

  predicate CredentialMatches(mode: Mode, c: Credential) {
    match mode
    case SecretMode(g) => c.keyID.IssuedId? && c.generation == Digest(g)
    case SharedMode(_, g) => c.keyID.SharedId? && c.generation == Digest(g)
    case OpenMode => c.keyID.OpenId? && c.generation.NoGeneration?
  }

  predicate RecordMatches(mode: Mode, r: PeerRecord) {
    match mode
    case SecretMode(g) => r.keyID.IssuedId? && r.generation == Digest(g)
    case SharedMode(_, g) => r.keyID.SharedId? && r.generation == Digest(g)
    case OpenMode => true
  }

  function Cleared(r: PeerRecord): PeerRecord {
    r.(endpoint := None, endpointSeenAt := ZERO_TIME)
  }
}
