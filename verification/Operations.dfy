/** The five controller operations as functions on the whole system: the in-memory maps, the
    images the durable state file may hold, and the peers on the WireGuard device.
    Everything a call reads from outside (clock, mode, revocations, whether a save or a device
    call succeeds) is part of its input, so a lemma over all inputs covers every failure. */
module Operations {
  import opened Clocks
  import opened Records

  datatype Memory = Memory(
    peers: map<Key, PeerRecord>,
    quotas: map<Owner, QuotaRecord>,
    runtime: map<Key, Runtime>,
    window: Time,
    counts: map<Name, int>,
    failed: bool)

  /** The decoded state file. A field that is null is None;
      `strayKeys` are the entries under `peers` whose name is not a WireGuard key. */
  datatype Disk = Disk(
    version: int,
    peers: Option<map<Key, PeerRecord>>,
    strayKeys: set<Name>,
    quotas: Option<map<Owner, QuotaRecord>>,
    window: Time,
    counts: Option<map<Name, int>>)

  datatype Counters = Counters(rx: int, tx: int)

  /** `images` are the contents the next load may find: exactly one after a save that returned
      nil, more after a save that failed part way. An image is None while there is no file. */
  datatype System = System(mem: Memory, images: set<Option<Disk>>, device: map<Key, Counters>)

  datatype SaveOutcome = SaveOk | SaveFailed
  datatype AddOutcome = AddOk | AddFailedClean | AddFailedPartial
  datatype RemoveOutcome = RemoveOk | RemoveFailedKept | RemoveFailedGone

  const EMPTY_MEMORY := Memory(map[], map[], map[], ZERO_TIME, map[], false)

  /** Every peer record is charged to an owner with an account; only recorded peers are active. */
  ghost predicate Structural(m: Memory) {
    && (forall k :: k in m.peers ==> OwnerOf(k, m.peers[k]) in m.quotas)
    && m.runtime.Keys <= m.peers.Keys
  }

  function DiskOf(m: Memory): Disk {
    Disk(STATE_VERSION, Some(m.peers), {}, Some(m.quotas), m.window, Some(m.counts))
  }

  function Persist(s: System, outcome: SaveOutcome): System {
    if s.mem.failed then s
    else if outcome.SaveOk? then s.(images := {Some(DiskOf(s.mem))})
    else s.(mem := s.mem.(failed := true), images := s.images + {Some(DiskOf(s.mem))})
  }

  function AddTo(device: map<Key, Counters>, k: Key, outcome: AddOutcome): map<Key, Counters> {
    if outcome.AddFailedClean? || k in device then device else device[k := Counters(0, 0)]
  }

  function RemoveFrom(device: map<Key, Counters>, k: Key, outcome: RemoveOutcome): map<Key, Counters> {
    if outcome.RemoveFailedKept? then device else device - {k}
  }

  // ---------------------------------------------------------------- load

  predicate RecordLoadable(r: PeerRecord) {
    && !r.keyID.NoId?
    && (r.keyID.OpenId? <==> r.generation.NoGeneration?)
    && !IsZero(r.createdAt) && !IsZero(r.lastSeen)
    && (r.endpoint.Some? ==> !IsZero(r.endpointSeenAt))
  }

  predicate QuotaLoadable(o: Owner, q: QuotaRecord) {
    o != EmptyOwner && 0 <= q.usedBytes && q.usageDate.Day? && !IsZero(q.lastSeen)
  }

  predicate QuotasLoadable(quotas: map<Owner, QuotaRecord>) {
    forall o :: o in quotas ==> QuotaLoadable(o, quotas[o])
  }

  predicate PeerLoadable(k: Key, r: PeerRecord, quotas: map<Owner, QuotaRecord>) {
    RecordLoadable(r) && OwnerOf(k, r) in quotas
  }

  predicate PeersLoadable(peers: map<Key, PeerRecord>, quotas: map<Owner, QuotaRecord>) {
    forall k :: k in peers ==> PeerLoadable(k, peers[k], quotas)
  }

  predicate CountsLoadable(counts: map<Name, int>) {
    forall ip :: ip in counts ==> 0 <= counts[ip]
  }

  predicate HeaderLoadable(d: Disk) {
    d.version == STATE_VERSION && d.peers.Some? && d.quotas.Some? && d.counts.Some? && !IsZero(d.window)
  }

  predicate Loadable(d: Disk) {
    && HeaderLoadable(d)
    && QuotasLoadable(d.quotas.value)
    && d.strayKeys == {} && PeersLoadable(d.peers.value, d.quotas.value)
    && CountsLoadable(d.counts.value)
  }

  function NormalizeAll(quotas: map<Owner, QuotaRecord>, c: Clock): map<Owner, QuotaRecord> {
    map o | o in quotas :: Normalize(quotas[o], c)
  }

  function Positive(counts: map<Name, int>): map<Name, int> {
    map ip | ip in counts && counts[ip] > 0 :: counts[ip]
  }

  /** Without a file the maps are emptied and the issue window stays as it was. */
  function Recall(image: Option<Disk>, window: Time, c: Clock): Memory
    requires image.Some? ==> Loadable(image.value)
  {
    match image
    case None => EMPTY_MEMORY.(window := window)
    case Some(d) => Memory(d.peers.value, NormalizeAll(d.quotas.value, c), map[], d.window, Positive(d.counts.value),
      false)
  }

  function RollWindow(m: Memory, now: Time, window: int): Memory {
    if IsZero(m.window) || now - m.window >= window || now < m.window then
      m.(window := now, counts := map[])
    else
      m
  }

  datatype Result = Result(sys: System, error: Error)

  /** A load that reads `image`. When the image is rejected the process exits, so only the
      error matters; the memory is then left empty here. */
  function Load(s: System, image: Option<Disk>, c: Clock, save: SaveOutcome): Result {
    if image.Some? && !Loadable(image.value) then
      Result(s.(mem := EMPTY_MEMORY), InvalidState)
    else
      var saved := Persist(s.(mem := RollWindow(Recall(image, s.mem.window, c), c.now, DAY)), save);
      Result(saved, if saved.mem.failed then StateUnavailable else NoError)
  }

  // ---------------------------------------------------------------- registerPeer

  datatype RegisterInput = RegisterInput(
    peer: Key,
    mode: Mode,
    request: Name,
    validated: Option<KeyID>,
    revoked: Option<set<KeyID>>,
    limit: int,
    clock: Clock,
    save: SaveOutcome,
    add: AddOutcome,
    cleanup: RemoveOutcome,
    rollback: SaveOutcome)

  datatype Registered = Registered(sys: System, credential: Credential, error: Error)

  /** The running peers charged to `owner`, other than `peer`. */
  function OtherPeers(m: Memory, owner: Owner, peer: Key): set<Key> {
    set k | k in m.runtime && k != peer && k in m.peers && OwnerOf(k, m.peers[k]) == owner
  }

  function AccountOf(quotas: map<Owner, QuotaRecord>, owner: Owner, c: Clock): QuotaRecord {
    Normalize(if owner in quotas then quotas[owner] else FreshQuota(c), c)
  }

  function QuotaFor(m: Memory, owner: Owner, c: Clock): QuotaRecord {
    AccountOf(m.quotas, owner, c)
  }

  predicate OverQuota(q: QuotaRecord, limit: int, now: Time) {
    now < q.blockedUntil || (limit > 0 && q.usedBytes > limit)
  }

  predicate Issued(keyID: KeyID) {
    !keyID.OpenId? && !keyID.SharedId?
  }

  function RecordFor(m: Memory, peer: Key, credential: Credential, now: Time): PeerRecord {
    var known := if peer in m.peers then m.peers[peer] else PeerRecord(NoId, NoGeneration, now, now, None, ZERO_TIME);
    known.(keyID := credential.keyID, generation := credential.generation, lastSeen := now)
  }

  function Touch(runtime: map<Key, Runtime>, k: Key, now: Time): map<Key, Runtime> {
    runtime[k := if k in runtime then runtime[k].(addedAt := now) else Runtime(0, 0, now)]
  }

  /** The memory that is made durable before the device is touched. */
  function Written(m: Memory, peer: Key, credential: Credential, c: Clock): Memory {
    var owner := QuotaOwner(peer, credential.keyID, credential.generation);
    m.(
      peers := m.peers[peer := RecordFor(m, peer, credential, c.now)],
      quotas := m.quotas[owner := QuotaFor(m, owner, c).(lastSeen := c.now)])
  }

  function RegisterPeer(s: System, i: RegisterInput): Registered {
    if s.mem.failed then
      Registered(s, NO_CREDENTIAL, StateUnavailable)
    else
      var auth := Authorize(i.mode, i.request, i.validated, i.revoked);
      if auth.error != NoError then
        Registered(s, auth.credential, auth.error)
      else if !CredentialMatches(i.mode, auth.credential) then
        Registered(s, NO_CREDENTIAL, Unauthorized)
      else
        Admit(s, i, auth.credential)
  }

  function Admit(s: System, i: RegisterInput, credential: Credential): Registered {
    var owner := QuotaOwner(i.peer, credential.keyID, credential.generation);
    var quota := QuotaFor(s.mem, owner, i.clock);
    if OverQuota(quota, i.limit, i.clock.now) then
      Registered(s, credential, PeerBlocked)
    else if Issued(credential.keyID) && |OtherPeers(s.mem, owner, i.peer)| >= MAX_ACTIVE_PEERS then
      Registered(s, credential, PeerLimitReached)
    else
      var saved := Persist(s.(mem := Written(s.mem, i.peer, credential, i.clock)), i.save);
      if saved.mem.failed then
        Registered(saved.(mem := s.mem.(failed := true)), credential, StateUnavailable)
      else
        Activate(s.mem, saved, i, credential)
  }

  /** The authorization is durable; put the peer on the device, or undo. */
  function Activate(before: Memory, s: System, i: RegisterInput, credential: Credential): Registered {
    var added := s.(device := AddTo(s.device, i.peer, i.add));
    var running := s.mem.(runtime := Touch(s.mem.runtime, i.peer, i.clock.now));
    if i.add.AddOk? then
      Registered(added.(mem := running), credential, NoError)
    else
      var cleaned := added.(device := RemoveFrom(added.device, i.peer, i.cleanup));
      if !i.cleanup.RemoveOk? then
        Registered(cleaned.(mem := running), credential, AddAndCleanupFailed)
      else
        var undone := before.(runtime := before.runtime - {i.peer});
        var saved := Persist(cleaned.(mem := undone), i.rollback);
        Registered(saved, credential, if saved.mem.failed then StateUnavailable else AddFailed)
  }

  // ---------------------------------------------------------------- issueAuthKey

  /** `before` and `after` are the secret's digest when the call starts and under the lock;
      `key` is the freshly signed key, None when generating it failed. */
  datatype IssueInput = IssueInput(
    ip: Name,
    max: int,
    window: int,
    before: Option<Name>,
    key: Option<Name>,
    after: Option<Name>,
    clock: Clock,
    save: SaveOutcome)

  datatype Issuance = Issuance(sys: System, key: Option<Name>, error: Error)

  function Count(counts: map<Name, int>, ip: Name): int {
    if ip in counts then counts[ip] else 0
  }

  function RetryAfter(window: Time, length: int, now: Time): int {
    var wait := window + length - now;
    if wait < SECOND then SECOND else wait
  }

  function IssueAuthKey(s: System, i: IssueInput): Issuance {
    if i.before.None? then
      Issuance(s, None, Unauthorized)
    else if i.key.None? then
      Issuance(s, None, IssueFailed)
    else if s.mem.failed then
      Issuance(s, None, StateUnavailable)
    else if i.after != i.before then
      Issuance(s, None, Unauthorized)
    else
      var rolled := RollWindow(s.mem, i.clock.now, i.window);
      var used := Count(rolled.counts, i.ip);
      if used >= i.max then
        Issuance(s.(mem := rolled), None, RateLimited(RetryAfter(rolled.window, i.window, i.clock.now)))
      else
        var saved := Persist(s.(mem := rolled.(counts := rolled.counts[i.ip := used + 1])), i.save);
        if saved.mem.failed then
          Issuance(saved.(mem := rolled.(counts := rolled.counts[i.ip := used], failed := true)), None,
            StateUnavailable)
        else
          Issuance(saved, i.key, NoError)
  }

  // ---------------------------------------------------------------- restorePeers

  datatype RestoreInput = RestoreInput(
    mode: Mode,
    revoked: Option<set<KeyID>>,
    limit: int,
    clock: Clock,
    adds: map<Key, AddOutcome>,
    save: SaveOutcome)

  datatype Decision = Forget | Keep | Attempt

  predicate RecentEndpoint(r: PeerRecord, now: Time) {
    r.endpoint.Some? && !IsZero(r.endpointSeenAt) && now - r.endpointSeenAt < RESTORE_ENDPOINT_MAX_AGE &&
      !(now < r.endpointSeenAt)
  }

  /** An owner's account as a restored peer of that owner finds it. */
  function RestoreQuota(q: QuotaRecord, i: RestoreInput): QuotaRecord {
    var n := Normalize(q, i.clock);
    if i.limit > 0 && n.usedBytes > i.limit && !(i.clock.now < n.blockedUntil)
    then n.(blockedUntil := NextLocalMidnight(i.clock))
    else n
  }

  predicate NewlyBlocked(q: QuotaRecord, i: RestoreInput) {
    RestoreQuota(q, i) != Normalize(q, i.clock)
  }

  function Decide(r: PeerRecord, q: QuotaRecord, i: RestoreInput): Decision {
    if !RecentEndpoint(r, i.clock.now) then Forget
    else if i.clock.now < RestoreQuota(q, i).blockedUntil then Keep
    else if !RecordMatches(i.mode, r) then Forget
    else if i.mode.SecretMode? && i.revoked.None? then Keep
    else if i.mode.SecretMode? && r.keyID in i.revoked.value then Forget
    else Attempt
  }

  function AddOutcomeOf(i: RestoreInput, k: Key): AddOutcome {
    if k in i.adds then i.adds[k] else AddOk
  }

  function DecideFor(m: Memory, k: Key, i: RestoreInput): Decision
    requires Structural(m) && k in m.peers
  {
    Decide(m.peers[k], m.quotas[OwnerOf(k, m.peers[k])], i)
  }

  predicate Restored(m: Memory, k: Key, i: RestoreInput)
    requires Structural(m) && k in m.peers
  {
    DecideFor(m, k, i).Attempt? && AddOutcomeOf(i, k).AddOk?
  }

  function RestoredRecord(m: Memory, k: Key, i: RestoreInput): PeerRecord
    requires Structural(m) && k in m.peers
  {
    if DecideFor(m, k, i).Keep? || Restored(m, k, i) then m.peers[k] else Cleared(m.peers[k])
  }

  /** Owners of peers with a recent endpoint: the accounts a restore looks at. */
  function RecentOwners(peers: map<Key, PeerRecord>, now: Time): set<Owner> {
    set k | k in peers && RecentEndpoint(peers[k], now) :: OwnerOf(k, peers[k])
  }

  function RestoredMemory(m: Memory, i: RestoreInput): Memory
    requires Structural(m)
  {
    var recent := RecentOwners(m.peers, i.clock.now);
    m.(
      peers := map k | k in m.peers :: RestoredRecord(m, k, i),
      quotas := map o | o in m.quotas :: if o in recent then RestoreQuota(m.quotas[o], i) else m.quotas[o],
      runtime := map k | k in m.peers && (k in m.runtime || Restored(m, k, i)) ::
        if Restored(m, k, i) then Runtime(0, 0, i.clock.now) else m.runtime[k])
  }

  function RestoredDevice(s: System, i: RestoreInput): map<Key, Counters>
    requires Structural(s.mem)
  {
    map k | k in s.device.Keys + s.mem.peers.Keys &&
      (k in s.device || (DecideFor(s.mem, k, i).Attempt? && !AddOutcomeOf(i, k).AddFailedClean?)) ::
      if k in s.device then s.device[k] else Counters(0, 0)
  }

  predicate RestoreChanges(m: Memory, i: RestoreInput)
    requires Structural(m)
  {
    || (exists k :: k in m.peers && RestoredRecord(m, k, i) != m.peers[k])
    || (exists o :: o in RecentOwners(m.peers, i.clock.now) && o in m.quotas && NewlyBlocked(m.quotas[o], i))
  }

  function RestorePeers(s: System, i: RestoreInput): Result
    requires Structural(s.mem)
  {
    if s.mem.failed then
      Result(s, StateUnavailable)
    else
      var restored := s.(mem := RestoredMemory(s.mem, i), device := RestoredDevice(s, i));
      if RestoreChanges(s.mem, i) then
        var saved := Persist(restored, i.save);
        Result(saved, if saved.mem.failed then StateUnavailable else NoError)
      else
        Result(restored, NoError)
  }

  // ---------------------------------------------------------------- reconcile

  /** What the device reports about one peer. */
  datatype PeerInfo = PeerInfo(key: Key, rx: int, tx: int, handshake: Time, endpoint: Option<Name>)

  datatype ReconcileInput = ReconcileInput(
    snapshot: seq<PeerInfo>,
    mode: Mode,
    revoked: Option<set<KeyID>>,
    limit: int,
    clock: Clock,
    save: SaveOutcome,
    removals: map<Key, RemoveOutcome>)

  /** Bytes since the last observation; after a counter reset, the whole counter. */
  function Delta(counter: int, last: int): int {
    if counter - last < 0 then counter else counter - last
  }

  function RuntimeOf(m: Memory, k: Key, now: Time): Runtime {
    if k in m.runtime then m.runtime[k] else Runtime(0, 0, now)
  }

  function AdoptedRecord(now: Time): PeerRecord {
    PeerRecord(OpenId, NoGeneration, now, now, None, ZERO_TIME)
  }

  function KnownRecord(m: Memory, k: Key, now: Time): PeerRecord {
    if k in m.peers then m.peers[k] else AdoptedRecord(now)
  }

  /** The record after a device peer was observed: refreshed, keeping or dropping its endpoint. */
  function Observed(r: PeerRecord, p: PeerInfo, addedAt: Time, now: Time): PeerRecord {
    var seen := r.(lastSeen := now);
    if !IsZero(p.handshake) && now - p.handshake < RESTORE_ENDPOINT_MAX_AGE && p.endpoint.Some? then
      seen.(endpoint := p.endpoint, endpointSeenAt := p.handshake)
    else if !IsZero(p.handshake) && now - p.handshake >= RESTORE_ENDPOINT_MAX_AGE then
      Cleared(seen)
    else if IsZero(p.handshake) && now - addedAt >= RESTORE_ENDPOINT_MAX_AGE then
      Cleared(seen)
    else
      seen
  }

  function Charged(q: QuotaRecord, p: PeerInfo, r: Runtime, now: Time): QuotaRecord {
    q.(usedBytes := AddUsage(AddUsage(q.usedBytes, Delta(p.rx, r.lastRx)), Delta(p.tx, r.lastTx)), lastSeen := now)
  }

  function ChargeAccount(quotas: map<Owner, QuotaRecord>, owner: Owner, p: PeerInfo, r: Runtime, c: Clock): map<Owner,
    QuotaRecord> {
    quotas[owner := Charged(AccountOf(quotas, owner, c), p, r, c.now)]
  }

  function Charge(m: Memory, p: PeerInfo, c: Clock): Memory {
    var record := KnownRecord(m, p.key, c.now);
    var runtime := RuntimeOf(m, p.key, c.now);
    m.(
      peers := m.peers[p.key := Observed(record, p, runtime.addedAt, c.now)],
      quotas := ChargeAccount(m.quotas, OwnerOf(p.key, record), p, runtime, c),
      runtime := m.runtime[p.key := Runtime(p.rx, p.tx, runtime.addedAt)])
  }

  /** A listed peer without a record is adopted in the open mode and left for removal otherwise. */
  function ChargePeer(m: Memory, p: PeerInfo, mode: Mode, c: Clock): (r: Memory)
    requires Structural(m)
    ensures Structural(r)
    ensures p.key in r.peers ==> p.key in r.runtime
    ensures m.peers.Keys <= r.peers.Keys && m.runtime.Keys <= r.runtime.Keys
  {
    if p.key !in m.peers && !mode.OpenMode? then m else Charge(m, p, c)
  }

  function ChargeAll(m: Memory, snapshot: seq<PeerInfo>, mode: Mode, c: Clock): (r: Memory)
    requires Structural(m)
    ensures Structural(r)
    ensures forall p :: p in snapshot && p.key in r.peers ==> p.key in r.runtime
    ensures m.peers.Keys <= r.peers.Keys && m.runtime.Keys <= r.runtime.Keys
    ensures !mode.OpenMode? ==> r.peers.Keys == m.peers.Keys
  {
    if |snapshot| == 0 then m
    else
      var n := |snapshot| - 1;
      assert snapshot == snapshot[..n] + [snapshot[n]];
      ChargePeer(ChargeAll(m, snapshot[..n], mode, c), snapshot[n], mode, c)
  }

  function SnapshotKeys(snapshot: seq<PeerInfo>): set<Key> {
    set p | p in snapshot :: p.key
  }

  function SnapshotOwners(m: Memory, snapshot: seq<PeerInfo>): set<Owner> {
    set p | p in snapshot && p.key in m.peers :: OwnerOf(p.key, m.peers[p.key])
  }

  predicate Exceeds(q: QuotaRecord, limit: int, now: Time) {
    limit > 0 && q.usedBytes > limit && !(now < q.blockedUntil)
  }

  function BlockOwners(m: Memory, snapshot: seq<PeerInfo>, limit: int, c: Clock): Memory {
    var owners := SnapshotOwners(m, snapshot);
    m.(quotas := map o | o in m.quotas ::
      if o in owners && Exceeds(m.quotas[o], limit, c.now)
      then m.quotas[o].(blockedUntil := NextLocalMidnight(c)) else m.quotas[o])
  }

  predicate Stale(p: PeerInfo, addedAt: Time, now: Time) {
    if IsZero(p.handshake) then now - addedAt >= STALE_PEER_MAX_IDLE else now - p.handshake >= STALE_PEER_MAX_IDLE
  }

  predicate Rejected(m: Memory, p: PeerInfo, i: ReconcileInput)
    requires Structural(m) && p.key in m.peers && p.key in m.runtime
  {
    var record := m.peers[p.key];
    || !RecordMatches(i.mode, record)
    || (i.mode.SecretMode? && (i.revoked.None? || record.keyID in i.revoked.value))
    || i.clock.now < m.quotas[OwnerOf(p.key, record)].blockedUntil
    || Stale(p, m.runtime[p.key].addedAt, i.clock.now)
  }

  ghost predicate Running(m: Memory, snapshot: seq<PeerInfo>) {
    forall p :: p in snapshot && p.key in m.peers ==> p.key in m.runtime
  }

  function RejectedKeys(m: Memory, snapshot: seq<PeerInfo>, i: ReconcileInput): set<Key>
    requires Structural(m) && Running(m, snapshot)
  {
    set p | p in snapshot && p.key in m.peers && Rejected(m, p, i) :: p.key
  }

  function UnknownKeys(m: Memory, snapshot: seq<PeerInfo>): set<Key> {
    set p | p in snapshot && p.key !in m.peers :: p.key
  }

  function ClearEndpoints(m: Memory, keys: set<Key>): Memory {
    m.(peers := map k | k in m.peers :: if k in keys then Cleared(m.peers[k]) else m.peers[k])
  }

  predicate Retained(m: Memory, k: Key, active: set<Key>, now: Time)
    requires k in m.peers
  {
    k in active || now - m.peers[k].lastSeen < PEER_STATE_RETENTION
  }

  function PrunePeers(m: Memory, active: set<Key>, now: Time): Memory {
    m.(
      peers := map k | k in m.peers && Retained(m, k, active, now) :: m.peers[k],
      runtime := map k | k in m.runtime && (k in m.peers ==> Retained(m, k, active, now)) :: m.runtime[k])
  }

  function Referenced(peers: map<Key, PeerRecord>): set<Owner> {
    set k | k in peers :: OwnerOf(k, peers[k])
  }

  predicate QuotaExpired(q: QuotaRecord, now: Time) {
    now - q.lastSeen >= PEER_STATE_RETENTION && !(now < q.blockedUntil)
  }

  function PruneQuotas(m: Memory, now: Time): Memory {
    var referenced := Referenced(m.peers);
    m.(quotas := map o | o in m.quotas && (o in referenced || !QuotaExpired(m.quotas[o], now)) :: m.quotas[o])
  }

  function RemoveOutcomeOf(i: ReconcileInput, k: Key): RemoveOutcome {
    if k in i.removals then i.removals[k] else RemoveOk
  }

  function RemoveAll(s: System, keys: set<Key>, i: ReconcileInput): System {
    s.(
      device := map k | k in s.device && (k in keys ==> RemoveOutcomeOf(i, k).RemoveFailedKept?) :: s.device[k],
      mem := s.mem.(runtime := map k | k in s.mem.runtime && (k in keys ==> !RemoveOutcomeOf(i, k).RemoveOk?) ::
        s.mem.runtime[k]))
  }

  /** Usage charged and over-quota owners blocked: the memory that decides who stays. */
  function Judged(m: Memory, i: ReconcileInput): (r: Memory)
    requires Structural(m)
    ensures Structural(r) && Running(r, i.snapshot)
  {
    BlockOwners(ChargeAll(m, i.snapshot, i.mode, i.clock), i.snapshot, i.limit, i.clock)
  }

  function RemovedKeys(m: Memory, i: ReconcileInput): set<Key>
    requires Structural(m)
  {
    UnknownKeys(Judged(m, i), i.snapshot) + RejectedKeys(Judged(m, i), i.snapshot, i)
  }

  /** The memory a reconcile writes to disk. */
  function Reconciled(m: Memory, i: ReconcileInput): Memory
    requires Structural(m)
  {
    var judged := Judged(m, i);
    PruneQuotas(PrunePeers(ClearEndpoints(judged, RejectedKeys(judged, i.snapshot, i)), SnapshotKeys(i.snapshot),
      i.clock.now), i.clock.now)
  }

  function Reconcile(s: System, i: ReconcileInput): Result
    requires Structural(s.mem)
  {
    if s.mem.failed then
      Result(s, StateUnavailable)
    else
      var saved := Persist(s.(mem := Reconciled(s.mem, i)), i.save);
      if saved.mem.failed then Result(saved, StateUnavailable)
      else Result(RemoveAll(saved, RemovedKeys(s.mem, i), i), NoError)
  }
}
