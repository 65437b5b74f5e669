/** The access controller in its own form: an object whose methods update its maps in place
    and call a store and a device that may fail. Each method is proved to compute exactly the
    corresponding function of module Operations, whatever order its loops visit the maps in. */
module Controller {
  import opened Clocks
  import opened Records
  import opened Operations

  function Lookup<K, V>(m: map<K, V>, k: K): Option<V> {
    if k in m then Some(m[k]) else None
  }

  function PutBack<K, V>(m: map<K, V>, k: K, before: Option<V>): map<K, V> {
    if before.Some? then m[k := before.value] else m - {k}
  }

  lemma PutBackUndoes<K, V>(m: map<K, V>, k: K, v: V)
    ensures PutBack(m[k := v], k, Lookup(m, k)) == m
  {
  }

  /** The durable state file; `images` are the contents a later load may find. */
  class StateStore {
    ghost var images: set<Option<Disk>>

    method Save(d: Disk, outcome: SaveOutcome) returns (ok: bool)
      modifies this
      ensures ok <==> outcome.SaveOk?
      ensures images == if ok then {Some(d)} else old(images) + {Some(d)}
    {
      ok := outcome.SaveOk?;
      images := if ok then {Some(d)} else images + {Some(d)};
    }
  }

  /** The WireGuard device: its peers, their traffic counters, and the endpoint named by the last
      request to add each of them. */
  class PeerDevice {
    var peers: map<Key, Counters>
    var endpoints: map<Key, Option<Name>>

    method AddPeer(k: Key, endpoint: Option<Name>, outcome: AddOutcome) returns (ok: bool)
      modifies this
      ensures ok <==> outcome.AddOk?
      ensures peers == AddTo(old(peers), k, outcome)
      ensures endpoints == old(endpoints)[k := endpoint]
    {
      endpoints := endpoints[k := endpoint];
      ok := outcome.AddOk?;
      if !outcome.AddFailedClean? && k !in peers {
        peers := peers[k := Counters(0, 0)];
      }
    }

    method RemovePeer(k: Key, outcome: RemoveOutcome) returns (ok: bool)
      modifies this`peers
      ensures ok <==> outcome.RemoveOk?
      ensures peers == RemoveFrom(old(peers), k, outcome)
    {
      ok := outcome.RemoveOk?;
      if !outcome.RemoveFailedKept? {
        peers := peers - {k};
      }
    }
  }

  /** What a load that refuses the file leaves in memory: some of its acceptable records, no
      session, no latch, and the window of the file or the one before. */
  ghost predicate PartlyLoaded(m: Memory, d: Disk, window: Time, c: Clock) {
    && m.runtime == map[] && !m.failed && (m.window == window || m.window == d.window)
    && (forall o :: o in m.quotas ==>
      && d.quotas.Some? && o in d.quotas.value && QuotaLoadable(o, d.quotas.value[o])
      && m.quotas[o] == Normalize(d.quotas.value[o], c))
    && (forall k :: k in m.peers ==>
      && d.peers.Some? && d.quotas.Some? && k in d.peers.value && m.peers[k] == d.peers.value[k]
      && PeerLoadable(k, m.peers[k], d.quotas.value))
    && (forall ip :: ip in m.counts ==>
      d.counts.Some? && ip in d.counts.value && 0 < d.counts.value[ip] == m.counts[ip])
  }

  class AccessController {
    var peers: map<Key, PeerRecord>
    var quotas: map<Owner, QuotaRecord>
    var runtime: map<Key, Runtime>
    var issueWindow: Time
    var issueCounts: map<Name, int>
    var failed: bool
    const store: StateStore
    const device: PeerDevice

    constructor (store: StateStore, device: PeerDevice)
      ensures this.store == store && this.device == device
      ensures Mem() == EMPTY_MEMORY
    {
      peers, quotas, runtime := map[], map[], map[];
      issueWindow, issueCounts, failed := ZERO_TIME, map[], false;
      this.store, this.device := store, device;
    }

    ghost function Mem(): Memory
      reads this
    {
      Memory(peers, quotas, runtime, issueWindow, issueCounts, failed)
    }

    ghost function State(): System
      reads this, store, device
    {
      System(Mem(), store.images, device.peers)
    }

    ghost predicate Valid()
      reads this
    {
      Structural(Mem())
    }

    method Save(outcome: SaveOutcome) returns (ok: bool)
      modifies this`failed, store
      ensures State() == Persist(old(State()), outcome)
      ensures ok <==> !failed
    {
      if failed {
        return false;
      }
      ok := store.Save(Disk(STATE_VERSION, Some(peers), {}, Some(quotas), issueWindow, Some(issueCounts)), outcome);
      if !ok {
        failed := true;
      }
    }

    // -------------------------------------------------------------- load

    /** `read` is what the store returned: None when the file could not be read at all. */
    method Load(read: Option<Option<Disk>>, c: Clock, save: SaveOutcome) returns (error: Error)
      modifies this, store
      ensures read.None? ==> error == StateUnavailable && State() == old(State())
      ensures read.Some? && (read.value.Some? ==> Loadable(read.value.value)) ==>
        Result(State(), error) == Operations.Load(old(State()), read.value, c, save)
      ensures read.Some? && read.value.Some? && !Loadable(read.value.value) ==>
        && error == InvalidState && store.images == old(store.images)
        && PartlyLoaded(Mem(), read.value.value, old(issueWindow), c)
    {
      if read.None? {
        return StateUnavailable;
      }
      peers, quotas, runtime := map[], map[], map[];
      issueCounts, failed := map[], false;
      if read.value.Some? {
        var d := read.value.value;
        if !HeaderLoadable(d) {
          return InvalidState;
        }
        var ok := LoadQuotas(d.quotas.value, c);
        if !ok {
          return InvalidState;
        }
        ok := LoadPeers(d.peers.value, d.quotas.value);
        if !ok || d.strayKeys != {} {
          return InvalidState;
        }
        issueWindow := d.window;
        ok := LoadCounts(d.counts.value);
        if !ok {
          return InvalidState;
        }
      }
      if IsZero(issueWindow) || c.now - issueWindow >= DAY || c.now < issueWindow {
        issueWindow := c.now;
        issueCounts := map[];
      }
      var ok := Save(save);
      return if ok then NoError else StateUnavailable;
    }

    method LoadQuotas(saved: map<Owner, QuotaRecord>, c: Clock) returns (ok: bool)
      requires quotas == map[]
      modifies this`quotas
      ensures ok <==> QuotasLoadable(saved)
      ensures ok ==> quotas == NormalizeAll(saved, c)
      ensures forall o :: o in quotas ==>
        o in saved && QuotaLoadable(o, saved[o]) && quotas[o] == Normalize(saved[o], c)
    {
      var todo := saved.Keys;
      while todo != {}
        invariant todo <= saved.Keys
        invariant forall o :: o in saved.Keys - todo ==> QuotaLoadable(o, saved[o])
        invariant quotas == map o | o in saved.Keys - todo :: Normalize(saved[o], c)
      {
        var o :| o in todo;
        todo := todo - {o};
        if !QuotaLoadable(o, saved[o]) {
          return false;
        }
        quotas := quotas[o := Normalize(saved[o], c)];
      }
      return true;
    }

    method LoadPeers(saved: map<Key, PeerRecord>, accounts: map<Owner, QuotaRecord>) returns (ok: bool)
      requires peers == map[] && quotas.Keys == accounts.Keys
      modifies this`peers
      ensures ok <==> PeersLoadable(saved, accounts)
      ensures ok ==> peers == saved
      ensures forall k :: k in peers ==> k in saved && PeerLoadable(k, saved[k], accounts) && peers[k] == saved[k]
    {
      var todo := saved.Keys;
      while todo != {}
        invariant todo <= saved.Keys
        invariant forall k :: k in saved.Keys - todo ==> PeerLoadable(k, saved[k], accounts)
        invariant peers.Keys == saved.Keys - todo && forall k :: k in peers ==> peers[k] == saved[k]
      {
        var k :| k in todo;
        todo := todo - {k};
        if !(RecordLoadable(saved[k]) && OwnerOf(k, saved[k]) in quotas) {
          assert !PeerLoadable(k, saved[k], accounts);
          return false;
        }
        peers := peers[k := saved[k]];
      }
      return true;
    }

    method LoadCounts(saved: map<Name, int>) returns (ok: bool)
      requires issueCounts == map[]
      modifies this`issueCounts
      ensures ok <==> CountsLoadable(saved)
      ensures ok ==> issueCounts == Positive(saved)
      ensures forall ip :: ip in issueCounts ==> ip in saved && 0 < saved[ip] == issueCounts[ip]
    {
      var todo := saved.Keys;
      while todo != {}
        invariant todo <= saved.Keys
        invariant forall ip :: ip in saved.Keys - todo ==> 0 <= saved[ip]
        invariant issueCounts == map ip | ip in saved.Keys - todo && saved[ip] > 0 :: saved[ip]
      {
        var ip :| ip in todo;
        todo := todo - {ip};
        if saved[ip] < 0 {
          return false;
        }
        if saved[ip] > 0 {
          issueCounts := issueCounts[ip := saved[ip]];
        }
      }
      return true;
    }

    // -------------------------------------------------------------- registerPeer

    method CountOthers(owner: Owner, peer: Key) returns (n: nat)
      ensures n == |OtherPeers(Mem(), owner, peer)|
    {
      n := 0;
      ghost var others := OtherPeers(Mem(), owner, peer);
      hide OtherPeers, OwnerOf;
      var todo := runtime.Keys;
      ghost var counted: set<Key> := {};
      while todo != {}
        invariant todo <= runtime.Keys
        invariant n == |counted|
        invariant forall k :: k in counted <==> k in others && k !in todo
      {
        var k :| k in todo;
        if k != peer && k in peers && OwnerOf(k, peers[k]) == owner {
          n := n + 1;
          counted := counted + {k};
        }
        todo := todo - {k};
      }
      assert counted == others;
    }

    method RestoreRecord(peer: Key, before: Option<PeerRecord>)
      modifies this`peers
      ensures peers == PutBack(old(peers), peer, before)
    {
      peers := if before.Some? then peers[peer := before.value] else peers - {peer};
    }

    method RestoreQuota(owner: Owner, before: Option<QuotaRecord>)
      modifies this`quotas
      ensures quotas == PutBack(old(quotas), owner, before)
    {
      quotas := if before.Some? then quotas[owner := before.value] else quotas - {owner};
    }

    method MarkRunning(peer: Key, now: Time)
      modifies this`runtime
      ensures runtime == Touch(old(runtime), peer, now)
    {
      if peer in runtime {
        runtime := runtime[peer := runtime[peer].(addedAt := now)];
      } else {
        runtime := runtime[peer := Runtime(0, 0, now)];
      }
    }

    method RegisterPeer(i: RegisterInput) returns (credential: Credential, error: Error)
      modifies this, store, device
      ensures Registered(State(), credential, error) == Operations.RegisterPeer(old(State()), i)
      ensures device.endpoints == old(device.endpoints) || device.endpoints == old(device.endpoints)[i.peer := None]
      ensures error == NoError ==> device.endpoints == old(device.endpoints)[i.peer := None]
    {
      if failed {
        return NO_CREDENTIAL, StateUnavailable;
      }
      var auth := Authorize(i.mode, i.request, i.validated, i.revoked);
      if auth.error != NoError {
        return auth.credential, auth.error;
      }
      if !CredentialMatches(i.mode, auth.credential) {
        return NO_CREDENTIAL, Unauthorized;
      }
      credential := auth.credential;
      error := AdmitPeer(i, credential);
    }

    method AdmitPeer(i: RegisterInput, credential: Credential) returns (error: Error)
      requires !failed
      modifies this, store, device
      ensures Registered(State(), credential, error) == Operations.Admit(old(State()), i, credential)
      ensures device.endpoints == old(device.endpoints) || device.endpoints == old(device.endpoints)[i.peer := None]
      ensures error == NoError ==> device.endpoints == old(device.endpoints)[i.peer := None]
    {
      hide Normalize, Activate, OtherPeers, QuotaOwner, Written, PutBack;
      var owner := QuotaOwner(i.peer, credential.keyID, credential.generation);
      var oldQuota := Lookup(quotas, owner);
      var quota := Normalize(if oldQuota.Some? then oldQuota.value else FreshQuota(i.clock), i.clock);
      if i.clock.now < quota.blockedUntil || (i.limit > 0 && quota.usedBytes > i.limit) {
        return PeerBlocked;
      }
      if !credential.keyID.OpenId? && !credential.keyID.SharedId? {
        var others := CountOthers(owner, i.peer);
        if others >= MAX_ACTIVE_PEERS {
          return PeerLimitReached;
        }
      }
      var oldRecord := Lookup(peers, i.peer);
      WriteRecord(i, credential, owner, quota);
      PutBackUndoes(old(peers), i.peer, peers[i.peer]);
      PutBackUndoes(old(quotas), owner, quotas[owner]);
      var ok := Save(i.save);
      if !ok {
        RestoreRecord(i.peer, oldRecord);
        RestoreQuota(owner, oldQuota);
        assert Mem() == old(Mem()).(failed := true);
        return StateUnavailable;
      }
      error := ActivatePeer(i, credential, oldRecord, owner, oldQuota, old(Mem()));
    }

    method WriteRecord(i: RegisterInput, credential: Credential, owner: Owner, quota: QuotaRecord)
      requires owner == QuotaOwner(i.peer, credential.keyID, credential.generation)
      requires quota == QuotaFor(Mem(), owner, i.clock)
      modifies this`peers, this`quotas
      ensures Mem() == Written(old(Mem()), i.peer, credential, i.clock)
      ensures i.peer in peers && peers == old(peers)[i.peer := peers[i.peer]]
      ensures owner in quotas && quotas == old(quotas)[owner := quotas[owner]]
    {
      var now := i.clock.now;
      var record := if i.peer in peers then peers[i.peer]
        else PeerRecord(NoId, NoGeneration, now, now, None, ZERO_TIME);
      record := record.(keyID := credential.keyID, generation := credential.generation, lastSeen := now);
      peers := peers[i.peer := record];
      quotas := quotas[owner := quota.(lastSeen := now)];
    }

    /** The record is durable: put the peer on the device, or take everything back. */
    method ActivatePeer(i: RegisterInput, ghost credential: Credential, oldRecord: Option<PeerRecord>,
                        owner: Owner, oldQuota: Option<QuotaRecord>, ghost before: Memory)
      returns (error: Error)
      requires !failed
      requires before == Mem().(peers := PutBack(peers, i.peer, oldRecord), quotas := PutBack(quotas, owner, oldQuota))
      modifies this, store, device
      ensures Registered(State(), credential, error) == Activate(before, old(State()), i, credential)
      ensures device.endpoints == old(device.endpoints)[i.peer := None]
    {
      hide PutBack, Touch, AddTo, RemoveFrom, DiskOf, Persist;
      var ok := device.AddPeer(i.peer, None, i.add);
      if !ok {
        var cleaned := device.RemovePeer(i.peer, i.cleanup);
        if !cleaned {
          MarkRunning(i.peer, i.clock.now);
          return AddAndCleanupFailed;
        }
        error := TakeBack(i, oldRecord, owner, oldQuota, before);
        return;
      }
      MarkRunning(i.peer, i.clock.now);
      return NoError;
    }

    /** The device is clean again: put the old record and account back and save them. */
    method TakeBack(i: RegisterInput, oldRecord: Option<PeerRecord>, owner: Owner, oldQuota: Option<QuotaRecord>,
                    ghost before: Memory)
      returns (error: Error)
      requires before == Mem().(peers := PutBack(peers, i.peer, oldRecord), quotas := PutBack(quotas, owner, oldQuota))
      modifies this, store
      ensures State() == Persist(old(State()).(mem := before.(runtime := before.runtime - {i.peer})), i.rollback)
      ensures error == if failed then StateUnavailable else AddFailed
    {
      hide PutBack, DiskOf;
      RestoreRecord(i.peer, oldRecord);
      RestoreQuota(owner, oldQuota);
      runtime := runtime - {i.peer};
      assert Mem() == before.(runtime := before.runtime - {i.peer});
      var undone := Save(i.rollback);
      return if undone then AddFailed else StateUnavailable;
    }

    // -------------------------------------------------------------- issueAuthKey

    method IssueAuthKey(i: IssueInput) returns (key: Option<Name>, error: Error)
      modifies this, store
      ensures Issuance(State(), key, error) == Operations.IssueAuthKey(old(State()), i)
    {
      if i.before.None? {
        return None, Unauthorized;
      }
      if i.key.None? {
        return None, IssueFailed;
      }
      if failed {
        return None, StateUnavailable;
      }
      if i.after != i.before {
        return None, Unauthorized;
      }
      var now := i.clock.now;
      if IsZero(issueWindow) || now - issueWindow >= i.window || now < issueWindow {
        issueWindow := now;
        issueCounts := map[];
      }
      ghost var rolled := RollWindow(old(Mem()), now, i.window);
      assert Mem() == rolled;
      hide RollWindow, DiskOf;
      var used := if i.ip in issueCounts then issueCounts[i.ip] else 0;
      if used >= i.max {
        var retryAfter := issueWindow + i.window - now;
        if retryAfter < SECOND {
          retryAfter := SECOND;
        }
        return None, RateLimited(retryAfter);
      }
      issueCounts := issueCounts[i.ip := used + 1];
      assert Mem() == rolled.(counts := rolled.counts[i.ip := used + 1]);
      var ok := Save(i.save);
      if !ok {
        issueCounts := issueCounts[i.ip := issueCounts[i.ip] - 1];
        assert issueCounts == rolled.counts[i.ip := used];
        return None, StateUnavailable;
      }
      return i.key, NoError;
    }

    // -------------------------------------------------------------- restorePeers

    method RestorePeers(i: RestoreInput) returns (error: Error)
      requires Valid()
      modifies this, store, device
      ensures Result(State(), error) == Operations.RestorePeers(old(State()), i)
      ensures old(failed) ==> device.endpoints == old(device.endpoints)
      ensures !old(failed) ==> EndpointsProgress(old(Mem()), i, {}, old(device.endpoints), device.endpoints)
    {
      if failed {
        return StateUnavailable;
      }
      var changed := false;
      var todo := peers.Keys;
      ghost var s := State();
      ghost var given := device.endpoints;
      RestoreStarts(s, i);
      while todo != {}
        invariant todo <= s.mem.peers.Keys
        invariant store.images == s.images
        invariant RestoreProgress(s, i, todo, State(), changed)
        invariant EndpointsProgress(s.mem, i, todo, given, device.endpoints)
      {
        hide RestoreProgress, EndpointsProgress;
        var k :| k in todo;
        RestoreProgressLinks(s, i, todo, State(), changed, k);
        ghost var before := State();
        EndpointsAdvance(s.mem, i, todo, given, device.endpoints, k);
        var c := RestoreOne(k, i);
        RestoreAdvances(s, i, todo, before, changed, k);
        changed := changed || c;
        todo := todo - {k};
      }
      RestoreFinishes(s, i, State(), changed);
      if changed {
        var ok := Save(i.save);
        return if ok then NoError else StateUnavailable;
      }
      return NoError;
    }

    /** One turn of the loop, in terms of the records it finds. */
    method RestoreOne(k: Key, i: RestoreInput) returns (changed: bool)
      requires k in peers && OwnerOf(k, peers[k]) in quotas
      modifies this`peers, this`quotas, this`runtime, device
      ensures State() == RestoreStep(old(State()), k, i)
      ensures changed == RestoreStepChanges(old(State()), k, i)
      ensures device.endpoints == if old(Decide(peers[k], quotas[OwnerOf(k, peers[k])], i)).Attempt?
        then old(device.endpoints)[k := old(peers[k]).endpoint] else old(device.endpoints)
    {
      var now := i.clock.now;
      var record := peers[k];
      changed := false;
      if record.endpoint.None? || IsZero(record.endpointSeenAt) ||
        now - record.endpointSeenAt >= RESTORE_ENDPOINT_MAX_AGE || now < record.endpointSeenAt {
        if record.endpoint.Some? || !IsZero(record.endpointSeenAt) {
          peers := peers[k := Cleared(record)];
          changed := true;
        } else {
          assert peers == peers[k := Cleared(record)];
        }
        return;
      }
      var owner := OwnerOf(k, record);
      var quota := Normalize(quotas[owner], i.clock);
      if i.limit > 0 && quota.usedBytes > i.limit && !(now < quota.blockedUntil) {
        quota := quota.(blockedUntil := NextLocalMidnight(i.clock));
        changed := true;
      }
      quotas := quotas[owner := quota];
      if now < quota.blockedUntil {
        assert peers == peers[k := record];
        return;
      }
      if !RecordMatches(i.mode, record) {
        peers := peers[k := Cleared(record)];
        changed := true;
        return;
      }
      if i.mode.SecretMode? {
        if i.revoked.None? {
          assert peers == peers[k := record];
          return;
        }
        if record.keyID in i.revoked.value {
          peers := peers[k := Cleared(record)];
          changed := true;
          return;
        }
      }
      var ok := device.AddPeer(k, record.endpoint, AddOutcomeOf(i, k));
      if !ok {
        peers := peers[k := Cleared(record)];
        changed := true;
        return;
      }
      assert peers == peers[k := record];
      runtime := runtime[k := Runtime(0, 0, now)];
    }

    // -------------------------------------------------------------- reconcile

    /** `snapshot` is None when the device could not be read. */
    method Reconcile(snapshot: Option<seq<PeerInfo>>, i: ReconcileInput) returns (error: Error)
      requires Valid()
      requires snapshot.Some? ==> snapshot.value == i.snapshot
      modifies this, store, device
      ensures snapshot.None? ==> error == SnapshotFailed && State() == old(State())
      ensures snapshot.Some? ==> Result(State(), error) == Operations.Reconcile(old(State()), i)
    {
      hide Judged, RejectedKeys, UnknownKeys, ClearEndpoints, PrunePeers, PruneQuotas, ChargeAll, BlockOwners,
        Structural, RemoveAll;
      if snapshot.None? {
        return SnapshotFailed;
      }
      if failed {
        return StateUnavailable;
      }
      ghost var m := Mem();
      var removals := ChargeSnapshot(i);
      BlockSnapshot(i);
      ghost var judged := Mem();
      assert judged == Judged(m, i) by { JudgedIs(m, i); }
      ChargedKeysStay(m, i);
      var rejections := JudgeSnapshot(i);
      removals := removals + rejections;
      ClearKeepsStructural(judged, RejectedKeys(judged, i.snapshot, i));
      PruneStaleRecords(SnapshotKeys(i.snapshot), i.clock.now);
      PruneStaleQuotas(i.clock.now);
      assert Mem() == Reconciled(m, i);
      var ok := Save(i.save);
      if !ok {
        return StateUnavailable;
      }
      RemovePeers(removals, i, RemovedKeys(m, i));
      return NoError;
    }

    method ChargeSnapshot(i: ReconcileInput) returns (unknown: seq<Key>)
      requires Valid() && !failed
      modifies this`peers, this`quotas, this`runtime
      ensures Mem() == ChargeAll(old(Mem()), i.snapshot, i.mode, i.clock)
      ensures forall k :: k in unknown <==> k in UnknownKeys(Mem(), i.snapshot)
    {
      unknown := [];
      ghost var m := Mem();
      for n := 0 to |i.snapshot|
        invariant Mem() == ChargeAll(m, i.snapshot[..n], i.mode, i.clock)
        invariant forall k :: k in unknown <==> k in UnknownKeys(Mem(), i.snapshot[..n])
        invariant i.mode.OpenMode? ==> unknown == []
      {
        var p := i.snapshot[n];
        ghost var before := Mem();
        ChargeStep(m, i.snapshot, n, i.mode, i.clock);
        ChargeStepUnknown(before, i.snapshot[..n], p, i.mode, i.clock);
        hide ChargeAll, ChargePeer, UnknownKeys, Structural;
        if p.key !in peers && !i.mode.OpenMode? {
          unknown := unknown + [p.key];
        } else {
          ChargeOne(p, i.mode, i.clock);
        }
      }
      assert i.snapshot[..|i.snapshot|] == i.snapshot;
    }

    method ChargeOne(p: PeerInfo, mode: Mode, c: Clock)
      requires Valid() && (p.key in peers || mode.OpenMode?)
      modifies this`peers, this`quotas, this`runtime
      ensures Mem() == ChargePeer(old(Mem()), p, mode, c)
    {
      hide Normalize, Structural, AddUsage, Delta, Observed;
      var now := c.now;
      var record := if p.key in peers then peers[p.key]
        else PeerRecord(OpenId, NoGeneration, now, now, None, ZERO_TIME);
      var owner := OwnerOf(p.key, record);
      if owner !in quotas && !record.keyID.OpenId? {
        // the source returns an error here; no reachable state has such a record
        OwnersHaveAccounts(Mem(), p.key);
        assert false;
      }
      var quota := Normalize(if owner in quotas then quotas[owner] else FreshQuota(c), c);
      var session := if p.key in runtime then runtime[p.key] else Runtime(0, 0, now);
      var drx := p.rx - session.lastRx;
      var dtx := p.tx - session.lastTx;
      if drx < 0 {
        drx := p.rx;
      }
      if dtx < 0 {
        dtx := p.tx;
      }
      assert drx == Delta(p.rx, session.lastRx) && dtx == Delta(p.tx, session.lastTx)
        by { DeltaIs(p.rx, session.lastRx); DeltaIs(p.tx, session.lastTx); }
      runtime := runtime[p.key := session.(lastRx := p.rx, lastTx := p.tx)];
      quota := quota.(usedBytes := AddUsage(AddUsage(quota.usedBytes, drx), dtx), lastSeen := now);
      quotas := quotas[owner := quota];
      record := Refresh(record, p, session.addedAt, now);
      peers := peers[p.key := record];
    }

    /** A listed peer was seen: its endpoint is taken over or, once too old, forgotten. */
    method Refresh(known: PeerRecord, p: PeerInfo, addedAt: Time, now: Time) returns (record: PeerRecord)
      ensures record == Observed(known, p, addedAt, now)
    {
      record := known.(lastSeen := now);
      if !IsZero(p.handshake) && now - p.handshake < RESTORE_ENDPOINT_MAX_AGE && p.endpoint.Some? {
        record := record.(endpoint := p.endpoint, endpointSeenAt := p.handshake);
      } else if !IsZero(p.handshake) && now - p.handshake >= RESTORE_ENDPOINT_MAX_AGE {
        record := Cleared(record);
      } else if IsZero(p.handshake) && now - addedAt >= RESTORE_ENDPOINT_MAX_AGE {
        record := Cleared(record);
      }
    }

    method BlockSnapshot(i: ReconcileInput)
      modifies this`quotas
      ensures Mem() == BlockOwners(old(Mem()), i.snapshot, i.limit, i.clock)
    {
      ghost var m := Mem();
      if i.limit > 0 {
        BlockStarts(m, i);
        for n := 0 to |i.snapshot|
          invariant Mem() == BlockOwners(m, i.snapshot[..n], i.limit, i.clock)
        {
          hide BlockOwners;
          var p := i.snapshot[n];
          ghost var before := Mem();
          BlockAdvances(m, i, n);
          assert before.peers == m.peers by { BlockKeepsPeers(m, i.snapshot[..n], i); }
          if p.key in peers {
            var owner := OwnerOf(p.key, peers[p.key]);
            if owner in quotas && quotas[owner].usedBytes > i.limit && !(i.clock.now < quotas[owner].blockedUntil) {
              quotas := quotas[owner := quotas[owner].(blockedUntil := NextLocalMidnight(i.clock))];
            }
          }
        }
        assert i.snapshot[..|i.snapshot|] == i.snapshot;
      } else {
        BlockIdle(m, i);
      }
    }

    method JudgeSnapshot(i: ReconcileInput) returns (rejected: seq<Key>)
      requires Valid() && Running(Mem(), i.snapshot)
      modifies this`peers
      ensures Mem() == ClearEndpoints(old(Mem()), RejectedKeys(old(Mem()), i.snapshot, i))
      ensures forall k :: k in rejected <==> k in RejectedKeys(old(Mem()), i.snapshot, i)
    {
      rejected := [];
      ghost var m := Mem();
      assert Mem() == ClearEndpoints(m, {});
      assert RejectedKeys(m, i.snapshot[..0], i) == {};
      for n := 0 to |i.snapshot|
        invariant Running(m, i.snapshot[..n])
        invariant Mem() == ClearEndpoints(m, RejectedKeys(m, i.snapshot[..n], i))
        invariant forall k :: k in rejected <==> k in RejectedKeys(m, i.snapshot[..n], i)
      {
        hide RejectedKeys, Rejected;
        var p := i.snapshot[n];
        ghost var before := RejectedKeys(m, i.snapshot[..n], i);
        assert i.snapshot[..n + 1] == i.snapshot[..n] + [p];
        RejectAdvances(m, i, n);
        var out := p.key in peers && Rejects(p, i, before, m);
        if out {
          ClearMore(m, before, p.key);
          peers := peers[p.key := Cleared(peers[p.key])];
          rejected := rejected + [p.key];
        }
      }
      assert i.snapshot[..|i.snapshot|] == i.snapshot;
    }

    /** The reasons to remove a peer, judged on the current records. */
    function Rejects(p: PeerInfo, i: ReconcileInput, ghost cleared: set<Key>, ghost m: Memory): (out: bool)
      requires Structural(m) && p.key in m.peers && p.key in m.runtime
      requires Mem() == ClearEndpoints(m, cleared)
      reads this
      ensures out == Rejected(m, p, i)
    {
      var record := peers[p.key];
      || !RecordMatches(i.mode, record)
      || (i.mode.SecretMode? && i.revoked.None?)
      || (i.mode.SecretMode? && record.keyID in i.revoked.value)
      || i.clock.now < quotas[OwnerOf(p.key, record)].blockedUntil
      || (IsZero(p.handshake) && i.clock.now - runtime[p.key].addedAt >= STALE_PEER_MAX_IDLE)
      || (!IsZero(p.handshake) && i.clock.now - p.handshake >= STALE_PEER_MAX_IDLE)
    }

    method PruneStaleRecords(active: set<Key>, now: Time)
      requires Valid()
      modifies this`peers, this`runtime
      ensures Mem() == PrunePeers(old(Mem()), active, now)
    {
      hide PrunePeers;
      ghost var m := Mem();
      var todo := peers.Keys;
      while todo != {}
        invariant todo <= m.peers.Keys && todo <= peers.Keys && peers.Keys <= m.peers.Keys &&
          runtime.Keys <= m.runtime.Keys
        invariant forall k :: k in m.peers ==> (k in peers <==> k in todo || Retained(m, k, active, now))
        invariant forall k :: k in peers ==> peers[k] == m.peers[k]
        invariant forall k :: k in m.runtime ==> (k in runtime <==> k in todo || Retained(m, k, active, now))
        invariant forall k :: k in runtime ==> runtime[k] == m.runtime[k]
      {
        var k :| k in todo;
        todo := todo - {k};
        if k !in active && now - peers[k].lastSeen >= PEER_STATE_RETENTION {
          peers := peers - {k};
          runtime := runtime - {k};
        }
      }
      PrunedIs(m, active, now, peers, runtime);
    }

    method PruneStaleQuotas(now: Time)
      modifies this`quotas
      ensures Mem() == PruneQuotas(old(Mem()), now)
    {
      ghost var m := Mem();
      var referenced: set<Owner> := {};
      var unseen := peers.Keys;
      while unseen != {}
        invariant unseen <= peers.Keys
        invariant forall o :: o in referenced <==> exists k :: k in peers && k !in unseen && OwnerOf(k, peers[k]) == o
      {
        var k :| k in unseen;
        unseen := unseen - {k};
        referenced := referenced + {OwnerOf(k, peers[k])};
      }
      assert referenced == Referenced(peers);
      var todo := quotas.Keys;
      while todo != {}
        invariant todo <= quotas.Keys && quotas.Keys <= m.quotas.Keys
        invariant forall o :: o in m.quotas ==>
          (o in quotas <==> o in todo || o in referenced || !QuotaExpired(m.quotas[o], now))
        invariant forall o :: o in quotas ==> quotas[o] == m.quotas[o]
      {
        var o :| o in todo;
        todo := todo - {o};
        if o !in referenced && now - quotas[o].lastSeen >= PEER_STATE_RETENTION && !(now < quotas[o].blockedUntil) {
          quotas := quotas - {o};
        }
      }
      assert quotas == PruneQuotas(m, now).quotas;
    }

    method RemovePeers(removals: seq<Key>, i: ReconcileInput, ghost keys: set<Key>)
      requires forall k :: k in removals <==> k in keys
      modifies this`runtime, device
      ensures State() == RemoveAll(old(State()), keys, i)
    {
      ghost var s := State();
      for n := 0 to |removals|
        invariant store.images == s.images
        invariant forall k :: k in device.peers <==>
          k in s.device && (k in removals[..n] ==> RemoveOutcomeOf(i, k).RemoveFailedKept?)
        invariant forall k :: k in device.peers ==> device.peers[k] == s.device[k]
        invariant forall k :: k in runtime <==>
          k in s.mem.runtime && (k in removals[..n] ==> !RemoveOutcomeOf(i, k).RemoveOk?)
        invariant forall k :: k in runtime ==> runtime[k] == s.mem.runtime[k]
      {
        var k := removals[n];
        assert removals[..n + 1] == removals[..n] + [k];
        var ok := device.RemovePeer(k, RemoveOutcomeOf(i, k));
        if ok {
          runtime := runtime - {k};
        }
      }
      assert removals[..|removals|] == removals;
      assert device.peers == RemoveAll(s, keys, i).device;
      assert runtime == RemoveAll(s, keys, i).mem.runtime;
    }
  }

  // ---------------------------------------------------------------- progress of the restore loop

  function RestoreStepRecord(s: System, k: Key, i: RestoreInput): PeerRecord
    requires k in s.mem.peers && OwnerOf(k, s.mem.peers[k]) in s.mem.quotas
  {
    var d := Decide(s.mem.peers[k], s.mem.quotas[OwnerOf(k, s.mem.peers[k])], i);
    if d.Keep? || (d.Attempt? && AddOutcomeOf(i, k).AddOk?) then s.mem.peers[k] else Cleared(s.mem.peers[k])
  }

  /** What one turn of the restore loop does to the current state. */
  function RestoreStep(s: System, k: Key, i: RestoreInput): System
    requires k in s.mem.peers && OwnerOf(k, s.mem.peers[k]) in s.mem.quotas
  {
    var record := s.mem.peers[k];
    var owner := OwnerOf(k, record);
    var d := Decide(record, s.mem.quotas[owner], i);
    s.(
      mem := s.mem.(
        peers := s.mem.peers[k := RestoreStepRecord(s, k, i)],
        quotas := if RecentEndpoint(record, i.clock.now)
          then s.mem.quotas[owner := RestoreQuota(s.mem.quotas[owner], i)] else s.mem.quotas,
        runtime := if d.Attempt? && AddOutcomeOf(i, k).AddOk? then s.mem.runtime[k := Runtime(0, 0, i.clock.now)]
          else s.mem.runtime),
      device := if d.Attempt? then AddTo(s.device, k, AddOutcomeOf(i, k)) else s.device)
  }

  predicate RestoreStepChanges(s: System, k: Key, i: RestoreInput)
    requires k in s.mem.peers && OwnerOf(k, s.mem.peers[k]) in s.mem.quotas
  {
    || RestoreStepRecord(s, k, i) != s.mem.peers[k]
    || (RecentEndpoint(s.mem.peers[k], i.clock.now) && NewlyBlocked(s.mem.quotas[OwnerOf(k, s.mem.peers[k])], i))
  }

  /** Owners of the recent peers the loop has already visited. */
  ghost function VisitedOwners(m: Memory, todo: set<Key>, now: Time): set<Owner> {
    set k | k in m.peers && k !in todo && RecentEndpoint(m.peers[k], now) :: OwnerOf(k, m.peers[k])
  }

  ghost predicate RecordsProgress(m: Memory, i: RestoreInput, todo: set<Key>, peers: map<Key, PeerRecord>)
    requires Structural(m)
  {
    && peers.Keys == m.peers.Keys
    && (forall k :: k in m.peers ==> peers[k] == if k in todo then m.peers[k] else RestoredRecord(m, k, i))
  }

  ghost predicate QuotasProgress(m: Memory, i: RestoreInput, todo: set<Key>, quotas: map<Owner, QuotaRecord>) {
    && quotas.Keys == m.quotas.Keys
    && (forall o :: o in m.quotas ==>
      quotas[o] == if o in VisitedOwners(m, todo, i.clock.now) then RestoreQuota(m.quotas[o], i) else m.quotas[o])
  }

  ghost predicate RuntimeProgress(m: Memory, i: RestoreInput, todo: set<Key>, runtime: map<Key, Runtime>)
    requires Structural(m)
  {
    && runtime.Keys <= m.peers.Keys
    && (forall k :: k in m.peers ==>
      if k !in todo && Restored(m, k, i) then k in runtime && runtime[k] == Runtime(0, 0, i.clock.now)
      else (k in runtime <==> k in m.runtime) && (k in m.runtime ==> runtime[k] == m.runtime[k]))
  }

  ghost predicate DeviceProgress(s: System, i: RestoreInput, todo: set<Key>, device: map<Key, Counters>)
    requires Structural(s.mem)
  {
    && (forall k :: k in device <==>
      || k in s.device
      || (k in s.mem.peers && k !in todo && DecideFor(s.mem, k, i).Attempt? && !AddOutcomeOf(i, k).AddFailedClean?))
    && (forall k :: k in device ==> device[k] == if k in s.device then s.device[k] else Counters(0, 0))
  }

  ghost predicate ChangeProgress(m: Memory, i: RestoreInput, todo: set<Key>, changed: bool)
    requires Structural(m)
  {
    changed <==>
      || (exists k :: k in m.peers && k !in todo && RestoredRecord(m, k, i) != m.peers[k])
      || (exists o :: o in VisitedOwners(m, todo, i.clock.now) && o in m.quotas && NewlyBlocked(m.quotas[o], i))
  }

  /** Every peer visited so far that was added was added with the endpoint of its record. */
  ghost predicate EndpointsProgress(m: Memory, i: RestoreInput, todo: set<Key>, before: map<Key, Option<Name>>,
    endpoints: map<Key, Option<Name>>)
    requires Structural(m)
  {
    forall k ::
      if k in m.peers && k !in todo && DecideFor(m, k, i).Attempt? then
        k in endpoints && endpoints[k] == m.peers[k].endpoint
      else
        (k in endpoints <==> k in before) && (k in before ==> endpoints[k] == before[k])
  }

  lemma EndpointsAdvance(m: Memory, i: RestoreInput, todo: set<Key>, before: map<Key, Option<Name>>,
    endpoints: map<Key, Option<Name>>, k: Key)
    requires Structural(m) && EndpointsProgress(m, i, todo, before, endpoints) && k in todo && k in m.peers
    ensures EndpointsProgress(m, i, todo - {k}, before,
      if DecideFor(m, k, i).Attempt? then endpoints[k := m.peers[k].endpoint] else endpoints)
  {
    hide DecideFor, Structural;
  }

  ghost predicate RestoreProgress(s: System, i: RestoreInput, todo: set<Key>, t: System, changed: bool)
    requires Structural(s.mem)
  {
    && t.mem == s.mem.(peers := t.mem.peers, quotas := t.mem.quotas, runtime := t.mem.runtime)
    && t.images == s.images
    && RecordsProgress(s.mem, i, todo, t.mem.peers)
    && QuotasProgress(s.mem, i, todo, t.mem.quotas)
    && RuntimeProgress(s.mem, i, todo, t.mem.runtime)
    && DeviceProgress(s, i, todo, t.device)
    && ChangeProgress(s.mem, i, todo, changed)
  }

  lemma RestoreQuotaIsIdempotent(q: QuotaRecord, i: RestoreInput)
    ensures RestoreQuota(RestoreQuota(q, i), i) == RestoreQuota(q, i)
    ensures !NewlyBlocked(RestoreQuota(q, i), i)
    ensures forall r :: Decide(r, RestoreQuota(q, i), i) == Decide(r, q, i)
  {
  }

  lemma RestoreStarts(s: System, i: RestoreInput)
    requires Structural(s.mem)
    ensures RestoreProgress(s, i, s.mem.peers.Keys, s, false)
  {
  }

  lemma RestoreProgressLinks(s: System, i: RestoreInput, todo: set<Key>, t: System, changed: bool, k: Key)
    requires Structural(s.mem) && RestoreProgress(s, i, todo, t, changed) && k in todo && todo <= s.mem.peers.Keys
    ensures k in t.mem.peers && t.mem.peers[k] == s.mem.peers[k] && OwnerOf(k, t.mem.peers[k]) in t.mem.quotas
    ensures Decide(t.mem.peers[k], t.mem.quotas[OwnerOf(k, t.mem.peers[k])], i) == DecideFor(s.mem, k, i)
  {
    RestoreDecidesAlike(s, i, todo, t, k);
    hide Decide, Structural, RecordsProgress, QuotasProgress, RuntimeProgress, DeviceProgress, ChangeProgress;
  }

  /** The turn for `k` finds the original record and an account that decides as the original does. */
  lemma RestoreDecidesAlike(s: System, i: RestoreInput, todo: set<Key>, t: System, k: Key)
    requires Structural(s.mem) && k in todo && k in s.mem.peers
    requires RecordsProgress(s.mem, i, todo, t.mem.peers) && QuotasProgress(s.mem, i, todo, t.mem.quotas)
    ensures k in t.mem.peers && t.mem.peers[k] == s.mem.peers[k] && OwnerOf(k, s.mem.peers[k]) in t.mem.quotas
    ensures var q, q' := s.mem.quotas[OwnerOf(k, s.mem.peers[k])], t.mem.quotas[OwnerOf(k, s.mem.peers[k])];
      && Decide(t.mem.peers[k], q', i) == DecideFor(s.mem, k, i)
      && RestoreQuota(q', i) == RestoreQuota(q, i)
      && (NewlyBlocked(q', i) ==> NewlyBlocked(q, i))
      && (NewlyBlocked(q, i) && !NewlyBlocked(q', i) ==>
        OwnerOf(k, s.mem.peers[k]) in VisitedOwners(s.mem, todo, i.clock.now))
  {
    hide RestoreQuota, NewlyBlocked, Decide;
    RestoreQuotaIsIdempotent(s.mem.quotas[OwnerOf(k, s.mem.peers[k])], i);
  }

  lemma VisitedGrows(m: Memory, todo: set<Key>, now: Time, k: Key)
    requires k in todo && k in m.peers
    ensures VisitedOwners(m, todo - {k}, now) ==
      VisitedOwners(m, todo, now) + if RecentEndpoint(m.peers[k], now) then {OwnerOf(k, m.peers[k])} else {}
  {
  }

  lemma RestoreAdvances(s: System, i: RestoreInput, todo: set<Key>, t: System, changed: bool, k: Key)
    requires Structural(s.mem) && RestoreProgress(s, i, todo, t, changed) && k in todo && todo <= s.mem.peers.Keys
    requires k in t.mem.peers && OwnerOf(k, t.mem.peers[k]) in t.mem.quotas
    ensures RestoreProgress(s, i, todo - {k}, RestoreStep(t, k, i), changed || RestoreStepChanges(t, k, i))
  {
    RestoreDecidesAlike(s, i, todo, t, k);
    hide RestoreQuota, NewlyBlocked, Decide, RecentEndpoint, Structural, RecordsProgress, QuotasProgress,
      RuntimeProgress, DeviceProgress, ChangeProgress;
    assert RestoreStepRecord(t, k, i) == RestoredRecord(s.mem, k, i);
    RecordsAdvance(s.mem, i, todo, t.mem.peers, k);
    QuotasAdvance(s.mem, i, todo, t.mem.quotas, k);
    RuntimeAdvances(s.mem, i, todo, t.mem.runtime, k);
    DeviceAdvances(s, i, todo, t.device, k);
    ChangeAdvances(s.mem, i, todo, changed, k);
  }

  lemma RecordsAdvance(m: Memory, i: RestoreInput, todo: set<Key>, peers: map<Key, PeerRecord>, k: Key)
    requires Structural(m) && k in todo && k in m.peers && RecordsProgress(m, i, todo, peers)
    ensures RecordsProgress(m, i, todo - {k}, peers[k := RestoredRecord(m, k, i)])
  {
    hide RestoredRecord;
  }

  lemma QuotasAdvance(m: Memory, i: RestoreInput, todo: set<Key>, quotas: map<Owner, QuotaRecord>, k: Key)
    requires Structural(m) && k in todo && k in m.peers && QuotasProgress(m, i, todo, quotas)
    ensures var owner := OwnerOf(k, m.peers[k]);
      QuotasProgress(m, i, todo - {k}, if RecentEndpoint(m.peers[k], i.clock.now)
        then quotas[owner := RestoreQuota(m.quotas[owner], i)] else quotas)
  {
    VisitedGrows(m, todo, i.clock.now, k);
    hide RestoreQuota, RecentEndpoint, VisitedOwners;
  }

  lemma RuntimeAdvances(m: Memory, i: RestoreInput, todo: set<Key>, runtime: map<Key, Runtime>, k: Key)
    requires Structural(m) && k in todo && k in m.peers && RuntimeProgress(m, i, todo, runtime)
    ensures RuntimeProgress(m, i, todo - {k}, if Restored(m, k, i) then runtime[k := Runtime(0, 0, i.clock.now)]
      else runtime)
  {
    hide Restored;
  }

  lemma DeviceAdvances(s: System, i: RestoreInput, todo: set<Key>, device: map<Key, Counters>, k: Key)
    requires Structural(s.mem) && k in todo && k in s.mem.peers && DeviceProgress(s, i, todo, device)
    ensures DeviceProgress(s, i, todo - {k}, if DecideFor(s.mem, k, i).Attempt?
      then AddTo(device, k, AddOutcomeOf(i, k)) else device)
  {
    hide DecideFor, AddOutcomeOf;
  }

  lemma ChangeAdvances(m: Memory, i: RestoreInput, todo: set<Key>, changed: bool, k: Key)
    requires Structural(m) && ChangeProgress(m, i, todo, changed) && k in todo && k in m.peers
    ensures ChangeProgress(m, i, todo - {k}, changed || RestoredRecord(m, k, i) != m.peers[k]
      || (RecentEndpoint(m.peers[k], i.clock.now) && NewlyBlocked(m.quotas[OwnerOf(k, m.peers[k])], i)))
  {
    hide RestoredRecord, NewlyBlocked, VisitedOwners, RecentEndpoint;
    VisitedGrows(m, todo, i.clock.now, k);
  }

  lemma RestoreFinishes(s: System, i: RestoreInput, t: System, changed: bool)
    requires Structural(s.mem) && RestoreProgress(s, i, {}, t, changed)
    ensures t.mem == RestoredMemory(s.mem, i) && t.device == RestoredDevice(s, i)
    ensures changed <==> RestoreChanges(s.mem, i)
  {
    hide RestoreQuota, NewlyBlocked, DecideFor, Structural, RestoredRecord, AddOutcomeOf;
    assert VisitedOwners(s.mem, {}, i.clock.now) == RecentOwners(s.mem.peers, i.clock.now);
    assert t.mem.peers == RestoredMemory(s.mem, i).peers;
    assert t.mem.quotas == RestoredMemory(s.mem, i).quotas;
    assert t.mem.runtime == RestoredMemory(s.mem, i).runtime by { RuntimeFinishes(s.mem, i, t.mem.runtime); }
    assert t.device == RestoredDevice(s, i);
  }

  lemma RuntimeFinishes(m: Memory, i: RestoreInput, runtime: map<Key, Runtime>)
    requires Structural(m) && RuntimeProgress(m, i, {}, runtime)
    ensures runtime == RestoredMemory(m, i).runtime
  {
    hide DecideFor, RestoredRecord, RestoreQuota, AddOutcomeOf;
  }

  // ---------------------------------------------------------------- progress of the reconcile loops

  lemma PrunedIs(m: Memory, active: set<Key>, now: Time, peers: map<Key, PeerRecord>, runtime: map<Key, Runtime>)
    requires Structural(m) && peers.Keys <= m.peers.Keys && runtime.Keys <= m.runtime.Keys
    requires forall k :: k in m.peers ==> (k in peers <==> Retained(m, k, active, now))
    requires forall k :: k in peers ==> peers[k] == m.peers[k]
    requires forall k :: k in m.runtime ==> (k in runtime <==> Retained(m, k, active, now))
    requires forall k :: k in runtime ==> runtime[k] == m.runtime[k]
    ensures PrunePeers(m, active, now) == m.(peers := peers, runtime := runtime)
  {
    hide Retained;
    assert peers == PrunePeers(m, active, now).peers;
    assert runtime == PrunePeers(m, active, now).runtime;
  }

  lemma DeltaIs(counter: int, last: int)
    ensures Delta(counter, last) == if counter - last < 0 then counter else counter - last
  {
  }

  lemma OwnersHaveAccounts(m: Memory, k: Key)
    requires Structural(m)
    ensures k in m.peers ==> OwnerOf(k, m.peers[k]) in m.quotas
  {
  }

  lemma JudgedIs(m: Memory, i: ReconcileInput)
    requires Structural(m)
    ensures Judged(m, i) == BlockOwners(ChargeAll(m, i.snapshot, i.mode, i.clock), i.snapshot, i.limit, i.clock)
  {
  }

  lemma ChargedKeysStay(m: Memory, i: ReconcileInput)
    requires Structural(m)
    ensures Structural(Judged(m, i)) && Running(Judged(m, i), i.snapshot)
    ensures UnknownKeys(Judged(m, i), i.snapshot) == UnknownKeys(ChargeAll(m, i.snapshot, i.mode, i.clock), i.snapshot)
  {
  }

  lemma ChargeStep(m: Memory, snapshot: seq<PeerInfo>, n: nat, mode: Mode, c: Clock)
    requires Structural(m) && n < |snapshot|
    ensures ChargeAll(m, snapshot[..n + 1], mode, c) ==
      ChargePeer(ChargeAll(m, snapshot[..n], mode, c), snapshot[n], mode, c)
    ensures snapshot[..n + 1] == snapshot[..n] + [snapshot[n]]
  {
    hide Structural, ChargePeer;
    var done := snapshot[..n + 1];
    assert done == snapshot[..n] + [snapshot[n]] && done[..|done| - 1] == snapshot[..n];
  }

  lemma ChargeStepUnknown(m: Memory, done: seq<PeerInfo>, p: PeerInfo, mode: Mode, c: Clock)
    requires Structural(m)
    ensures UnknownKeys(ChargePeer(m, p, mode, c), done + [p]) ==
      if p.key !in m.peers && !mode.OpenMode? then UnknownKeys(m, done) + {p.key} else UnknownKeys(m, done) - {p.key}
    ensures p.key !in m.peers && !mode.OpenMode? ==> ChargePeer(m, p, mode, c) == m
  {
  }

  lemma BlockStarts(m: Memory, i: ReconcileInput)
    ensures BlockOwners(m, i.snapshot[..0], i.limit, i.clock) == m
  {
    assert BlockOwners(m, [], i.limit, i.clock).quotas == m.quotas;
  }

  lemma BlockIdle(m: Memory, i: ReconcileInput)
    requires i.limit <= 0
    ensures BlockOwners(m, i.snapshot, i.limit, i.clock) == m
  {
    assert BlockOwners(m, i.snapshot, i.limit, i.clock).quotas == m.quotas;
  }

  lemma BlockKeepsPeers(m: Memory, snapshot: seq<PeerInfo>, i: ReconcileInput)
    ensures BlockOwners(m, snapshot, i.limit, i.clock).peers == m.peers
  {
  }

  lemma BlockAdvances(m: Memory, i: ReconcileInput, n: nat)
    requires n < |i.snapshot| && i.limit > 0
    ensures var b := BlockOwners(m, i.snapshot[..n], i.limit, i.clock);
      var p := i.snapshot[n];
      BlockOwners(m, i.snapshot[..n + 1], i.limit, i.clock) ==
        if p.key in m.peers && OwnerOf(p.key, m.peers[p.key]) in b.quotas
           && b.quotas[OwnerOf(p.key, m.peers[p.key])].usedBytes > i.limit
           && !(i.clock.now < b.quotas[OwnerOf(p.key, m.peers[p.key])].blockedUntil)
        then b.(quotas := b.quotas[OwnerOf(p.key, m.peers[p.key]) :=
          b.quotas[OwnerOf(p.key, m.peers[p.key])].(blockedUntil := NextLocalMidnight(i.clock))])
        else b
  {
    var b := BlockOwners(m, i.snapshot[..n], i.limit, i.clock);
    var after := BlockOwners(m, i.snapshot[..n + 1], i.limit, i.clock);
    var p := i.snapshot[n];
    assert i.snapshot[..n + 1] == i.snapshot[..n] + [p];
    if p.key in m.peers {
      var owner := OwnerOf(p.key, m.peers[p.key]);
      assert SnapshotOwners(m, i.snapshot[..n + 1]) == SnapshotOwners(m, i.snapshot[..n]) + {owner};
      if owner in b.quotas && Exceeds(b.quotas[owner], i.limit, i.clock.now) {
        assert after.quotas == b.quotas[owner := b.quotas[owner].(blockedUntil := NextLocalMidnight(i.clock))];
      } else {
        assert after.quotas == b.quotas;
      }
    } else {
      assert SnapshotOwners(m, i.snapshot[..n + 1]) == SnapshotOwners(m, i.snapshot[..n]);
    }
  }

  lemma RejectAdvances(m: Memory, i: ReconcileInput, n: nat)
    requires n < |i.snapshot| && Structural(m) && Running(m, i.snapshot)
    ensures Running(m, i.snapshot[..n]) && Running(m, i.snapshot[..n + 1])
    ensures var p := i.snapshot[n];
      RejectedKeys(m, i.snapshot[..n + 1], i) ==
        if p.key in m.peers && Rejected(m, p, i) then RejectedKeys(m, i.snapshot[..n], i) + {p.key}
          else RejectedKeys(m, i.snapshot[..n], i)
  {
    hide Rejected, Structural;
    assert i.snapshot[..n + 1] == i.snapshot[..n] + [i.snapshot[n]];
  }

  lemma ClearMore(m: Memory, keys: set<Key>, k: Key)
    requires k in m.peers
    ensures var c := ClearEndpoints(m, keys);
      ClearEndpoints(m, keys + {k}) == c.(peers := c.peers[k := Cleared(c.peers[k])])
  {
    var c := ClearEndpoints(m, keys);
    assert ClearEndpoints(m, keys + {k}).peers == c.peers[k := Cleared(c.peers[k])];
  }

  lemma ClearKeepsStructural(m: Memory, keys: set<Key>)
    requires Structural(m)
    ensures Structural(ClearEndpoints(m, keys))
  {
  }
}
