/** What every operation keeps: the links between the maps, and records that a later load
    accepts. Together they make the controller's "no quota owner state" errors unreachable
    and every file it writes readable again. */
module Structure {
  import opened Clocks
  import opened Records
  import opened Operations
  import opened Terms

  /** Everything `load` will check about this memory once it is written to disk. */
  ghost predicate Persistable(m: Memory) {
    && Structural(m)
    && !IsZero(m.window)
    && QuotasLoadable(m.quotas)
    && (forall k :: k in m.peers ==> RecordLoadable(m.peers[k]))
    && CountsLoadable(m.counts)
  }

  /** A running system: a persistable memory over files that all load. */
  ghost predicate Sound(s: System) {
    Persistable(s.mem) && Readable(s.images)
  }

  ghost predicate Readable(images: set<Option<Disk>>) {
    images != {} && forall image :: image in images ==> image.Some? && Loadable(image.value)
  }

  predicate Sane(c: Clock) {
    ZERO_TIME < c.now
  }

  lemma PersistableLoads(m: Memory)
    requires Persistable(m)
    ensures Loadable(DiskOf(m))
  {
  }

  lemma PersistKeepsSound(s: System, outcome: SaveOutcome)
    requires Persistable(s.mem) && Readable(s.images)
    ensures Sound(Persist(s, outcome))
  {
    PersistableLoads(s.mem);
  }

  // ---------------------------------------------------------------- how an admission can end

  datatype AdmitCase = Refused | SaveLost | Started | Undone

  /** The four ways an authorized registration ends: refused with nothing changed, because its
      owner is blocked or over a positive limit or, for an issued key, runs three other peers; the
      first save failed; the peer runs (or may run, when the device failed and so did the cleanup);
      or the device failed and everything was taken back. */
  lemma AdmitCases(s: System, i: RegisterInput, credential: Credential) returns (c: AdmitCase)
    requires !s.mem.failed
    ensures var owner := QuotaOwner(i.peer, credential.keyID, credential.generation);
      var within := WithinQuota(s.mem.quotas, owner, i.limit, i.clock);
      var written := Written(s.mem, i.peer, credential, i.clock);
      var r := Admit(s, i, credential);
      && r.credential == credential
      && (c.Refused? ==> r.sys == s && r.error == if !within then PeerBlocked else PeerLimitReached)
      && (c.SaveLost? ==>
        && r.sys == System(s.mem.(failed := true), s.images + {Some(DiskOf(written))}, s.device)
        && r.error == StateUnavailable)
      && (c.Started? ==>
        && r.sys.mem == written.(runtime := Touch(s.mem.runtime, i.peer, i.clock.now))
        && r.sys.images == {Some(DiskOf(written))}
        && r.sys.device == (if i.add.AddOk? then AddTo(s.device, i.peer, AddOk)
          else RemoveFrom(AddTo(s.device, i.peer, i.add), i.peer, i.cleanup))
        && r.error == if i.add.AddOk? then NoError else AddAndCleanupFailed)
      && (c.Undone? ==>
        && r.sys.mem == s.mem.(runtime := s.mem.runtime - {i.peer}, failed := r.sys.mem.failed)
        && (r.sys.mem.failed <==> i.rollback.SaveFailed?)
        && r.sys.images ==
          (if r.sys.mem.failed then {Some(DiskOf(written)), Some(DiskOf(s.mem))} else {Some(DiskOf(s.mem))})
        && r.sys.device == RemoveFrom(AddTo(s.device, i.peer, i.add), i.peer, RemoveOk)
        && r.error == if r.sys.mem.failed then StateUnavailable else AddFailed)
      && (c.Refused? <==>
        !within ||
          (credential.keyID != OpenId && credential.keyID != SharedId && |OtherPeers(s.mem, owner, i.peer)| >= 3))
      && (!c.Refused? ==>
        && (c.SaveLost? <==> i.save.SaveFailed?)
        && (c.Undone? <==> i.save.SaveOk? && !i.add.AddOk? && i.cleanup.RemoveOk?))
  {
    hide OverQuota, AccountOf, OtherPeers, Touch, WithinQuota;
    var owner := QuotaOwner(i.peer, credential.keyID, credential.generation);
    OverQuotaIsNotWithin(s.mem.quotas, owner, i.limit, i.clock);
    c := if !WithinQuota(s.mem.quotas, owner, i.limit, i.clock)
            || (Issued(credential.keyID) && |OtherPeers(s.mem, owner, i.peer)| >= MAX_ACTIVE_PEERS) then Refused
         else if i.save.SaveFailed? then SaveLost
         else if i.add.AddOk? || !i.cleanup.RemoveOk? then Started
         else Undone;
    var written := Written(s.mem, i.peer, credential, i.clock);
    assert written.runtime == s.mem.runtime && written.failed == s.mem.failed;
    hide Written, AddTo, RemoveFrom;
  }

  // ---------------------------------------------------------------- each operation keeps Sound

  lemma LoadEstablishesSound(s: System, image: Option<Disk>, c: Clock, save: SaveOutcome)
    requires image.Some? ==> Loadable(image.value)
    requires Sane(c)
    ensures Load(s, image, c, save).error == NoError <==> save.SaveOk?
    ensures save.SaveOk? ==> Sound(Load(s, image, c, save).sys)
  {
    assert Persistable(RollWindow(Recall(image, s.mem.window, c), c.now, DAY));
  }

  lemma RegisterKeepsSound(s: System, i: RegisterInput)
    requires Sound(s) && Sane(i.clock)
    ensures Sound(RegisterPeer(s, i).sys)
  {
    hide Persistable, Readable, Admit;
    var auth := Authorize(i.mode, i.request, i.validated, i.revoked);
    if !s.mem.failed && auth.error == NoError && CredentialMatches(i.mode, auth.credential) {
      AdmitKeepsSound(s, i, auth.credential);
    }
  }

  lemma WrittenIsPersistable(m: Memory, peer: Key, credential: Credential, mode: Mode, c: Clock)
    requires Persistable(m) && Sane(c) && CredentialMatches(mode, credential)
    ensures Persistable(Written(m, peer, credential, c))
  {
    assert RecordLoadable(RecordFor(m, peer, credential, c.now));
  }

  lemma AdmitKeepsSound(s: System, i: RegisterInput, credential: Credential)
    requires Sound(s) && Sane(i.clock) && !s.mem.failed
    requires CredentialMatches(i.mode, credential)
    ensures Sound(Admit(s, i, credential).sys)
  {
    var c := AdmitCases(s, i, credential);
    var written := Written(s.mem, i.peer, credential, i.clock);
    WrittenIsPersistable(s.mem, i.peer, credential, i.mode, i.clock);
    PersistableLoads(written);
    PersistableLoads(s.mem);
    RuntimeIsPersistable(s.mem, s.mem.runtime - {i.peer});
    assert written.runtime == s.mem.runtime && i.peer in written.peers;
    RuntimeIsPersistable(written, Touch(s.mem.runtime, i.peer, i.clock.now));
    hide *;
    var images := Admit(s, i, credential).sys.images;
    match c
    case Refused =>
    case SaveLost => ReadableGrows(s.images, DiskOf(written));
    case Started => ReadablePair(images, DiskOf(written), DiskOf(written));
    case Undone => ReadablePair(images, DiskOf(written), DiskOf(s.mem));
  }

  lemma ReadableGrows(images: set<Option<Disk>>, d: Disk)
    requires Readable(images) && Loadable(d)
    ensures Readable(images + {Some(d)})
  {
    hide Loadable;
  }

  lemma ReadablePair(images: set<Option<Disk>>, d: Disk, e: Disk)
    requires Loadable(d) && Loadable(e) && images != {} && images <= {Some(d), Some(e)}
    ensures Readable(images)
  {
    hide Loadable;
  }

  lemma RuntimeIsPersistable(m: Memory, runtime: map<Key, Runtime>)
    requires Persistable(m) && runtime.Keys <= m.peers.Keys
    ensures forall failed :: Persistable(m.(runtime := runtime, failed := failed))
    ensures Persistable(m.(failed := true))
  {
  }

  lemma CountIsPersistable(m: Memory, ip: Name, n: nat)
    requires Persistable(m)
    ensures Persistable(m.(counts := m.counts[ip := n]))
    ensures Persistable(m.(counts := m.counts[ip := n], failed := true))
  {
  }

  lemma RolledIsPersistable(m: Memory, now: Time, window: int)
    requires Persistable(m) && !IsZero(now)
    ensures Persistable(RollWindow(m, now, window))
    ensures forall ip :: 0 <= Count(RollWindow(m, now, window).counts, ip)
  {
  }

  lemma IssueKeepsSound(s: System, i: IssueInput)
    requires Sound(s) && Sane(i.clock)
    ensures Sound(IssueAuthKey(s, i).sys)
  {
    hide Persistable, Readable;
    var rolled := RollWindow(s.mem, i.clock.now, i.window);
    var used := Count(rolled.counts, i.ip);
    RolledIsPersistable(s.mem, i.clock.now, i.window);
    CountIsPersistable(rolled, i.ip, used);
    CountIsPersistable(rolled, i.ip, used + 1);
    PersistKeepsSound(s.(mem := rolled.(counts := rolled.counts[i.ip := used + 1])), i.save);
  }

  lemma RestoredIsPersistable(m: Memory, i: RestoreInput)
    requires Persistable(m)
    ensures Persistable(RestoredMemory(m, i))
  {
    hide RestoreQuota, DecideFor, AddOutcomeOf, RecentEndpoint;
    var r := RestoredMemory(m, i);
    forall o | o in m.quotas ensures QuotaLoadable(o, RestoreQuota(m.quotas[o], i)) {
      RestoreQuotaIsLoadable(o, m.quotas[o], i);
    }
    assert forall k :: k in r.peers ==> OwnerOf(k, r.peers[k]) == OwnerOf(k, m.peers[k]);
  }

  lemma RestoreQuotaIsLoadable(o: Owner, q: QuotaRecord, i: RestoreInput)
    requires QuotaLoadable(o, q)
    ensures QuotaLoadable(o, RestoreQuota(q, i))
  {
  }

  lemma RestoreKeepsSound(s: System, i: RestoreInput)
    requires Sound(s) && Sane(i.clock)
    ensures Sound(RestorePeers(s, i).sys)
  {
    RestoredIsPersistable(s.mem, i);
    PersistKeepsSound(s.(mem := RestoredMemory(s.mem, i), device := RestoredDevice(s, i)), i.save);
  }

  lemma ObservedIsLoadable(r: PeerRecord, p: PeerInfo, addedAt: Time, now: Time)
    requires RecordLoadable(r) && !IsZero(now)
    ensures RecordLoadable(Observed(r, p, addedAt, now))
  {
  }

  lemma ChargePeerKeepsPersistable(m: Memory, p: PeerInfo, mode: Mode, c: Clock)
    requires Persistable(m) && Sane(c)
    ensures Persistable(ChargePeer(m, p, mode, c))
  {
    hide Observed, RecordLoadable, Charged, Normalize;
    var record := KnownRecord(m, p.key, c.now);
    assert RecordLoadable(AdoptedRecord(c.now)) by { AdoptedIsLoadable(c.now); }
    ObservedIsLoadable(record, p, RuntimeOf(m, p.key, c.now).addedAt, c.now);
    ChargedIsLoadable(m, p, OwnerOf(p.key, record), RuntimeOf(m, p.key, c.now), c);
  }

  lemma AdoptedIsLoadable(now: Time)
    requires !IsZero(now)
    ensures RecordLoadable(AdoptedRecord(now))
  {
  }

  lemma ChargedIsLoadable(m: Memory, p: PeerInfo, owner: Owner, r: Runtime, c: Clock)
    requires QuotasLoadable(m.quotas) && Sane(c) && owner != EmptyOwner
    ensures QuotaLoadable(owner, Charged(QuotaFor(m, owner, c), p, r, c.now))
  {
  }

  lemma {:induction false} ChargeAllKeepsPersistable(m: Memory, snapshot: seq<PeerInfo>, mode: Mode, c: Clock)
    requires Persistable(m) && Sane(c)
    ensures Persistable(ChargeAll(m, snapshot, mode, c))
  {
    if |snapshot| > 0 {
      var n := |snapshot| - 1;
      ChargeAllKeepsPersistable(m, snapshot[..n], mode, c);
      ChargePeerKeepsPersistable(ChargeAll(m, snapshot[..n], mode, c), snapshot[n], mode, c);
    }
  }

  lemma PrunePeersKeepsPersistable(m: Memory, active: set<Key>, now: Time)
    requires Persistable(m)
    ensures Persistable(PrunePeers(m, active, now))
  {
  }

  lemma PruneQuotasKeepsPersistable(m: Memory, now: Time)
    requires Persistable(m)
    ensures Persistable(PruneQuotas(m, now))
  {
    forall k | k in m.peers ensures OwnerOf(k, m.peers[k]) in PruneQuotas(m, now).quotas {
      assert OwnerOf(k, m.peers[k]) in Referenced(m.peers);
    }
  }

  lemma BlockOwnersKeepsPersistable(m: Memory, snapshot: seq<PeerInfo>, limit: int, c: Clock)
    requires Persistable(m)
    ensures Persistable(BlockOwners(m, snapshot, limit, c))
  {
    hide SnapshotOwners, RecordLoadable;
  }

  lemma ClearEndpointsKeepsPersistable(m: Memory, keys: set<Key>)
    requires Persistable(m)
    ensures Persistable(ClearEndpoints(m, keys))
  {
  }

  lemma PersistableIsStructural(m: Memory)
    requires Persistable(m)
    ensures Structural(m)
  {
  }

  lemma ReconciledIsPersistable(m: Memory, i: ReconcileInput)
    requires Persistable(m) && Sane(i.clock)
    ensures Persistable(Reconciled(m, i))
  {
    hide Persistable, Structural, ChargeAll, RejectedKeys, SnapshotKeys, BlockOwners, ClearEndpoints, PrunePeers,
      PruneQuotas;
    PersistableIsStructural(m);
    var judged := Judged(m, i);
    ChargeAllKeepsPersistable(m, i.snapshot, i.mode, i.clock);
    BlockOwnersKeepsPersistable(ChargeAll(m, i.snapshot, i.mode, i.clock), i.snapshot, i.limit, i.clock);
    var cleared := ClearEndpoints(judged, RejectedKeys(judged, i.snapshot, i));
    ClearEndpointsKeepsPersistable(judged, RejectedKeys(judged, i.snapshot, i));
    PrunePeersKeepsPersistable(cleared, SnapshotKeys(i.snapshot), i.clock.now);
    PruneQuotasKeepsPersistable(PrunePeers(cleared, SnapshotKeys(i.snapshot), i.clock.now), i.clock.now);
  }

  lemma ReconcileKeepsSound(s: System, i: ReconcileInput)
    requires Sound(s) && Sane(i.clock)
    ensures Sound(Reconcile(s, i).sys)
  {
    ReconciledIsPersistable(s.mem, i);
    var saved := Persist(s.(mem := Reconciled(s.mem, i)), i.save);
    PersistKeepsSound(s.(mem := Reconciled(s.mem, i)), i.save);
    RemoveAllKeepsSound(saved, RemovedKeys(s.mem, i), i);
  }

  lemma RemoveAllKeepsSound(s: System, keys: set<Key>, i: ReconcileInput)
    requires Sound(s)
    ensures Sound(RemoveAll(s, keys, i))
  {
  }

  // ---------------------------------------------------------------- reloading

  /** What a restart sees of a state the controller saved: the same peers, accounts brought to
      the current date, and the same issue counts and window unless the window is over. */
  lemma SavedStateReloads(s: System, m: Memory, c: Clock)
    requires Persistable(m)
    ensures var r := Load(s, Some(DiskOf(m)), c, SaveOk);
      && r.error == NoError
      && r.sys.mem.peers == m.peers
      && r.sys.mem.quotas.Keys == m.quotas.Keys
      && (forall o :: o in m.quotas ==> r.sys.mem.quotas[o] == Normalize(m.quotas[o], c))
      && r.sys.mem.runtime == map[]
      && (if 0 <= c.now - m.window < DAY
          then r.sys.mem.window == m.window && (forall ip :: Count(r.sys.mem.counts, ip) == Count(m.counts, ip))
          else r.sys.mem.window == c.now && r.sys.mem.counts == map[])
  {
    PersistableLoads(m);
  }
}
