/** Write-ahead authorization: whatever fails and however calls interleave, each peer on the
    device has a record in memory and in every image the state file may hold. */
module WriteAhead {
  import opened Clocks
  import opened Records
  import opened Operations
  import opened Structure
  import opened Charging
  import opened Runs
  import opened Verdicts

  ghost predicate InImage(k: Key, image: Option<Disk>) {
    image.Some? && image.value.peers.Some? && k in image.value.peers.value
  }

  ghost predicate Authorized(s: System, k: Key) {
    k in s.mem.peers && forall image :: image in s.images ==> InImage(k, image)
  }

  ghost predicate Covered(s: System) {
    forall k :: k in s.device ==> Authorized(s, k)
  }

  /** Device peers missing from a snapshot taken at `at` were registered since. */
  ghost predicate UnlistedAreRecent(s: System, listed: set<Key>, at: Time) {
    forall k :: k in s.device && k in s.mem.peers && k !in listed ==> at <= s.mem.peers[k].lastSeen
  }

  ghost predicate Ahead(w: World) {
    w.up ==>
      && Covered(w.sys)
      && (w.pending.Some? ==>
        w.pendingAt <= w.time && UnlistedAreRecent(w.sys, SnapshotKeys(w.pending.value), w.pendingAt))
  }

  // ---------------------------------------------------------------- registerPeer

  lemma PersistCovers(s: System, outcome: SaveOutcome, k: Key)
    requires Authorized(s, k)
    ensures Authorized(Persist(s, outcome), k)
  {
  }

  lemma AdmitCovers(s: System, i: RegisterInput, credential: Credential, listed: set<Key>, at: Time)
    requires Covered(s) && !s.mem.failed
    requires at <= i.clock.now && UnlistedAreRecent(s, listed, at)
    ensures Covered(Admit(s, i, credential).sys)
    ensures UnlistedAreRecent(Admit(s, i, credential).sys, listed, at)
  {
    hide Admit, OtherPeers, QuotaFor, OverQuota, Touch;
    var c := AdmitCases(s, i, credential);
    var written := Written(s.mem, i.peer, credential, i.clock);
    assert written.peers == s.mem.peers[i.peer := written.peers[i.peer]] &&
      written.peers[i.peer].lastSeen == i.clock.now;
    hide Written;
    var t := Admit(s, i, credential).sys;
    forall k | k in t.device ensures Authorized(t, k) && (k !in listed ==> at <= t.mem.peers[k].lastSeen) {
      if k in s.device {
        assert Authorized(s, k);
      }
    }
  }

  lemma RegisterCovers(s: System, i: RegisterInput, listed: set<Key>, at: Time)
    requires Covered(s) && at <= i.clock.now && UnlistedAreRecent(s, listed, at)
    ensures Covered(RegisterPeer(s, i).sys)
    ensures UnlistedAreRecent(RegisterPeer(s, i).sys, listed, at)
  {
    if !s.mem.failed {
      AdmitCovers(s, i, Authorize(i.mode, i.request, i.validated, i.revoked).credential, listed, at);
    }
    hide Admit, Covered, UnlistedAreRecent;
  }

  lemma IssueCovers(s: System, i: IssueInput)
    requires Covered(s)
    ensures Covered(IssueAuthKey(s, i).sys)
    ensures IssueAuthKey(s, i).sys.device == s.device && IssueAuthKey(s, i).sys.mem.peers == s.mem.peers
  {
  }

  // ---------------------------------------------------------------- reconcile

  lemma ReconciledKeepsKey(m: Memory, i: ReconcileInput, k: Key, at: Time)
    requires Structural(m) && k in m.peers
    requires k in SnapshotKeys(i.snapshot) || at <= m.peers[k].lastSeen
    requires i.clock.now < at + PEER_STATE_RETENTION
    ensures k in Reconciled(m, i).peers
  {
    if k in SnapshotKeys(i.snapshot) {
      hide Structural, ChargeAll, RejectedKeys, SnapshotKeys, SnapshotOwners, Referenced;
      assert k in ChargeAll(m, i.snapshot, i.mode, i.clock).peers;
    } else {
      hide Structural, Reconciled, SnapshotKeys;
      UnlistedRecord(m, i, k);
    }
  }

  lemma ReconcileCovers(s: System, i: ReconcileInput, at: Time)
    requires Structural(s.mem) && Covered(s)
    requires UnlistedAreRecent(s, SnapshotKeys(i.snapshot), at)
    requires i.clock.now < at + PEER_STATE_RETENTION
    ensures Covered(Reconcile(s, i).sys)
  {
    hide Structural, Reconciled, RemovedKeys, Persist, RemoveAll, SnapshotKeys;
    forall k | k in Reconcile(s, i).sys.device ensures Authorized(Reconcile(s, i).sys, k) {
      ReconcileShrinks(s, i, k);
      ReconciledKeepsKey(s.mem, i, k, at);
      PersistCovers(s.(mem := Reconciled(s.mem, i)), i.save, k);
      hide Authorized;
      RemoveAllKeepsRecords(Persist(s.(mem := Reconciled(s.mem, i)), i.save), RemovedKeys(s.mem, i), i, k);
    }
  }

  /** Why the 48 hours matter: a device peer that the snapshot misses keeps its record through
      a nil reconcile exactly if it was seen less than 48 hours before the commit's clock. */
  lemma UnlistedPeerKeepsRecordExactly(s: System, i: ReconcileInput, k: Key)
    requires Structural(s.mem) && Reconcile(s, i).error == NoError
    requires k in s.device && k in s.mem.peers && k !in SnapshotKeys(i.snapshot)
    ensures k in Reconcile(s, i).sys.device
    ensures k in Reconcile(s, i).sys.mem.peers <==> i.clock.now - s.mem.peers[k].lastSeen < PEER_STATE_RETENTION
  {
    hide Structural, Reconcile, Reconciled, RemovedKeys, UnlistedAreRecent;
    if k in RemovedKeys(s.mem, i) {
      RemovedAreListed(s.mem, i, k);
    }
    DeviceAfter(s, i, k);
    UnlistedRecord(s.mem, i, k);
    ReconciledRecords(s, i);
  }

  lemma UnlistedRecord(m: Memory, i: ReconcileInput, k: Key)
    requires Structural(m) && k in m.peers && k !in SnapshotKeys(i.snapshot)
    ensures k in Reconciled(m, i).peers <==> i.clock.now - m.peers[k].lastSeen < PEER_STATE_RETENTION
  {
    assert forall p :: p in i.snapshot ==> p.key in SnapshotKeys(i.snapshot);
    hide Structural, ChargeAll, RejectedKeys, SnapshotKeys, SnapshotOwners;
    ChargeLeavesOthers(m, i.snapshot, i.mode, i.clock, k);
  }

  lemma ReconciledRecords(s: System, i: ReconcileInput)
    requires Structural(s.mem) && Reconcile(s, i).error == NoError
    ensures Reconcile(s, i).sys.mem.peers == Reconciled(s.mem, i).peers
  {
    hide Structural, Reconciled, RemovedKeys;
  }

  lemma RemoveAllKeepsRecords(s: System, keys: set<Key>, i: ReconcileInput, k: Key)
    requires Authorized(s, k)
    ensures Authorized(RemoveAll(s, keys, i), k)
  {
  }

  lemma ReconcileShrinks(s: System, i: ReconcileInput, k: Key)
    requires Structural(s.mem) && k in Reconcile(s, i).sys.device
    ensures k in s.device
  {
    hide Structural, Reconciled, RemovedKeys;
  }

  // ---------------------------------------------------------------- restart

  lemma StartCovers(w: World, image: Option<Disk>, c: Clock, save: SaveOutcome, restore: RestoreInput)
    ensures Ahead(Start(w, image, c, save, restore))
  {
    var loaded := Load(Booted(w), image, c, save);
    if loaded.error == NoError && Structural(loaded.sys.mem) {
      assert loaded.sys.images == {Some(DiskOf(loaded.sys.mem))};
      RestoreCovers(loaded.sys, restore);
      hide RestorePeers, Load, Covered;
    }
  }

  lemma RestoreCovers(s: System, i: RestoreInput)
    requires Structural(s.mem) && s.device == map[] && s.images == {Some(DiskOf(s.mem))}
    ensures Covered(RestorePeers(s, i).sys)
  {
    hide DecideFor, RestoredRecord, RestoreQuota, AddOutcomeOf, RestoreChanges, RecentOwners;
    var m := RestoredMemory(s.mem, i);
    assert m.peers.Keys == s.mem.peers.Keys;
    assert RestoredDevice(s, i).Keys <= s.mem.peers.Keys;
    hide RestoredMemory, RestoredDevice, Structural;
  }

  // ---------------------------------------------------------------- runs

  lemma StepKeepsAhead(w: World, step: Step, zone: int)
    requires Healthy(w) && Ahead(w) && Wired(w, step, zone) && Timely(w, step)
    ensures Ahead(Apply(w, step))
  {
    hide RegisterPeer, IssueAuthKey, Reconcile, Start, Covered, Persistable, Loadable, UniqueKeys;
    match step
    case Restart(image, c, save, restore) =>
      StartCovers(w, image, c, save, restore);
    case Register(i) =>
      hide UnlistedAreRecent;
      if w.up {
        if w.pending.Some? {
          RegisterCovers(w.sys, i, SnapshotKeys(w.pending.value), w.pendingAt);
        } else {
          AllListedAreRecent(w.sys, i.clock.now);
          RegisterCovers(w.sys, i, w.sys.device.Keys, i.clock.now);
        }
      }
    case Issue(i) =>
      if w.up { IssueCovers(w.sys, i); }
    case Commit(i) =>
      hide UnlistedAreRecent;
      if w.up && Structural(w.sys.mem) { ReconcileCovers(w.sys, i, w.pendingAt); }
    case TakeSnapshot(_, _) =>
    case Traffic(k, _, _) =>
      CountersDoNotMatter(w.sys, Apply(w, step).sys);
    case ResetCounters(k) =>
      CountersDoNotMatter(w.sys, Apply(w, step).sys);
  }

  lemma AllListedAreRecent(s: System, at: Time)
    ensures UnlistedAreRecent(s, s.device.Keys, at)
  {
  }

  lemma CountersDoNotMatter(s: System, t: System)
    requires t.mem == s.mem && t.images == s.images && t.device.Keys == s.device.Keys
    ensures Covered(s) ==> Covered(t)
  {
    hide Authorized;
    assert Covered(s) ==> forall k :: k in t.device ==> Authorized(s, k);
    assert forall k :: Authorized(s, k) ==> Authorized(t, k) by { SameAuthority(s, t); }
  }

  lemma SameAuthority(s: System, t: System)
    requires t.mem == s.mem && t.images == s.images
    ensures forall k :: Authorized(s, k) ==> Authorized(t, k)
  {
  }

  /** The write-ahead property of every run: a clock that does not go back and commits that read
      it under 48 hours after their snapshot are all it assumes. */
  lemma {:induction false} DevicePeersAreAuthorized(w: World, steps: seq<Step>, zone: int)
    requires Healthy(w) && Ahead(w) && WiredRun(w, steps, zone) && TimelyRun(w, steps)
    ensures Ahead(Run(w, steps))
    ensures forall k :: k in Run(w, steps).sys.device ==> Authorized(Run(w, steps).sys, k)
  {
    RunsStayHealthy(w, steps, zone);
    if |steps| > 0 {
      var before := Run(w, steps[..|steps| - 1]);
      RunsStayHealthy(w, steps[..|steps| - 1], zone);
      DevicePeersAreAuthorized(w, steps[..|steps| - 1], zone);
      StepKeepsAhead(before, steps[|steps| - 1], zone);
      hide Wired, Timely, Apply;
    }
  }
}
