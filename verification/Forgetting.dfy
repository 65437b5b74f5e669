/** Forgetting idle accounts is invisible for good: a server that pruned them and one that did not
    stay alike through any later run, with the same answers, devices, records and sessions, until
    the next reconcile makes them equal. */
module Forgetting {
  import opened Clocks
  import opened Records
  import opened Operations
  import opened Structure
  import opened Runs
  import opened Pruning
  import opened Terms

  /** An account that may be pruned at `since`. */
  ghost predicate Dead(q: QuotaRecord, since: Clock) {
    DatedQuota(q, since.zone) && QuotaExpired(q, since.now)
  }

  /** `b` is `a` without some accounts that were dead at `since`. */
  ghost predicate Forgets(a: map<Owner, QuotaRecord>, b: map<Owner, QuotaRecord>, since: Clock) {
    && (forall o :: o in b ==> o in a && a[o] == b[o])
    && (forall o :: o in a && o !in b ==> Dead(a[o], since))
  }

  ghost predicate AlikeMemory(m: Memory, n: Memory, since: Clock) {
    n == m.(quotas := n.quotas) && Forgets(m.quotas, n.quotas, since)
  }

  ghost predicate AlikeImage(x: Option<Disk>, y: Option<Disk>, since: Clock) {
    || x == y
    || (&& x.Some? && y.Some? && x.value.quotas.Some? && y.value.quotas.Some?
        && y.value == x.value.(quotas := y.value.quotas)
        && Forgets(x.value.quotas.value, y.value.quotas.value, since))
  }

  ghost predicate Matched(x: Option<Disk>, ys: set<Option<Disk>>, since: Clock) {
    exists y :: y in ys && AlikeImage(x, y, since)
  }

  ghost predicate Matches(xs: set<Option<Disk>>, y: Option<Disk>, since: Clock) {
    exists x :: x in xs && AlikeImage(x, y, since)
  }

  ghost predicate AlikeImages(xs: set<Option<Disk>>, ys: set<Option<Disk>>, since: Clock) {
    && (forall x :: x in xs ==> Matched(x, ys, since))
    && (forall y :: y in ys ==> Matches(xs, y, since))
  }

  ghost predicate AlikeSystem(s: System, t: System, since: Clock) {
    AlikeMemory(s.mem, t.mem, since) && AlikeImages(s.images, t.images, since) && s.device == t.device
  }

  ghost predicate AlikeWorld(w: World, v: World, since: Clock) {
    && w.up == v.up && w.pending == v.pending && w.pendingAt == v.pendingAt && w.time == v.time
    && AlikeSystem(w.sys, v.sys, since)
  }

  predicate Since(c: Clock, since: Clock) {
    c.zone == since.zone && since.now <= c.now
  }

  // ---------------------------------------------------------------- accounts

  /** What an operation at a later instant sees of an account, and leaves of it, is the same. */
  lemma AlikeAccount(a: map<Owner, QuotaRecord>, b: map<Owner, QuotaRecord>, o: Owner, since: Clock, c: Clock)
    requires Forgets(a, b, since) && Since(c, since)
    ensures var x, y := AccountOf(a, o, c), AccountOf(b, o, c);
      x.usedBytes == y.usedBytes && x.blockedUntil == y.blockedUntil && forall t ::
        x.(lastSeen := t) == y.(lastSeen := t)
  {
    if o in a && o !in b {
      ExpiredLooksFresh(a[o], since, c);
      NormalFresh(c);
      var x, y := AccountOf(a, o, c), AccountOf(b, o, c);
      assert x.(lastSeen := 0) == y.(lastSeen := 0);
      assert x.(lastSeen := 0).usedBytes == x.usedBytes && y.(lastSeen := 0).usedBytes == y.usedBytes;
      assert x.(lastSeen := 0).blockedUntil == x.blockedUntil && y.(lastSeen := 0).blockedUntil == y.blockedUntil;
    }
    hide Normalize, FreshQuota;
  }

  lemma PutForgets(a: map<Owner, QuotaRecord>, b: map<Owner, QuotaRecord>, o: Owner, q: QuotaRecord, since: Clock)
    requires Forgets(a, b, since)
    ensures Forgets(a[o := q], b[o := q], since)
  {
    hide Dead;
  }

  lemma DeadStaysDead(q: QuotaRecord, since: Clock, c: Clock)
    requires Dead(q, since) && Sane(since) && Since(c, since)
    ensures Dead(Normalize(q, c), since)
  {
    NormalizeKeepsDated(q, c);
  }

  // ---------------------------------------------------------------- images

  lemma SavedAlike(m: Memory, n: Memory, since: Clock)
    requires AlikeMemory(m, n, since)
    ensures AlikeImage(Some(DiskOf(m)), Some(DiskOf(n)), since)
  {
    hide Forgets;
  }

  lemma OneImageAlike(x: Option<Disk>, y: Option<Disk>, since: Clock)
    requires AlikeImage(x, y, since)
    ensures AlikeImages({x}, {y}, since)
  {
    hide AlikeImage;
  }

  lemma MoreImagesAlike(xs: set<Option<Disk>>, ys: set<Option<Disk>>, x: Option<Disk>, y: Option<Disk>, since: Clock)
    requires AlikeImages(xs, ys, since) && AlikeImage(x, y, since)
    ensures AlikeImages(xs + {x}, ys + {y}, since)
  {
    hide AlikeImage, Matched, Matches;
    forall z | z in xs + {x} ensures Matched(z, ys + {y}, since) {
      MatchedMore(z, ys, x, y, since);
    }
    forall u | u in ys + {y} ensures Matches(xs + {x}, u, since) {
      MatchesMore(xs, u, x, y, since);
    }
  }

  lemma MatchedMore(z: Option<Disk>, ys: set<Option<Disk>>, x: Option<Disk>, y: Option<Disk>, since: Clock)
    requires (Matched(z, ys, since) || z == x) && AlikeImage(x, y, since)
    ensures Matched(z, ys + {y}, since)
  {
    hide AlikeImage;
    if z == x {
      assert y in ys + {y};
    } else {
      var u :| u in ys && AlikeImage(z, u, since);
      assert u in ys + {y};
    }
  }

  lemma MatchesMore(xs: set<Option<Disk>>, u: Option<Disk>, x: Option<Disk>, y: Option<Disk>, since: Clock)
    requires (Matches(xs, u, since) || u == y) && AlikeImage(x, y, since)
    ensures Matches(xs + {x}, u, since)
  {
    hide AlikeImage;
    if u == y {
      assert x in xs + {x};
    } else {
      var z :| z in xs && AlikeImage(z, u, since);
      assert z in xs + {x};
    }
  }

  lemma PersistAlike(s: System, t: System, outcome: SaveOutcome, since: Clock)
    requires AlikeSystem(s, t, since)
    ensures AlikeSystem(Persist(s, outcome), Persist(t, outcome), since)
  {
    hide AlikeImages, AlikeImage, Forgets, DiskOf;
    SavedAlike(s.mem, t.mem, since);
    OneImageAlike(Some(DiskOf(s.mem)), Some(DiskOf(t.mem)), since);
    MoreImagesAlike(s.images, t.images, Some(DiskOf(s.mem)), Some(DiskOf(t.mem)), since);
  }

  // ---------------------------------------------------------------- registerPeer and issueAuthKey

  lemma WrittenAlike(m: Memory, n: Memory, peer: Key, credential: Credential, since: Clock, c: Clock)
    requires AlikeMemory(m, n, since) && Since(c, since)
    ensures AlikeMemory(Written(m, peer, credential, c), Written(n, peer, credential, c), since)
  {
    hide AccountOf, Forgets;
    var o := QuotaOwner(peer, credential.keyID, credential.generation);
    AlikeAccount(m.quotas, n.quotas, o, since, c);
    PutForgets(m.quotas, n.quotas, o, AccountOf(m.quotas, o, c).(lastSeen := c.now), since);
    assert RecordFor(m, peer, credential, c.now) == RecordFor(n, peer, credential, c.now);
  }

  lemma AdmissionAlike(s: System, t: System, i: RegisterInput, credential: Credential, since: Clock)
    requires AlikeSystem(s, t, since) && Since(i.clock, since) && !s.mem.failed
    ensures var x, y := Admit(s, i, credential), Admit(t, i, credential);
      x.error == y.error && x.credential == y.credential && AlikeSystem(x.sys, y.sys, since)
  {
    hide Admit, AccountOf, OtherPeers, WithinQuota, Touch, AddTo, RemoveFrom, DiskOf, Written, Forgets, AlikeImages,
      AlikeImage;
    var o := QuotaOwner(i.peer, credential.keyID, credential.generation);
    SamePeersSameRecords(s.mem, t.mem.quotas, o, i.peer, credential, i.clock.now);
    AlikeAccount(s.mem.quotas, t.mem.quotas, o, since, i.clock);
    OverQuotaIsNotWithin(s.mem.quotas, o, i.limit, i.clock);
    OverQuotaIsNotWithin(t.mem.quotas, o, i.limit, i.clock);
    var a := AdmitCases(s, i, credential);
    var b := AdmitCases(t, i, credential);
    var m, n := Written(s.mem, i.peer, credential, i.clock), Written(t.mem, i.peer, credential, i.clock);
    WrittenAlike(s.mem, t.mem, i.peer, credential, since, i.clock);
    SavedAlike(m, n, since);
    SavedAlike(s.mem, t.mem, since);
    assert a == b;
    match a
    case Refused =>
    case SaveLost => MoreImagesAlike(s.images, t.images, Some(DiskOf(m)), Some(DiskOf(n)), since);
    case Started => OneImageAlike(Some(DiskOf(m)), Some(DiskOf(n)), since);
    case Undone =>
      OneImageAlike(Some(DiskOf(s.mem)), Some(DiskOf(t.mem)), since);
      MoreImagesAlike({Some(DiskOf(s.mem))}, {Some(DiskOf(t.mem))}, Some(DiskOf(m)), Some(DiskOf(n)), since);
      assert {Some(DiskOf(m)), Some(DiskOf(s.mem))} == {Some(DiskOf(s.mem))} + {Some(DiskOf(m))};
      assert {Some(DiskOf(n)), Some(DiskOf(t.mem))} == {Some(DiskOf(t.mem))} + {Some(DiskOf(n))};
  }

  lemma RegisterAlike(s: System, t: System, i: RegisterInput, since: Clock)
    requires AlikeSystem(s, t, since) && Since(i.clock, since)
    ensures var x, y := RegisterPeer(s, i), RegisterPeer(t, i);
      x.error == y.error && x.credential == y.credential && AlikeSystem(x.sys, y.sys, since)
  {
    hide Admit, AlikeImages, Forgets;
    var auth := Authorize(i.mode, i.request, i.validated, i.revoked);
    if !s.mem.failed && auth.error == NoError && CredentialMatches(i.mode, auth.credential) {
      AdmissionAlike(s, t, i, auth.credential, since);
    }
  }

  lemma IssueAlike(s: System, t: System, i: IssueInput, since: Clock)
    requires AlikeSystem(s, t, since)
    ensures var x, y := IssueAuthKey(s, i), IssueAuthKey(t, i);
      x.error == y.error && x.key == y.key && AlikeSystem(x.sys, y.sys, since)
  {
    hide AlikeImages, Forgets, Persist;
    var a, b := RollWindow(s.mem, i.clock.now, i.window), RollWindow(t.mem, i.clock.now, i.window);
    assert AlikeMemory(a, b, since) && a.counts == b.counts && a.window == b.window;
    var used := Count(a.counts, i.ip);
    var s1, t1 := s.(mem := a.(counts := a.counts[i.ip := used + 1])),
      t.(mem := b.(counts := b.counts[i.ip := used + 1]));
    PersistAlike(s1, t1, i.save, since);
  }

  // ---------------------------------------------------------------- reconcile

  lemma ChargePeerAlike(m: Memory, n: Memory, p: PeerInfo, mode: Mode, since: Clock, c: Clock)
    requires Structural(m) && Structural(n) && AlikeMemory(m, n, since) && Since(c, since)
    ensures AlikeMemory(ChargePeer(m, p, mode, c), ChargePeer(n, p, mode, c), since)
  {
    hide Structural, AccountOf, Forgets, Observed, Delta;
    var o := OwnerOf(p.key, KnownRecord(m, p.key, c.now));
    AlikeAccount(m.quotas, n.quotas, o, since, c);
    var q := Charged(AccountOf(m.quotas, o, c), p, RuntimeOf(m, p.key, c.now), c.now);
    PutForgets(m.quotas, n.quotas, o, q, since);
    assert AccountOf(m.quotas, o, c).(lastSeen := c.now) == AccountOf(n.quotas, o, c).(lastSeen := c.now);
  }

  lemma {:induction false} ChargingAlike(m: Memory, n: Memory, s: seq<PeerInfo>, mode: Mode, since: Clock, c: Clock)
    requires Structural(m) && Structural(n) && AlikeMemory(m, n, since) && Since(c, since)
    ensures AlikeMemory(ChargeAll(m, s, mode, c), ChargeAll(n, s, mode, c), since)
  {
    hide Structural, ChargePeer, AlikeMemory;
    if |s| > 0 {
      var k := |s| - 1;
      ChargingAlike(m, n, s[..k], mode, since, c);
      ChargePeerAlike(ChargeAll(m, s[..k], mode, c), ChargeAll(n, s[..k], mode, c), s[k], mode, since, c);
    }
  }

  /** Forgotten accounts belong to no recorded peer. */
  lemma RecordedAccountsAgree(m: Memory, n: Memory, k: Key, since: Clock)
    requires Structural(n) && AlikeMemory(m, n, since) && k in m.peers
    ensures var o := OwnerOf(k, m.peers[k]); o in m.quotas && o in n.quotas && m.quotas[o] == n.quotas[o]
  {
    hide Dead;
  }

  lemma BlockingAlike(m: Memory, n: Memory, i: ReconcileInput, since: Clock)
    requires Structural(n) && AlikeMemory(m, n, since)
    ensures AlikeMemory(BlockOwners(m, i.snapshot, i.limit, i.clock), BlockOwners(n, i.snapshot, i.limit, i.clock),
      since)
  {
    hide Dead, Today, NextLocalMidnight;
    assert SnapshotOwners(m, i.snapshot) == SnapshotOwners(n, i.snapshot);
    assert forall o :: o in SnapshotOwners(n, i.snapshot) ==> o in n.quotas;
    hide Structural, SnapshotOwners;
  }

  lemma RejectionsAgree(m: Memory, n: Memory, i: ReconcileInput, since: Clock)
    requires Structural(m) && Structural(n) && AlikeMemory(m, n, since) && Running(m, i.snapshot)
    ensures Running(n, i.snapshot) && RejectedKeys(m, i.snapshot, i) == RejectedKeys(n, i.snapshot, i)
    ensures UnknownKeys(m, i.snapshot) == UnknownKeys(n, i.snapshot)
  {
    hide Structural, Forgets, Stale, RecordMatches;
    forall p | p in i.snapshot && p.key in m.peers ensures Rejected(m, p, i) == Rejected(n, p, i) {
      RecordedAccountsAgree(m, n, p.key, since);
    }
    hide Rejected;
  }

  /** The next reconcile forgets the same accounts on both sides. */
  lemma PruningAgrees(m: Memory, n: Memory, since: Clock, now: Time)
    requires Structural(n) && AlikeMemory(m, n, since) && since.now <= now
    ensures PruneQuotas(m, now) == PruneQuotas(n, now)
  {
    var referenced := Referenced(m.peers);
    assert forall o :: o in referenced ==> o in n.quotas;
    hide Structural, Referenced, DatedQuota;
    var a, b := PruneQuotas(m, now).quotas, PruneQuotas(n, now).quotas;
    forall o ensures (o in a <==> o in b) && (o in a ==> a[o] == b[o]) {
    }
    assert a == b;
  }

  lemma ReconciledAgrees(m: Memory, n: Memory, i: ReconcileInput, since: Clock)
    requires Structural(m) && Structural(n) && AlikeMemory(m, n, since) && Since(i.clock, since)
    ensures Reconciled(m, i) == Reconciled(n, i) && RemovedKeys(m, i) == RemovedKeys(n, i)
  {
    hide Structural, ChargeAll, BlockOwners, ClearEndpoints, PrunePeers, PruneQuotas, AlikeMemory, RejectedKeys,
      UnknownKeys, SnapshotKeys;
    ChargingAlike(m, n, i.snapshot, i.mode, since, i.clock);
    BlockingAlike(ChargeAll(m, i.snapshot, i.mode, i.clock), ChargeAll(n, i.snapshot, i.mode, i.clock), i, since);
    var a, b := Judged(m, i), Judged(n, i);
    RejectionsAgree(a, b, i, since);
    var keys, active := RejectedKeys(a, i.snapshot, i), SnapshotKeys(i.snapshot);
    PeerPruningAlike(a, b, keys, active, i.clock.now, since);
    PruningAgrees(PrunePeers(ClearEndpoints(a, keys), active, i.clock.now),
      PrunePeers(ClearEndpoints(b, keys), active, i.clock.now), since, i.clock.now);
  }

  lemma PeerPruningAlike(m: Memory, n: Memory, keys: set<Key>, active: set<Key>, now: Time, since: Clock)
    requires Structural(n) && AlikeMemory(m, n, since)
    ensures var a, b := PrunePeers(ClearEndpoints(m, keys), active, now),
      PrunePeers(ClearEndpoints(n, keys), active, now);
      AlikeMemory(a, b, since) && Structural(b)
  {
    hide Forgets;
    var a, b := PrunePeers(ClearEndpoints(m, keys), active, now), PrunePeers(ClearEndpoints(n, keys), active, now);
    assert a.peers == b.peers && a.runtime == b.runtime;
  }

  lemma ReconcileAlike(s: System, t: System, i: ReconcileInput, since: Clock)
    requires Structural(s.mem) && Structural(t.mem) && AlikeSystem(s, t, since) && Since(i.clock, since)
    ensures var x, y := Reconcile(s, i), Reconcile(t, i);
      x.error == y.error && AlikeSystem(x.sys, y.sys, since) && (x.error == NoError ==> x.sys == y.sys)
  {
    hide Structural, Reconciled, RemovedKeys, Forgets, AlikeImages, AlikeImage, RemoveAll, DiskOf;
    if !s.mem.failed {
      ReconciledAgrees(s.mem, t.mem, i, since);
      var m := Reconciled(s.mem, i);
      SameIsAlike(m, since);
      SavedAlike(m, m, since);
      OneImageAlike(Some(DiskOf(m)), Some(DiskOf(m)), since);
      MoreImagesAlike(s.images, t.images, Some(DiskOf(m)), Some(DiskOf(m)), since);
      RemovalsKeepAlike(Persist(s.(mem := m), i.save), RemovedKeys(s.mem, i), i, since);
    }
  }

  lemma SameIsAlike(m: Memory, since: Clock)
    ensures AlikeMemory(m, m, since)
  {
  }

  lemma RemovalsKeepAlike(s: System, keys: set<Key>, i: ReconcileInput, since: Clock)
    ensures AlikeMemory(RemoveAll(s, keys, i).mem, RemoveAll(s, keys, i).mem, since)
    ensures RemoveAll(s, keys, i).images == s.images
  {
  }

  // ---------------------------------------------------------------- restarts

  lemma DecisionsAgree(m: Memory, n: Memory, i: RestoreInput, since: Clock, k: Key)
    requires Structural(m) && Structural(n) && AlikeMemory(m, n, since) && k in m.peers
    ensures DecideFor(m, k, i) == DecideFor(n, k, i) && RestoredRecord(m, k, i) == RestoredRecord(n, k, i)
    ensures Restored(m, k, i) == Restored(n, k, i)
  {
    hide Structural, Forgets, RecentEndpoint, RestoreQuota, RecordMatches;
    RecordedAccountsAgree(m, n, k, since);
  }

  lemma RestoredMemoryAlike(m: Memory, n: Memory, i: RestoreInput, since: Clock)
    requires Structural(m) && Structural(n) && AlikeMemory(m, n, since)
    ensures AlikeMemory(RestoredMemory(m, i), RestoredMemory(n, i), since)
  {
    hide Structural, Forgets, RestoreQuota, RestoredRecord, Restored, RecentOwners;
    var a, b := RestoredMemory(m, i), RestoredMemory(n, i);
    forall k | k in m.peers
      ensures RestoredRecord(m, k, i) == RestoredRecord(n, k, i) && Restored(m, k, i) == Restored(n, k, i)
    {
      DecisionsAgree(m, n, i, since, k);
    }
    assert a.peers == b.peers && a.runtime == b.runtime;
    RestoredAccountsAlike(m, n, i, since);
  }

  lemma RestoredAccountsAlike(m: Memory, n: Memory, i: RestoreInput, since: Clock)
    requires Structural(m) && Structural(n) && AlikeMemory(m, n, since)
    ensures Forgets(RestoredMemory(m, i).quotas, RestoredMemory(n, i).quotas, since)
  {
    hide Dead, RestoreQuota, RestoredRecord, Restored, RecentEndpoint;
    assert forall o :: o in RecentOwners(m.peers, i.clock.now) ==> o in n.quotas;
    hide Structural, RecentOwners;
  }

  lemma RestoreChangesAgree(m: Memory, n: Memory, i: RestoreInput, since: Clock)
    requires Structural(m) && Structural(n) && AlikeMemory(m, n, since)
    ensures RestoreChanges(m, i) == RestoreChanges(n, i)
  {
    hide Dead, NewlyBlocked, RestoredRecord, RecentEndpoint;
    forall k | k in m.peers ensures RestoredRecord(m, k, i) == RestoredRecord(n, k, i) {
      DecisionsAgree(m, n, i, since, k);
    }
    assert forall o :: o in RecentOwners(m.peers, i.clock.now) ==> o in n.quotas && m.quotas[o] == n.quotas[o];
    hide Structural, RecentOwners, Forgets;
  }

  lemma RestoredDeviceAgrees(s: System, t: System, i: RestoreInput, since: Clock)
    requires Structural(s.mem) && Structural(t.mem) && AlikeMemory(s.mem, t.mem, since) && s.device == t.device
    ensures RestoredDevice(s, i) == RestoredDevice(t, i)
  {
    hide Structural, Forgets, DecideFor, AddOutcomeOf;
    forall k | k in s.mem.peers ensures DecideFor(s.mem, k, i) == DecideFor(t.mem, k, i) {
      DecisionsAgree(s.mem, t.mem, i, since, k);
    }
    assert RestoredDevice(s, i) == RestoredDevice(t, i);
  }

  lemma RestoreAlike(s: System, t: System, i: RestoreInput, since: Clock)
    requires Structural(s.mem) && Structural(t.mem) && AlikeSystem(s, t, since)
    ensures var x, y := RestorePeers(s, i), RestorePeers(t, i); x.error == y.error && AlikeSystem(x.sys, y.sys, since)
  {
    hide Structural, RestoredMemory, RestoredDevice, RestoreChanges, Forgets, AlikeImages, Persist;
    RestoredMemoryAlike(s.mem, t.mem, i, since);
    RestoreChangesAgree(s.mem, t.mem, i, since);
    RestoredDeviceAgrees(s, t, i, since);
    PersistAlike(s.(mem := RestoredMemory(s.mem, i), device := RestoredDevice(s, i)),
      t.(mem := RestoredMemory(t.mem, i), device := RestoredDevice(t, i)), i.save, since);
    PersistAlikeLatch(s.(mem := RestoredMemory(s.mem, i)), t.(mem := RestoredMemory(t.mem, i)), i.save);
  }

  lemma PersistAlikeLatch(s: System, t: System, outcome: SaveOutcome)
    requires s.mem.failed == t.mem.failed
    ensures Persist(s, outcome).mem.failed == Persist(t, outcome).mem.failed
  {
  }

  lemma RecalledAlike(x: Option<Disk>, y: Option<Disk>, since: Clock, c: Clock)
    requires AlikeImage(x, y, since) && Sane(since) && Since(c, since)
    requires (x.Some? ==> Loadable(x.value)) && (y.Some? ==> Loadable(y.value))
    ensures AlikeMemory(Recall(x, ZERO_TIME, c), Recall(y, ZERO_TIME, c), since)
  {
    hide Dead, Loadable, Normalize, Positive;
    if x != y {
      var a, b := x.value.quotas.value, y.value.quotas.value;
      forall o | o in a && o !in b ensures Dead(Normalize(a[o], c), since) {
        DeadStaysDead(a[o], since, c);
      }
    }
  }

  lemma LoadAlike(s: System, t: System, x: Option<Disk>, y: Option<Disk>, since: Clock, c: Clock, save: SaveOutcome)
    requires AlikeImages(s.images, t.images, since) && s.device == t.device
    requires IsZero(s.mem.window) && IsZero(t.mem.window)
    requires AlikeImage(x, y, since) && Sane(since) && Since(c, since)
    requires (x.Some? ==> Loadable(x.value)) && (y.Some? ==> Loadable(y.value))
    ensures var a, b := Load(s, x, c, save), Load(t, y, c, save); a.error == b.error && AlikeSystem(a.sys, b.sys, since)
  {
    hide Loadable, Forgets, AlikeImages, AlikeImage, Persist, Recall;
    RecalledAlike(x, y, since, c);
    var m, n := RollWindow(Recall(x, ZERO_TIME, c), c.now, DAY), RollWindow(Recall(y, ZERO_TIME, c), c.now, DAY);
    assert AlikeMemory(m, n, since);
    PersistAlike(s.(mem := m), t.(mem := n), save, since);
  }

  lemma StartAlike(w: World, v: World, x: Step, y: Option<Disk>, since: Clock)
    requires x.Restart? && Healthy(w) && Healthy(v) && AlikeWorld(w, v, since) && Sane(since)
    requires x.image in w.sys.images && y in v.sys.images && AlikeImage(x.image, y, since)
    requires Sane(x.clock) && Since(x.clock, since)
    ensures AlikeWorld(Start(w, x.image, x.clock, x.save, x.restore), Start(v, y, x.clock, x.save, x.restore), since)
  {
    hide Forgets, AlikeImages, AlikeImage, Load, RestorePeers, Sound, Loadable, Structural;
    LoadAlike(Booted(w), Booted(v), x.image, y, since, x.clock, x.save);
    var a, b := Load(Booted(w), x.image, x.clock, x.save), Load(Booted(v), y, x.clock, x.save);
    LoadIsStructural(Booted(w), x.image, x.clock, x.save);
    LoadIsStructural(Booted(v), y, x.clock, x.save);
    if a.error == NoError {
      RestoreAlike(a.sys, b.sys, x.restore, since);
    }
    SameIsAlike(EMPTY_MEMORY, since);
  }

  lemma LoadIsStructural(s: System, image: Option<Disk>, c: Clock, save: SaveOutcome)
    requires (image.Some? ==> Loadable(image.value)) && Sane(c)
    ensures Load(s, image, c, save).error == NoError ==> Structural(Load(s, image, c, save).sys.mem)
  {
    hide Load, Loadable;
    LoadEstablishesSound(s, image, c, save);
  }

  // ---------------------------------------------------------------- runs

  /** The same call on the other side: a restart reads an image that is alike. */
  ghost predicate AlikeStep(step: Step, other: Step, since: Clock) {
    if step.Restart?
    then other.Restart? && AlikeImage(step.image, other.image, since) && other == step.(image := other.image)
    else other == step
  }

  ghost predicate StepSince(step: Step, since: Clock) {
    match step
    case Register(i) => since.now <= i.clock.now
    case Commit(i) => since.now <= i.clock.now
    case Restart(_, c, _, restore) => since.now <= c.now && since.now <= restore.clock.now
    case _ => true
  }

  ghost predicate RunSince(steps: seq<Step>, since: Clock) {
    forall n :: 0 <= n < |steps| ==> StepSince(steps[n], since)
  }

  ghost predicate AlikeSteps(steps: seq<Step>, others: seq<Step>, since: Clock) {
    |others| == |steps| && forall n :: 0 <= n < |steps| ==> AlikeStep(steps[n], others[n], since)
  }

  lemma StepAlike(w: World, v: World, step: Step, other: Step, since: Clock)
    requires Healthy(w) && Healthy(v) && AlikeWorld(w, v, since) && Sane(since)
    requires Wired(w, step, since.zone) && Wired(v, other, since.zone)
    requires AlikeStep(step, other, since) && StepSince(step, since)
    ensures AlikeWorld(Apply(w, step), Apply(v, other), since)
  {
    hide RegisterPeer, IssueAuthKey, Reconcile, Start, Forgets, AlikeImages, AlikeImage, Persistable, Loadable, Lists,
      Structural;
    UpIsStructural(w);
    UpIsStructural(v);
    match step
    case Restart(_, _, _, _) => StartAlike(w, v, step, other.image, since);
    case Register(i) => RegisterAlike(w.sys, v.sys, i, since);
    case Issue(i) => IssueAlike(w.sys, v.sys, i, since);
    case Commit(i) => if w.up { ReconcileAlike(w.sys, v.sys, i, since); }
    case TakeSnapshot(_, _) =>
    case Traffic(_, _, _) =>
    case ResetCounters(_) =>
  }

  lemma UpIsStructural(w: World)
    requires Healthy(w)
    ensures w.up ==> Structural(w.sys.mem)
  {
  }

  /** Whatever one side may do, the other side may do alike. */
  lemma OtherSide(w: World, v: World, step: Step, since: Clock) returns (other: Step)
    requires AlikeWorld(w, v, since) && Wired(w, step, since.zone)
    ensures Wired(v, other, since.zone) && AlikeStep(step, other, since)
  {
    hide AlikeImage, Lists, Forgets;
    other := step;
    if step.Restart? {
      assert Matched(step.image, v.sys.images, since);
      var y :| y in v.sys.images && AlikeImage(step.image, y, since);
      other := step.(image := y);
    }
  }

  lemma ThisSide(w: World, v: World, other: Step, since: Clock) returns (step: Step)
    requires AlikeWorld(w, v, since) && Wired(v, other, since.zone)
    ensures Wired(w, step, since.zone) && AlikeStep(step, other, since)
  {
    hide AlikeImage, Lists, Forgets;
    step := other;
    if other.Restart? {
      assert Matches(w.sys.images, other.image, since);
      var x :| x in w.sys.images && AlikeImage(x, other.image, since);
      step := other.(image := x);
    }
  }

  /** Alike worlds stay alike: every run on one side has a run of the same calls on the other. */
  lemma {:induction false} RunsStayAlike(w: World, v: World, steps: seq<Step>, since: Clock) returns (others: seq<Step>)
    requires Healthy(w) && Healthy(v) && AlikeWorld(w, v, since) && Sane(since)
    requires WiredRun(w, steps, since.zone) && RunSince(steps, since)
    ensures WiredRun(v, others, since.zone) && AlikeSteps(steps, others, since)
    ensures AlikeWorld(Run(w, steps), Run(v, others), since)
  {
    hide Healthy, AlikeWorld, Apply, Wired, AlikeStep, StepSince;
    others := [];
    if |steps| > 0 {
      var n := |steps| - 1;
      var before := RunsStayAlike(w, v, steps[..n], since);
      RunsStayHealthy(w, steps[..n], since.zone);
      RunsStayHealthy(v, before, since.zone);
      var other := OtherSide(Run(w, steps[..n]), Run(v, before), steps[n], since);
      StepAlike(Run(w, steps[..n]), Run(v, before), steps[n], other, since);
      RunGrows(v, before, other);
      others := before + [other];
    }
  }

  lemma {:induction false} RunsStayAlikeBack(w: World, v: World, others: seq<Step>, since: Clock)
    returns (steps: seq<Step>)
    requires Healthy(w) && Healthy(v) && AlikeWorld(w, v, since) && Sane(since)
    requires WiredRun(v, others, since.zone) && RunSince(others, since)
    ensures WiredRun(w, steps, since.zone) && AlikeSteps(steps, others, since)
    ensures AlikeWorld(Run(w, steps), Run(v, others), since)
  {
    hide Healthy, AlikeWorld, Apply, Wired, AlikeStep, StepSince;
    steps := [];
    if |others| > 0 {
      var n := |others| - 1;
      var before := RunsStayAlikeBack(w, v, others[..n], since);
      RunsStayHealthy(w, before, since.zone);
      RunsStayHealthy(v, others[..n], since.zone);
      var step := ThisSide(Run(w, before), Run(v, others[..n]), others[n], since);
      SameInstants(step, others[n], since);
      StepAlike(Run(w, before), Run(v, others[..n]), step, others[n], since);
      RunGrows(w, before, step);
      steps := before + [step];
    }
  }

  lemma SameInstants(step: Step, other: Step, since: Clock)
    requires AlikeStep(step, other, since) && StepSince(other, since)
    ensures StepSince(step, since)
  {
    hide AlikeImage;
  }

  // ---------------------------------------------------------------- the theorem

  /** The world that a reconcile would leave if it forgot no account. */
  function Remembering(w: World, i: ReconcileInput): World
    requires Structural(w.sys.mem)
  {
    var saved := Persist(w.sys.(mem := Unpruned(w.sys.mem, i)), i.save);
    w.(sys := RemoveAll(saved, RemovedKeys(w.sys.mem, i), i), pending := None, time := Max(w.time, i.clock.now))
  }

  lemma UnprunedIsPersistable(m: Memory, i: ReconcileInput)
    requires Persistable(m) && Sane(i.clock)
    ensures Persistable(Unpruned(m, i))
  {
    hide Persistable, Structural, ChargeAll, RejectedKeys, SnapshotKeys, BlockOwners, ClearEndpoints, PrunePeers;
    PersistableIsStructural(m);
    var judged := Judged(m, i);
    ChargeAllKeepsPersistable(m, i.snapshot, i.mode, i.clock);
    BlockOwnersKeepsPersistable(ChargeAll(m, i.snapshot, i.mode, i.clock), i.snapshot, i.limit, i.clock);
    ClearEndpointsKeepsPersistable(judged, RejectedKeys(judged, i.snapshot, i));
    PrunePeersKeepsPersistable(ClearEndpoints(judged, RejectedKeys(judged, i.snapshot, i)), SnapshotKeys(i.snapshot),
      i.clock.now);
  }

  lemma RememberingIsHealthy(w: World, i: ReconcileInput)
    requires Healthy(w) && w.up && Structural(w.sys.mem) && Sane(i.clock)
    ensures Healthy(Remembering(w, i))
  {
    UnprunedIsPersistable(w.sys.mem, i);
    var saved := Persist(w.sys.(mem := Unpruned(w.sys.mem, i)), i.save);
    PersistKeepsSound(w.sys.(mem := Unpruned(w.sys.mem, i)), i.save);
    RemoveAllKeepsSound(saved, RemovedKeys(w.sys.mem, i), i);
    hide Unpruned, Persist, RemoveAll, RemovedKeys, Persistable, Structural, Loadable;
  }

  lemma PruningForgets(m: Memory, c: Clock)
    requires Dated(m.quotas, c.zone)
    ensures AlikeMemory(m, PruneQuotas(m, c.now), c)
  {
    hide DatedQuota, Referenced, QuotaExpired;
  }

  lemma ForgottenIsAlike(w: World, i: ReconcileInput)
    requires Structural(w.sys.mem) && w.up && w.pending.Some? && Dated(w.sys.mem.quotas, i.clock.zone)
    requires Reconcile(w.sys, i).error == NoError
    ensures AlikeWorld(Remembering(w, i), Apply(w, Commit(i)), i.clock)
  {
    hide Structural, Reconciled, Unpruned, RemovedKeys, AlikeImages, AlikeImage, Dated, DiskOf, PruneQuotas, Forgets;
    var s := w.sys;
    var kept, pruned := Unpruned(s.mem, i), Reconciled(s.mem, i);
    UnprunedIsDated(s.mem, i);
    PruningForgets(kept, i.clock);
    SavedAlike(kept, pruned, i.clock);
    OneImageAlike(Some(DiskOf(kept)), Some(DiskOf(pruned)), i.clock);
  }

  /** After any run from a fresh start and a nil reconcile of it, the server that forgot idle
      accounts and the one that would remember them cannot be told apart by any later run whose
      clocks are not before the reconcile's: each run of one has a run of the same calls of the
      other, and afterwards devices, records, sessions and the answers to every further
      registration and key request agree. */
  lemma ForgettingIsInvisible(w: World, steps: seq<Step>, i: ReconcileInput, later: seq<Step>)
    returns (others: seq<Step>)
    requires Fresh(w) && WiredRun(w, steps, i.clock.zone)
    requires var x := Run(w, steps);
      && x.up && Wired(x, Commit(i), i.clock.zone) && Structural(x.sys.mem) && Reconcile(x.sys, i).error == NoError
      && WiredRun(Remembering(x, i), later, i.clock.zone)
    requires RunSince(later, i.clock)
    ensures AlikeSteps(later, others, i.clock) && WiredRun(Apply(Run(w, steps), Commit(i)), others, i.clock.zone)
    ensures var kept, pruned := Run(Remembering(Run(w, steps), i), later), Run(Apply(Run(w, steps), Commit(i)), others);
      && AlikeWorld(kept, pruned, i.clock)
      && (forall j: RegisterInput :: Since(j.clock, i.clock) ==>
        && RegisterPeer(kept.sys, j).error == RegisterPeer(pruned.sys, j).error
        && RegisterPeer(kept.sys, j).credential == RegisterPeer(pruned.sys, j).credential)
      && (forall q: IssueInput :: IssueAuthKey(kept.sys, q).key == IssueAuthKey(pruned.sys, q).key)
  {
    var x := Run(w, steps);
    CommitIsAlike(w, steps, i);
    hide Run, WiredRun, RegisterPeer, IssueAuthKey, Remembering, Healthy, Apply, Structural, Reconcile, RunSince,
      AlikeSteps;
    others := RunsStayAlike(Remembering(x, i), Apply(x, Commit(i)), later, i.clock);
    AlikeAnswers(Run(Remembering(x, i), later), Run(Apply(x, Commit(i)), others), i.clock);
  }

  /** The converse: every run of the server that forgot has a run of the one that remembers. */
  lemma ForgettingIsInvisibleBack(w: World, steps: seq<Step>, i: ReconcileInput, others: seq<Step>)
    returns (later: seq<Step>)
    requires Fresh(w) && WiredRun(w, steps, i.clock.zone)
    requires var x := Run(w, steps);
      && x.up && Wired(x, Commit(i), i.clock.zone) && Structural(x.sys.mem) && Reconcile(x.sys, i).error == NoError
      && WiredRun(Apply(x, Commit(i)), others, i.clock.zone)
    requires RunSince(others, i.clock)
    ensures AlikeSteps(later, others, i.clock) && WiredRun(Remembering(Run(w, steps), i), later, i.clock.zone)
    ensures AlikeWorld(Run(Remembering(Run(w, steps), i), later), Run(Apply(Run(w, steps), Commit(i)), others), i.clock)
  {
    var x := Run(w, steps);
    CommitIsAlike(w, steps, i);
    hide Run, WiredRun, Remembering, Healthy, Apply, Structural, Reconcile, RunSince, AlikeSteps;
    later := RunsStayAlikeBack(Remembering(x, i), Apply(x, Commit(i)), others, i.clock);
  }

  lemma CommitIsAlike(w: World, steps: seq<Step>, i: ReconcileInput)
    requires Fresh(w) && WiredRun(w, steps, i.clock.zone)
    requires var x := Run(w, steps);
      x.up && Wired(x, Commit(i), i.clock.zone) && Structural(x.sys.mem) && Reconcile(x.sys, i).error == NoError
    ensures var x := Run(w, steps);
      && AlikeWorld(Remembering(x, i), Apply(x, Commit(i)), i.clock)
      && Healthy(Remembering(x, i)) && Healthy(Apply(x, Commit(i))) && Sane(i.clock)
  {
    FreshIsHealthy(w);
    assert DatedWorld(w, i.clock.zone);
    hide Run, WiredRun, Remembering, Healthy, Apply, Structural, Reconcile, AlikeWorld, Dated;
    var x := Run(w, steps);
    RunsStayHealthy(w, steps, i.clock.zone);
    RunsStayDated(w, steps, i.clock.zone);
    StepKeepsHealthy(x, Commit(i), i.clock.zone);
    RememberingIsHealthy(x, i);
    ForgottenIsAlike(x, i);
  }

  lemma AlikeAnswers(w: World, v: World, since: Clock)
    requires AlikeWorld(w, v, since)
    ensures forall j: RegisterInput :: Since(j.clock, since) ==>
      && RegisterPeer(w.sys, j).error == RegisterPeer(v.sys, j).error
      && RegisterPeer(w.sys, j).credential == RegisterPeer(v.sys, j).credential
    ensures forall q: IssueInput :: IssueAuthKey(w.sys, q).key == IssueAuthKey(v.sys, q).key
  {
    hide RegisterPeer, IssueAuthKey, AlikeSystem, Since;
    forall j: RegisterInput | Since(j.clock, since)
      ensures RegisterPeer(w.sys, j).error == RegisterPeer(v.sys, j).error
      ensures RegisterPeer(w.sys, j).credential == RegisterPeer(v.sys, j).credential
    {
      RegisterAlike(w.sys, v.sys, j, since);
    }
    forall q: IssueInput ensures IssueAuthKey(w.sys, q).key == IssueAuthKey(v.sys, q).key {
      IssueAlike(w.sys, v.sys, q, since);
    }
  }
}
