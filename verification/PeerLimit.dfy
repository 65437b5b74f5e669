/** An issued key never has more than three running peers. */
module PeerLimit {
  import opened Clocks
  import opened Records
  import opened Operations
  import opened Structure
  import opened Charging
  import opened Verdicts
  import opened Runs
  import opened FailClosed

  function ActivePeers(m: Memory, o: Owner): set<Key> {
    set k | k in m.runtime && k in m.peers && OwnerOf(k, m.peers[k]) == o
  }

  predicate IssuedOwner(o: Owner) {
    o.KeyOwner? && Issued(o.keyID)
  }

  ghost predicate Limited(m: Memory) {
    forall o :: IssuedOwner(o) ==> |ActivePeers(m, o)| <= MAX_ACTIVE_PEERS
  }

  /** Every recorded peer on the device counts as running. */
  ghost predicate Tracked(s: System) {
    forall k :: k in s.device && k in s.mem.peers ==> k in s.mem.runtime
  }

  lemma SmallerSet<T>(a: set<T>, b: set<T>)
    requires a <= b
    ensures |a| <= |b|
  {
    assert b == a + (b - a);
  }

  /** A memory whose active peers are among another's is limited if the other is. */
  lemma FewerActive(m: Memory, t: Memory, o: Owner)
    requires forall k :: k in t.runtime && k in t.peers && OwnerOf(k, t.peers[k]) == o ==>
      k in m.runtime && k in m.peers && OwnerOf(k, m.peers[k]) == o
    ensures |ActivePeers(t, o)| <= |ActivePeers(m, o)|
  {
    SmallerSet(ActivePeers(t, o), ActivePeers(m, o));
  }

  // ---------------------------------------------------------------- registerPeer

  lemma OneMoreActive(m: Memory, t: Memory, o: Owner, peer: Key)
    requires forall k :: k in t.runtime && k in t.peers && k != peer && OwnerOf(k, t.peers[k]) == o ==>
      k in m.runtime && k in m.peers && OwnerOf(k, m.peers[k]) == o
    requires |OtherPeers(m, o, peer)| < MAX_ACTIVE_PEERS
    ensures |ActivePeers(t, o)| <= MAX_ACTIVE_PEERS
  {
    SmallerSet(ActivePeers(t, o), OtherPeers(m, o, peer) + {peer});
  }

  lemma AdmitKeepsLimit(s: System, i: RegisterInput, credential: Credential)
    requires Limited(s.mem) && !s.mem.failed
    ensures Limited(Admit(s, i, credential).sys.mem)
  {
    var c := AdmitCases(s, i, credential);
    var t := Admit(s, i, credential).sys;
    hide Admit, AccountOf, RecordFor, OverQuota;
    forall o | IssuedOwner(o) ensures |ActivePeers(t.mem, o)| <= MAX_ACTIVE_PEERS {
      assert |ActivePeers(s.mem, o)| <= MAX_ACTIVE_PEERS;
      WrittenIdentity(s.mem, i.peer, credential, i.clock);
      hide ActivePeers, OtherPeers, Written;
      if c.Started? && o == QuotaOwner(i.peer, credential.keyID, credential.generation) {
        OneMoreActive(s.mem, t.mem, o, i.peer);
      } else {
        FewerActive(s.mem, t.mem, o);
      }
    }
  }

  lemma AdmitKeepsTracked(s: System, i: RegisterInput, credential: Credential)
    requires Tracked(s) && !s.mem.failed
    ensures Tracked(Admit(s, i, credential).sys)
  {
    hide Admit, Written, OtherPeers, QuotaFor, OverQuota, DiskOf;
    var c := AdmitCases(s, i, credential);
    WrittenIdentity(s.mem, i.peer, credential, i.clock);
  }

  lemma WrittenIdentity(m: Memory, peer: Key, credential: Credential, c: Clock)
    ensures var t := Written(m, peer, credential, c);
      && t.peers.Keys == m.peers.Keys + {peer}
      && (forall k :: k != peer && k in m.peers ==> t.peers[k] == m.peers[k])
      && OwnerOf(peer, t.peers[peer]) == QuotaOwner(peer, credential.keyID, credential.generation)
  {
    hide AccountOf;
  }

  lemma RegisterKeepsLimit(s: System, i: RegisterInput)
    requires Limited(s.mem) && Tracked(s)
    ensures Limited(RegisterPeer(s, i).sys.mem) && Tracked(RegisterPeer(s, i).sys)
  {
    var credential := Authorize(i.mode, i.request, i.validated, i.revoked).credential;
    if !s.mem.failed {
      AdmitKeepsLimit(s, i, credential);
      AdmitKeepsTracked(s, i, credential);
    }
    hide Admit, Limited, Tracked;
  }

  lemma IssueKeepsLimit(s: System, i: IssueInput)
    requires Limited(s.mem) && Tracked(s)
    ensures Limited(IssueAuthKey(s, i).sys.mem) && Tracked(IssueAuthKey(s, i).sys)
  {
    hide IssueAuthKey, ActivePeers;
    var t := IssueAuthKey(s, i).sys;
    IssueTouchesNoPeer(s, i);
    forall o | IssuedOwner(o) ensures |ActivePeers(t.mem, o)| <= MAX_ACTIVE_PEERS {
      assert |ActivePeers(s.mem, o)| <= MAX_ACTIVE_PEERS;
      FewerActive(s.mem, t.mem, o);
    }
  }

  lemma IssueTouchesNoPeer(s: System, i: IssueInput)
    ensures var t := IssueAuthKey(s, i).sys;
      t.mem.peers == s.mem.peers && t.mem.runtime == s.mem.runtime && t.device == s.device
  {
    hide Persist, Count;
    var rolled := RollWindow(s.mem, i.clock.now, i.window);
    assert rolled.peers == s.mem.peers && rolled.runtime == s.mem.runtime;
    PersistTouchesNoPeer(s.(mem := rolled.(counts := rolled.counts[i.ip := Count(rolled.counts, i.ip) + 1])), i.save);
  }

  lemma PersistTouchesNoPeer(s: System, outcome: SaveOutcome)
    ensures var t := Persist(s, outcome);
      t.mem.peers == s.mem.peers && t.mem.runtime == s.mem.runtime && t.device == s.device
  {
  }

  // ---------------------------------------------------------------- reconcile

  /** What charging says about a peer, whether or not it was listed. */
  lemma ChargedPeer(m: Memory, i: ReconcileInput, k: Key)
    requires Structural(m)
    ensures var t := ChargeAll(m, i.snapshot, i.mode, i.clock);
      && (k in t.peers <==> k in m.peers || (i.mode.OpenMode? && k in SnapshotKeys(i.snapshot)))
      && (k in t.peers ==> SameIdentity(t.peers[k], KnownRecord(m, k, i.clock.now)))
      && (k in t.runtime ==> k in m.runtime || k in SnapshotKeys(i.snapshot))
      && (k in SnapshotKeys(i.snapshot) && k in t.peers ==> k in t.runtime)
  {
    ChargeKeepsIdentity(m, i.snapshot, i.mode, i.clock, k);
    if k !in SnapshotKeys(i.snapshot) {
      assert forall p :: p in i.snapshot ==> p.key in SnapshotKeys(i.snapshot);
      ChargeLeavesOthers(m, i.snapshot, i.mode, i.clock, k);
    }
    hide Structural, ChargeAll;
  }

  lemma ReconciledPeer(m: Memory, i: ReconcileInput, k: Key)
    requires Structural(m)
    ensures var t := Reconciled(m, i);
      && (k in t.peers ==> k in m.peers || (i.mode.OpenMode? && k in SnapshotKeys(i.snapshot)))
      && (k in t.peers ==> SameIdentity(t.peers[k], KnownRecord(m, k, i.clock.now)))
      && (k in t.runtime ==> k in m.runtime || k in SnapshotKeys(i.snapshot))
      && (k in t.peers && (k in SnapshotKeys(i.snapshot) || k in m.runtime) ==> k in t.runtime)
  {
    ChargedPeer(m, i, k);
    hide Structural, ChargeAll, KnownRecord, RejectedKeys, SnapshotKeys;
  }

  /** Listed peers with a record are running. */
  ghost predicate ListedRun(m: Memory, listed: seq<PeerInfo>) {
    forall k :: k in SnapshotKeys(listed) && k in m.peers ==> k in m.runtime
  }

  lemma ReconcileKeepsLimit(s: System, i: ReconcileInput)
    requires Structural(s.mem) && Limited(s.mem) && Tracked(s) && (!s.mem.failed ==> ListedRun(s.mem, i.snapshot))
    ensures Limited(Reconcile(s, i).sys.mem) && Tracked(Reconcile(s, i).sys)
  {
    hide Reconcile, Structural, ActivePeers, ListedRun;
    var t := Reconcile(s, i).sys;
    forall k ensures ReconcileRelates(s, t, k) {
      hide Limited, Tracked;
      ReconcileTracksKey(s, i, k);
    }
    forall o | IssuedOwner(o) ensures |ActivePeers(t.mem, o)| <= MAX_ACTIVE_PEERS {
      assert |ActivePeers(s.mem, o)| <= MAX_ACTIVE_PEERS;
      forall k | k in t.mem.runtime && k in t.mem.peers && OwnerOf(k, t.mem.peers[k]) == o
        ensures k in s.mem.runtime && k in s.mem.peers && OwnerOf(k, s.mem.peers[k]) == o
      {
        assert ReconcileRelates(s, t, k);
      }
      FewerActive(s.mem, t.mem, o);
    }
    assert Tracked(t) by {
      hide Limited;
      forall k | k in t.device && k in t.mem.peers ensures k in t.mem.runtime {
        assert ReconcileRelates(s, t, k);
      }
    }
  }

  ghost predicate ReconcileRelates(s: System, t: System, k: Key) {
    && (k in t.mem.runtime && k in t.mem.peers ==>
      || (k in s.mem.runtime && k in s.mem.peers && SameIdentity(t.mem.peers[k], s.mem.peers[k]))
      || t.mem.peers[k].keyID.OpenId?)
    && (k in t.device && k in t.mem.peers ==> k in t.mem.runtime)
  }

  lemma ReconcileTracksKey(s: System, i: ReconcileInput, k: Key)
    requires Structural(s.mem) && Tracked(s) && (!s.mem.failed ==> ListedRun(s.mem, i.snapshot))
    ensures ReconcileRelates(s, Reconcile(s, i).sys, k)
  {
    hide Structural, Reconciled, SnapshotKeys, Reconcile;
    if s.mem.failed {
      LatchedReconcileIsInert(s, i);
      assert k in s.mem.runtime ==> k in s.mem.peers by { RunningIsRecorded(s.mem, k); }
    } else {
      ReconciledPeer(s.mem, i, k);
      RunningIsRecorded(s.mem, k);
      ReconcileOutcome(s, i, k);
    }
  }

  lemma LatchedReconcileIsInert(s: System, i: ReconcileInput)
    requires Structural(s.mem) && s.mem.failed
    ensures Reconcile(s, i).sys == s
  {
    hide Structural, Reconciled, RemovedKeys;
  }

  lemma RunningIsRecorded(m: Memory, k: Key)
    requires Structural(m)
    ensures k in m.runtime ==> k in m.peers
  {
  }

  lemma ReconcileOutcome(s: System, i: ReconcileInput, k: Key)
    requires Structural(s.mem)
    ensures var t := Reconcile(s, i).sys;
      || t == s
      || (&& t.mem.peers == Reconciled(s.mem, i).peers
          && (k in t.mem.runtime ==> k in Reconciled(s.mem, i).runtime)
          && (k in t.device ==> k in s.device && (k in Reconciled(s.mem, i).runtime ==> k in t.mem.runtime)))
  {
    hide Structural, Reconciled, RemovedKeys;
  }

  /** Peers of `o` that a commit counts as running: recorded, running before or listed, listed or
      recent enough to keep their record, and not removed. */
  ghost function CountedByCommit(m: Memory, i: ReconcileInput, o: Owner): set<Key>
    requires Structural(m)
  {
    set k |
      && k in m.peers && OwnerOf(k, m.peers[k]) == o
      && (k in SnapshotKeys(i.snapshot) ||
        (k in m.runtime && i.clock.now - m.peers[k].lastSeen < PEER_STATE_RETENTION))
      && (k in RemovedKeys(m, i) ==> !RemoveOutcomeOf(i, k).RemoveOk?)
  }

  /** After a commit whose save worked, the running peers of an issued key are exactly these; so the
      commit keeps the key within the limit if and only if they are at most three. */
  lemma CommitCountsExactly(s: System, i: ReconcileInput, o: Owner)
    requires Structural(s.mem) && Reconcile(s, i).error == NoError && IssuedOwner(o)
    ensures ActivePeers(Reconcile(s, i).sys.mem, o) == CountedByCommit(s.mem, i, o)
  {
    hide Structural, Reconcile, RemovedKeys, SnapshotKeys;
    var t := Reconcile(s, i).sys.mem;
    forall k ensures k in ActivePeers(t, o) <==> k in CountedByCommit(s.mem, i, o) {
      CountedKey(s.mem, i, k);
      ReconcileCounts(s, i, k);
      hide Reconciled;
    }
  }

  lemma ReconcileCounts(s: System, i: ReconcileInput, k: Key)
    requires Structural(s.mem) && Reconcile(s, i).error == NoError
    ensures var t := Reconcile(s, i).sys.mem;
      && t.peers == Reconciled(s.mem, i).peers
      && (k in t.runtime <==>
        k in Reconciled(s.mem, i).runtime && (k in RemovedKeys(s.mem, i) ==> !RemoveOutcomeOf(i, k).RemoveOk?))
  {
    hide Structural, Reconciled, RemovedKeys;
  }

  lemma CountedKey(m: Memory, i: ReconcileInput, k: Key)
    requires Structural(m)
    ensures var t := Reconciled(m, i);
      && (k in t.peers ==> k in m.peers || t.peers[k].keyID.OpenId?)
      && (k in m.peers ==>
        && (k in t.peers <==>
          k in SnapshotKeys(i.snapshot) || i.clock.now - m.peers[k].lastSeen < PEER_STATE_RETENTION)
        && (k in t.peers ==>
          && SameIdentity(t.peers[k], m.peers[k])
          && (k in t.runtime <==> k in m.runtime || k in SnapshotKeys(i.snapshot))))
  {
    hide Structural, ChargeAll, RejectedKeys, SnapshotKeys, SnapshotOwners, Referenced;
    ChargedPeer(m, i, k);
    assert m.runtime.Keys <= ChargeAll(m, i.snapshot, i.mode, i.clock).runtime.Keys;
    if k !in SnapshotKeys(i.snapshot) {
      assert forall p :: p in i.snapshot ==> p.key != k by { UnlistedKey(i.snapshot, k); }
      ChargeLeavesOthers(m, i.snapshot, i.mode, i.clock, k);
    }
  }

  lemma UnlistedKey(listed: seq<PeerInfo>, k: Key)
    requires k !in SnapshotKeys(listed)
    ensures forall p :: p in listed ==> p.key != k
  {
    assert forall p :: p in listed ==> p.key in SnapshotKeys(listed);
  }

  // ---------------------------------------------------------------- runs

  ghost predicate LimitedWorld(w: World) {
    w.up ==>
      && Limited(w.sys.mem) && Tracked(w.sys)
      && (w.pending.Some? && !w.sys.mem.failed ==> ListedRun(w.sys.mem, w.pending.value))
  }

  lemma AdmitKeepsListed(s: System, i: RegisterInput, credential: Credential, listed: seq<PeerInfo>)
    requires ListedRun(s.mem, listed) && !s.mem.failed
    requires i.peer in SnapshotKeys(listed) && i.peer in s.mem.runtime ==> Admit(s, i, credential).error != AddFailed
    ensures !Admit(s, i, credential).sys.mem.failed ==> ListedRun(Admit(s, i, credential).sys.mem, listed)
  {
    hide Admit, Written, OtherPeers, SnapshotKeys, QuotaFor, OverQuota, DiskOf, AddTo, RemoveFrom;
    var c := AdmitCases(s, i, credential);
    WrittenIdentity(s.mem, i.peer, credential, i.clock);
  }

  lemma RegisterKeepsListed(s: System, i: RegisterInput, listed: seq<PeerInfo>)
    requires !s.mem.failed ==> ListedRun(s.mem, listed)
    requires i.peer in SnapshotKeys(listed) && i.peer in s.mem.runtime ==> RegisterPeer(s, i).error != AddFailed
    ensures !RegisterPeer(s, i).sys.mem.failed ==> ListedRun(RegisterPeer(s, i).sys.mem, listed)
  {
    hide Admit, ListedRun, SnapshotKeys;
    var auth := Authorize(i.mode, i.request, i.validated, i.revoked);
    if !s.mem.failed && auth.error == NoError && CredentialMatches(i.mode, auth.credential) {
      AdmitKeepsListed(s, i, auth.credential, listed);
    }
  }

  lemma IssueKeepsListed(s: System, i: IssueInput, listed: seq<PeerInfo>)
    requires !s.mem.failed ==> ListedRun(s.mem, listed)
    ensures !IssueAuthKey(s, i).sys.mem.failed ==> ListedRun(IssueAuthKey(s, i).sys.mem, listed)
  {
    hide SnapshotKeys;
    IssueTouchesNoPeer(s, i);
    IssueKeepsLatch(s, i);
    hide IssueAuthKey;
  }

  lemma IssueKeepsLatch(s: System, i: IssueInput)
    ensures s.mem.failed ==> IssueAuthKey(s, i).sys.mem.failed
  {
  }

  lemma StepKeepsLimit(w: World, step: Step, zone: int)
    requires Healthy(w) && LimitedWorld(w) && Wired(w, step, zone) && !step.Restart? && !DropsListed(w, step)
    ensures LimitedWorld(Apply(w, step))
  {
    hide RegisterPeer, IssueAuthKey, Reconcile, Limited, ListedRun, Persistable, Loadable, Lists;
    match step
    case Register(i) =>
      if w.up {
        RegisterKeepsLimit(w.sys, i);
        if w.pending.Some? { RegisterKeepsListed(w.sys, i, w.pending.value); }
      }
    case Issue(i) =>
      if w.up {
        IssueKeepsLimit(w.sys, i);
        if w.pending.Some? { IssueKeepsListed(w.sys, i, w.pending.value); }
      }
    case Commit(i) =>
      if w.up && Structural(w.sys.mem) { ReconcileKeepsLimit(w.sys, i); }
    case TakeSnapshot(listed, _) =>
      SnapshotIsRunning(w.sys, listed);
    case Traffic(_, _, _) =>
    case ResetCounters(_) =>
  }

  lemma SnapshotIsRunning(s: System, listed: seq<PeerInfo>)
    requires Lists(listed, s.device)
    ensures Tracked(s) ==> ListedRun(s.mem, listed)
  {
    hide UniqueKeys;
  }

  // ---------------------------------------------------------------- restarts

  /** The peers of `o` that a restore of `m` brings back. */
  ghost function Returning(m: Memory, i: RestoreInput, o: Owner): set<Key>
    requires Structural(m)
  {
    set k | k in m.peers && OwnerOf(k, m.peers[k]) == o && MayReturn(m, k, i) && AddOutcomeOf(i, k).AddOk?
  }

  lemma RestoreKeepsOwner(s: System, i: RestoreInput, k: Key)
    requires Structural(s.mem) && !s.mem.failed
    ensures var r := RestorePeers(s, i).sys.mem;
      && r.peers.Keys == s.mem.peers.Keys
      && (k in s.mem.peers ==> OwnerOf(k, r.peers[k]) == OwnerOf(k, s.mem.peers[k]))
  {
    hide RestorePeers, Structural, RestoredDevice, Restored, DecideFor, RecentOwners, RestoreQuota;
    RestoreEnds(s, i);
  }

  /** After a restore the running peers of an owner are exactly those that ran and those that were
      brought back; restorePeers does not count, so from an empty server an issued key is within
      the limit if and only if at most three of its peers return. */
  lemma RestoreCountsExactly(s: System, i: RestoreInput, o: Owner)
    requires Structural(s.mem) && !s.mem.failed
    ensures ActivePeers(RestorePeers(s, i).sys.mem, o) == ActivePeers(s.mem, o) + Returning(s.mem, i, o)
  {
    hide RestorePeers, Structural, AddOutcomeOf, OwnerOf, MayReturn;
    var r := RestorePeers(s, i).sys.mem;
    forall k ensures k in ActivePeers(r, o) <==> k in ActivePeers(s.mem, o) + Returning(s.mem, i, o) {
      RestoreIsExact(s, i, k);
      RestoreKeepsOwner(s, i, k);
      RunningIsRecorded(s.mem, k);
      MayReturnIsRecorded(s.mem, k, i);
    }
  }

  lemma MayReturnIsRecorded(m: Memory, k: Key, i: RestoreInput)
    requires Structural(m)
    ensures MayReturn(m, k, i) ==> k in m.peers
  {
  }

  /** A restart that comes up brings back at most three peers of each issued key, and no device
      call that reported an error has added one. */
  ghost predicate RestartFits(w: World, step: Step) {
    step.Restart? ==>
      var loaded := Load(Booted(w), step.image, step.clock, step.save);
      loaded.error == NoError && Structural(loaded.sys.mem) ==> RestoreFits(loaded.sys.mem, step.restore)
  }

  ghost predicate RestoreFits(m: Memory, i: RestoreInput)
    requires Structural(m)
  {
    && (forall o :: IssuedOwner(o) ==> |Returning(m, i, o)| <= MAX_ACTIVE_PEERS)
    && (forall k :: MayReturn(m, k, i) ==> !AddOutcomeOf(i, k).AddFailedPartial?)
  }

  ghost predicate RestartsFit(w: World, steps: seq<Step>) {
    |steps| == 0 ||
    (RestartsFit(w, steps[..|steps| - 1]) && RestartFits(Run(w, steps[..|steps| - 1]), steps[|steps| - 1]))
  }

  /** From a server without sessions: within the limit exactly if no issued key gets back more. */
  lemma RestoreIsLimitedExactly(s: System, i: RestoreInput)
    requires Structural(s.mem) && !s.mem.failed && s.mem.runtime == map[]
    ensures Limited(RestorePeers(s, i).sys.mem) <==>
      forall o :: IssuedOwner(o) ==> |Returning(s.mem, i, o)| <= MAX_ACTIVE_PEERS
  {
    hide RestorePeers, Structural, IssuedOwner, Returning;
    forall o ensures ActivePeers(RestorePeers(s, i).sys.mem, o) == Returning(s.mem, i, o) {
      RestoreCountsExactly(s, i, o);
      assert ActivePeers(s.mem, o) == {};
    }
    hide ActivePeers;
  }

  lemma RestoreIsTracked(s: System, i: RestoreInput)
    requires Structural(s.mem) && !s.mem.failed && s.mem.runtime == map[] && s.device == map[]
    requires forall k :: MayReturn(s.mem, k, i) ==> !AddOutcomeOf(i, k).AddFailedPartial?
    ensures Tracked(RestorePeers(s, i).sys)
  {
    hide RestorePeers, Structural, MayReturn, AddOutcomeOf;
    forall k | k in RestorePeers(s, i).sys.device ensures k in RestorePeers(s, i).sys.mem.runtime {
      RestoreIsExact(s, i, k);
    }
  }

  lemma StartIsLimited(w: World, step: Step)
    requires step.Restart? && RestartFits(w, step)
    ensures LimitedWorld(Apply(w, step))
  {
    hide Load, RestorePeers, Structural, Limited, Tracked, MayReturn, AddOutcomeOf;
    var loaded := Load(Booted(w), step.image, step.clock, step.save);
    LoadedParts(Booted(w), step.image, step.clock, step.save);
    if loaded.error == NoError && Structural(loaded.sys.mem) {
      RestoreIsLimitedExactly(loaded.sys, step.restore);
      RestoreIsTracked(loaded.sys, step.restore);
    }
  }

  lemma LoadedParts(s: System, image: Option<Disk>, c: Clock, save: SaveOutcome)
    ensures var r := Load(s, image, c, save);
      && r.sys.mem.runtime == map[] && r.sys.device == s.device && (r.error == NoError ==> !r.sys.mem.failed)
  {
  }

  /** From a state within the limit, every run stays within it, with traffic, registrations and key
      requests between snapshots and their commits and with restarts, unless a registration of
      a listed running peer is taken back before the commit, or a restart brings back too many. */
  lemma {:induction false} PeerLimitHolds(w: World, steps: seq<Step>, zone: int)
    requires Healthy(w) && LimitedWorld(w) && WiredRun(w, steps, zone) && KeepsListed(w, steps) && RestartsFit(w, steps)
    ensures LimitedWorld(Run(w, steps))
  {
    hide Healthy, LimitedWorld, Apply, Wired, DropsListed, RestartFits;
    if |steps| > 0 {
      var before, step := Run(w, steps[..|steps| - 1]), steps[|steps| - 1];
      RunsStayHealthy(w, steps[..|steps| - 1], zone);
      PeerLimitHolds(w, steps[..|steps| - 1], zone);
      if step.Restart? {
        StartIsLimited(before, step);
      } else {
        StepKeepsLimit(before, step, zone);
      }
    }
  }
}
