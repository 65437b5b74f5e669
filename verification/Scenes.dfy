/** A small stage for concrete runs: a server whose peers all belong to one issued key, at one
    instant, and what single calls and restarts do to it. */
module Scenes {
  import opened Clocks
  import opened Records
  import opened Operations
  import opened Structure
  import opened Charging
  import opened Verdicts
  import opened Runs
  import opened WriteAhead
  import opened PeerLimit
  import opened FailClosed
  import opened Metering
  import opened SplitMetering
  import opened Terms
  import Reconciles

  const NOW := Clock(DAY, 0)
  const KEY := Credential(IssuedId(0), Digest(0))
  const OWNER := KeyOwner(Digest(0), IssuedId(0))

  /** A registration with the one key; the device call works or fails without effect. */
  function Join(k: Key, add: AddOutcome): Step {
    Register(RegisterInput(k, SecretMode(0), 0, Some(IssuedId(0)), Some({}), 0, NOW, SaveOk, add, RemoveOk, SaveOk))
  }

  /** A listed peer that has not completed a handshake, and one that has, from some endpoint. */
  function Silent(k: Key, rx: nat): PeerInfo {
    PeerInfo(k, rx, 0, ZERO_TIME, None)
  }

  function Connected(k: Key): PeerInfo {
    PeerInfo(k, 0, 0, DAY, Some(0))
  }

  function Reconciling(listed: seq<PeerInfo>): ReconcileInput {
    ReconcileInput(listed, SecretMode(0), Some({}), 0, NOW, SaveOk, map[])
  }

  function Restoring(revoked: Option<set<KeyID>>): RestoreInput {
    RestoreInput(SecretMode(0), revoked, 0, NOW, map[], SaveOk)
  }

  function Back(image: Option<Disk>, revoked: Option<set<KeyID>>): Step {
    Restart(image, NOW, SaveOk, Restoring(revoked))
  }

  ghost predicate Unblocked(quotas: map<Owner, QuotaRecord>) {
    forall o :: o in quotas ==> quotas[o].blockedUntil == ZERO_TIME
  }

  predicate Current(r: PeerRecord) {
    r.keyID == KEY.keyID && r.generation == KEY.generation && r.lastSeen == DAY
  }

  ghost predicate AllCurrent(peers: map<Key, PeerRecord>) {
    forall k :: k in peers ==> Current(peers[k])
  }

  /** Every image has the records in memory and no block. */
  ghost predicate Filed(images: set<Option<Disk>>, peers: map<Key, PeerRecord>) {
    forall image :: image in images ==>
      && image.Some? && image.value.peers == Some(peers)
      && image.value.quotas.Some? && Unblocked(image.value.quotas.value)
  }

  /** Which peers are recorded, running and on the device. */
  ghost predicate CalmSystem(s: System, recorded: set<Key>, running: set<Key>, device: set<Key>) {
    && !s.mem.failed && Unblocked(s.mem.quotas) && AllCurrent(s.mem.peers) && Filed(s.images, s.mem.peers)
    && s.mem.peers.Keys == recorded && s.mem.runtime.Keys == running && s.device.Keys == device
  }

  /** ... and which snapshot is pending. */
  ghost predicate Calm(w: World, recorded: set<Key>, running: set<Key>, device: set<Key>,
    pending: Option<seq<PeerInfo>>) {
    && w.up && w.time == DAY && w.pendingAt == DAY && w.pending == pending
    && CalmSystem(w.sys, recorded, running, device)
  }

  /** Every recorded peer has a recent endpoint. */
  ghost predicate Homed(peers: map<Key, PeerRecord>) {
    forall k :: k in peers ==> RecentEndpoint(peers[k], DAY)
  }

  lemma CalmKeys(s: System, recorded: set<Key>, running: set<Key>, device: set<Key>)
    requires CalmSystem(s, recorded, running, device)
    ensures !s.mem.failed && s.mem.peers.Keys == recorded && s.mem.runtime.Keys == running && s.device.Keys == device
    ensures Unblocked(s.mem.quotas) && AllCurrent(s.mem.peers) && Filed(s.images, s.mem.peers)
  {
  }

  lemma CalmWorld(w: World, recorded: set<Key>, running: set<Key>, device: set<Key>, pending: Option<seq<PeerInfo>>)
    requires Calm(w, recorded, running, device, pending)
    ensures w.up && w.time == DAY && w.pendingAt == DAY && w.pending == pending
    ensures CalmSystem(w.sys, recorded, running, device)
    ensures !w.sys.mem.failed && w.sys.mem.peers.Keys == recorded && w.sys.mem.runtime.Keys == running
    ensures w.sys.device.Keys == device && AllCurrent(w.sys.mem.peers)
  {
  }

  lemma FiledMemory(m: Memory, peers: map<Key, PeerRecord>)
    requires m.peers == peers && Unblocked(m.quotas)
    ensures Filed({Some(DiskOf(m))}, peers)
  {
    hide Unblocked;
  }

  // ---------------------------------------------------------------- registrations

  lemma UnblockedAccount(quotas: map<Owner, QuotaRecord>, o: Owner, c: Clock)
    requires Unblocked(quotas) && Sane(c)
    ensures AccountOf(quotas, o, c).blockedUntil == ZERO_TIME && WithinQuota(quotas, o, 0, c)
  {
  }

  lemma FewOthers(m: Memory, k: Key)
    requires |m.runtime.Keys - {k}| <= 2
    ensures |OtherPeers(m, OWNER, k)| < MAX_ACTIVE_PEERS
  {
    SmallerSet(OtherPeers(m, OWNER, k), m.runtime.Keys - {k});
  }

  lemma WrittenIsCalm(m: Memory, k: Key)
    requires Unblocked(m.quotas) && AllCurrent(m.peers)
    ensures var t := Written(m, k, KEY, NOW);
      && Unblocked(t.quotas) && t.peers.Keys == m.peers.Keys + {k} && AllCurrent(t.peers)
      && (forall j :: j in m.peers && j != k ==> t.peers[j] == m.peers[j])
  {
    UnblockedAccount(m.quotas, OWNER, NOW);
    hide AccountOf;
  }

  /** A registration that works adds the peer. */
  lemma JoinIsCalm(s: System, k: Key, recorded: set<Key>, running: set<Key>, device: set<Key>)
    requires CalmSystem(s, recorded, running, device) && |running - {k}| <= 2
    ensures var t := RegisterPeer(s, Join(k, AddOk).register).sys;
      && CalmSystem(t, recorded + {k}, running + {k}, device + {k})
      && t.mem.runtime == Touch(s.mem.runtime, k, DAY) && t.device == AddTo(s.device, k, AddOk)
      && (forall j :: j in s.mem.peers && j != k ==> j in t.mem.peers && t.mem.peers[j] == s.mem.peers[j])
  {
    hide RegisterPeer, Written, Unblocked, AddTo, Touch, AllCurrent, Filed, DiskOf;
    JoinOutcome(s, k);
    WrittenIsCalm(s.mem, k);
    FiledMemory(Written(s.mem, k, KEY, NOW), Written(s.mem, k, KEY, NOW).peers);
    AddedKeys(s.device, s.mem.runtime, k);
  }

  lemma JoinOutcome(s: System, k: Key)
    requires !s.mem.failed && Unblocked(s.mem.quotas) && |s.mem.runtime.Keys - {k}| <= 2
    ensures var t := RegisterPeer(s, Join(k, AddOk).register).sys;
      && t.mem == Written(s.mem, k, KEY, NOW).(runtime := Touch(s.mem.runtime, k, DAY)) && !t.mem.failed
      && t.device == AddTo(s.device, k, AddOk) && t.images == {Some(DiskOf(Written(s.mem, k, KEY, NOW)))}
  {
    hide Admit, OtherPeers, AccountOf, WithinQuota, DiskOf, Unblocked, AddTo, Touch;
    UnblockedAccount(s.mem.quotas, OWNER, NOW);
    FewOthers(s.mem, k);
    assert !Written(s.mem, k, KEY, NOW).failed;
    hide Written;
    var c := AdmitCases(s, Join(k, AddOk).register, KEY);
  }

  lemma AddedKeys(device: map<Key, Counters>, runtime: map<Key, Runtime>, k: Key)
    ensures AddTo(device, k, AddOk).Keys == device.Keys + {k} && Touch(runtime, k, DAY).Keys == runtime.Keys + {k}
  {
  }

  /** A registration whose device call fails is taken back. */
  lemma FailedJoinIsCalm(s: System, k: Key, recorded: set<Key>, running: set<Key>, device: set<Key>)
    requires CalmSystem(s, recorded, running, device) && |running - {k}| <= 2
    ensures var r := RegisterPeer(s, Join(k, AddFailedClean).register);
      && r.error == AddFailed && CalmSystem(r.sys, recorded, running - {k}, device - {k})
      && r.sys.mem.peers == s.mem.peers && r.sys.mem.runtime == s.mem.runtime - {k}
  {
    hide Admit, Written, OtherPeers, AccountOf, WithinQuota, DiskOf, AddTo, RemoveFrom, Unblocked, AllCurrent, Filed;
    var i := Join(k, AddFailedClean).register;
    UnblockedAccount(s.mem.quotas, OWNER, NOW);
    FewOthers(s.mem, k);
    var c := AdmitCases(s, i, KEY);
    UndoneDevice(s.device, k, AddFailedClean);
    FiledMemory(s.mem, s.mem.peers);
  }

  // ---------------------------------------------------------------- commits

  lemma {:induction false} ChargingUnblocked(m: Memory, s: seq<PeerInfo>, mode: Mode, c: Clock)
    requires Structural(m) && Unblocked(m.quotas) && Sane(c)
    ensures Unblocked(ChargeAll(m, s, mode, c).quotas)
  {
    hide Structural, AccountOf, Observed;
    if |s| > 0 {
      var n := |s| - 1;
      ChargingUnblocked(m, s[..n], mode, c);
      var before := ChargeAll(m, s[..n], mode, c);
      UnblockedAccount(before.quotas, OwnerOf(s[n].key, KnownRecord(before, s[n].key, c.now)), c);
    }
  }

  lemma ReconciledUnblocked(m: Memory, i: ReconcileInput)
    requires Structural(m) && Unblocked(m.quotas) && Sane(i.clock) && i.limit == 0
    ensures Unblocked(Reconciled(m, i).quotas)
  {
    hide Structural, ChargeAll, RejectedKeys, SnapshotKeys, SnapshotOwners, Referenced;
    ChargingUnblocked(m, i.snapshot, i.mode, i.clock);
  }

  /** The listed peers of a calm server, none of which was added before this instant. */
  ghost predicate FreshlyListed(m: Memory, listed: seq<PeerInfo>) {
    && UniqueKeys(listed)
    && (forall p :: p in listed ==> p.key in m.peers && (p.handshake == ZERO_TIME || p.handshake == DAY))
    && (forall p :: p in listed && p.key in m.runtime ==> m.runtime[p.key].addedAt == DAY)
  }

  /** Such a peer stays. */
  lemma ListedStays(m: Memory, i: ReconcileInput, p: PeerInfo)
    requires Structural(m) && Unblocked(m.quotas) && AllCurrent(m.peers) && FreshlyListed(m, i.snapshot)
    requires i == Reconciling(i.snapshot) && p in i.snapshot
    ensures p.key !in RemovedKeys(m, i)
  {
    hide Structural, UniqueKeys, RemovedKeys, UsageAfter, AccountOf;
    RemovedExactly(m, i, p);
    UnblockedAccount(m.quotas, OwnerOf(p.key, m.peers[p.key]), NOW);
  }

  lemma NothingRemoved(m: Memory, i: ReconcileInput)
    requires Structural(m) && Unblocked(m.quotas) && AllCurrent(m.peers) && FreshlyListed(m, i.snapshot)
    requires i == Reconciling(i.snapshot)
    ensures RemovedKeys(m, i) == {}
  {
    hide Structural, RemovedKeys, Unblocked, AllCurrent, FreshlyListed;
    forall k | k in RemovedKeys(m, i) ensures false {
      RemovedAreListed(m, i, k);
      var p :| p in i.snapshot && p.key == k;
      ListedStays(m, i, p);
    }
  }

  lemma ReconciledRecord(m: Memory, i: ReconcileInput, k: Key)
    requires Structural(m) && RemovedKeys(m, i) == {} && k in Reconciled(m, i).peers
    ensures var charged := ChargeAll(m, i.snapshot, i.mode, i.clock);
      k in charged.peers && Reconciled(m, i).peers[k] == charged.peers[k]
  {
    hide Structural, ChargeAll, RejectedKeys, UnknownKeys, SnapshotKeys, SnapshotOwners, Referenced, Retained;
  }

  lemma ReconciledKeys(m: Memory, i: ReconcileInput, k: Key)
    requires Structural(m) && i == Reconciling(i.snapshot) && FreshlyListed(m, i.snapshot) && AllCurrent(m.peers)
    ensures k in Reconciled(m, i).peers <==> k in m.peers
    ensures k in Reconciled(m, i).runtime <==> k in m.runtime || k in SnapshotKeys(i.snapshot)
  {
    hide Structural, Reconciled, UniqueKeys;
    ReconciledPeer(m, i, k);
    if k in m.peers {
      ReconciledKeepsKey(m, i, k, DAY);
    }
    RunningIsRecorded(m, k);
    if k in SnapshotKeys(i.snapshot) {
      var p :| p in i.snapshot && p.key == k;
    }
  }

  /** What a commit leaves of one record. */
  lemma ReconciledIsCurrent(m: Memory, i: ReconcileInput, k: Key)
    requires Structural(m) && i == Reconciling(i.snapshot) && FreshlyListed(m, i.snapshot) && AllCurrent(m.peers)
    requires RemovedKeys(m, i) == {} && k in m.peers && k in Reconciled(m, i).peers
    ensures Current(Reconciled(m, i).peers[k])
    ensures k !in SnapshotKeys(i.snapshot) ==> Reconciled(m, i).peers[k] == m.peers[k]
    ensures Connected(k) in i.snapshot ==> RecentEndpoint(Reconciled(m, i).peers[k], DAY)
  {
    hide Structural, Reconciled, RemovedKeys, UniqueKeys, ChargeAll;
    ReconciledRecord(m, i, k);
    if k in SnapshotKeys(i.snapshot) {
      forall p | p in i.snapshot && p.key == k
        ensures Reconciled(m, i).peers[k] == Observed(m.peers[k], p, RuntimeOf(m, k, DAY).addedAt, DAY)
      {
        Reconciles.ChargedRecord(m, i.snapshot, i.mode, i.clock, p);
      }
    } else {
      UnlistedKey(i.snapshot, k);
      ChargeLeavesOthers(m, i.snapshot, i.mode, i.clock, k);
    }
  }

  lemma CommitIsCalm(s: System, listed: seq<PeerInfo>, recorded: set<Key>, running: set<Key>, device: set<Key>)
    requires Structural(s.mem) && CalmSystem(s, recorded, running, device) && FreshlyListed(s.mem, listed)
    ensures var t := Reconcile(s, Reconciling(listed)).sys;
      && CalmSystem(t, recorded, running + SnapshotKeys(listed), device)
      && t.device == s.device && t.mem.runtime == Reconciled(s.mem, Reconciling(listed)).runtime
      && (forall k :: k in recorded && k !in SnapshotKeys(listed) ==> t.mem.peers[k] == s.mem.peers[k])
      && (forall k :: k in recorded && Connected(k) in listed ==> RecentEndpoint(t.mem.peers[k], DAY))
  {
    hide Structural, Reconcile, Reconciled, RemovedKeys, SnapshotKeys, Unblocked, Current, FreshlyListed, Filed, DiskOf,
      RecentEndpoint;
    var i, m := Reconciling(listed), s.mem;
    NothingRemoved(m, i);
    ReconciledUnblocked(m, i);
    ReconcileWithoutRemovals(s, i);
    FiledMemory(Reconciled(m, i), Reconciled(m, i).peers);
    forall k
      ensures k in Reconciled(m, i).peers <==> k in m.peers
      ensures k in Reconciled(m, i).runtime <==> k in m.runtime || k in SnapshotKeys(listed)
    {
      ReconciledKeys(m, i, k);
    }
    forall k | k in m.peers
      ensures Current(Reconciled(m, i).peers[k])
      ensures k !in SnapshotKeys(i.snapshot) ==> Reconciled(m, i).peers[k] == m.peers[k]
      ensures Connected(k) in i.snapshot ==> RecentEndpoint(Reconciled(m, i).peers[k], DAY)
    {
      ReconciledIsCurrent(m, i, k);
    }
  }

  lemma ReconcileWithoutRemovals(s: System, i: ReconcileInput)
    requires Structural(s.mem) && !s.mem.failed && i.save.SaveOk? && RemovedKeys(s.mem, i) == {}
    ensures Reconcile(s, i).sys.mem == Reconciled(s.mem, i) && Reconcile(s, i).sys.device == s.device
    ensures Reconcile(s, i).sys.images == {Some(DiskOf(Reconciled(s.mem, i)))}
    ensures !Reconciled(s.mem, i).failed
  {
    hide Structural, Reconciled, RemovedKeys, RemoveAll;
    ReconciledKeepsLatch(s.mem, i);
    RemovingNothing(Persist(s.(mem := Reconciled(s.mem, i)), i.save), i);
  }

  lemma RemovingNothing(s: System, i: ReconcileInput)
    ensures RemoveAll(s, {}, i) == s
  {
    var t := RemoveAll(s, {}, i);
    assert t.device == s.device && t.mem.runtime == s.mem.runtime;
  }

  // ---------------------------------------------------------------- restarts

  /** With every endpoint recent, a restore forgets nothing, and brings back every peer if the
      revocations can be read and none if they cannot. */
  lemma RestoreIsCalm(s: System, revoked: Option<set<KeyID>>, recorded: set<Key>)
    requires Structural(s.mem) && CalmSystem(s, recorded, {}, {}) && Homed(s.mem.peers)
    requires revoked == None || revoked == Some({})
    ensures var r, back := RestorePeers(s, Restoring(revoked)), if revoked.Some? then recorded else {};
      r.error == NoError && CalmSystem(r.sys, recorded, back, back) && r.sys.mem.peers == s.mem.peers
  {
    hide Structural, RestorePeers, RestoredMemory, RestoredDevice, RestoreChanges, Unblocked, RecentEndpoint, Filed,
      Current,
      DecideFor, MayReturn, AddOutcomeOf;
    var i := Restoring(revoked);
    forall k | k in s.mem.peers
      ensures DecideFor(s.mem, k, i) == if revoked.Some? then Attempt else Keep
      ensures RestoredRecord(s.mem, k, i) == s.mem.peers[k]
      ensures MayReturn(s.mem, k, i) <==> revoked.Some?
    {
      CalmDecision(s.mem, k, revoked);
    }
    QuietRestore(s, i);
    forall k
      ensures k in RestorePeers(s, i).sys.device <==> k in recorded && revoked.Some?
      ensures k in RestorePeers(s, i).sys.mem.runtime <==> k in recorded && revoked.Some?
    {
      RestoreIsExact(s, i, k);
      NoOutcomes(s.mem, i, k);
    }
  }

  lemma NoOutcomes(m: Memory, i: RestoreInput, k: Key)
    requires Structural(m) && i.adds == map[]
    ensures AddOutcomeOf(i, k).AddOk? && (MayReturn(m, k, i) ==> k in m.peers)
  {
  }

  lemma CalmDecision(m: Memory, k: Key, revoked: Option<set<KeyID>>)
    requires Structural(m) && Unblocked(m.quotas) && AllCurrent(m.peers) && Homed(m.peers) && k in m.peers
    requires revoked == None || revoked == Some({})
    ensures var i := Restoring(revoked);
      && DecideFor(m, k, i) == (if revoked.Some? then Attempt else Keep)
      && RestoredRecord(m, k, i) == m.peers[k]
      && (MayReturn(m, k, i) <==> revoked.Some?)
  {
    hide RecentEndpoint;
    AttemptIsPermitted(m, k, Restoring(revoked));
    assert OwnerOf(k, m.peers[k]) in m.quotas;
    hide Structural, MayReturn;
  }

  lemma QuietRestore(s: System, i: RestoreInput)
    requires Structural(s.mem) && !s.mem.failed && Unblocked(s.mem.quotas) && i.limit == 0 && i.clock == NOW
    requires forall k :: k in s.mem.peers ==> RestoredRecord(s.mem, k, i) == s.mem.peers[k]
    ensures var r := RestorePeers(s, i);
      && r.error == NoError && r.sys.mem.peers == s.mem.peers && r.sys.images == s.images
      && !r.sys.mem.failed && Unblocked(r.sys.mem.quotas)
  {
    hide Structural, RestoredRecord, Restored, RestoredDevice, RecentOwners;
    assert forall o :: o in s.mem.quotas ==> !NewlyBlocked(s.mem.quotas[o], i);
    assert RestoredMemory(s.mem, i).peers == s.mem.peers;
  }

  lemma LoadIsCalm(s: System, image: Disk, peers: map<Key, PeerRecord>)
    requires Loadable(image) && image.peers == Some(peers) && Unblocked(image.quotas.value) && AllCurrent(peers)
    requires s.device == map[]
    ensures var r := Load(s, Some(image), NOW, SaveOk);
      && r.error == NoError && Structural(r.sys.mem)
      && CalmSystem(r.sys, peers.Keys, {}, {}) && r.sys.mem.peers == peers
  {
    LoadEstablishesSound(s, Some(image), NOW, SaveOk);
    var m := RollWindow(Recall(Some(image), s.mem.window, NOW), DAY, DAY);
    assert Unblocked(m.quotas) by { hide Loadable; }
    FiledMemory(m, peers);
    hide Loadable, Filed, AllCurrent, Unblocked, RollWindow, Recall, Sound;
    assert Load(s, Some(image), NOW, SaveOk).sys == System(m, {Some(DiskOf(m))}, map[]);
    assert m.peers == peers && m.runtime == map[] && !m.failed by { RecalledParts(s, image); }
  }

  lemma RecalledParts(s: System, image: Disk)
    requires Loadable(image)
    ensures var m := RollWindow(Recall(Some(image), s.mem.window, NOW), DAY, DAY);
      m.peers == image.peers.value && m.runtime == map[] && !m.failed
  {
  }

  lemma RestartIsCalm(w: World, image: Option<Disk>, revoked: Option<set<KeyID>>, recorded: set<Key>, running: set<Key>,
    device: set<Key>, pending: Option<seq<PeerInfo>>)
    requires Healthy(w) && Calm(w, recorded, running, device, pending) && Homed(w.sys.mem.peers)
    requires image in w.sys.images && (revoked == None || revoked == Some({}))
    ensures Wired(w, Back(image, revoked), 0) && Timely(w, Back(image, revoked))
    ensures var t, back := Apply(w, Back(image, revoked)), if revoked.Some? then recorded else {};
      Calm(t, recorded, back, back, None) && t.sys.mem.peers == w.sys.mem.peers
  {
    hide Load, RestorePeers, Structural, Loadable, Sound, Unblocked, AllCurrent, Homed, CalmSystem;
    CalmKeys(w.sys, recorded, running, device);
    assert image.Some? && Loadable(image.value);
    LoadIsCalm(Booted(w), image.value, w.sys.mem.peers);
    var loaded := Load(Booted(w), image, NOW, SaveOk);
    RestoreIsCalm(loaded.sys, revoked, recorded);
  }

  // ---------------------------------------------------------------- runs

  /** A run of one zone leads to `w`, with these bytes charged and sent. */
  ghost predicate Reaches(steps: seq<Step>, w: World, charged: nat, flowed: nat) {
    && WiredRun(NEW_SERVER, steps, 0) && TimelyRun(NEW_SERVER, steps) && Run(NEW_SERVER, steps) == w
    && Total(Charges(NEW_SERVER, steps)) == charged && Total(Flowed(NEW_SERVER, steps)) == flowed
  }

  lemma ReachesNext(steps: seq<Step>, w: World, charged: nat, flowed: nat, step: Step)
    requires Reaches(steps, w, charged, flowed) && Wired(w, step, 0) && Timely(w, step)
    ensures Reaches(steps + [step], Apply(w, step), charged + Total(StepCharges(w, step)),
      flowed + Total(StepTraffic(w, step)))
  {
    hide Apply, Wired, Timely, StepCharges, StepTraffic, Run, WiredRun, TimelyRun, Charges, Flowed, Total;
    RunGrows(NEW_SERVER, steps, step);
    LedgerGrows(NEW_SERVER, steps, step);
    TotalAppends(Charges(NEW_SERVER, steps), StepCharges(w, step));
    TotalAppends(Flowed(NEW_SERVER, steps), StepTraffic(w, step));
  }

  lemma ReachedIsHealthy(steps: seq<Step>, w: World, charged: nat, flowed: nat)
    requires Reaches(steps, w, charged, flowed)
    ensures Healthy(w)
  {
    hide Run, WiredRun, TimelyRun, Charges, Flowed, Apply, Total, Healthy;
    FirstStartOutcome(OpenMode);
    FreshIsHealthy(NEW_SERVER);
    RunsStayHealthy(NEW_SERVER, steps, 0);
  }

  lemma ReachedIsStructural(steps: seq<Step>, w: World, charged: nat, flowed: nat)
    requires Reaches(steps, w, charged, flowed)
    ensures w.up ==> Structural(w.sys.mem)
  {
    hide Reaches, Loadable;
    ReachedIsHealthy(steps, w, charged, flowed);
  }

  lemma StartRun() returns (steps: seq<Step>, w: World)
    ensures Reaches(steps, w, 0, 0) && Calm(w, {}, {}, {}, None)
    ensures w.sys.mem.runtime == map[] && w.sys.device == map[]
  {
    steps := [] + [FirstStart(SecretMode(0))];
    w := Apply(NEW_SERVER, FirstStart(SecretMode(0)));
    FirstStartOutcome(SecretMode(0));
    assert Reaches([], NEW_SERVER, 0, 0);
    ReachesNext([], NEW_SERVER, 0, 0, FirstStart(SecretMode(0)));
    hide Reaches;
  }

  /** A registration charges nothing and sends nothing. */
  lemma JoinReaches(steps: seq<Step>, w: World, charged: nat, flowed: nat, k: Key, add: AddOutcome)
    requires Reaches(steps, w, charged, flowed) && w.time == DAY
    ensures Reaches(steps + [Join(k, add)], Apply(w, Join(k, add)), charged, flowed)
  {
    hide Reaches, Apply;
    ReachesNext(steps, w, charged, flowed, Join(k, add));
  }

  lemma JoinCalms(w: World, k: Key, recorded: set<Key>, running: set<Key>, device: set<Key>,
    pending: Option<seq<PeerInfo>>)
    requires Calm(w, recorded, running, device, pending) && |running - {k}| <= 2
    ensures var t := Apply(w, Join(k, AddOk));
      && Calm(t, recorded + {k}, running + {k}, device + {k}, pending)
      && t.sys.mem.runtime == Touch(w.sys.mem.runtime, k, DAY) && t.sys.device == AddTo(w.sys.device, k, AddOk)
      && (forall j :: j in w.sys.mem.peers && j != k ==>
        j in t.sys.mem.peers && t.sys.mem.peers[j] == w.sys.mem.peers[j])
  {
    hide RegisterPeer, CalmSystem, AddTo, Touch;
    JoinIsCalm(w.sys, k, recorded, running, device);
  }

  lemma JoinRun(steps: seq<Step>, w: World, charged: nat, flowed: nat, k: Key, recorded: set<Key>, running: set<Key>,
    device: set<Key>, pending: Option<seq<PeerInfo>>) returns (t: World)
    requires Reaches(steps, w, charged, flowed)
    requires Calm(w, recorded, running, device, pending) && |running - {k}| <= 2
    ensures Reaches(steps + [Join(k, AddOk)], t, charged, flowed)
    ensures Calm(t, recorded + {k}, running + {k}, device + {k}, pending)
    ensures t.sys.mem.runtime == Touch(w.sys.mem.runtime, k, DAY) && t.sys.device == AddTo(w.sys.device, k, AddOk)
    ensures forall j :: j in w.sys.mem.peers && j != k ==>
      j in t.sys.mem.peers && t.sys.mem.peers[j] == w.sys.mem.peers[j]
  {
    hide *;
    t := Apply(w, Join(k, AddOk));
    CalmWorld(w, recorded, running, device, pending);
    JoinReaches(steps, w, charged, flowed, k, AddOk);
    JoinCalms(w, k, recorded, running, device, pending);
  }

  lemma FailedJoinCalms(w: World, k: Key, recorded: set<Key>, running: set<Key>, device: set<Key>,
    pending: Option<seq<PeerInfo>>)
    requires Calm(w, recorded, running, device, pending) && |running - {k}| <= 2
    ensures var t := Apply(w, Join(k, AddFailedClean));
      && Calm(t, recorded, running - {k}, device - {k}, pending)
      && t.sys.mem.peers == w.sys.mem.peers && t.sys.mem.runtime == w.sys.mem.runtime - {k}
  {
    hide RegisterPeer, CalmSystem;
    FailedJoinIsCalm(w.sys, k, recorded, running, device);
  }

  lemma FailedJoinRun(steps: seq<Step>, w: World, charged: nat, flowed: nat, k: Key, recorded: set<Key>,
    running: set<Key>, device: set<Key>, pending: Option<seq<PeerInfo>>) returns (t: World)
    requires Reaches(steps, w, charged, flowed)
    requires Calm(w, recorded, running, device, pending) && |running - {k}| <= 2
    ensures Reaches(steps + [Join(k, AddFailedClean)], t, charged, flowed)
    ensures Calm(t, recorded, running - {k}, device - {k}, pending)
    ensures t.sys.mem.peers == w.sys.mem.peers && t.sys.mem.runtime == w.sys.mem.runtime - {k}
  {
    hide *;
    t := Apply(w, Join(k, AddFailedClean));
    CalmWorld(w, recorded, running, device, pending);
    JoinReaches(steps, w, charged, flowed, k, AddFailedClean);
    FailedJoinCalms(w, k, recorded, running, device, pending);
  }

  lemma TrafficRun(steps: seq<Step>, w: World, charged: nat, flowed: nat, k: Key, rx: nat, recorded: set<Key>,
    running: set<Key>, device: set<Key>, pending: Option<seq<PeerInfo>>) returns (t: World)
    requires Reaches(steps, w, charged, flowed) && Calm(w, recorded, running, device, pending) && k in w.sys.device
    ensures Reaches(steps + [Traffic(k, rx, 0)], t, charged, flowed + rx)
    ensures Calm(t, recorded, running, device, pending) && t.sys.mem == w.sys.mem
    ensures t.sys.device == w.sys.device[k := Counters(w.sys.device[k].rx + rx, w.sys.device[k].tx)]
  {
    hide Reaches, Unblocked, AllCurrent, Filed;
    t := Apply(w, Traffic(k, rx, 0));
    assert t.sys.device.Keys == device;
    assert Total([Entry(k, EmptyOwner, rx)]) == rx;
    ReachesNext(steps, w, charged, flowed, Traffic(k, rx, 0));
  }

  lemma SnapshotRun(steps: seq<Step>, w: World, charged: nat, flowed: nat, listed: seq<PeerInfo>, recorded: set<Key>,
    running: set<Key>, device: set<Key>, pending: Option<seq<PeerInfo>>) returns (t: World)
    requires Reaches(steps, w, charged, flowed) && Calm(w, recorded, running, device, pending)
    requires Lists(listed, w.sys.device)
    ensures Reaches(steps + [TakeSnapshot(listed, DAY)], t, charged, flowed)
    ensures Calm(t, recorded, running, device, Some(listed)) && t.sys == w.sys
  {
    hide Reaches, CalmSystem, Lists;
    t := Apply(w, TakeSnapshot(listed, DAY));
    ReachesNext(steps, w, charged, flowed, TakeSnapshot(listed, DAY));
  }

  lemma CommitCalms(w: World, listed: seq<PeerInfo>, recorded: set<Key>, running: set<Key>, device: set<Key>)
    requires Structural(w.sys.mem) && Calm(w, recorded, running, device, Some(listed))
    requires FreshlyListed(w.sys.mem, listed)
    ensures var t := Apply(w, Commit(Reconciling(listed)));
      && Calm(t, recorded, running + SnapshotKeys(listed), device, None) && t.sys.device == w.sys.device
      && t.sys.mem.peers.Keys == recorded
      && t.sys.mem.runtime == Reconciled(w.sys.mem, Reconciling(listed)).runtime
      && (forall k :: k in recorded && k !in SnapshotKeys(listed) ==>
        k in w.sys.mem.peers && t.sys.mem.peers[k] == w.sys.mem.peers[k])
      && (forall k :: k in recorded && Connected(k) in listed ==> RecentEndpoint(t.sys.mem.peers[k], DAY))
  {
    hide Structural, Reconcile, Reconciled, CalmSystem, FreshlyListed, SnapshotKeys, RecentEndpoint;
    CalmKeys(w.sys, recorded, running, device);
    CommitIsCalm(w.sys, listed, recorded, running, device);
    CalmKeys(Apply(w, Commit(Reconciling(listed))).sys, recorded, running + SnapshotKeys(listed), device);
  }

  lemma CommitReaches(steps: seq<Step>, w: World, charged: nat, flowed: nat, listed: seq<PeerInfo>)
    requires Reaches(steps, w, charged, flowed) && w.up && w.time == DAY && w.pendingAt == DAY
    requires w.pending == Some(listed) && !w.sys.mem.failed
    ensures Structural(w.sys.mem)
    ensures Reaches(steps + [Commit(Reconciling(listed))], Apply(w, Commit(Reconciling(listed))),
      charged + Total(Entries(w.sys.mem, listed, SecretMode(0), DAY)), flowed)
  {
    hide Reaches, Structural, Apply, Entries;
    ReachedIsStructural(steps, w, charged, flowed);
    var step := Commit(Reconciling(listed));
    ReachesNext(steps, w, charged, flowed, step);
    assert Commits(w, step);
  }

  lemma CommitRun(steps: seq<Step>, w: World, charged: nat, flowed: nat, listed: seq<PeerInfo>, recorded: set<Key>,
    running: set<Key>, device: set<Key>) returns (t: World)
    requires Reaches(steps, w, charged, flowed) && Calm(w, recorded, running, device, Some(listed))
    requires FreshlyListed(w.sys.mem, listed)
    ensures Reaches(steps + [Commit(Reconciling(listed))], t,
      charged + Total(Entries(w.sys.mem, listed, SecretMode(0), DAY)), flowed)
    ensures Calm(t, recorded, running + SnapshotKeys(listed), device, None) && t.sys.device == w.sys.device
    ensures t.sys.mem.peers.Keys == recorded && w.sys.mem.peers.Keys == recorded
    ensures forall k :: k in recorded && k !in SnapshotKeys(listed) ==> t.sys.mem.peers[k] == w.sys.mem.peers[k]
    ensures forall k :: k in recorded && Connected(k) in listed ==> RecentEndpoint(t.sys.mem.peers[k], DAY)
  {
    hide *;
    CalmWorld(w, recorded, running, device, Some(listed));
    CommitReaches(steps, w, charged, flowed, listed);
    CommitCalms(w, listed, recorded, running, device);
    t := Apply(w, Commit(Reconciling(listed)));
  }

  lemma RestartRun(steps: seq<Step>, w: World, charged: nat, flowed: nat, revoked: Option<set<KeyID>>,
    recorded: set<Key>, running: set<Key>, device: set<Key>, pending: Option<seq<PeerInfo>>)
    returns (later: seq<Step>, t: World)
    requires Reaches(steps, w, charged, flowed) && Calm(w, recorded, running, device, pending)
    requires Homed(w.sys.mem.peers) && (revoked == None || revoked == Some({}))
    ensures Reaches(later, t, charged, flowed) && t.sys.mem.peers == w.sys.mem.peers
    ensures var back := if revoked.Some? then recorded else {}; Calm(t, recorded, back, back, None)
  {
    hide *;
    ReachedIsHealthy(steps, w, charged, flowed);
    var image := SomeImage(w);
    var step := Back(image, revoked);
    RestartIsCalm(w, image, revoked, recorded, running, device, pending);
    RestartReaches(steps, w, charged, flowed, image, revoked);
    later, t := steps + [step], Apply(w, step);
  }

  lemma SomeImage(w: World) returns (image: Option<Disk>)
    requires Healthy(w)
    ensures image in w.sys.images
  {
    hide Sound, Loadable;
    image :| image in w.sys.images;
  }

  lemma RestartReaches(steps: seq<Step>, w: World, charged: nat, flowed: nat, image: Option<Disk>,
    revoked: Option<set<KeyID>>)
    requires Reaches(steps, w, charged, flowed)
    requires Wired(w, Back(image, revoked), 0) && Timely(w, Back(image, revoked))
    ensures Reaches(steps + [Back(image, revoked)], Apply(w, Back(image, revoked)), charged, flowed)
  {
    hide Reaches, Apply, Wired, Timely;
    ReachesNext(steps, w, charged, flowed, Back(image, revoked));
  }
}
