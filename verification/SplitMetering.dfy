/** Charges against traffic when a reconcile is split: anything may happen between a snapshot and
    its commit, except that the registration of a listed peer with charged bytes is taken back.
    That exception is exact: then, and only then, a commit charges more than is due. */
module SplitMetering {
  import opened Clocks
  import opened Records
  import opened Operations
  import opened Structure
  import opened Charging
  import opened Runs
  import opened WriteAhead
  import opened PeerLimit
  import opened Metering
  import Reconciles

  /** What a commit of the listed counters would charge. */
  function ListedBytes(m: Memory, p: PeerInfo): int {
    Delta(p.rx, LastRx(m, p.key)) + Delta(p.tx, LastTx(m, p.key))
  }

  /** What the next observation after that commit would charge. */
  function LaterBytes(device: map<Key, Counters>, p: PeerInfo): int {
    if p.key in device then Delta(device[p.key].rx, p.rx) + Delta(device[p.key].tx, p.tx) else 0
  }

  ghost predicate ListedMetered(s: System, p: PeerInfo, charged: seq<Entry>, flowed: seq<Entry>) {
    && 0 <= p.rx && 0 <= p.tx
    && ByKey(charged, p.key) + ListedBytes(s.mem, p) + LaterBytes(s.device, p) <= ByKey(flowed, p.key)
  }

  /** A pending snapshot, unless a latched error keeps it from ever being committed, lists
      counters that the traffic covers. */
  ghost predicate PendingMetered(w: World, charged: seq<Entry>, flowed: seq<Entry>) {
    w.up && w.pending.Some? && !w.sys.mem.failed ==>
      && UniqueKeys(w.pending.value)
      && forall p :: p in w.pending.value ==> ListedMetered(w.sys, p, charged, flowed)
  }

  ghost predicate DropsCharged(w: World, step: Step) {
    DropsListed(w, step) && LastObserved(w.sys.mem, step.register.peer) > 0
  }

  ghost predicate KeepsCharged(w: World, steps: seq<Step>) {
    |steps| == 0 ||
    (KeepsCharged(w, steps[..|steps| - 1]) && !DropsCharged(Run(w, steps[..|steps| - 1]), steps[|steps| - 1]))
  }

  // ---------------------------------------------------------------- steps other than commits

  /** The listed peer's baseline and device counters go on, or its counters start afresh. */
  ghost predicate ListedKept(s: System, t: System, p: PeerInfo) {
    && LastRx(t.mem, p.key) == LastRx(s.mem, p.key) && LastTx(t.mem, p.key) == LastTx(s.mem, p.key)
    && (p.key in t.device ==>
      (p.key in s.device && t.device[p.key] == s.device[p.key]) || t.device[p.key] == Counters(0, 0))
  }

  lemma KeptListedStaysMetered(s: System, t: System, p: PeerInfo, charged: seq<Entry>, flowed: seq<Entry>)
    requires ListedMetered(s, p, charged, flowed) && ListedKept(s, t, p) && NonNegative(s)
    ensures ListedMetered(t, p, charged, flowed)
  {
    hide ByKey;
    assert 0 <= LaterBytes(s.device, p);
  }

  lemma AdmissionKeepsListedSession(s: System, i: RegisterInput, credential: Credential, p: PeerInfo)
    requires NonNegative(s) && !s.mem.failed && !Admit(s, i, credential).sys.mem.failed
    requires p.key == i.peer && LastObserved(s.mem, p.key) > 0 ==> Admit(s, i, credential).error != AddFailed
    ensures ListedKept(s, Admit(s, i, credential).sys, p)
  {
    hide Admit, Written, OtherPeers, QuotaFor, OverQuota, DiskOf, AddTo, RemoveFrom;
    var c := AdmitCases(s, i, credential);
    var t := Admit(s, i, credential).sys;
    if c.Started? {
      TouchedDevice(s, i, t.device, p.key);
      TouchKeepsBaseline(s.mem, t.mem, i.peer, i.clock.now, p.key);
    } else if c.Undone? {
      UndoneDevice(s.device, i.peer, i.add);
    }
  }

  lemma TouchKeepsBaseline(m: Memory, n: Memory, peer: Key, now: Time, k: Key)
    requires n.runtime == Touch(m.runtime, peer, now)
    ensures LastRx(n, k) == LastRx(m, k) && LastTx(n, k) == LastTx(m, k)
  {
  }

  lemma UndoneDevice(device: map<Key, Counters>, k: Key, add: AddOutcome)
    ensures RemoveFrom(AddTo(device, k, add), k, RemoveOk) == device - {k}
  {
  }

  lemma RegistrationKeepsListedSession(s: System, i: RegisterInput, p: PeerInfo)
    requires NonNegative(s) && !RegisterPeer(s, i).sys.mem.failed
    requires p.key == i.peer && LastObserved(s.mem, p.key) > 0 ==> RegisterPeer(s, i).error != AddFailed
    ensures ListedKept(s, RegisterPeer(s, i).sys, p)
  {
    hide Admit, LastObserved, NonNegative;
    var auth := Authorize(i.mode, i.request, i.validated, i.revoked);
    if !s.mem.failed && auth.error == NoError && CredentialMatches(i.mode, auth.credential) {
      AdmissionKeepsListedSession(s, i, auth.credential, p);
    }
  }

  lemma RegisterKeepsLatch(s: System, i: RegisterInput)
    ensures s.mem.failed ==> RegisterPeer(s, i).sys.mem.failed
  {
    hide Admit;
  }

  lemma RegisterIsPendingMetered(w: World, i: RegisterInput, charged: seq<Entry>, flowed: seq<Entry>)
    requires w.up && NonNegative(w.sys) && PendingMetered(w, charged, flowed) && !DropsCharged(w, Register(i))
    ensures PendingMetered(Apply(w, Register(i)), charged, flowed)
  {
    hide RegisterPeer, ListedMetered, NonNegative, UniqueKeys, ListedKept;
    var t := RegisterPeer(w.sys, i).sys;
    RegisterKeepsLatch(w.sys, i);
    if w.pending.Some? && !t.mem.failed {
      forall p | p in w.pending.value ensures ListedMetered(t, p, charged, flowed) {
        assert p.key in SnapshotKeys(w.pending.value);
        assert LastObserved(w.sys.mem, p.key) > 0 ==> p.key in w.sys.mem.runtime;
        hide LastObserved, SnapshotKeys;
        RegistrationKeepsListedSession(w.sys, i, p);
        KeptListedStaysMetered(w.sys, t, p, charged, flowed);
      }
    }
  }

  lemma IssueIsPendingMetered(w: World, i: IssueInput, charged: seq<Entry>, flowed: seq<Entry>)
    requires w.up && NonNegative(w.sys) && PendingMetered(w, charged, flowed)
    ensures PendingMetered(Apply(w, Issue(i)), charged, flowed)
  {
    hide IssueAuthKey, ListedMetered, UniqueKeys;
    var t := IssueAuthKey(w.sys, i).sys;
    IssueTouchesNoPeer(w.sys, i);
    IssueKeepsLatch(w.sys, i);
    if w.pending.Some? && !t.mem.failed {
      forall p | p in w.pending.value ensures ListedMetered(t, p, charged, flowed) {
        KeptListedStaysMetered(w.sys, t, p, charged, flowed);
      }
    }
  }

  /** A new snapshot lists the device, and what is pending on the device is covered. */
  lemma SnapshotIsPendingMetered(w: World, listed: seq<PeerInfo>, at: Time, charged: seq<Entry>, flowed: seq<Entry>)
    requires w.up && Metered(w, charged, flowed) && Lists(listed, w.sys.device)
    ensures PendingMetered(Apply(w, TakeSnapshot(listed, at)), charged, flowed)
  {
    hide ByKey, UniqueKeys;
    forall p | p in listed ensures ListedMetered(w.sys, p, charged, flowed) {
      assert p.key in SnapshotKeys(listed);
      assert ByKey(charged, p.key) + PendingBytes(w.sys, p.key) <= ByKey(flowed, p.key);
    }
  }

  lemma TrafficIsPendingMetered(w: World, key: Key, rx: nat, tx: nat, charged: seq<Entry>, flowed: seq<Entry>)
    requires w.up && NonNegative(w.sys) && PendingMetered(w, charged, flowed)
    ensures var step := Traffic(key, rx, tx); PendingMetered(Apply(w, step), charged, flowed + StepTraffic(w, step))
  {
    hide UniqueKeys;
    assert flowed + [] == flowed;
    if key in w.sys.device {
      var e := Entry(key, EmptyOwner, rx + tx);
      LedgerAppends(flowed, [e]);
      assert forall k :: ByKey([e], k) == if k == key then rx + tx else 0;
      hide ByKey;
    }
  }

  lemma ResetIsPendingMetered(w: World, key: Key, charged: seq<Entry>, flowed: seq<Entry>)
    requires w.up && NonNegative(w.sys) && PendingMetered(w, charged, flowed)
    ensures PendingMetered(Apply(w, ResetCounters(key)), charged, flowed)
  {
    hide ListedMetered, UniqueKeys;
    var t := Apply(w, ResetCounters(key)).sys;
    if w.pending.Some? && !w.sys.mem.failed {
      forall p | p in w.pending.value ensures ListedMetered(t, p, charged, flowed) {
        KeptListedStaysMetered(w.sys, t, p, charged, flowed);
      }
    }
  }

  // ---------------------------------------------------------------- commits

  lemma UnlistedRetained(m: Memory, i: ReconcileInput, k: Key)
    requires Structural(m) && k in m.peers && k !in SnapshotKeys(i.snapshot)
    requires i.clock.now - m.peers[k].lastSeen < PEER_STATE_RETENTION
    ensures k in Reconciled(m, i).runtime <==> k in m.runtime
    ensures k in m.runtime ==> Reconciled(m, i).runtime[k] == m.runtime[k]
  {
    hide Structural, Reconciled, SnapshotKeys;
    Reconciles.UnlistedAfter(m, i, k);
  }

  lemma ListedCharge(m: Memory, p: PeerInfo, now: Time)
    requires 0 <= p.rx && 0 <= p.tx && 0 <= LastRx(m, p.key) && 0 <= LastTx(m, p.key)
    ensures PeerCharge(m, p, now) == ListedBytes(m, p)
  {
  }

  /** What is charged for a listed peer was due for it. */
  lemma ListedCommit(s: System, i: ReconcileInput, p: PeerInfo, charged: seq<Entry>, flowed: seq<Entry>)
    requires Structural(s.mem) && !s.mem.failed && NonNegative(s) && UniqueKeys(i.snapshot) && p in i.snapshot
    requires ListedMetered(s, p, charged, flowed)
    requires ByKey(charged, p.key) + PendingBytes(s, p.key) <= ByKey(flowed, p.key)
    ensures var entries := Entries(s.mem, i.snapshot, i.mode, i.clock.now);
      ByKey(charged, p.key) + ByKey(entries, p.key) + PendingBytes(Reconcile(s, i).sys, p.key) <= ByKey(flowed, p.key)
  {
    hide Structural, Reconcile, Reconciled, Entries, PeerCharge, ByKey, UniqueKeys;
    EntriesByKey(s.mem, i.snapshot, i.mode, i.clock.now, p.key);
    ReconcileOutcomeAt(s, i, p.key);
    ListedBaseline(s.mem, i, p);
    ListedCharge(s.mem, p, i.clock.now);
    assert 0 <= LaterBytes(s.device, p);
  }

  /** Device peers the snapshot misses keep their baselines. */
  lemma UnlistedCommit(s: System, i: ReconcileInput, k: Key, at: Time)
    requires Structural(s.mem) && !s.mem.failed && UniqueKeys(i.snapshot) && k !in SnapshotKeys(i.snapshot)
    requires Covered(s) && UnlistedAreRecent(s, SnapshotKeys(i.snapshot), at)
    requires i.clock.now < at + PEER_STATE_RETENTION
    ensures ByKey(Entries(s.mem, i.snapshot, i.mode, i.clock.now), k) == 0
    ensures k in Reconcile(s, i).sys.device ==> PendingBytes(Reconcile(s, i).sys, k) == PendingBytes(s, k)
  {
    hide Structural, Reconcile, Reconciled, Entries, UniqueKeys, SnapshotKeys, ByKey;
    EntriesByKey(s.mem, i.snapshot, i.mode, i.clock.now, k);
    ReconcileOutcomeAt(s, i, k);
    if k in s.device {
      UnlistedRetained(s.mem, i, k);
    }
  }

  lemma CommitKeepsNonNegative(s: System, i: ReconcileInput, k: Key)
    requires Structural(s.mem) && !s.mem.failed && NonNegative(s) && UniqueKeys(i.snapshot)
    requires forall p :: p in i.snapshot ==> 0 <= p.rx && 0 <= p.tx
    ensures var t := Reconcile(s, i).sys;
      && (k in t.device ==> 0 <= t.device[k].rx && 0 <= t.device[k].tx)
      && (k in t.mem.runtime ==> 0 <= t.mem.runtime[k].lastRx && 0 <= t.mem.runtime[k].lastTx)
  {
    hide Structural, Reconcile, Reconciled, UniqueKeys;
    ReconcileOutcomeAt(s, i, k);
    if k in SnapshotKeys(i.snapshot) {
      var p :| p in i.snapshot && p.key == k;
      ListedBaseline(s.mem, i, p);
    } else {
      UnlistedBaseline(s.mem, i, k);
    }
  }

  lemma CommitMetersKey(s: System, i: ReconcileInput, at: Time, k: Key, charged: seq<Entry>, flowed: seq<Entry>)
    requires Structural(s.mem) && !s.mem.failed && NonNegative(s) && UniqueKeys(i.snapshot)
    requires Covered(s) && UnlistedAreRecent(s, SnapshotKeys(i.snapshot), at)
    requires i.clock.now < at + PEER_STATE_RETENTION
    requires forall p :: p in i.snapshot ==> ListedMetered(s, p, charged, flowed)
    requires ByKey(charged, k) + PendingBytes(s, k) <= ByKey(flowed, k)
    ensures var entries := Entries(s.mem, i.snapshot, i.mode, i.clock.now);
      ByKey(charged, k) + ByKey(entries, k) + PendingBytes(Reconcile(s, i).sys, k) <= ByKey(flowed, k)
  {
    hide Structural, Reconcile, Entries, ByKey, PendingBytes, ListedMetered, UniqueKeys, Covered, UnlistedAreRecent,
      NonNegative;
    if k in SnapshotKeys(i.snapshot) {
      var p :| p in i.snapshot && p.key == k;
      ListedCommit(s, i, p, charged, flowed);
    } else {
      UnlistedCommit(s, i, k, at);
      PendingIsNonNegative(s, k);
      if k !in Reconcile(s, i).sys.device {
        OffDeviceIsSettled(Reconcile(s, i).sys, k);
      }
    }
  }

  lemma SplitCommitIsMetered(w: World, i: ReconcileInput, charged: seq<Entry>, flowed: seq<Entry>)
    requires Ahead(w) && w.pending == Some(i.snapshot) && i.clock.now < w.pendingAt + PEER_STATE_RETENTION
    requires Metered(w, charged, flowed) && PendingMetered(w, charged, flowed) && Commits(w, Commit(i))
    ensures Metered(Apply(w, Commit(i)), charged + StepCharges(w, Commit(i)), flowed)
  {
    hide Structural, Reconcile, Entries, ByKey, PendingBytes, ListedMetered, UniqueKeys, Covered, UnlistedAreRecent,
      NonNegative, SnapshotKeys;
    var s, t := w.sys, Reconcile(w.sys, i).sys;
    var entries := Entries(s.mem, i.snapshot, i.mode, i.clock.now);
    LedgerAppends(charged, entries);
    forall k ensures ByKey(charged + entries, k) + PendingBytes(t, k) <= ByKey(flowed, k) {
      CommitMetersKey(s, i, w.pendingAt, k, charged, flowed);
    }
    forall p | p in i.snapshot ensures 0 <= p.rx && 0 <= p.tx {
      ListedIsNonNegative(s, p, charged, flowed);
    }
    CommitStaysNonNegative(s, i);
  }

  lemma CommitStaysNonNegative(s: System, i: ReconcileInput)
    requires Structural(s.mem) && !s.mem.failed && NonNegative(s) && UniqueKeys(i.snapshot)
    requires forall p :: p in i.snapshot ==> 0 <= p.rx && 0 <= p.tx
    ensures NonNegative(Reconcile(s, i).sys)
  {
    hide Structural, Reconcile, UniqueKeys;
    var t := Reconcile(s, i).sys;
    forall k
      ensures k in t.device ==> 0 <= t.device[k].rx && 0 <= t.device[k].tx
      ensures k in t.mem.runtime ==> 0 <= t.mem.runtime[k].lastRx && 0 <= t.mem.runtime[k].lastTx
    {
      CommitKeepsNonNegative(s, i, k);
    }
  }

  lemma OffDeviceIsSettled(s: System, k: Key)
    requires k !in s.device
    ensures PendingBytes(s, k) == 0
  {
  }

  lemma PendingIsNonNegative(s: System, k: Key)
    requires NonNegative(s)
    ensures 0 <= PendingBytes(s, k)
  {
  }

  lemma ListedIsNonNegative(s: System, p: PeerInfo, charged: seq<Entry>, flowed: seq<Entry>)
    requires ListedMetered(s, p, charged, flowed)
    ensures 0 <= p.rx && 0 <= p.tx
  {
    hide ByKey;
  }

  // ---------------------------------------------------------------- runs

  lemma StepStaysMetered(w: World, step: Step, zone: int, charged: seq<Entry>, flowed: seq<Entry>)
    requires Healthy(w) && Ahead(w) && Wired(w, step, zone) && Timely(w, step) && !DropsCharged(w, step)
    requires Metered(w, charged, flowed) && PendingMetered(w, charged, flowed)
    ensures var t, c, f := Apply(w, step), charged + StepCharges(w, step), flowed + StepTraffic(w, step);
      Metered(t, c, f) && PendingMetered(t, c, f)
  {
    assert charged + [] == charged && flowed + [] == flowed;
    if step.Commit? {
      CommitStepStaysMetered(w, step.commit, charged, flowed);
    } else {
      StepIsMetered(w, step, zone, charged, flowed);
      hide Metered, PendingMetered, DropsCharged, Healthy, Ahead, Lists, ByKey;
      if w.up || step.Restart? {
        UncommittedStepIsPendingMetered(w, step, zone, charged, flowed);
      }
    }
  }

  lemma CommitStepStaysMetered(w: World, i: ReconcileInput, charged: seq<Entry>, flowed: seq<Entry>)
    requires Healthy(w) && Ahead(w) && w.pending == Some(i.snapshot) && i.clock.now < w.pendingAt + PEER_STATE_RETENTION
    requires Metered(w, charged, flowed) && PendingMetered(w, charged, flowed)
    ensures var t, c := Apply(w, Commit(i)), charged + StepCharges(w, Commit(i));
      Metered(t, c, flowed) && PendingMetered(t, c, flowed) && flowed + StepTraffic(w, Commit(i)) == flowed
  {
    hide Metered, Healthy, Ahead, Reconcile, Entries, Structural, ListedMetered, UniqueKeys;
    assert charged + [] == charged;
    if Commits(w, Commit(i)) {
      SplitCommitIsMetered(w, i, charged, flowed);
    } else {
      UncommittedChangesNothing(w, i, 0);
      UncommittedStaysMetered(w, i, charged, flowed);
    }
  }

  lemma UncommittedStaysMetered(w: World, i: ReconcileInput, charged: seq<Entry>, flowed: seq<Entry>)
    requires Metered(w, charged, flowed) && Apply(w, Commit(i)).sys == w.sys
    ensures Metered(Apply(w, Commit(i)), charged, flowed)
  {
    hide Apply, ByKey, NonNegative, PendingBytes;
  }

  lemma UncommittedStepIsPendingMetered(w: World, step: Step, zone: int, charged: seq<Entry>, flowed: seq<Entry>)
    requires (w.up || step.Restart?) && !step.Commit? && Wired(w, step, zone) && !DropsCharged(w, step)
    requires Metered(w, charged, flowed) && PendingMetered(w, charged, flowed)
    ensures PendingMetered(Apply(w, step), charged, flowed + StepTraffic(w, step)) && StepCharges(w, step) == []
  {
    hide DropsCharged, PendingMetered, Lists, ByKey, Apply;
    assert flowed + [] == flowed;
    match step
    case Restart(image, c, save, restore) => StartIsPendingMetered(w, step, charged, flowed);
    case Register(i) => RegisterIsPendingMetered(w, i, charged, flowed);
    case Issue(i) => IssueIsPendingMetered(w, i, charged, flowed);
    case TakeSnapshot(listed, at) => SnapshotIsPendingMetered(w, listed, at, charged, flowed);
    case Traffic(k, rx, tx) => TrafficIsPendingMetered(w, k, rx, tx, charged, flowed);
    case ResetCounters(k) => ResetIsPendingMetered(w, k, charged, flowed);
  }

  lemma StartIsPendingMetered(w: World, step: Step, charged: seq<Entry>, flowed: seq<Entry>)
    requires step.Restart?
    ensures PendingMetered(Apply(w, step), charged, flowed)
  {
    hide Load, RestorePeers, Structural, ListedMetered;
  }

  lemma {:induction false} SplitRunIsMetered(w: World, steps: seq<Step>, zone: int)
    requires Fresh(w) && WiredRun(w, steps, zone) && TimelyRun(w, steps) && KeepsCharged(w, steps)
    ensures var t, c, f := Run(w, steps), Charges(w, steps), Flowed(w, steps);
      Metered(t, c, f) && PendingMetered(t, c, f)
  {
    FreshIsHealthy(w);
    if |steps| > 0 {
      hide Healthy, Ahead, Metered, PendingMetered, Apply, Wired, Timely, DropsCharged, StepCharges, StepTraffic;
      var before := steps[..|steps| - 1];
      RunsStayHealthy(w, before, zone);
      assert Ahead(w) by { FreshIsAhead(w); }
      DevicePeersAreAuthorized(w, before, zone);
      SplitRunIsMetered(w, before, zone);
      StepStaysMetered(Run(w, before), steps[|steps| - 1], zone, Charges(w, before), Flowed(w, before));
    }
  }

  lemma FreshIsAhead(w: World)
    requires Fresh(w)
    ensures Ahead(w)
  {
  }

  /** Over any run with traffic, counter resets, restarts and registrations between snapshots and
      their commits, no peer is charged more than it sent, and neither are all of them together,
      unless a listed peer with charged bytes is taken back before the commit. */
  lemma NeverChargedMoreThanFlowed(w: World, steps: seq<Step>, zone: int)
    requires Fresh(w) && WiredRun(w, steps, zone) && TimelyRun(w, steps) && KeepsCharged(w, steps)
    ensures forall k :: ByKey(Charges(w, steps), k) <= ByKey(Flowed(w, steps), k)
    ensures Total(Charges(w, steps)) <= Total(Flowed(w, steps))
  {
    hide Run, Charges, Flowed, WiredRun, TimelyRun, KeepsCharged;
    SplitRunIsMetered(w, steps, zone);
    MeteredIsBounded(Run(w, steps), Charges(w, steps), Flowed(w, steps));
  }

  // ---------------------------------------------------------------- exactly when a commit overcharges

  /** What may happen between a snapshot and its commit. */
  predicate Intervenes(step: Step) {
    step.Register? || step.Issue? || step.Traffic? || step.ResetCounters?
  }

  ghost predicate Intervening(steps: seq<Step>) {
    forall n :: 0 <= n < |steps| ==> Intervenes(steps[n])
  }

  /** Some registration of the running peer `k` is taken back. */
  ghost predicate Dropped(w: World, steps: seq<Step>, k: Key) {
    |steps| > 0 &&
    (Dropped(w, steps[..|steps| - 1], k) || DropsPeer(Run(w, steps[..|steps| - 1]), steps[|steps| - 1], k))
  }

  ghost predicate DropsPeer(w: World, step: Step, k: Key) {
    && w.up && step.Register? && step.register.peer == k && k in w.sys.mem.runtime
    && RegisterPeer(w.sys, step.register).error == AddFailed
  }

  lemma RegisteredBaseline(s: System, i: RegisterInput, k: Key)
    requires !RegisterPeer(s, i).sys.mem.failed
    ensures var t := RegisterPeer(s, i);
      if i.peer == k && k in s.mem.runtime && t.error == AddFailed
      then LastRx(t.sys.mem, k) == 0 && LastTx(t.sys.mem, k) == 0
      else LastRx(t.sys.mem, k) == LastRx(s.mem, k) && LastTx(t.sys.mem, k) == LastTx(s.mem, k)
  {
    hide Admit;
    var auth := Authorize(i.mode, i.request, i.validated, i.revoked);
    if !s.mem.failed && auth.error == NoError && CredentialMatches(i.mode, auth.credential) {
      hide Written, OtherPeers, QuotaFor, OverQuota, DiskOf, AddTo, RemoveFrom;
      var c := AdmitCases(s, i, auth.credential);
    }
  }

  lemma StepBaseline(w: World, step: Step, k: Key)
    requires w.up && Intervenes(step) && !Apply(w, step).sys.mem.failed
    ensures Apply(w, step).up && !w.sys.mem.failed
    ensures var m, t := w.sys.mem, Apply(w, step).sys.mem;
      if DropsPeer(w, step, k) then LastRx(t, k) == 0 && LastTx(t, k) == 0
      else LastRx(t, k) == LastRx(m, k) && LastTx(t, k) == LastTx(m, k)
  {
    hide RegisterPeer, IssueAuthKey;
    match step
    case Register(i) =>
      RegisterKeepsLatch(w.sys, i);
      RegisteredBaseline(w.sys, i, k);
    case Issue(i) =>
      IssueTouchesNoPeer(w.sys, i);
      IssueKeepsLatch(w.sys, i);
    case Traffic(_, _, _) =>
    case ResetCounters(_) =>
  }

  /** Between a snapshot and its commit a baseline stays, or is dropped to nothing. */
  lemma {:induction false} BaselineBetween(w: World, steps: seq<Step>, k: Key)
    requires w.up && Intervening(steps) && !Run(w, steps).sys.mem.failed
    ensures Run(w, steps).up
    ensures var m, t := w.sys.mem, Run(w, steps).sys.mem;
      if Dropped(w, steps, k) then LastRx(t, k) == 0 && LastTx(t, k) == 0
      else LastRx(t, k) == LastRx(m, k) && LastTx(t, k) == LastTx(m, k)
  {
    hide Apply, DropsPeer, LastRx, LastTx;
    if |steps| > 0 {
      var before := Run(w, steps[..|steps| - 1]);
      StepsStayUp(w, steps[..|steps| - 1]);
      StepBaseline(before, steps[|steps| - 1], k);
      BaselineBetween(w, steps[..|steps| - 1], k);
    }
  }

  lemma {:induction false} StepsStayUp(w: World, steps: seq<Step>)
    requires w.up && Intervening(steps)
    ensures Run(w, steps).up
  {
    hide RegisterPeer, IssueAuthKey;
    if |steps| > 0 {
      StepsStayUp(w, steps[..|steps| - 1]);
    }
  }

  /** The already charged part of a listed counter. */
  function Repeated(last: int, counter: int): int {
    if 0 < last <= counter then last else 0
  }

  lemma ChargeAfterDrop(u: World, listed: seq<PeerInfo>, at: Time, between: seq<Step>, p: PeerInfo, now: Time)
    requires u.up && Intervening(between) && NonNegative(u.sys) && 0 <= p.rx && 0 <= p.tx
    requires !Run(Apply(u, TakeSnapshot(listed, at)), between).sys.mem.failed
    ensures var snapped := Apply(u, TakeSnapshot(listed, at));
      PeerCharge(Run(snapped, between).sys.mem, p, now) == PeerCharge(u.sys.mem, p, now) +
        if Dropped(snapped, between, p.key)
        then Repeated(LastRx(u.sys.mem, p.key), p.rx) + Repeated(LastTx(u.sys.mem, p.key), p.tx) else 0
  {
    hide Run, Dropped;
    var snapped := Apply(u, TakeSnapshot(listed, at));
    assert snapped.up && snapped.sys == u.sys;
    BaselineBetween(snapped, between, p.key);
    ListedCharge(u.sys.mem, p, now);
    ListedCharge(Run(snapped, between).sys.mem, p, now);
  }

  lemma RegisterKeepsRecord(s: System, i: RegisterInput, k: Key)
    requires k in s.mem.peers
    ensures k in RegisterPeer(s, i).sys.mem.peers
  {
    hide Admit;
    var auth := Authorize(i.mode, i.request, i.validated, i.revoked);
    if !s.mem.failed && auth.error == NoError && CredentialMatches(i.mode, auth.credential) {
      hide OtherPeers, QuotaFor, OverQuota, DiskOf, AddTo, RemoveFrom, Touch;
      var c := AdmitCases(s, i, auth.credential);
      WrittenIdentity(s.mem, i.peer, auth.credential, i.clock);
      hide Written;
    }
  }

  /** Nothing between a snapshot and its commit loses a record. */
  lemma {:induction false} RecordsStay(w: World, steps: seq<Step>, k: Key)
    requires w.up && Intervening(steps) && k in w.sys.mem.peers
    ensures k in Run(w, steps).sys.mem.peers
  {
    hide RegisterPeer, IssueAuthKey;
    if |steps| > 0 {
      var before, step := Run(w, steps[..|steps| - 1]), steps[|steps| - 1];
      RecordsStay(w, steps[..|steps| - 1], k);
      match step
      case Register(i) => RegisterKeepsRecord(before.sys, i, k);
      case Issue(i) => IssueTouchesNoPeer(before.sys, i);
      case Traffic(_, _, _) =>
      case ResetCounters(_) =>
    }
  }

  /** A commit writes more to a listed peer's ledger than was due at the snapshot if and only if, in
      between, a registration of that running peer was taken back and part of a listed counter had
      been charged; the excess is that part. `u` is the state when the snapshot is taken. */
  lemma OverchargedExactly(u: World, i: ReconcileInput, at: Time, between: seq<Step>, p: PeerInfo)
    requires u.up && Structural(u.sys.mem) && Intervening(between) && NonNegative(u.sys)
    requires p in i.snapshot && UniqueKeys(i.snapshot) && 0 <= p.rx && 0 <= p.tx
    requires Commits(Run(Apply(u, TakeSnapshot(i.snapshot, at)), between), Commit(i))
    ensures var snapped := Apply(u, TakeSnapshot(i.snapshot, at));
      var x := Run(snapped, between);
      var entry := ByKey(StepCharges(x, Commit(i)), p.key);
      var due := PeerCharge(u.sys.mem, p, i.clock.now);
      var excess := Repeated(LastRx(u.sys.mem, p.key), p.rx) + Repeated(LastTx(u.sys.mem, p.key), p.tx);
      var dropped := Dropped(snapped, between, p.key);
      && entry == (if p.key in x.sys.mem.peers || i.mode.OpenMode? then due + (if dropped then excess else 0) else 0)
      && (entry > due <==> dropped && excess > 0)
  {
    var snapped := Apply(u, TakeSnapshot(i.snapshot, at));
    assert snapped.up && snapped.sys == u.sys;
    hide Run, Dropped, Entries, ByKey, UniqueKeys, PeerCharge, NonNegative;
    var x := Run(snapped, between);
    ChargeAfterDrop(u, i.snapshot, at, between, p, i.clock.now);
    EntriesByKey(x.sys.mem, i.snapshot, i.mode, i.clock.now, p.key);
    if p.key in u.sys.mem.peers {
      RecordsStay(snapped, between, p.key);
    } else {
      RunningIsRecorded(u.sys.mem, p.key);
    }
    hide Structural, Apply;
  }
}
