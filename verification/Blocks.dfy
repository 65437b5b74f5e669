/** A quota block holds until the next local midnight, whatever happens in between: other calls,
    changed limits and modes, failed saves, and restarts from any image the file may hold. */
module Blocks {
  import opened Clocks
  import opened Records
  import opened Operations
  import opened Structure
  import opened Charging
  import opened Verdicts
  import opened Runs

  /** The account of `o` says it is blocked for the rest of `day`. */
  ghost predicate BlockedIn(quotas: map<Owner, QuotaRecord>, o: Owner, day: int, zone: int) {
    o in quotas && quotas[o].usageDate == Day(day) && quotas[o].blockedUntil == MidnightAfter(day, zone)
  }

  ghost predicate BlockedImage(image: Option<Disk>, o: Owner, day: int, zone: int) {
    image.Some? && image.value.quotas.Some? && BlockedIn(image.value.quotas.value, o, day, zone)
  }

  ghost predicate BlockedImages(images: set<Option<Disk>>, o: Owner, day: int, zone: int) {
    forall image :: image in images ==> BlockedImage(image, o, day, zone)
  }

  ghost predicate BlockedSystem(s: System, o: Owner, day: int, zone: int) {
    BlockedIn(s.mem.quotas, o, day, zone) && BlockedImages(s.images, o, day, zone)
  }

  ghost predicate BlockedWorld(w: World, o: Owner, day: int, zone: int) {
    (w.up ==> BlockedIn(w.sys.mem.quotas, o, day, zone)) && BlockedImages(w.sys.images, o, day, zone)
  }

  predicate OnDay(c: Clock, day: int, zone: int) {
    c.zone == zone && Today(c) == day
  }

  /** Every clock reading of the step falls on `day`. */
  ghost predicate StepOnDay(step: Step, day: int, zone: int) {
    match step
    case Register(i) => OnDay(i.clock, day, zone)
    case Issue(i) => OnDay(i.clock, day, zone)
    case Commit(i) => OnDay(i.clock, day, zone)
    case Restart(_, c, _, restore) => OnDay(c, day, zone) && OnDay(restore.clock, day, zone)
    case _ => true
  }

  /** The owner a registration would be charged to. */
  function Applicant(i: RegisterInput): Owner {
    var credential := Authorize(i.mode, i.request, i.validated, i.revoked).credential;
    QuotaOwner(i.peer, credential.keyID, credential.generation)
  }

  lemma BlockSurvivesNormalize(q: QuotaRecord, c: Clock, day: int, zone: int)
    requires OnDay(c, day, zone) && q.usageDate == Day(day) && q.blockedUntil == MidnightAfter(day, zone)
    ensures Normalize(q, c) == q && c.now < q.blockedUntil
  {
    assert LocalDay(c.now, zone) <= day;
  }

  lemma PersistKeepsBlock(s: System, outcome: SaveOutcome, o: Owner, day: int, zone: int)
    requires BlockedSystem(s, o, day, zone)
    ensures BlockedSystem(Persist(s, outcome), o, day, zone)
  {
  }

  // ---------------------------------------------------------------- blocks end at midnight

  /** A block lasts until the midnight after the account's date. */
  ghost predicate MidnightBlock(q: QuotaRecord, zone: int) {
    || q.blockedUntil == ZERO_TIME
    || (q.usageDate.Day? && q.blockedUntil == MidnightAfter(q.usageDate.day, zone))
  }

  ghost predicate MidnightBlocks(quotas: map<Owner, QuotaRecord>, zone: int) {
    forall o :: o in quotas ==> MidnightBlock(quotas[o], zone)
  }

  ghost predicate MidnightImages(images: set<Option<Disk>>, zone: int) {
    forall image :: image in images && image.Some? && image.value.quotas.Some? ==>
      MidnightBlocks(image.value.quotas.value, zone)
  }

  ghost predicate MidnightSystem(s: System, zone: int) {
    MidnightBlocks(s.mem.quotas, zone) && MidnightImages(s.images, zone)
  }

  ghost predicate MidnightWorld(w: World, zone: int) {
    (w.up ==> MidnightBlocks(w.sys.mem.quotas, zone)) && MidnightImages(w.sys.images, zone)
  }

  lemma NormalizeKeepsMidnight(q: QuotaRecord, c: Clock)
    requires MidnightBlock(q, c.zone)
    ensures MidnightBlock(Normalize(q, c), c.zone)
  {
  }

  /** An account that is blocked now is today's, and blocked until tonight. */
  lemma SeenBlockIsToday(quotas: map<Owner, QuotaRecord>, o: Owner, c: Clock)
    requires MidnightBlocks(quotas, c.zone)
    ensures MidnightBlock(AccountOf(quotas, o, c), c.zone)
    ensures c.now < AccountOf(quotas, o, c).blockedUntil && Sane(c) ==> BlockedIn(quotas, o, Today(c), c.zone)
    ensures c.now < AccountOf(quotas, o, c).blockedUntil ==>
      AccountOf(quotas, o, c).blockedUntil == ZERO_TIME || AccountOf(quotas, o, c).blockedUntil == NextLocalMidnight(c)
  {
    if o in quotas {
      NormalizeKeepsMidnight(quotas[o], c);
    }
  }

  lemma PutKeepsMidnight(quotas: map<Owner, QuotaRecord>, o: Owner, q: QuotaRecord, zone: int)
    requires MidnightBlocks(quotas, zone) && MidnightBlock(q, zone)
    ensures MidnightBlocks(quotas[o := q], zone)
  {
    hide MidnightBlock;
  }

  lemma PersistKeepsMidnight(s: System, outcome: SaveOutcome, zone: int)
    requires MidnightSystem(s, zone)
    ensures MidnightSystem(Persist(s, outcome), zone)
  {
    hide MidnightBlocks;
  }

  lemma RegisterKeepsMidnight(s: System, i: RegisterInput)
    requires MidnightSystem(s, i.clock.zone)
    ensures MidnightSystem(RegisterPeer(s, i).sys, i.clock.zone)
  {
    hide Admit, OtherPeers, OverQuota, AddTo, RemoveFrom, Touch, MidnightBlocks, RecordFor, Normalize;
    if !s.mem.failed {
      var credential := Authorize(i.mode, i.request, i.validated, i.revoked).credential;
      var o := QuotaOwner(i.peer, credential.keyID, credential.generation);
      var c := AdmitCases(s, i, credential);
      SeenBlockIsToday(s.mem.quotas, o, i.clock);
      PutKeepsMidnight(s.mem.quotas, o, AccountOf(s.mem.quotas, o, i.clock).(lastSeen := i.clock.now), i.clock.zone);
      WrittenAccount(s.mem, i.peer, credential, i.clock);
      hide Written;
    }
  }

  lemma WrittenAccount(m: Memory, peer: Key, credential: Credential, c: Clock)
    ensures var o := QuotaOwner(peer, credential.keyID, credential.generation);
      Written(m, peer, credential, c).quotas == m.quotas[o := QuotaFor(m, o, c).(lastSeen := c.now)]
  {
  }

  lemma IssueKeepsQuotas(s: System, i: IssueInput)
    ensures var t := IssueAuthKey(s, i).sys;
      && t.mem.quotas == s.mem.quotas
      && forall image :: image in t.images && image !in s.images ==>
        image.Some? && image.value.quotas == Some(s.mem.quotas)
  {
    assert RollWindow(s.mem, i.clock.now, i.window).quotas == s.mem.quotas;
    hide RollWindow, Count;
  }

  lemma IssueKeepsMidnight(s: System, i: IssueInput, zone: int)
    requires MidnightSystem(s, zone)
    ensures MidnightSystem(IssueAuthKey(s, i).sys, zone)
  {
    hide IssueAuthKey, MidnightBlocks;
    IssueKeepsQuotas(s, i);
  }

  /** Charging keeps blocks until midnight, and brings the listed owners' accounts to today. */
  lemma {:induction false} ChargingKeepsMidnight(m: Memory, s: seq<PeerInfo>, mode: Mode, c: Clock)
    requires Structural(m) && MidnightBlocks(m.quotas, c.zone)
    ensures var r := ChargeAll(m, s, mode, c);
      && MidnightBlocks(r.quotas, c.zone)
      && forall p :: p in s && p.key in r.peers ==> AccountIsToday(r, p.key, c)
  {
    hide Structural, ChargePeer, MidnightBlocks, AccountIsToday;
    if |s| > 0 {
      var n := |s| - 1;
      ChargingKeepsMidnight(m, s[..n], mode, c);
      var before := ChargeAll(m, s[..n], mode, c);
      ChargePeerKeepsMidnight(before, s[n], mode, c);
      assert s == s[..n] + [s[n]];
      var r := ChargePeer(before, s[n], mode, c);
      forall p | p in s && p.key in r.peers ensures AccountIsToday(r, p.key, c) {
        assert p.key in before.peers && p.key != s[n].key ==> AccountIsToday(before, p.key, c);
        ChargePeerKeepsToday(before, s[n], mode, c, p.key);
      }
    }
  }

  ghost predicate AccountIsToday(m: Memory, k: Key, c: Clock)
    requires k in m.peers
  {
    var o := OwnerOf(k, m.peers[k]);
    o in m.quotas && m.quotas[o].usageDate == Day(Today(c))
  }

  lemma ChargePeerKeepsMidnight(m: Memory, p: PeerInfo, mode: Mode, c: Clock)
    requires Structural(m) && MidnightBlocks(m.quotas, c.zone)
    ensures MidnightBlocks(ChargePeer(m, p, mode, c).quotas, c.zone)
  {
    hide Structural, MidnightBlocks, QuotaFor, Observed;
    var o := OwnerOf(p.key, KnownRecord(m, p.key, c.now));
    var q := Charged(AccountOf(m.quotas, o, c), p, RuntimeOf(m, p.key, c.now), c.now);
    SeenBlockIsToday(m.quotas, o, c);
    PutKeepsMidnight(m.quotas, o, q, c.zone);
  }

  lemma ChargePeerKeepsToday(m: Memory, q: PeerInfo, mode: Mode, c: Clock, k: Key)
    requires Structural(m) && k in ChargePeer(m, q, mode, c).peers
    requires k in m.peers && k != q.key ==> AccountIsToday(m, k, c)
    ensures AccountIsToday(ChargePeer(m, q, mode, c), k, c)
  {
    hide Structural, AddUsage, IsZero;
    assert AccountOf(m.quotas, OwnerOf(q.key, KnownRecord(m, q.key, c.now)), c).usageDate == Day(Today(c));
    hide Normalize, Today;
  }

  lemma ReconciledKeepsMidnight(m: Memory, i: ReconcileInput)
    requires Structural(m) && MidnightBlocks(m.quotas, i.clock.zone)
    ensures MidnightBlocks(Reconciled(m, i).quotas, i.clock.zone)
  {
    hide Structural, ChargeAll, RejectedKeys, SnapshotKeys, Referenced, BlockOwners;
    ChargingKeepsMidnight(m, i.snapshot, i.mode, i.clock);
    BlockingKeepsMidnight(ChargeAll(m, i.snapshot, i.mode, i.clock), i);
  }

  lemma BlockingKeepsMidnight(m: Memory, i: ReconcileInput)
    requires MidnightBlocks(m.quotas, i.clock.zone)
    requires forall p :: p in i.snapshot && p.key in m.peers ==> AccountIsToday(m, p.key, i.clock)
    ensures MidnightBlocks(BlockOwners(m, i.snapshot, i.limit, i.clock).quotas, i.clock.zone)
  {
    hide Today, MidnightAfter;
    forall o | o in SnapshotOwners(m, i.snapshot) && o in m.quotas
      ensures m.quotas[o].usageDate == Day(Today(i.clock)) {
      var p :| p in i.snapshot && p.key in m.peers && OwnerOf(p.key, m.peers[p.key]) == o;
      assert AccountIsToday(m, p.key, i.clock);
    }
    hide SnapshotOwners;
  }

  lemma ReconcileKeepsMidnight(s: System, i: ReconcileInput)
    requires Structural(s.mem) && MidnightSystem(s, i.clock.zone)
    ensures MidnightSystem(Reconcile(s, i).sys, i.clock.zone)
  {
    hide Structural, Reconciled, RemovedKeys, MidnightBlocks, Persist;
    ReconciledKeepsMidnight(s.mem, i);
    PersistKeepsMidnight(s.(mem := Reconciled(s.mem, i)), i.save, i.clock.zone);
  }

  lemma RestoreKeepsMidnight(s: System, i: RestoreInput)
    requires Structural(s.mem) && MidnightSystem(s, i.clock.zone)
    ensures MidnightSystem(RestorePeers(s, i).sys, i.clock.zone)
  {
    hide Structural, Persist, RestoreChanges, RestoredDevice, RestoredRecord, Restored, RecentOwners;
    var quotas := RestoredMemory(s.mem, i).quotas;
    forall o | o in quotas ensures MidnightBlock(quotas[o], i.clock.zone) {
      NormalizeKeepsMidnight(s.mem.quotas[o], i.clock);
      hide Normalize;
    }
    hide RestoredMemory, MidnightBlock;
    PersistKeepsMidnight(s.(mem := RestoredMemory(s.mem, i), device := RestoredDevice(s, i)), i.save, i.clock.zone);
  }

  lemma StartKeepsMidnight(w: World, image: Option<Disk>, c: Clock, save: SaveOutcome, restore: RestoreInput)
    requires MidnightWorld(w, c.zone) && image in w.sys.images && (image.Some? ==> Loadable(image.value))
    requires restore.clock.zone == c.zone
    ensures MidnightWorld(Start(w, image, c, save, restore), c.zone)
  {
    var m := RollWindow(Recall(image, ZERO_TIME, c), c.now, DAY);
    assert MidnightBlocks(m.quotas, c.zone) by {
      if image.Some? {
        forall o | o in m.quotas ensures MidnightBlock(m.quotas[o], c.zone) {
          NormalizeKeepsMidnight(image.value.quotas.value[o], c);
        }
      }
    }
    PersistKeepsMidnight(System(m, w.sys.images, map[]), save, c.zone);
    var loaded := Load(Booted(w), image, c, save);
    assert loaded.sys == Persist(System(m, w.sys.images, map[]), save);
    if loaded.error == NoError && Structural(loaded.sys.mem) {
      RestoreKeepsMidnight(loaded.sys, restore);
    }
    hide Load, RestorePeers, Structural, MidnightBlocks, Persist, Loadable;
  }

  lemma StepKeepsMidnight(w: World, step: Step, zone: int)
    requires Healthy(w) && MidnightWorld(w, zone) && Wired(w, step, zone)
    ensures MidnightWorld(Apply(w, step), zone)
  {
    hide RegisterPeer, IssueAuthKey, Reconcile, Start, MidnightBlocks, MidnightImages, Persistable, Loadable, Lists;
    match step
    case Restart(image, c, save, restore) => StartKeepsMidnight(w, image, c, save, restore);
    case Register(i) => if w.up { RegisterKeepsMidnight(w.sys, i); }
    case Issue(i) => if w.up { IssueKeepsMidnight(w.sys, i, zone); }
    case Commit(i) => if w.up && Structural(w.sys.mem) { ReconcileKeepsMidnight(w.sys, i); }
    case TakeSnapshot(_, _) =>
    case Traffic(_, _, _) =>
    case ResetCounters(_) =>
  }

  /** In every run, every block in memory and in every file lasts until the midnight after its
      account's date. */
  lemma {:induction false} RunsBlockUntilMidnight(w: World, steps: seq<Step>, zone: int)
    requires Healthy(w) && MidnightWorld(w, zone) && WiredRun(w, steps, zone)
    ensures MidnightWorld(Run(w, steps), zone)
  {
    hide Healthy, MidnightWorld, Apply, Wired;
    if |steps| > 0 {
      RunsStayHealthy(w, steps[..|steps| - 1], zone);
      RunsBlockUntilMidnight(w, steps[..|steps| - 1], zone);
      StepKeepsMidnight(Run(w, steps[..|steps| - 1]), steps[|steps| - 1], zone);
    }
  }

  // ---------------------------------------------------------------- a block is established

  /** A reconcile that returns nil after charging an owner past the limit leaves that owner
      blocked until midnight in memory and on disk, blocked before or not. */
  lemma OverQuotaBlocks(s: System, i: ReconcileInput, p: PeerInfo)
    requires Structural(s.mem) && UniqueKeys(i.snapshot) && p in i.snapshot
    requires Reconcile(s, i).error == NoError && MidnightBlocks(s.mem.quotas, i.clock.zone) && Sane(i.clock)
    requires var o := OwnerFound(s.mem, p);
      && Pays(s.mem, p, i.mode, i.clock.now, o)
      && i.limit > 0 && UsageAfter(s.mem, i, o) > i.limit
    ensures BlockedSystem(Reconcile(s, i).sys, OwnerFound(s.mem, p), Today(i.clock), i.clock.zone)
  {
    hide Structural, Reconciled, Judged, UsageAfter, UniqueKeys, Reconcile;
    var o := OwnerFound(s.mem, p);
    SeenBlockIsToday(s.mem.quotas, o, i.clock);
    JudgedAccount(s.mem, i, p);
    assert BlockedIn(Judged(s.mem, i).quotas, o, Today(i.clock), i.clock.zone);
    ReconciledKeepsBlock(s.mem, i, o, Today(i.clock), i.clock.zone);
    SavedBlock(s, i, o, Today(i.clock), i.clock.zone);
  }

  lemma SavedBlock(s: System, i: ReconcileInput, o: Owner, day: int, zone: int)
    requires Structural(s.mem) && BlockedIn(Reconciled(s.mem, i).quotas, o, day, zone)
    requires Reconcile(s, i).error == NoError
    ensures BlockedSystem(Reconcile(s, i).sys, o, day, zone)
  {
    hide Structural, Reconciled, RemovedKeys, BlockedIn;
  }

  /** The block ends with the day: at any instant of a later day the owner starts with no usage
      and no block, whatever the limit. */
  lemma BlockLiftsAtMidnight(quotas: map<Owner, QuotaRecord>, o: Owner, day: int, zone: int, c: Clock, limit: nat)
    requires BlockedIn(quotas, o, day, zone) && c.zone == zone && Sane(c)
    ensures c.now >= MidnightAfter(day, zone) ==> !OverQuota(AccountOf(quotas, o, c), limit, c.now)
    ensures c.now < MidnightAfter(day, zone) && Today(c) == day ==> OverQuota(AccountOf(quotas, o, c), limit, c.now)
  {
    if c.now >= MidnightAfter(day, zone) {
      assert !(LocalDay(c.now, zone) <= day);
    }
  }

  // ---------------------------------------------------------------- each operation keeps the block

  lemma ReconciledKeepsBlock(m: Memory, i: ReconcileInput, o: Owner, day: int, zone: int)
    requires Structural(m) && OnDay(i.clock, day, zone) && BlockedIn(Judged(m, i).quotas, o, day, zone)
    ensures BlockedIn(Reconciled(m, i).quotas, o, day, zone)
  {
    BlockSurvivesNormalize(Judged(m, i).quotas[o], i.clock, day, zone);
    hide Judged, Structural, RejectedKeys, SnapshotKeys;
  }

  lemma ChargePeerKeepsBlock(m: Memory, p: PeerInfo, mode: Mode, c: Clock, o: Owner, day: int, zone: int)
    requires Structural(m) && OnDay(c, day, zone) && BlockedIn(m.quotas, o, day, zone)
    ensures BlockedIn(ChargePeer(m, p, mode, c).quotas, o, day, zone)
  {
    BlockSurvivesNormalize(m.quotas[o], c, day, zone);
    hide Structural, Observed, Normalize, OnDay, AddUsage;
  }

  lemma {:induction false} ChargeAllKeepsBlock(m: Memory, s: seq<PeerInfo>, mode: Mode, c: Clock, o: Owner, day: int,
    zone: int)
    requires Structural(m) && OnDay(c, day, zone) && BlockedIn(m.quotas, o, day, zone)
    ensures BlockedIn(ChargeAll(m, s, mode, c).quotas, o, day, zone)
  {
    hide Structural, OnDay, BlockedIn, ChargePeer;
    if |s| > 0 {
      ChargeAllKeepsBlock(m, s[..|s| - 1], mode, c, o, day, zone);
      ChargePeerKeepsBlock(ChargeAll(m, s[..|s| - 1], mode, c), s[|s| - 1], mode, c, o, day, zone);
    }
  }

  lemma ReconcileKeepsBlock(s: System, i: ReconcileInput, o: Owner, day: int, zone: int)
    requires Structural(s.mem) && OnDay(i.clock, day, zone) && BlockedSystem(s, o, day, zone)
    ensures BlockedSystem(Reconcile(s, i).sys, o, day, zone)
  {
    var charged := ChargeAll(s.mem, i.snapshot, i.mode, i.clock);
    ChargeAllKeepsBlock(s.mem, i.snapshot, i.mode, i.clock, o, day, zone);
    BlockSurvivesNormalize(charged.quotas[o], i.clock, day, zone);
    assert BlockedIn(Judged(s.mem, i).quotas, o, day, zone) by { hide ChargeAll, Structural, SnapshotOwners; }
    ReconciledKeepsBlock(s.mem, i, o, day, zone);
    PersistKeepsBlock(s.(mem := Reconciled(s.mem, i)), i.save, o, day, zone);
    hide Structural, Reconciled, RemovedKeys, BlockedIn, BlockedImages, Persist;
  }

  /** A registration for a blocked owner is refused and changes nothing. */
  lemma BlockedApplicantIsRefused(s: System, i: RegisterInput, day: int, zone: int)
    requires OnDay(i.clock, day, zone) && BlockedIn(s.mem.quotas, Applicant(i), day, zone)
    ensures RegisterPeer(s, i).error != NoError
    ensures RegisterPeer(s, i).sys == s
  {
    BlockSurvivesNormalize(s.mem.quotas[Applicant(i)], i.clock, day, zone);
    hide Normalize, Activate, Written, Persist, OtherPeers;
  }

  lemma RegisterKeepsBlock(s: System, i: RegisterInput, o: Owner, day: int, zone: int)
    requires OnDay(i.clock, day, zone) && BlockedSystem(s, o, day, zone)
    ensures BlockedSystem(RegisterPeer(s, i).sys, o, day, zone)
  {
    if Applicant(i) == o {
      BlockedApplicantIsRefused(s, i, day, zone);
    } else if !s.mem.failed {
      var credential := Authorize(i.mode, i.request, i.validated, i.revoked).credential;
      OtherAdmissionKeepsBlock(s, i, credential, o, day, zone);
      hide Admit, BlockedSystem;
    }
  }

  lemma OtherAdmissionKeepsBlock(s: System, i: RegisterInput, credential: Credential, o: Owner, day: int, zone: int)
    requires BlockedSystem(s, o, day, zone) && !s.mem.failed
    requires QuotaOwner(i.peer, credential.keyID, credential.generation) != o
    ensures BlockedSystem(Admit(s, i, credential).sys, o, day, zone)
  {
    var c := AdmitCases(s, i, credential);
    assert BlockedIn(Written(s.mem, i.peer, credential, i.clock).quotas, o, day, zone) by { hide AccountOf; }
    hide Admit, BlockedIn, Written, AccountOf, OtherPeers;
  }

  lemma IssueKeepsBlock(s: System, i: IssueInput, o: Owner, day: int, zone: int)
    requires BlockedSystem(s, o, day, zone)
    ensures BlockedSystem(IssueAuthKey(s, i).sys, o, day, zone)
  {
    var rolled := RollWindow(s.mem, i.clock.now, i.window);
    PersistKeepsBlock(s.(mem := rolled.(counts := rolled.counts[i.ip := Count(rolled.counts, i.ip) + 1])), i.save, o,
      day, zone);
    assert rolled.quotas == s.mem.quotas;
    hide BlockedIn, BlockedImages, RollWindow;
  }

  // ---------------------------------------------------------------- restarts

  ghost predicate NoPeerOf(s: System, o: Owner) {
    forall k :: k in s.device && k in s.mem.peers ==> OwnerOf(k, s.mem.peers[k]) != o
  }

  lemma RestoreKeepsBlock(s: System, i: RestoreInput, o: Owner, day: int, zone: int)
    requires Structural(s.mem) && OnDay(i.clock, day, zone) && BlockedSystem(s, o, day, zone) && s.device == map[]
    ensures BlockedSystem(RestorePeers(s, i).sys, o, day, zone)
    ensures NoPeerOf(RestorePeers(s, i).sys, o)
  {
    BlockSurvivesNormalize(s.mem.quotas[o], i.clock, day, zone);
    assert RestoreQuota(s.mem.quotas[o], i) == s.mem.quotas[o];
    var restored := s.(mem := RestoredMemory(s.mem, i), device := RestoredDevice(s, i));
    assert BlockedIn(restored.mem.quotas, o, day, zone)
      by { hide Structural, RestoredRecord, Restored, RestoreQuota, RecentOwners; }
    forall k | k in restored.device && k in restored.mem.peers
      ensures OwnerOf(k, restored.mem.peers[k]) != o
    {
      hide Structural, RestoreQuota, Normalize, RecentOwners;
      assert OwnerOf(k, restored.mem.peers[k]) == OwnerOf(k, s.mem.peers[k]);
      assert DecideFor(s.mem, k, i).Attempt?;
    }
    PersistKeepsBlock(restored, i.save, o, day, zone);
    hide BlockedIn, BlockedImages, RestoredMemory, RestoredDevice, RestoreChanges, Structural;
  }

  lemma StartKeepsBlock(w: World, image: Option<Disk>, c: Clock, save: SaveOutcome, restore: RestoreInput, o: Owner,
    day: int, zone: int)
    requires BlockedWorld(w, o, day, zone) && image in w.sys.images && Loadable(image.value)
    requires OnDay(c, day, zone) && OnDay(restore.clock, day, zone)
    ensures BlockedWorld(Start(w, image, c, save, restore), o, day, zone)
    ensures NoPeerOf(Start(w, image, c, save, restore).sys, o)
  {
    var m := RollWindow(Recall(image, ZERO_TIME, c), c.now, DAY);
    BlockSurvivesNormalize(image.value.quotas.value[o], c, day, zone);
    assert BlockedIn(m.quotas, o, day, zone) by { hide Loadable, Positive; }
    PersistKeepsBlock(System(m, w.sys.images, map[]), save, o, day, zone);
    var loaded := Load(Booted(w), image, c, save);
    assert loaded.sys == Persist(System(m, w.sys.images, map[]), save);
    if loaded.error == NoError && Structural(loaded.sys.mem) {
      RestoreKeepsBlock(loaded.sys, restore, o, day, zone);
    }
    hide RestorePeers, Load, BlockedIn, BlockedImages, Structural, Loadable;
  }

  // ---------------------------------------------------------------- runs

  lemma StepKeepsBlock(w: World, step: Step, o: Owner, day: int, zone: int)
    requires Healthy(w) && BlockedWorld(w, o, day, zone) && Wired(w, step, zone) && StepOnDay(step, day, zone)
    ensures BlockedWorld(Apply(w, step), o, day, zone)
    ensures step.Restart? ==> NoPeerOf(Apply(w, step).sys, o)
  {
    match step
    case Restart(image, c, save, restore) =>
      StartKeepsBlock(w, image, c, save, restore, o, day, zone);
      hide Start;
    case Register(i) =>
      if w.up { RegisterKeepsBlock(w.sys, i, o, day, zone); }
      hide RegisterPeer, BlockedIn, BlockedImages;
    case Issue(i) =>
      if w.up { IssueKeepsBlock(w.sys, i, o, day, zone); }
      hide IssueAuthKey, BlockedIn, BlockedImages;
    case Commit(i) =>
      if w.up { ReconcileKeepsBlock(w.sys, i, o, day, zone); }
      hide Reconcile, BlockedIn, BlockedImages;
    case TakeSnapshot(_, _) =>
      hide BlockedIn, BlockedImages, Healthy;
    case Traffic(_, _, _) =>
      hide BlockedIn, BlockedImages, Healthy;
    case ResetCounters(_) =>
      hide BlockedIn, BlockedImages, Healthy;
  }

  ghost predicate RunOnDay(steps: seq<Step>, day: int, zone: int) {
    forall n :: 0 <= n < |steps| ==> StepOnDay(steps[n], day, zone)
  }

  /** Once blocked, an owner stays out for the rest of the day: after any run of that day, no
      registration charged to it succeeds, and no restart puts one of its peers on the device. */
  lemma {:induction false} BlockHoldsUntilMidnight(w: World, steps: seq<Step>, o: Owner, day: int, zone: int)
    requires Healthy(w) && BlockedWorld(w, o, day, zone)
    requires WiredRun(w, steps, zone) && RunOnDay(steps, day, zone)
    ensures BlockedWorld(Run(w, steps), o, day, zone)
    ensures |steps| > 0 && steps[|steps| - 1].Restart? ==> NoPeerOf(Run(w, steps).sys, o)
    ensures forall i: RegisterInput :: Run(w, steps).up && OnDay(i.clock, day, zone) && Applicant(i) == o ==>
      RegisterPeer(Run(w, steps).sys, i).error != NoError
  {
    if |steps| > 0 {
      var before := Run(w, steps[..|steps| - 1]);
      RunsStayHealthy(w, steps[..|steps| - 1], zone);
      BlockHoldsUntilMidnight(w, steps[..|steps| - 1], o, day, zone);
      StepKeepsBlock(before, steps[|steps| - 1], o, day, zone);
    }
    hide BlockedImages, Apply, Wired, OnDay, StepOnDay, NoPeerOf, Healthy, RegisterPeer;
    forall i: RegisterInput | Run(w, steps).up && OnDay(i.clock, day, zone) && Applicant(i) == o
      ensures RegisterPeer(Run(w, steps).sys, i).error != NoError
    {
      BlockedApplicantIsRefused(Run(w, steps).sys, i, day, zone);
    }
  }

  // ---------------------------------------------------------------- any block of a run

  lemma NilReconcileSavesAccounts(s: System, i: ReconcileInput)
    requires Structural(s.mem) && Reconcile(s, i).error == NoError
    ensures var t := Reconcile(s, i).sys;
      t.mem.quotas == Reconciled(s.mem, i).quotas && t.images == {Some(DiskOf(Reconciled(s.mem, i)))}
  {
    hide Structural, Reconciled, RemovedKeys;
  }

  /** Any owner that is blocked after a nil reconcile of any run, whenever it was blocked, stays out
      for the rest of that day: through any later calls, modes, limits, failed saves and restarts no
      registration charged to it succeeds, and no restart puts one of its peers on the device. */
  lemma BlockedOwnerStaysOut(w: World, steps: seq<Step>, zone: int, i: ReconcileInput, later: seq<Step>, o: Owner)
    requires Fresh(w) && WiredRun(w, steps, zone)
    requires var x := Run(w, steps);
      && x.up && Wired(x, Commit(i), zone) && Structural(x.sys.mem) && Reconcile(x.sys, i).error == NoError
      && i.clock.now < AccountOf(Reconcile(x.sys, i).sys.mem.quotas, o, i.clock).blockedUntil
    requires WiredRun(Apply(Run(w, steps), Commit(i)), later, zone) && RunOnDay(later, Today(i.clock), zone)
    ensures var t := Run(Apply(Run(w, steps), Commit(i)), later);
      && BlockedWorld(t, o, Today(i.clock), zone)
      && (|later| > 0 && later[|later| - 1].Restart? ==> NoPeerOf(t.sys, o))
      && forall j: RegisterInput :: t.up && OnDay(j.clock, Today(i.clock), zone) && Applicant(j) == o ==>
        RegisterPeer(t.sys, j).error != NoError
  {
    FreshIsHealthy(w);
    assert MidnightWorld(w, zone);
    hide Healthy, MidnightBlocks, MidnightImages, Reconcile, Reconciled, RegisterPeer, NoPeerOf, RunOnDay, Structural,
      BlockedImages, QuotaFor, Lists, Run, WiredRun;
    var x := Run(w, steps);
    RunsStayHealthy(w, steps, zone);
    RunsBlockUntilMidnight(w, steps, zone);
    StepKeepsHealthy(x, Commit(i), zone);
    StepKeepsMidnight(x, Commit(i), zone);
    var y := Apply(x, Commit(i));
    SeenBlockIsToday(y.sys.mem.quotas, o, i.clock);
    NilReconcileSavesAccounts(x.sys, i);
    assert BlockedWorld(y, o, Today(i.clock), zone)
      by { SavedAccountsAreBlocked(y, Reconciled(x.sys.mem, i), o, Today(i.clock), zone); }
    BlockHoldsUntilMidnight(y, later, o, Today(i.clock), zone);
  }

  lemma SavedAccountsAreBlocked(w: World, m: Memory, o: Owner, day: int, zone: int)
    requires w.sys.mem.quotas == m.quotas && w.sys.images == {Some(DiskOf(m))} && BlockedIn(m.quotas, o, day, zone)
    ensures BlockedWorld(w, o, day, zone)
  {
  }
}
