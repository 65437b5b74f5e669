/** Forgetting an idle owner's account cannot be noticed: a later registration sees the same
    usage and the same block whether or not the account was pruned. */
module Pruning {
  import opened Clocks
  import opened Records
  import opened Operations
  import opened Structure
  import opened Runs
  import opened Terms

  /** Usage is always of the day the account was last used. */
  ghost predicate DatedQuota(q: QuotaRecord, zone: int) {
    q.usedBytes != 0 ==> q.usageDate == Day(LocalDay(q.lastSeen, zone))
  }

  ghost predicate Dated(quotas: map<Owner, QuotaRecord>, zone: int) {
    forall o :: o in quotas ==> DatedQuota(quotas[o], zone)
  }

  ghost predicate DatedImage(image: Option<Disk>, zone: int) {
    image.Some? && image.value.quotas.Some? ==> Dated(image.value.quotas.value, zone)
  }

  ghost predicate DatedSystem(s: System, zone: int) {
    Dated(s.mem.quotas, zone) && forall image :: image in s.images ==> DatedImage(image, zone)
  }

  ghost predicate DatedWorld(w: World, zone: int) {
    (w.up ==> Dated(w.sys.mem.quotas, zone)) && forall image :: image in w.sys.images ==> DatedImage(image, zone)
  }

  // ---------------------------------------------------------------- pruned and kept look alike

  /** The heart of the matter: an account that may be pruned at `c` reads like a fresh one at
      every later instant. */
  lemma ExpiredLooksFresh(q: QuotaRecord, c: Clock, later: Clock)
    requires DatedQuota(q, c.zone) && QuotaExpired(q, c.now)
    requires later.zone == c.zone && c.now <= later.now
    ensures forall t :: Normalize(q, later).(lastSeen := t) == FreshQuota(later).(lastSeen := t)
  {
    if q.usedBytes != 0 {
      DistantInstantsDifferInDay(q.lastSeen, c.now, c.zone);
    }
  }

  ghost predicate AlikeAccounts(a: map<Owner, QuotaRecord>, b: map<Owner, QuotaRecord>, c: Clock) {
    forall o, t :: AccountOf(a, o, c).(lastSeen := t) == AccountOf(b, o, c).(lastSeen := t)
  }

  /** For every owner and every later instant, usage and block are the same before and after
      the accounts were pruned. */
  lemma PruningIsInvisible(m: Memory, c: Clock, later: Clock)
    requires Dated(m.quotas, c.zone) && later.zone == c.zone && c.now <= later.now
    ensures AlikeAccounts(m.quotas, PruneQuotas(m, c.now).quotas, later)
  {
    var pruned := PruneQuotas(m, c.now).quotas;
    forall o, t ensures AccountOf(m.quotas, o, later).(lastSeen := t) == AccountOf(pruned, o, later).(lastSeen := t) {
      if o in m.quotas && o !in pruned {
        ExpiredLooksFresh(m.quotas[o], c, later);
        NormalFresh(later);
      }
      hide Normalize, FreshQuota;
    }
  }

  lemma NormalFresh(c: Clock)
    ensures Normalize(FreshQuota(c), c) == FreshQuota(c)
  {
  }

  /** Two systems that differ only in pruned accounts answer every registration alike, and put
      the same peers, sessions and account of the applicant in place. */
  lemma RegistrationIgnoresPruning(s: System, quotas: map<Owner, QuotaRecord>, i: RegisterInput)
    requires AlikeAccounts(s.mem.quotas, quotas, i.clock)
    ensures var r, t := RegisterPeer(s, i), RegisterPeer(s.(mem := s.mem.(quotas := quotas)), i);
      && r.error == t.error && r.credential == t.credential
      && r.sys.device == t.sys.device
      && r.sys.mem.peers == t.sys.mem.peers && r.sys.mem.runtime == t.sys.mem.runtime
      && (r.error == NoError ==>
        var o := QuotaOwner(i.peer, r.credential.keyID, r.credential.generation);
        o in r.sys.mem.quotas && o in t.sys.mem.quotas && r.sys.mem.quotas[o] == t.sys.mem.quotas[o])
  {
    if !s.mem.failed {
      var credential := Authorize(i.mode, i.request, i.validated, i.revoked).credential;
      AdmissionIgnoresPruning(s, quotas, i, credential);
      hide Admit;
    }
  }

  lemma AdmissionIgnoresPruning(s: System, quotas: map<Owner, QuotaRecord>, i: RegisterInput, credential: Credential)
    requires AlikeAccounts(s.mem.quotas, quotas, i.clock) && !s.mem.failed
    ensures var r, t := Admit(s, i, credential), Admit(s.(mem := s.mem.(quotas := quotas)), i, credential);
      && r.error == t.error && r.credential == t.credential == credential
      && r.sys.device == t.sys.device
      && r.sys.mem.peers == t.sys.mem.peers && r.sys.mem.runtime == t.sys.mem.runtime
      && (r.error == NoError ==>
        var o := QuotaOwner(i.peer, credential.keyID, credential.generation);
        o in r.sys.mem.quotas && o in t.sys.mem.quotas && r.sys.mem.quotas[o] == t.sys.mem.quotas[o])
  {
    hide Admit, AccountOf, OtherPeers, WithinQuota, RecordFor, AlikeAccounts, Touch, AddTo, RemoveFrom, DiskOf;
    var o := QuotaOwner(i.peer, credential.keyID, credential.generation);
    var t := s.(mem := s.mem.(quotas := quotas));
    AlikeAt(s.mem.quotas, quotas, o, i.clock);
    OverQuotaIsNotWithin(s.mem.quotas, o, i.limit, i.clock);
    OverQuotaIsNotWithin(quotas, o, i.limit, i.clock);
    SamePeersSameRecords(s.mem, quotas, o, i.peer, credential, i.clock.now);
    var c := AdmitCases(s, i, credential);
    var d := AdmitCases(t, i, credential);
  }

  lemma AlikeAt(a: map<Owner, QuotaRecord>, b: map<Owner, QuotaRecord>, o: Owner, c: Clock)
    requires AlikeAccounts(a, b, c)
    ensures var x, y := AccountOf(a, o, c), AccountOf(b, o, c);
      x.blockedUntil == y.blockedUntil && x.usedBytes == y.usedBytes && x.(lastSeen := c.now) == y.(lastSeen := c.now)
  {
    hide AccountOf;
    var x, y := AccountOf(a, o, c), AccountOf(b, o, c);
    assert x.(lastSeen := c.now) == y.(lastSeen := c.now);
    assert x.usedBytes == x.(lastSeen := c.now).usedBytes && x.blockedUntil == x.(lastSeen := c.now).blockedUntil;
    assert y.usedBytes == y.(lastSeen := c.now).usedBytes && y.blockedUntil == y.(lastSeen := c.now).blockedUntil;
  }

  lemma SamePeersSameRecords(m: Memory, quotas: map<Owner, QuotaRecord>, o: Owner, peer: Key, credential: Credential,
    now: Time)
    ensures OtherPeers(m, o, peer) == OtherPeers(m.(quotas := quotas), o, peer)
    ensures RecordFor(m, peer, credential, now) == RecordFor(m.(quotas := quotas), peer, credential, now)
  {
  }

  // ---------------------------------------------------------------- the invariant over runs

  lemma NormalizeKeepsDated(q: QuotaRecord, c: Clock)
    requires DatedQuota(q, c.zone)
    ensures DatedQuota(Normalize(q, c), c.zone)
    ensures forall used: Int64 :: DatedQuota(Normalize(q, c).(usedBytes := used, lastSeen := c.now), c.zone)
  {
  }

  lemma UsedTodayIsDated(quotas: map<Owner, QuotaRecord>, o: Owner, c: Clock, q: QuotaRecord)
    requires Dated(quotas, c.zone) && q.usageDate == Day(Today(c)) && q.lastSeen == c.now
    ensures Dated(quotas[o := q], c.zone)
  {
  }

  lemma RegisterKeepsDated(s: System, i: RegisterInput)
    requires DatedSystem(s, i.clock.zone)
    ensures DatedSystem(RegisterPeer(s, i).sys, i.clock.zone)
  {
    if !s.mem.failed {
      var credential := Authorize(i.mode, i.request, i.validated, i.revoked).credential;
      var c := AdmitCases(s, i, credential);
      var o := QuotaOwner(i.peer, credential.keyID, credential.generation);
      UsedTodayIsDated(s.mem.quotas, o, i.clock, AccountOf(s.mem.quotas, o, i.clock).(lastSeen := i.clock.now));
      assert Dated(Written(s.mem, i.peer, credential, i.clock).quotas, i.clock.zone);
      hide Admit, Written, Dated, OtherPeers, AccountOf;
    }
  }

  lemma IssueKeepsDated(s: System, i: IssueInput, zone: int)
    requires DatedSystem(s, zone)
    ensures DatedSystem(IssueAuthKey(s, i).sys, zone)
  {
    assert RollWindow(s.mem, i.clock.now, i.window).quotas == s.mem.quotas;
    hide Dated, RollWindow;
  }

  lemma {:induction false} ChargeAllKeepsDated(m: Memory, s: seq<PeerInfo>, mode: Mode, c: Clock)
    requires Structural(m) && Dated(m.quotas, c.zone)
    ensures Dated(ChargeAll(m, s, mode, c).quotas, c.zone)
  {
    if |s| > 0 {
      var n := |s| - 1;
      ChargeAllKeepsDated(m, s[..n], mode, c);
      var before, p := ChargeAll(m, s[..n], mode, c), s[n];
      var o := OwnerOf(p.key, KnownRecord(before, p.key, c.now));
      UsedTodayIsDated(before.quotas, o, c,
        Charged(AccountOf(before.quotas, o, c), p, RuntimeOf(before, p.key, c.now), c.now));
      hide Structural, Dated, Charged, AccountOf, Observed;
    }
  }

  lemma ReconciledIsDated(m: Memory, i: ReconcileInput)
    requires Structural(m) && Dated(m.quotas, i.clock.zone)
    ensures Dated(Reconciled(m, i).quotas, i.clock.zone)
  {
    ChargeAllKeepsDated(m, i.snapshot, i.mode, i.clock);
    hide Structural, ChargeAll, SnapshotOwners, RejectedKeys;
  }

  lemma ReconcileKeepsDated(s: System, i: ReconcileInput)
    requires Structural(s.mem) && DatedSystem(s, i.clock.zone)
    ensures DatedSystem(Reconcile(s, i).sys, i.clock.zone)
  {
    hide Structural, Reconciled, RemovedKeys, Dated;
    ReconciledIsDated(s.mem, i);
  }

  lemma RestoreKeepsDated(s: System, i: RestoreInput)
    requires Structural(s.mem) && DatedSystem(s, i.clock.zone)
    ensures DatedSystem(RestorePeers(s, i).sys, i.clock.zone)
  {
    var quotas := RestoredMemory(s.mem, i).quotas;
    forall o | o in quotas ensures DatedQuota(quotas[o], i.clock.zone) {
      NormalizeKeepsDated(s.mem.quotas[o], i.clock);
      hide Structural, Normalize, RecentOwners, DatedQuota, RestoredRecord, Restored;
      assert DatedQuota(Normalize(s.mem.quotas[o], i.clock).(blockedUntil := NextLocalMidnight(i.clock)), i.clock.zone)
        by {
        BlockIsDated(Normalize(s.mem.quotas[o], i.clock), NextLocalMidnight(i.clock), i.clock.zone);
      }
    }
    hide Structural, RestoredMemory, RestoredDevice, RestoreChanges, DatedQuota;
  }

  lemma BlockIsDated(q: QuotaRecord, until: Time, zone: int)
    requires DatedQuota(q, zone)
    ensures DatedQuota(q.(blockedUntil := until), zone)
  {
  }

  lemma StartIsDated(w: World, image: Option<Disk>, c: Clock, save: SaveOutcome, restore: RestoreInput)
    requires DatedWorld(w, c.zone) && image in w.sys.images && (image.Some? ==> Loadable(image.value))
    requires restore.clock.zone == c.zone
    ensures DatedWorld(Start(w, image, c, save, restore), c.zone)
  {
    var m := RollWindow(Recall(image, ZERO_TIME, c), c.now, DAY);
    assert Dated(m.quotas, c.zone) by {
      if image.Some? {
        forall o | o in m.quotas ensures DatedQuota(m.quotas[o], c.zone) {
          NormalizeKeepsDated(image.value.quotas.value[o], c);
        }
      }
    }
    var loaded := Load(Booted(w), image, c, save);
    assert DatedSystem(loaded.sys, c.zone) by { hide Dated, Loadable, Recall, RollWindow; }
    if loaded.error == NoError && Structural(loaded.sys.mem) {
      RestoreKeepsDated(loaded.sys, restore);
    }
    hide Load, RestorePeers, Structural, Dated;
  }

  lemma StepKeepsDated(w: World, step: Step, zone: int)
    requires Healthy(w) && DatedWorld(w, zone) && Wired(w, step, zone)
    ensures DatedWorld(Apply(w, step), zone)
  {
    match step
    case Restart(image, c, save, restore) =>
      StartIsDated(w, image, c, save, restore);
      hide Start, Dated;
    case Register(i) =>
      if w.up { RegisterKeepsDated(w.sys, i); }
      hide RegisterPeer, Dated, Healthy;
    case Issue(i) =>
      if w.up { IssueKeepsDated(w.sys, i, zone); }
      hide IssueAuthKey, Dated, Healthy;
    case Commit(i) =>
      if w.up { ReconcileKeepsDated(w.sys, i); }
      hide Reconcile, Dated;
    case TakeSnapshot(_, _) =>
      hide Dated, Healthy;
    case Traffic(_, _, _) =>
      hide Dated, Healthy;
    case ResetCounters(_) =>
      hide Dated, Healthy;
  }

  lemma {:induction false} RunsStayDated(w: World, steps: seq<Step>, zone: int)
    requires Healthy(w) && DatedWorld(w, zone) && WiredRun(w, steps, zone)
    ensures DatedWorld(Run(w, steps), zone)
  {
    if |steps| > 0 {
      RunsStayHealthy(w, steps[..|steps| - 1], zone);
      RunsStayDated(w, steps[..|steps| - 1], zone);
      StepKeepsDated(Run(w, steps[..|steps| - 1]), steps[|steps| - 1], zone);
      hide Healthy, DatedWorld, Apply, Wired;
    }
  }

  /** A reconcile's memory just before it prunes accounts. */
  function Unpruned(m: Memory, i: ReconcileInput): Memory
    requires Structural(m)
  {
    var judged := Judged(m, i);
    PrunePeers(ClearEndpoints(judged, RejectedKeys(judged, i.snapshot, i)), SnapshotKeys(i.snapshot), i.clock.now)
  }

  lemma UnprunedIsDated(m: Memory, i: ReconcileInput)
    requires Structural(m) && Dated(m.quotas, i.clock.zone)
    ensures Dated(Unpruned(m, i).quotas, i.clock.zone)
    ensures Reconciled(m, i) == PruneQuotas(Unpruned(m, i), i.clock.now)
  {
    ChargeAllKeepsDated(m, i.snapshot, i.mode, i.clock);
    hide Structural, ChargeAll, SnapshotOwners, RejectedKeys;
  }
}
