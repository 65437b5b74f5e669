/** The accounts that registrations and restores consult follow the ledger: on any one day, an
    owner's usage is what was charged to it, capped at the largest 64-bit integer, through
    pruning, registrations, failed saves and restarts. Only charges whose save failed may be
    missing, and only after a restart that read the older file. */
module Accounts {
  import opened Clocks
  import opened Records
  import opened Operations
  import opened Structure
  import opened Charging
  import opened Runs
  import opened Pruning
  import opened Blocks
  import opened Metering
  import opened Sessions
  import opened FailClosed

  /** An owner's usage on a given day; an account of another day counts as unused. */
  function UsedOn(quotas: map<Owner, QuotaRecord>, o: Owner, day: int): int {
    if o in quotas && quotas[o].usageDate == Day(day) then quotas[o].usedBytes else 0
  }

  function ImageUsedOn(image: Option<Disk>, o: Owner, day: int): int {
    if image.Some? && image.value.quotas.Some? then UsedOn(image.value.quotas.value, o, day) else 0
  }

  /** The owner's usage in memory, and in every file a restart may find, lies in a range. */
  ghost predicate Between(s: System, o: Owner, day: int, lo: int, hi: int) {
    && lo <= UsedOn(s.mem.quotas, o, day) <= hi
    && ImagesBetween(s.images, o, day, lo, hi)
  }

  ghost predicate ImagesBetween(images: set<Option<Disk>>, o: Owner, day: int, lo: int, hi: int) {
    forall image :: image in images ==> lo <= ImageUsedOn(image, o, day) <= hi
  }

  ghost predicate BetweenWorld(w: World, o: Owner, day: int, lo: int, hi: int) {
    (w.up ==> Between(w.sys, o, day, lo, hi)) && ImagesBetween(w.sys.images, o, day, lo, hi)
  }

  ghost predicate Lost(step: Step) {
    step.Commit? && step.commit.save.SaveFailed?
  }

  /** The ledger without the entries of reconciles whose save failed. */
  ghost function SavedCharges(w: World, steps: seq<Step>): seq<Entry> {
    if |steps| == 0 then []
    else
      var before, step := Run(w, steps[..|steps| - 1]), steps[|steps| - 1];
      SavedCharges(w, steps[..|steps| - 1]) + if Lost(step) then [] else StepCharges(before, step)
  }

  // ---------------------------------------------------------------- which changes keep usage

  /** The account a registration sees shows the usage of its day. */
  lemma SeenUsage(quotas: map<Owner, QuotaRecord>, o: Owner, c: Clock)
    ensures AccountOf(quotas, o, c).usedBytes == UsedOn(quotas, o, Today(c))
    ensures AccountOf(quotas, o, c).usageDate == Day(Today(c))
  {
  }

  lemma NormalizedUsage(quotas: map<Owner, QuotaRecord>, c: Clock, o: Owner)
    ensures UsedOn(NormalizeAll(quotas, c), o, Today(c)) == UsedOn(quotas, o, Today(c))
  {
  }

  lemma WrittenUsage(m: Memory, peer: Key, credential: Credential, c: Clock, o: Owner)
    ensures UsedOn(Written(m, peer, credential, c).quotas, o, Today(c)) == UsedOn(m.quotas, o, Today(c))
  {
    SeenUsage(m.quotas, o, c);
    hide AccountOf;
  }

  lemma RestoredUsage(m: Memory, i: RestoreInput, o: Owner)
    requires Structural(m)
    ensures UsedOn(RestoredMemory(m, i).quotas, o, Today(i.clock)) == UsedOn(m.quotas, o, Today(i.clock))
  {
    if o in m.quotas {
      assert RestoreQuota(m.quotas[o], i).usedBytes == Normalize(m.quotas[o], i.clock).usedBytes;
      assert RestoreQuota(m.quotas[o], i).usageDate == Day(Today(i.clock));
      assert m.quotas[o].usageDate == Day(Today(i.clock)) ==>
        Normalize(m.quotas[o], i.clock).usedBytes == m.quotas[o].usedBytes;
      assert m.quotas[o].usageDate != Day(Today(i.clock)) ==> Normalize(m.quotas[o], i.clock).usedBytes == 0;
    }
    hide Structural, RestoreQuota, RecentOwners, RestoredRecord, Restored, Normalize;
  }

  lemma PrunedUsage(m: Memory, c: Clock, o: Owner)
    requires Dated(m.quotas, c.zone)
    ensures UsedOn(PruneQuotas(m, c.now).quotas, o, Today(c)) == UsedOn(m.quotas, o, Today(c))
  {
    hide Referenced;
    if o in m.quotas && o !in PruneQuotas(m, c.now).quotas {
      DistantInstantsDifferInDay(m.quotas[o].lastSeen, c.now, c.zone);
    }
  }

  lemma ChargedUsage(m: Memory, s: seq<PeerInfo>, mode: Mode, c: Clock, o: Owner)
    requires Structural(m) && UniqueKeys(s)
    ensures UsedOn(ChargeAll(m, s, mode, c).quotas, o, Today(c)) ==
      Capped(UsedOn(m.quotas, o, Today(c)) + ByOwner(Entries(m, s, mode, c.now), o))
  {
    hide Structural, UniqueKeys, ChargeAll, Entries, TotalCharge, AccountOf, Listed, Today;
    AggregateCharge(m, s, mode, c, o);
    EntriesByOwner(m, s, mode, c.now, o);
    SeenUsage(m.quotas, o, c);
  }

  lemma BlockedUsage(m: Memory, s: seq<PeerInfo>, limit: int, c: Clock, o: Owner)
    ensures UsedOn(BlockOwners(m, s, limit, c).quotas, o, Today(c)) == UsedOn(m.quotas, o, Today(c))
  {
    hide SnapshotOwners;
  }

  /** One reconcile adds exactly what it charges, whatever it prunes. */
  lemma ReconciledUsage(m: Memory, i: ReconcileInput, o: Owner)
    requires Structural(m) && UniqueKeys(i.snapshot) && Dated(m.quotas, i.clock.zone)
    ensures UsedOn(Reconciled(m, i).quotas, o, Today(i.clock)) ==
      Capped(UsedOn(m.quotas, o, Today(i.clock)) + ByOwner(Entries(m, i.snapshot, i.mode, i.clock.now), o))
  {
    ChargedUsage(m, i.snapshot, i.mode, i.clock, o);
    BlockedUsage(ChargeAll(m, i.snapshot, i.mode, i.clock), i.snapshot, i.limit, i.clock, o);
    UnprunedIsDated(m, i);
    PrunedUsage(Unpruned(m, i), i.clock, o);
    assert Unpruned(m, i).quotas == Judged(m, i).quotas by { hide Structural, RejectedKeys, Judged; }
    hide Structural, UniqueKeys, ChargeAll, Entries, ByOwner, UsedOn, BlockOwners, Dated, Unpruned, PruneQuotas,
      Reconciled, Today;
  }

  // ---------------------------------------------------------------- each step

  lemma PersistKeepsRange(s: System, outcome: SaveOutcome, o: Owner, day: int, lo: int, hi: int)
    requires Between(s, o, day, lo, hi)
    ensures Between(Persist(s, outcome), o, day, lo, hi)
  {
    hide UsedOn;
  }

  lemma RegisterKeepsRange(s: System, i: RegisterInput, o: Owner, lo: int, hi: int)
    requires Between(s, o, Today(i.clock), lo, hi)
    ensures Between(RegisterPeer(s, i).sys, o, Today(i.clock), lo, hi)
  {
    if !s.mem.failed {
      var credential := Authorize(i.mode, i.request, i.validated, i.revoked).credential;
      var c := AdmitCases(s, i, credential);
      var written := Written(s.mem, i.peer, credential, i.clock);
      WrittenUsage(s.mem, i.peer, credential, i.clock, o);
      ImagesOfUsage(s, written, o, Today(i.clock), lo, hi);
      hide Admit, Written, OtherPeers, QuotaFor, OverQuota, UsedOn, AddTo, RemoveFrom, Touch, Today, DiskOf,
        ImagesBetween;
    }
  }

  /** Files written from memories with the same usage are in the same range. */
  lemma ImagesOfUsage(s: System, written: Memory, o: Owner, day: int, lo: int, hi: int)
    requires Between(s, o, day, lo, hi) && UsedOn(written.quotas, o, day) == UsedOn(s.mem.quotas, o, day)
    ensures ImagesBetween(s.images + {Some(DiskOf(written))}, o, day, lo, hi)
    ensures forall images :: images <= {Some(DiskOf(written)), Some(DiskOf(s.mem))} ==>
      ImagesBetween(images, o, day, lo, hi)
  {
    hide UsedOn;
  }

  lemma RollKeepsQuotas(m: Memory, now: Time, window: int)
    ensures RollWindow(m, now, window).quotas == m.quotas
  {
  }

  lemma IssueKeepsRange(s: System, i: IssueInput, o: Owner, day: int, lo: int, hi: int)
    requires Between(s, o, day, lo, hi)
    ensures Between(IssueAuthKey(s, i).sys, o, day, lo, hi)
  {
    hide RollWindow, UsedOn;
    RollKeepsQuotas(s.mem, i.clock.now, i.window);
  }

  lemma CommitMovesRange(s: System, i: ReconcileInput, o: Owner, lo: int, hi: int)
    requires Structural(s.mem) && UniqueKeys(i.snapshot) && Dated(s.mem.quotas, i.clock.zone) && !s.mem.failed
    requires Between(s, o, Today(i.clock), lo, hi)
    ensures var bytes := ByOwner(Entries(s.mem, i.snapshot, i.mode, i.clock.now), o);
      Between(Reconcile(s, i).sys, o, Today(i.clock), if i.save.SaveOk? then Capped(lo + bytes)
        else lo, Capped(hi + bytes))
  {
    hide Structural, UniqueKeys, Reconciled, Reconcile, Entries, ByOwner, Dated, Today, DiskOf;
    ReconciledUsage(s.mem, i, o);
    var bytes := ByOwner(Entries(s.mem, i.snapshot, i.mode, i.clock.now), o);
    var used, day := UsedOn(Reconciled(s.mem, i).quotas, o, Today(i.clock)), Today(i.clock);
    assert lo <= UsedOn(s.mem.quotas, o, day) <= MAX_INT64;
    ChargedImages(s.images, Reconciled(s.mem, i), bytes, o, day, lo, hi);
    CommitEnd(s, i);
    hide UsedOn, ImagesBetween;
    if i.save.SaveOk? {
      assert ImagesBetween({Some(DiskOf(Reconciled(s.mem, i)))}, o, day, used, used);
      WiderRange({Some(DiskOf(Reconciled(s.mem, i)))}, o, day, used, used, Capped(lo + bytes), Capped(hi + bytes));
    }
  }

  lemma WiderRange(images: set<Option<Disk>>, o: Owner, day: int, lo: int, hi: int, lower: int, higher: int)
    requires ImagesBetween(images, o, day, lo, hi) && lower <= lo && hi <= higher
    ensures ImagesBetween(images, o, day, lower, higher)
  {
    hide ImageUsedOn;
  }

  lemma ChargedImages(images: set<Option<Disk>>, m: Memory, bytes: nat, o: Owner, day: int, lo: int, hi: int)
    requires ImagesBetween(images, o, day, lo, hi) && lo <= UsedOn(m.quotas, o, day) <= Capped(hi + bytes)
    ensures ImagesBetween({Some(DiskOf(m))}, o, day, UsedOn(m.quotas, o, day), UsedOn(m.quotas, o, day))
    ensures ImagesBetween(images + {Some(DiskOf(m))}, o, day, lo, Capped(hi + bytes))
  {
    forall image | image in images ensures ImageUsedOn(image, o, day) <= Capped(hi + bytes) {
      assert ImageUsedOn(image, o, day) <= MAX_INT64;
    }
  }

  /** What a reconcile leaves of accounts and files. */
  lemma CommitEnd(s: System, i: ReconcileInput)
    requires Structural(s.mem) && !s.mem.failed
    ensures var t, d := Reconcile(s, i).sys, Some(DiskOf(Reconciled(s.mem, i)));
      t.mem.quotas == Reconciled(s.mem, i).quotas && t.images == if i.save.SaveOk? then {d} else s.images + {d}
  {
    hide Structural, Reconciled, RemovedKeys;
    assert Reconciled(s.mem, i).failed == s.mem.failed by { ReconciledKeepsLatch(s.mem, i); }
  }

  lemma StartKeepsRange(w: World, image: Option<Disk>, c: Clock, save: SaveOutcome, restore: RestoreInput, o: Owner,
    lo: int, hi: int)
    requires ImagesBetween(w.sys.images, o, Today(c), lo, hi) && image in w.sys.images
    requires Today(restore.clock) == Today(c)
    requires image.Some? ==> Loadable(image.value)
    ensures BetweenWorld(Start(w, image, c, save, restore), o, Today(c), lo, hi)
  {
    var m := RollWindow(Recall(image, ZERO_TIME, c), c.now, DAY);
    assert UsedOn(m.quotas, o, Today(c)) == ImageUsedOn(image, o, Today(c)) by {
      if image.Some? { NormalizedUsage(image.value.quotas.value, c, o); }
    }
    PersistKeepsRange(System(m, w.sys.images, map[]), save, o, Today(c), lo, hi);
    var loaded := Load(Booted(w), image, c, save);
    assert loaded.sys == Persist(System(m, w.sys.images, map[]), save);
    if loaded.error == NoError && Structural(loaded.sys.mem) {
      RestoreKeepsRange(loaded.sys, restore, o, lo, hi);
    }
    hide RestorePeers, Load, Structural, Loadable, UsedOn, Today, Persist;
  }

  lemma RestoreKeepsRange(s: System, i: RestoreInput, o: Owner, lo: int, hi: int)
    requires Structural(s.mem) && Between(s, o, Today(i.clock), lo, hi)
    ensures Between(RestorePeers(s, i).sys, o, Today(i.clock), lo, hi)
  {
    RestoredUsage(s.mem, i, o);
    PersistKeepsRange(s.(mem := RestoredMemory(s.mem, i), device := RestoredDevice(s, i)), i.save, o, Today(i.clock),
      lo, hi);
    hide Structural, RestoredMemory, RestoredDevice, RestoreChanges, UsedOn, Today, Persist;
  }

  lemma StepMovesRange(w: World, step: Step, zone: int, o: Owner, day: int, lo: int, hi: int)
    requires Healthy(w) && DatedWorld(w, zone) && UniquePending(w) && Wired(w, step, zone) && StepOnDay(step, day, zone)
    requires BetweenWorld(w, o, day, lo, hi) && lo <= MAX_INT64 && hi <= MAX_INT64
    ensures var bytes := ByOwner(StepCharges(w, step), o);
      BetweenWorld(Apply(w, step), o, day, if Lost(step) then lo else Capped(lo + bytes), Capped(hi + bytes))
  {
    hide UsedOn, Persistable, Loadable, Entries, Dated, Today, Reconcile, RegisterPeer, IssueAuthKey, Start, UniqueKeys,
      Lists;
    match step
    case Restart(image, c, save, restore) =>
      StartKeepsRange(w, image, c, save, restore, o, lo, hi);
      hide Healthy, ImagesBetween, Between;
    case Commit(i) =>
      CommitStepMovesRange(w, i, o, lo, hi);
      hide Apply, Healthy, BetweenWorld, StepCharges, UniqueKeys;
    case Register(i) =>
      hide ImagesBetween;
      if w.up { RegisterKeepsRange(w.sys, i, o, lo, hi); }
    case Issue(i) =>
      hide ImagesBetween;
      if w.up { IssueKeepsRange(w.sys, i, o, day, lo, hi); }
    case TakeSnapshot(_, _) =>
      hide Healthy, ImagesBetween;
    case Traffic(_, _, _) =>
      hide Healthy, ImagesBetween;
    case ResetCounters(_) =>
      hide Healthy, ImagesBetween;
  }

  lemma CommitStepMovesRange(w: World, i: ReconcileInput, o: Owner, lo: int, hi: int)
    requires UniquePending(w) && w.pending == Some(i.snapshot) && (w.up ==> Dated(w.sys.mem.quotas, i.clock.zone))
    requires BetweenWorld(w, o, Today(i.clock), lo, hi) && lo <= MAX_INT64 && hi <= MAX_INT64
    ensures var bytes := ByOwner(StepCharges(w, Commit(i)), o);
      BetweenWorld(Apply(w, Commit(i)), o, Today(i.clock), if Lost(Commit(i)) then lo
        else Capped(lo + bytes), Capped(hi + bytes))
  {
    hide Reconcile, Structural, Entries, Dated, ImagesBetween, UniqueKeys, UsedOn, Today;
    if Commits(w, Commit(i)) {
      CommitMovesRange(w.sys, i, o, lo, hi);
    } else {
      UncommittedChangesNothing(w, i, 0);
      assert StepCharges(w, Commit(i)) == [] && ByOwner([], o) == 0;
      hide Apply, Between, StepCharges;
    }
  }

  // ---------------------------------------------------------------- runs

  /** Over any run within one day, an owner's usage, in memory and in every file a restart may
      read, lies between what was charged and saved and what was charged. */
  lemma {:induction false} UsageFollowsCharges(w: World, steps: seq<Step>, zone: int, o: Owner, day: int, lo: int,
    hi: int)
    requires Healthy(w) && DatedWorld(w, zone) && UniquePending(w) && WiredRun(w, steps, zone)
    requires RunOnDay(steps, day, zone)
    requires BetweenWorld(w, o, day, lo, hi) && lo <= MAX_INT64 && hi <= MAX_INT64
    ensures BetweenWorld(Run(w, steps), o, day,
      Capped(lo + ByOwner(SavedCharges(w, steps), o)), Capped(hi + ByOwner(Charges(w, steps), o)))
  {
    hide *;
    if |steps| > 0 {
      RunUnfolds(w, steps, zone, day);
      var before, step := Run(w, steps[..|steps| - 1]), steps[|steps| - 1];
      RunsStayHealthy(w, steps[..|steps| - 1], zone);
      RunsStayDated(w, steps[..|steps| - 1], zone);
      SnapshotsListKeysOnce(w, steps[..|steps| - 1], zone);
      UsageFollowsCharges(w, steps[..|steps| - 1], zone, o, day, lo, hi);
      var saved, charged := SavedCharges(w, steps[..|steps| - 1]), Charges(w, steps[..|steps| - 1]);
      var entries := StepCharges(before, step);
      CapTwice(lo, ByOwner(saved, o), ByOwner(entries, o));
      CapTwice(hi, ByOwner(charged, o), ByOwner(entries, o));
      StepMovesRange(before, step, zone, o, day, Capped(lo + ByOwner(saved, o)), Capped(hi + ByOwner(charged, o)));
      LedgerAppends(saved, entries);
      LedgerAppends(charged, entries);
      assert saved + [] == saved;
    } else {
      assert steps == [];
      NothingCharged(w, o);
      CapTwice(lo, 0, 0);
      CapTwice(hi, 0, 0);
    }
  }

  lemma NothingCharged(w: World, o: Owner)
    ensures Run(w, []) == w && ByOwner(Charges(w, []), o) == 0 && ByOwner(SavedCharges(w, []), o) == 0
  {
  }

  lemma RunUnfolds(w: World, steps: seq<Step>, zone: int, day: int)
    requires |steps| > 0 && WiredRun(w, steps, zone) && RunOnDay(steps, day, zone)
    ensures WiredRun(w, steps[..|steps| - 1], zone) && RunOnDay(steps[..|steps| - 1], day, zone)
    ensures Wired(Run(w, steps[..|steps| - 1]), steps[|steps| - 1], zone) && StepOnDay(steps[|steps| - 1], day, zone)
    ensures var before, step := Run(w, steps[..|steps| - 1]), steps[|steps| - 1];
      && Run(w, steps) == Apply(before, step)
      && Charges(w, steps) == Charges(w, steps[..|steps| - 1]) + StepCharges(before, step)
      && SavedCharges(w, steps) == SavedCharges(w, steps[..|steps| - 1]) + if Lost(step) then []
        else StepCharges(before, step)
  {
    hide Apply, StepCharges, Lost, Wired, StepOnDay;
  }

  lemma CapTwice(x: int, a: nat, b: nat)
    ensures Capped(Capped(x + a) + b) == Capped(x + (a + b)) && Capped(x + a) <= MAX_INT64
    ensures x <= MAX_INT64 ==> Capped(x) == x
  {
  }

  lemma {:induction false} NothingLost(w: World, steps: seq<Step>)
    requires forall n :: 0 <= n < |steps| && steps[n].Commit? ==> steps[n].commit.save.SaveOk?
    ensures SavedCharges(w, steps) == Charges(w, steps)
  {
    if |steps| > 0 {
      NothingLost(w, steps[..|steps| - 1]);
    }
  }

  /** If no reconcile's save failed, the usage any registration of that day sees is exactly the
      usage at the start of the run plus the bytes charged, capped: nothing is lost or counted
      twice by pruning, re-registration or restarts. */
  lemma UsageIsExact(w: World, steps: seq<Step>, zone: int, o: Owner, before: int, c: Clock)
    requires Healthy(w) && DatedWorld(w, zone) && UniquePending(w) && WiredRun(w, steps, zone)
    requires RunOnDay(steps, Today(c), zone)
    requires forall n :: 0 <= n < |steps| && steps[n].Commit? ==> steps[n].commit.save.SaveOk?
    requires BetweenWorld(w, o, Today(c), before, before) && before <= MAX_INT64 && Run(w, steps).up
    ensures AccountOf(Run(w, steps).sys.mem.quotas, o, c).usedBytes == Capped(before + ByOwner(Charges(w, steps), o))
  {
    hide *;
    UsageFollowsCharges(w, steps, zone, o, Today(c), before, before);
    NothingLost(w, steps);
    SeenUsage(Run(w, steps).sys.mem.quotas, o, c);
    ExactUsage(Run(w, steps), o, Today(c), Capped(before + ByOwner(Charges(w, steps), o)));
  }

  lemma ExactUsage(w: World, o: Owner, day: int, used: int)
    requires BetweenWorld(w, o, day, used, used) && w.up
    ensures UsedOn(w.sys.mem.quotas, o, day) == used
  {
  }
}
