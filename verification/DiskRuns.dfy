/** Whole runs of the server on a real disk: every save a call makes is the protocol of system
    calls, the process may be killed inside any of them, the power may fail between any two disk
    states, and a restart loads what the disk then holds. Such a run is always a run in the sense
    of module Runs: what a load finds is one of the images that the controller counts on. */
module DiskRuns {
  import opened Clocks
  import opened Records
  import opened Operations
  import opened Structure
  import opened Runs
  import opened Terms
  import opened Metering
  import FailClosed
  import opened FileSystem
  import opened Store
  import opened CrashSafety

  /** One call of the store's Save, and whether it returned nil. */
  datatype SaveCall = SaveCall(disk: Disk, outcome: SaveOutcome)

  function ImagesAfter(images: set<Option<Disk>>, calls: seq<SaveCall>): set<Option<Disk>> {
    if |calls| == 0 then images
    else
      var call := calls[|calls| - 1];
      if call.outcome.SaveOk? then {Some(call.disk)}
      else ImagesAfter(images, calls[..|calls| - 1]) + {Some(call.disk)}
  }

  // ---------------------------------------------------------------- what each call saves

  function AdmitSaves(s: System, i: RegisterInput, credential: Credential): seq<SaveCall> {
    var owner := QuotaOwner(i.peer, credential.keyID, credential.generation);
    var first := SaveCall(DiskOf(Written(s.mem, i.peer, credential, i.clock)), i.save);
    if OverQuota(QuotaFor(s.mem, owner, i.clock), i.limit, i.clock.now) then []
    else if Issued(credential.keyID) && |OtherPeers(s.mem, owner, i.peer)| >= MAX_ACTIVE_PEERS then []
    else if i.save.SaveFailed? || i.add.AddOk? || !i.cleanup.RemoveOk? then [first]
    else [first, SaveCall(DiskOf(s.mem), i.rollback)]
  }

  function RegisterSaves(s: System, i: RegisterInput): seq<SaveCall> {
    var auth := Authorize(i.mode, i.request, i.validated, i.revoked);
    if s.mem.failed || auth.error != NoError || !CredentialMatches(i.mode, auth.credential) then []
    else AdmitSaves(s, i, auth.credential)
  }

  function IssueSaves(s: System, i: IssueInput): seq<SaveCall> {
    var rolled := RollWindow(s.mem, i.clock.now, i.window);
    var used := Count(rolled.counts, i.ip);
    if i.before.None? || i.key.None? || s.mem.failed || i.after != i.before || used >= i.max then []
    else [SaveCall(DiskOf(rolled.(counts := rolled.counts[i.ip := used + 1])), i.save)]
  }

  /** A start saves what it loaded, and again if restoring peers changed records or blocks. */
  ghost function StartSaves(step: Step): seq<SaveCall>
    requires step.Restart?
  {
    if step.image.Some? && !Loadable(step.image.value) then []
    else
      var m := RollWindow(Recall(step.image, ZERO_TIME, step.clock), step.clock.now, DAY);
      var first := SaveCall(DiskOf(m), step.save);
      if step.save.SaveOk? && Structural(m) && RestoreChanges(m, step.restore)
      then [first, SaveCall(DiskOf(RestoredMemory(m, step.restore)), step.restore.save)] else [first]
  }

  ghost function SavesOf(w: World, step: Step): seq<SaveCall> {
    match step
    case Restart(_, _, _, _) => StartSaves(step)
    case Register(i) => if w.up then RegisterSaves(w.sys, i) else []
    case Issue(i) => if w.up then IssueSaves(w.sys, i) else []
    case Commit(i) => if Commits(w, step) then [SaveCall(DiskOf(Reconciled(w.sys.mem, i)), i.save)] else []
    case _ => []
  }

  lemma ImagesAfterOne(images: set<Option<Disk>>, call: SaveCall)
    ensures ImagesAfter(images, [call]) == if call.outcome.SaveOk? then {Some(call.disk)}
      else images + {Some(call.disk)}
  {
    assert [call][..0] == [];
  }

  lemma ImagesAfterTwo(images: set<Option<Disk>>, a: SaveCall, b: SaveCall)
    requires a.outcome.SaveOk?
    ensures ImagesAfter(images, [a, b]) == if b.outcome.SaveOk? then {Some(b.disk)} else {Some(a.disk), Some(b.disk)}
  {
    assert [a, b][..1] == [a];
    ImagesAfterOne(images, a);
  }

  lemma RegisterImages(s: System, i: RegisterInput)
    ensures RegisterPeer(s, i).sys.images == ImagesAfter(s.images, RegisterSaves(s, i))
  {
    hide Admit, ImagesAfter, Written, DiskOf, OverQuota, WithinQuota, OtherPeers, AccountOf, AddTo, RemoveFrom, Touch;
    assert ImagesAfter(s.images, []) == s.images by { NoSaves(s.images); }
    var auth := Authorize(i.mode, i.request, i.validated, i.revoked);
    if !s.mem.failed && auth.error == NoError && CredentialMatches(i.mode, auth.credential) {
      OverQuotaIsNotWithin(s.mem.quotas, QuotaOwner(i.peer, auth.credential.keyID, auth.credential.generation), i.limit,
        i.clock);
      var c := AdmitCases(s, i, auth.credential);
      var first := SaveCall(DiskOf(Written(s.mem, i.peer, auth.credential, i.clock)), i.save);
      ImagesAfterOne(s.images, first);
      if i.save.SaveOk? {
        ImagesAfterTwo(s.images, first, SaveCall(DiskOf(s.mem), i.rollback));
      }
    }
  }

  lemma NoSaves(images: set<Option<Disk>>)
    ensures ImagesAfter(images, []) == images
  {
  }

  lemma IssueImages(s: System, i: IssueInput)
    ensures IssueAuthKey(s, i).sys.images == ImagesAfter(s.images, IssueSaves(s, i))
  {
    hide DiskOf, ImagesAfter, Count;
    assert !s.mem.failed ==> !RollWindow(s.mem, i.clock.now, i.window).failed;
    hide RollWindow;
    NoSaves(s.images);
    var rolled := RollWindow(s.mem, i.clock.now, i.window);
    var used := Count(rolled.counts, i.ip);
    ImagesAfterOne(s.images, SaveCall(DiskOf(rolled.(counts := rolled.counts[i.ip := used + 1])), i.save));
  }

  lemma CommitImages(w: World, i: ReconcileInput)
    ensures Apply(w, Commit(i)).sys.images == ImagesAfter(w.sys.images, SavesOf(w, Commit(i)))
  {
    hide ImagesAfter, DiskOf, Structural, Reconciled, RemovedKeys;
    NoSaves(w.sys.images);
    if Commits(w, Commit(i)) {
      FailClosed.ReconciledKeepsLatch(w.sys.mem, i);
      ImagesAfterOne(w.sys.images, SaveCall(DiskOf(Reconciled(w.sys.mem, i)), i.save));
    }
  }

  lemma StartImages(w: World, step: Step)
    requires step.Restart?
    ensures Apply(w, step).sys.images == ImagesAfter(w.sys.images, StartSaves(step))
  {
    hide ImagesAfter, DiskOf, Structural, RestoreChanges, RestoredMemory, RestoredDevice, Loadable;
    NoSaves(w.sys.images);
    if !(step.image.Some? && !Loadable(step.image.value)) {
      var m := RollWindow(Recall(step.image, ZERO_TIME, step.clock), step.clock.now, DAY);
      assert !m.failed;
      hide RollWindow, Recall;
      var first := SaveCall(DiskOf(m), step.save);
      ImagesAfterOne(w.sys.images, first);
      if step.save.SaveOk? && Structural(m) {
        assert !RestoredMemory(m, step.restore).failed by { RestoredLatch(m, step.restore); }
        ImagesAfterTwo(w.sys.images, first, SaveCall(DiskOf(RestoredMemory(m, step.restore)), step.restore.save));
      }
    }
  }

  lemma RestoredLatch(m: Memory, i: RestoreInput)
    requires Structural(m)
    ensures RestoredMemory(m, i).failed == m.failed
  {
    hide Structural;
  }

  /** The images of a run are what its saves leave. */
  lemma StepImages(w: World, step: Step)
    ensures Apply(w, step).sys.images == ImagesAfter(w.sys.images, SavesOf(w, step))
  {
    hide RegisterPeer, IssueAuthKey, Reconcile, Start, RegisterSaves, IssueSaves, StartSaves, ImagesAfter, Structural,
      DiskOf;
    NoSaves(w.sys.images);
    match step
    case Restart(_, _, _, _) => StartImages(w, step);
    case Register(i) => RegisterImages(w.sys, i);
    case Issue(i) => IssueImages(w.sys, i);
    case Commit(i) => CommitImages(w, i);
    case TakeSnapshot(_, _) =>
    case Traffic(_, _, _) =>
    case ResetCounters(_) =>
  }

  // ---------------------------------------------------------------- the same saves on a disk

  function DiskAfter(fs: FS, calls: seq<SaveCall>, marked: bool, faults: seq<Faults>): FS
    requires |faults| == |calls|
  {
    if |calls| == 0 then fs
    else
      var n := |calls| - 1;
      Saved(DiskAfter(fs, calls[..n], marked, faults[..n]), calls[n].disk, marked, faults[n])
  }

  /** The system calls go wrong in such a way that each save returns what it is said to return. */
  ghost predicate Performs(fs: FS, calls: seq<SaveCall>, marked: bool, faults: seq<Faults>) {
    && |faults| == |calls|
    && (|calls| == 0 ||
      var n := |calls| - 1;
      && Performs(fs, calls[..n], marked, faults[..n])
      && (calls[n].outcome.SaveOk? <==>
        SaveTrace(DiskAfter(fs, calls[..n], marked, faults[..n]), calls[n].disk, marked, faults[n]).ok))
  }

  lemma SaveCovered(fs: FS, d: Disk, marked: bool, f: Faults, images: set<Option<Disk>>)
    requires Safe(fs) && Images(fs) <= images
    ensures Safe(Saved(fs, d, marked, f)) && (fs.home.Durable? ==> Saved(fs, d, marked, f).home.Durable?)
    ensures Images(Saved(fs, d, marked, f)) <= if SaveTrace(fs, d, marked, f).ok then {Some(d)} else images + {Some(d)}
    ensures forall x :: x in SaveTrace(fs, d, marked, f).states ==>
      Safe(x) && Images(x) <= images + {Some(d)} && (fs.home.Durable? ==> x.home.Durable?)
  {
    SaveIsSafe(fs, d, marked, f);
    hide SaveTrace, Safe, Images;
  }

  lemma {:induction false} SavesCovered(fs: FS, calls: seq<SaveCall>, marked: bool, faults: seq<Faults>,
    images: set<Option<Disk>>)
    requires Safe(fs) && Images(fs) <= images && Performs(fs, calls, marked, faults)
    ensures var x := DiskAfter(fs, calls, marked, faults);
      Safe(x) && Images(x) <= ImagesAfter(images, calls) && (fs.home.Durable? ==> x.home.Durable?)
  {
    hide Safe, Images, SaveTrace, Saved;
    if |calls| > 0 {
      var n := |calls| - 1;
      SavesCovered(fs, calls[..n], marked, faults[..n], images);
      SaveCovered(DiskAfter(fs, calls[..n], marked, faults[..n]), calls[n].disk, marked, faults[n],
        ImagesAfter(images, calls[..n]));
    }
  }

  // ---------------------------------------------------------------- machines

  datatype Machine = Machine(world: World, disk: FS)

  /** A call that ran to its end; one in which the process was killed, inside the save that the last
      fault plan is for, after `at` of its effects; the operating system writing out the entry of
      the state directory; a power cut. */
  datatype Happening =
    | Completed(step: Step, faults: seq<Faults>)
    | Killed(step: Step, faults: seq<Faults>, at: nat)
    | WrittenOut
    | PowerCut(after: FS)

  /** The step whose n-th save does not return. */
  function Failing(step: Step, n: nat): Step {
    match step
    case Register(i) => Register(if n == 0 then i.(save := SaveFailed) else i.(rollback := SaveFailed))
    case Issue(i) => Issue(i.(save := SaveFailed))
    case Commit(i) => Commit(i.(save := SaveFailed))
    case Restart(image, c, _, restore) =>
      if n == 0 then step.(save := SaveFailed) else step.(restore := restore.(save := SaveFailed))
    case _ => step
  }

  ghost function CutDisk(fs: FS, calls: seq<SaveCall>, marked: bool, faults: seq<Faults>, at: nat): FS
    requires 0 < |faults| <= |calls|
  {
    var n := |faults| - 1;
    var before := DiskAfter(fs, calls[..n], marked, faults[..n]);
    var states := SaveTrace(before, calls[n].disk, marked, faults[n]).states;
    if at < |states| then states[at] else before
  }

  /** A restart loads what the disk holds; everything else is as in any run. */
  ghost predicate OnDisk(mc: Machine, step: Step, zone: int) {
    if step.Restart?
    then step.image == StateOf(mc.disk, mc.disk.now) &&
      Wired(mc.world.(sys := mc.world.sys.(images := {step.image})), step, zone)
    else Wired(mc.world, step, zone)
  }

  ghost predicate Happens(mc: Machine, h: Happening, marked: bool, zone: int) {
    match h
    case Completed(step, faults) =>
      OnDisk(mc, step, zone) && Performs(mc.disk, SavesOf(mc.world, step), marked, faults)
    case Killed(step, faults, _) =>
      var calls := SavesOf(mc.world, step);
      && OnDisk(mc, step, zone) && 0 < |faults| <= |calls|
      && Performs(mc.disk, calls[..|faults| - 1], marked, faults[..|faults| - 1])
    case WrittenOut => true
    case PowerCut(after) => mc.disk.home.Durable? && PowerLoss(mc.disk, after)
  }

  ghost function After(mc: Machine, h: Happening, marked: bool): Machine {
    match h
    case Completed(step, faults) =>
      var calls := SavesOf(mc.world, step);
      Machine(Apply(mc.world, step), if |faults| == |calls| then DiskAfter(mc.disk, calls, marked, faults) else mc.disk)
    case Killed(step, faults, at) =>
      var calls := SavesOf(mc.world, step);
      if 0 < |faults| <= |calls|
      then Machine(Apply(mc.world, Failing(step, |faults| - 1)), CutDisk(mc.disk, calls, marked, faults, at)) else mc
    case WrittenOut => mc.(disk := Next(mc.disk, Settle, marked))
    case PowerCut(after) => mc.(disk := after)
  }

  /** The run in the sense of module Runs: a killed call is one whose save failed. */
  function StepsOf(hs: seq<Happening>): seq<Step> {
    if |hs| == 0 then []
    else
      StepsOf(hs[..|hs| - 1]) +
      match hs[|hs| - 1]
      case Completed(step, _) => [step]
      case Killed(step, faults, _) => [Failing(step, if |faults| > 0 then |faults| - 1 else 0)]
      case _ => []
  }

  ghost function RunMachine(mc: Machine, hs: seq<Happening>, marked: bool): Machine {
    if |hs| == 0 then mc else After(RunMachine(mc, hs[..|hs| - 1], marked), hs[|hs| - 1], marked)
  }

  ghost predicate CanRunMachine(mc: Machine, hs: seq<Happening>, marked: bool, zone: int) {
    |hs| == 0 ||
    (&& CanRunMachine(mc, hs[..|hs| - 1], marked, zone)
     && Happens(RunMachine(mc, hs[..|hs| - 1], marked), hs[|hs| - 1], marked, zone))
  }

  /** What the disk may hold is what the controller counts on. */
  ghost predicate Mirrors(mc: Machine) {
    Safe(mc.disk) && Images(mc.disk) <= mc.world.sys.images
  }

  lemma OnDiskIsWired(mc: Machine, step: Step, zone: int, n: nat)
    requires Mirrors(mc) && OnDisk(mc, step, zone)
    ensures Wired(mc.world, step, zone) && Wired(mc.world, Failing(step, n), zone)
  {
    hide Safe, Images, StateOf, Lists;
    LoadSeesAnImage(mc.disk, true);
  }

  lemma FailingSaves(w: World, step: Step, n: nat)
    requires n < |SavesOf(w, step)| && forall k :: 0 <= k < n ==> SavesOf(w, step)[k].outcome.SaveOk?
    ensures SavesOf(w, Failing(step, n)) == SavesOf(w, step)[..n] + [SaveCall(SavesOf(w, step)[n].disk, SaveFailed)]
  {
    hide DiskOf, Written, OverQuota, OtherPeers, QuotaFor, Authorize, RollWindow, Recall, Structural, RestoreChanges,
      RestoredMemory, Reconciled, Loadable, Count;
    match step
    case Restart(_, _, _, restore) =>
      if n == 1 { RestoreIgnoresOutcome(w, step); }
    case Register(i) =>
    case Issue(i) =>
    case Commit(i) => CommitIgnoresOutcome(w, i);
  }

  lemma RestoreIgnoresOutcome(w: World, step: Step)
    requires step.Restart? && (step.image.Some? ==> Loadable(step.image.value))
    ensures var m := RollWindow(Recall(step.image, ZERO_TIME, step.clock), step.clock.now, DAY);
      var i, j := step.restore, step.restore.(save := SaveFailed);
      Structural(m) ==> RestoreChanges(m, i) == RestoreChanges(m, j) && RestoredMemory(m, i) == RestoredMemory(m, j)
  {
    var m := RollWindow(Recall(step.image, ZERO_TIME, step.clock), step.clock.now, DAY);
    var i, j := step.restore, step.restore.(save := SaveFailed);
    hide RollWindow, Recall, Loadable;
    if Structural(m) {
      RestoreOutcome(m, i, j);
    }
  }

  lemma DecisionIgnoresOutcome(m: Memory, i: RestoreInput, j: RestoreInput, k: Key)
    requires Structural(m) && j == i.(save := SaveFailed) && k in m.peers
    ensures RestoredRecord(m, k, i) == RestoredRecord(m, k, j) && Restored(m, k, i) == Restored(m, k, j)
  {
    hide RecentEndpoint, RecordMatches, Normalize, Structural, NextLocalMidnight;
    assert DecideFor(m, k, i) == DecideFor(m, k, j) && AddOutcomeOf(i, k) == AddOutcomeOf(j, k);
  }

  lemma RestoreOutcome(m: Memory, i: RestoreInput, j: RestoreInput)
    requires Structural(m) && j == i.(save := SaveFailed)
    ensures RestoreChanges(m, i) == RestoreChanges(m, j) && RestoredMemory(m, i) == RestoredMemory(m, j)
  {
    hide RecentOwners, RestoredRecord, Restored, Structural, Normalize, NextLocalMidnight;
    forall k | k in m.peers
      ensures RestoredRecord(m, k, i) == RestoredRecord(m, k, j) && Restored(m, k, i) == Restored(m, k, j)
    {
      DecisionIgnoresOutcome(m, i, j, k);
    }
    assert forall q :: RestoreQuota(q, i) == RestoreQuota(q, j) && NewlyBlocked(q, i) == NewlyBlocked(q, j);
    hide RestoreQuota, NewlyBlocked;
    assert RestoredMemory(m, i).peers == RestoredMemory(m, j).peers;
    assert RestoredMemory(m, i).quotas == RestoredMemory(m, j).quotas;
    assert RestoredMemory(m, i).runtime == RestoredMemory(m, j).runtime;
  }

  lemma CommitIgnoresOutcome(w: World, i: ReconcileInput)
    requires Structural(w.sys.mem)
    ensures Reconciled(w.sys.mem, i) == Reconciled(w.sys.mem, i.(save := SaveFailed))
  {
    var j := i.(save := SaveFailed);
    hide Structural, ChargeAll, BlockOwners, Running, PruneQuotas, PrunePeers, ClearEndpoints, SnapshotKeys;
    assert Judged(w.sys.mem, i) == Judged(w.sys.mem, j);
    var judged := Judged(w.sys.mem, i);
    assert forall p :: p in i.snapshot && p.key in judged.peers && p.key in judged.runtime ==>
      Rejected(judged, p, i) == Rejected(judged, p, j);
    hide Rejected;
    assert RejectedKeys(judged, i.snapshot, i) == RejectedKeys(judged, i.snapshot, j);
  }

  /** The first saves of a killed call returned nil: a call that goes on after a failed one makes no
      further save. */
  lemma EarlierSavesWorked(w: World, step: Step, n: nat)
    requires n < |SavesOf(w, step)|
    ensures forall k :: 0 <= k < n ==> SavesOf(w, step)[k].outcome.SaveOk?
  {
    hide DiskOf, Written, OverQuota, OtherPeers, QuotaFor, Authorize, RollWindow, Recall, Structural, RestoreChanges,
      RestoredMemory, Reconciled, Loadable, Count;
  }

  lemma KillIsCovered(mc: Machine, step: Step, faults: seq<Faults>, at: nat, marked: bool)
    requires Mirrors(mc) && 0 < |faults| <= |SavesOf(mc.world, step)|
    requires Performs(mc.disk, SavesOf(mc.world, step)[..|faults| - 1], marked, faults[..|faults| - 1])
    ensures Mirrors(After(mc, Killed(step, faults, at), marked))
  {
    hide Safe, Images, SaveTrace, Apply, ImagesAfter, SavesOf;
    var n, calls, images := |faults| - 1, SavesOf(mc.world, step), mc.world.sys.images;
    var before := DiskAfter(mc.disk, calls[..n], marked, faults[..n]);
    SavesCovered(mc.disk, calls[..n], marked, faults[..n], images);
    SaveCovered(before, calls[n].disk, marked, faults[n], ImagesAfter(images, calls[..n]));
    EarlierSavesWorked(mc.world, step, n);
    FailingSaves(mc.world, step, n);
    StepImages(mc.world, Failing(step, n));
    FailedSaveAdds(images, calls[..n], calls[n].disk);
  }

  lemma FailedSaveAdds(images: set<Option<Disk>>, calls: seq<SaveCall>, d: Disk)
    ensures ImagesAfter(images, calls + [SaveCall(d, SaveFailed)]) == ImagesAfter(images, calls) + {Some(d)}
  {
    assert (calls + [SaveCall(d, SaveFailed)])[..|calls|] == calls;
  }

  lemma HappeningIsCovered(mc: Machine, h: Happening, marked: bool, zone: int)
    requires Mirrors(mc) && Happens(mc, h, marked, zone)
    ensures Mirrors(After(mc, h, marked))
  {
    hide Safe, Images, SaveTrace, Apply, ImagesAfter, SavesOf, OnDisk, DiskAfter, PowerLoss, CutDisk;
    match h
    case Completed(step, faults) =>
      SavesCovered(mc.disk, SavesOf(mc.world, step), marked, faults, mc.world.sys.images);
      StepImages(mc.world, step);
    case Killed(step, faults, at) =>
      KillIsCovered(mc, step, faults, at, marked);
    case WrittenOut =>
      EventIsSafe(mc.disk, Settle, marked, mc.world.sys.images);
      hide Next;
    case PowerCut(after) =>
      LossIsSafe(mc.disk, after);
  }

  lemma HappeningIsAStep(mc: Machine, h: Happening, marked: bool, zone: int)
    requires Mirrors(mc) && Happens(mc, h, marked, zone)
    ensures var step := match h
        case Completed(step, _) => [step]
        case Killed(step, faults, _) => [Failing(step, |faults| - 1)]
        case _ => [];
      && (|step| == 1 ==> Wired(mc.world, step[0], zone) && After(mc, h, marked).world == Apply(mc.world, step[0]))
      && (|step| == 0 ==> After(mc, h, marked).world == mc.world)
  {
    hide Mirrors, OnDisk, Apply, SavesOf, DiskAfter, CutDisk, Performs, PowerLoss;
    match h
    case Completed(step, _) => OnDiskIsWired(mc, step, zone, 0);
    case Killed(step, faults, _) => OnDiskIsWired(mc, step, zone, |faults| - 1);
    case WrittenOut =>
    case PowerCut(_) =>
  }

  /** The image a load finds, among those the controller counts on. */
  lemma LoadFindsAnImage(mc: Machine, marked: bool)
    requires Mirrors(mc) && Healthy(mc.world)
    ensures StateOf(mc.disk, mc.disk.now) in mc.world.sys.images
    ensures LoadFrom(mc.disk, marked) ==
      match StateOf(mc.disk, mc.disk.now) case Some(d) => Found(d) case None => Absent
  {
    hide Safe, Images, StateOf, Sound, LoadFrom;
    LoadSeesAnImage(mc.disk, marked);
  }

  /** From a fresh server on a new disk, with every save made of system calls that may fail, the
      process killed inside any of them and power cuts once the directory is durable: the whole
      history is a run in the sense of module Runs, so that all theorems about runs hold of it, and
      the next load finds, whole, one of the images the controller counts on, never a torn or
      missing state. */
  lemma {:induction false} MachinesRunAsModelled(w: World, home: Home, hs: seq<Happening>, marked: bool, zone: int)
    requires Fresh(w) && CanRunMachine(Machine(w, NewDisk(home)), hs, marked, zone)
    ensures var mc := RunMachine(Machine(w, NewDisk(home)), hs, marked);
      && WiredRun(w, StepsOf(hs), zone) && mc.world == Run(w, StepsOf(hs)) && Mirrors(mc)
      && StateOf(mc.disk, mc.disk.now) in mc.world.sys.images
      && LoadFrom(mc.disk, marked) == match StateOf(mc.disk, mc.disk.now) case Some(d) => Found(d) case None => Absent
  {
    hide Mirrors, Happens, After, Apply, Wired, Healthy, LoadFrom, StateOf, NewDisk, Fresh, Failing;
    var start := Machine(w, NewDisk(home));
    StartMirrors(w, home);
    var mc := RunMachine(start, hs, marked);
    if |hs| > 0 {
      var n := |hs| - 1;
      MachinesRunAsModelled(w, home, hs[..n], marked, zone);
      var before := RunMachine(start, hs[..n], marked);
      HappeningIsCovered(before, hs[n], marked, zone);
      HappeningIsAStep(before, hs[n], marked, zone);
      KilledHasAPlan(before, hs[n], marked, zone);
      match hs[n]
      case Completed(step, _) => RunGrows(w, StepsOf(hs[..n]), step);
      case Killed(step, faults, _) => RunGrows(w, StepsOf(hs[..n]), Failing(step, |faults| - 1));
      case WrittenOut => assert StepsOf(hs) == StepsOf(hs[..n]);
      case PowerCut(_) => assert StepsOf(hs) == StepsOf(hs[..n]);
    }
    RunsStayHealthy(w, StepsOf(hs), zone);
    LoadFindsAnImage(mc, marked);
  }

  lemma StartMirrors(w: World, home: Home)
    requires Fresh(w)
    ensures Mirrors(Machine(w, NewDisk(home))) && Healthy(w)
  {
    NewDiskIsSafe(home);
    FreshIsHealthy(w);
    hide Safe, Images, NewDisk;
  }

  lemma KilledHasAPlan(mc: Machine, h: Happening, marked: bool, zone: int)
    requires Happens(mc, h, marked, zone)
    ensures h.Killed? ==> |h.faults| > 0
  {
    hide OnDisk, SavesOf, Performs, PowerLoss;
  }
}
