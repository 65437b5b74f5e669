/** Whole runs of the server: registrations and key requests from clients, reconciles split into
    a device snapshot and a later commit with other calls in between, traffic on the device, and
    restarts that lose everything but one of the images the state file may hold. */
module Runs {
  import opened Clocks
  import opened Records
  import opened Operations
  import opened Structure
  import opened Charging

  /** `time` is the latest instant any call has read from the clock. */
  datatype World = World(
    sys: System,
    up: bool,
    pending: Option<seq<PeerInfo>>,
    pendingAt: Time,
    time: Time)

  datatype Step =
    | Register(register: RegisterInput)
    | Issue(issue: IssueInput)
    | TakeSnapshot(listed: seq<PeerInfo>, at: Time)
    | Commit(commit: ReconcileInput)
    | Restart(image: Option<Disk>, clock: Clock, save: SaveOutcome, restore: RestoreInput)
    | Traffic(key: Key, rx: nat, tx: nat)
    | ResetCounters(key: Key)

  function Max(a: Time, b: Time): Time {
    if a < b then b else a
  }

  /** A server before its first start: no state file, nothing in memory or on the device. */
  ghost predicate Fresh(w: World) {
    !w.up && w.sys == System(EMPTY_MEMORY, {None}, map[]) && w.pending.None?
  }

  /** A new process: nothing in memory, nothing on its userspace device. */
  function Booted(w: World): System {
    System(EMPTY_MEMORY, w.sys.images, map[])
  }

  /** The process exits: memory and the userspace device are gone, the file stays. */
  function Down(w: World, s: System, now: Time): World {
    World(System(EMPTY_MEMORY, s.images, map[]), false, None, w.pendingAt, now)
  }

  ghost function Start(w: World, image: Option<Disk>, c: Clock, save: SaveOutcome, restore: RestoreInput): World {
    var loaded := Load(Booted(w), image, c, save);
    if loaded.error != NoError || !Structural(loaded.sys.mem) then
      Down(w, loaded.sys, c.now)
    else
      var restored := RestorePeers(loaded.sys, restore);
      if restored.error != NoError then Down(w, restored.sys, restore.clock.now)
      else World(restored.sys, true, None, w.pendingAt, restore.clock.now)
  }

  ghost function Apply(w: World, step: Step): World {
    match step
    case Restart(image, c, save, restore) => Start(w, image, c, save, restore)
    case _ => if w.up then ApplyUp(w, step) else w
  }

  ghost function ApplyUp(w: World, step: Step): World
    requires !step.Restart?
  {
    match step
    case Register(i) => w.(sys := RegisterPeer(w.sys, i).sys, time := i.clock.now)
    case Issue(i) => w.(sys := IssueAuthKey(w.sys, i).sys, time := i.clock.now)
    case TakeSnapshot(listed, at) => w.(pending := Some(listed), pendingAt := at, time := at)
    case Commit(i) =>
      if w.pending.Some? && Structural(w.sys.mem)
      then w.(sys := Reconcile(w.sys, i).sys, pending := None, time := Max(w.time, i.clock.now)) else w
    case Traffic(k, rx, tx) =>
      if k in w.sys.device
      then w.(sys := w.sys.(device := w.sys.device[k := Counters(w.sys.device[k].rx + rx, w.sys.device[k].tx + tx)]))
        else w
    case ResetCounters(k) =>
      if k in w.sys.device then w.(sys := w.sys.(device := w.sys.device[k := Counters(0, 0)])) else w
  }

  // ---------------------------------------------------------------- what the environment may do

  /** A snapshot lists every device peer once, with its counters. */
  ghost predicate Lists(listed: seq<PeerInfo>, device: map<Key, Counters>) {
    && UniqueKeys(listed)
    && SnapshotKeys(listed) == device.Keys
    && (forall p :: p in listed && p.key in device ==> device[p.key] == Counters(p.rx, p.tx))
  }

  /** Snapshots list the device, commits use the pending snapshot, restarts read an image the
      file may hold, and clocks show instants after Go's zero time in one fixed zone. */
  ghost predicate Wired(w: World, step: Step, zone: int) {
    match step
    case Register(i) => Sane(i.clock) && i.clock.zone == zone
    case Issue(i) => Sane(i.clock) && i.clock.zone == zone
    case TakeSnapshot(listed, _) => Lists(listed, w.sys.device)
    case Commit(i) => Sane(i.clock) && i.clock.zone == zone && w.pending == Some(i.snapshot)
    case Restart(image, c, _, restore) =>
      && image in w.sys.images
      && Sane(c) && c.zone == zone && Sane(restore.clock) && restore.clock.zone == zone
    case Traffic(_, _, _) => true
    case ResetCounters(_) => true
  }

  /** The clock never goes back, and a commit reads it under 48 hours after its snapshot. */
  ghost predicate Timely(w: World, step: Step) {
    match step
    case Register(i) => w.time <= i.clock.now
    case Issue(i) => w.time <= i.clock.now
    case TakeSnapshot(_, at) => w.time <= at
    case Commit(i) => w.pendingAt <= i.clock.now < w.pendingAt + PEER_STATE_RETENTION
    case Restart(_, c, _, restore) => w.time <= c.now <= restore.clock.now
    case Traffic(_, _, _) => true
    case ResetCounters(_) => true
  }

  ghost function Run(w: World, steps: seq<Step>): World {
    if |steps| == 0 then w
    else Apply(Run(w, steps[..|steps| - 1]), steps[|steps| - 1])
  }

  ghost predicate WiredRun(w: World, steps: seq<Step>, zone: int) {
    |steps| == 0 ||
    (WiredRun(w, steps[..|steps| - 1], zone) && Wired(Run(w, steps[..|steps| - 1]), steps[|steps| - 1], zone))
  }

  ghost predicate TimelyRun(w: World, steps: seq<Step>) {
    |steps| == 0 ||
    (TimelyRun(w, steps[..|steps| - 1]) && Timely(Run(w, steps[..|steps| - 1]), steps[|steps| - 1]))
  }

  /** A registration is taken back while a snapshot that lists its peer waits for its commit: the
      peer was running, the device call failed, and its cleanup and the rollback worked. */
  ghost predicate DropsListed(w: World, step: Step) {
    && w.up && step.Register? && w.pending.Some?
    && step.register.peer in SnapshotKeys(w.pending.value) && step.register.peer in w.sys.mem.runtime
    && RegisterPeer(w.sys, step.register).error == AddFailed
  }

  ghost predicate KeepsListed(w: World, steps: seq<Step>) {
    |steps| == 0 ||
    (KeepsListed(w, steps[..|steps| - 1]) && !DropsListed(Run(w, steps[..|steps| - 1]), steps[|steps| - 1]))
  }

  /** Commits see the device as it is: reconciles are atomic. */
  ghost predicate AtomicCommit(w: World, step: Step) {
    step.Commit? ==> Lists(step.commit.snapshot, w.sys.device)
  }

  ghost predicate AtomicCommits(w: World, steps: seq<Step>) {
    |steps| == 0 ||
    (AtomicCommits(w, steps[..|steps| - 1]) && AtomicCommit(Run(w, steps[..|steps| - 1]), steps[|steps| - 1]))
  }

  lemma RunGrows(w: World, steps: seq<Step>, step: Step)
    ensures Run(w, steps + [step]) == Apply(Run(w, steps), step)
    ensures forall zone :: WiredRun(w, steps + [step], zone) <==>
      WiredRun(w, steps, zone) && Wired(Run(w, steps), step, zone)
    ensures TimelyRun(w, steps + [step]) <==> TimelyRun(w, steps) && Timely(Run(w, steps), step)
  {
    hide Apply, Wired, Timely;
    assert (steps + [step])[..|steps|] == steps;
  }

  // ---------------------------------------------------------------- a first start

  const NEW_SERVER := World(System(EMPTY_MEMORY, {None}, map[]), false, None, DAY, DAY)

  function FirstStart(mode: Mode): Step {
    Restart(None, Clock(DAY, 0), SaveOk, RestoreInput(mode, Some({}), 0, Clock(DAY, 0), map[], SaveOk))
  }

  /** A fresh server that starts without a file begins its issue window and has no peers. */
  lemma FirstStartOutcome(mode: Mode)
    ensures Fresh(NEW_SERVER) && Wired(NEW_SERVER, FirstStart(mode), 0) && Timely(NEW_SERVER, FirstStart(mode))
    ensures var m := EMPTY_MEMORY.(window := DAY);
      Apply(NEW_SERVER, FirstStart(mode)) == World(System(m, {Some(DiskOf(m))}, map[]), true, None, DAY, DAY)
  {
    var restore := FirstStart(mode).restore;
    var loaded := Load(Booted(NEW_SERVER), None, Clock(DAY, 0), SaveOk);
    var m := EMPTY_MEMORY.(window := DAY);
    assert loaded.sys == System(m, {Some(DiskOf(m))}, map[]) && loaded.error == NoError;
    assert Structural(m);
    assert !RestoreChanges(m, restore);
    assert RestoredMemory(m, restore) == m;
    assert RestorePeers(loaded.sys, restore) == Result(loaded.sys, NoError);
  }

  // ---------------------------------------------------------------- the structural invariant over runs

  /** Every image is absent or loads, and a running server is sound. */
  ghost predicate Healthy(w: World) {
    && w.sys.images != {}
    && (forall image :: image in w.sys.images ==> image.Some? ==> Loadable(image.value))
    && (w.up ==> Sound(w.sys))
    && (!w.up ==> w.sys.device == map[])
  }

  lemma StartIsHealthy(w: World, image: Option<Disk>, c: Clock, save: SaveOutcome, restore: RestoreInput)
    requires Healthy(w) && image in w.sys.images && Sane(c) && Sane(restore.clock)
    ensures Healthy(Start(w, image, c, save, restore))
  {
    var s := Booted(w);
    LoadEstablishesSound(s, image, c, save);
    var loaded := Load(s, image, c, save);
    if loaded.error == NoError {
      RestoreKeepsSound(loaded.sys, restore);
      hide RestorePeers, Load;
    } else {
      FailedLoadIsReadable(s, image, c, save);
      hide RestorePeers, Load;
    }
  }

  lemma FailedLoadIsReadable(s: System, image: Option<Disk>, c: Clock, save: SaveOutcome)
    requires image.Some? ==> Loadable(image.value)
    requires forall other :: other in s.images ==> other.Some? ==> Loadable(other.value)
    requires Sane(c)
    ensures forall other :: other in Load(s, image, c, save).sys.images ==> other.Some? ==> Loadable(other.value)
    ensures s.images != {} ==> Load(s, image, c, save).sys.images != {}
  {
    var m := RollWindow(Recall(image, s.mem.window, c), c.now, DAY);
    assert Persistable(m);
    PersistableLoads(m);
    hide Persistable, Loadable, RollWindow, Recall;
  }

  lemma StepKeepsHealthy(w: World, step: Step, zone: int)
    requires Healthy(w) && Wired(w, step, zone)
    ensures Healthy(Apply(w, step))
  {
    match step
    case Restart(image, c, save, restore) =>
      StartIsHealthy(w, image, c, save, restore);
    case Register(i) =>
      if w.up { RegisterKeepsSound(w.sys, i); }
      hide RegisterPeer, Persistable, Loadable;
    case Issue(i) =>
      if w.up { IssueKeepsSound(w.sys, i); }
      hide IssueAuthKey, Persistable, Loadable;
    case Commit(i) =>
      if w.up { ReconcileKeepsSound(w.sys, i); }
      hide Reconcile, Persistable, Loadable;
    case TakeSnapshot(_, _) =>
      hide Persistable, Loadable;
    case Traffic(_, _, _) =>
      hide Persistable, Loadable;
    case ResetCounters(_) =>
      hide Persistable, Loadable;
  }

  /** In every run from a fresh start, memory is structurally linked and every file loads. */
  lemma {:induction false} RunsStayHealthy(w: World, steps: seq<Step>, zone: int)
    requires Healthy(w) && WiredRun(w, steps, zone)
    ensures Healthy(Run(w, steps))
  {
    if |steps| > 0 {
      hide Healthy, Wired, Apply;
      RunsStayHealthy(w, steps[..|steps| - 1], zone);
      StepKeepsHealthy(Run(w, steps[..|steps| - 1]), steps[|steps| - 1], zone);
    }
  }

  lemma FreshIsHealthy(w: World)
    requires Fresh(w)
    ensures Healthy(w)
  {
  }

  /** No file a run leaves behind is ever refused: a restart fails only when its own save fails. */
  lemma {:induction false} EveryImageReloads(w: World, steps: seq<Step>, zone: int, image: Option<Disk>, c: Clock,
    save: SaveOutcome)
    requires Healthy(w) && WiredRun(w, steps, zone)
    requires image in Run(w, steps).sys.images && Sane(c)
    ensures Load(Run(w, steps).sys, image, c, save).error == NoError <==> save.SaveOk?
  {
    RunsStayHealthy(w, steps, zone);
    LoadEstablishesSound(Run(w, steps).sys, image, c, save);
  }
}
