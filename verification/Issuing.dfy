/** The issue limit over whole runs: how many keys one address can obtain in a window and in any
    24 hours, and how long a refused client has to wait. */
module Issuing {
  import opened Clocks
  import opened Records
  import opened Operations
  import opened Structure
  import opened Runs

  /** A key handed to a client, with the window it was counted in. */
  datatype Event = Event(ip: Name, time: Time, window: Time)

  ghost function Handed(w: World, step: Step): seq<Event> {
    if step.Issue? && w.up && IssueAuthKey(w.sys, step.issue).error == NoError
    then [Event(step.issue.ip, step.issue.clock.now, IssueAuthKey(w.sys, step.issue).sys.mem.window)]
    else []
  }

  /** All keys handed out during a run. */
  ghost function Log(w: World, steps: seq<Step>): seq<Event> {
    if |steps| == 0 then []
    else Log(w, steps[..|steps| - 1]) + Handed(Run(w, steps[..|steps| - 1]), steps[|steps| - 1])
  }

  /** Keys counted for one address in one window. */
  function InWindow(log: seq<Event>, ip: Name, window: Time): nat {
    if |log| == 0 then 0
    else
      var e := log[|log| - 1];
      InWindow(log[..|log| - 1], ip, window) + if e.ip == ip && e.window == window then 1 else 0
  }

  /** Keys handed to one address at instants in [from, from + 24h). */
  function InDay(log: seq<Event>, ip: Name, from: Time): nat {
    if |log| == 0 then 0
    else
      var e := log[|log| - 1];
      InDay(log[..|log| - 1], ip, from) + if e.ip == ip && from <= e.time < from + DAY then 1 else 0
  }

  /** The endpoint always asks with the same limit and a 24-hour window. */
  predicate Uniform(step: Step, max: nat) {
    step.Issue? ==> step.issue.max == max && step.issue.window == DAY
  }

  ghost predicate UniformRun(steps: seq<Step>, max: nat) {
    forall n :: 0 <= n < |steps| ==> Uniform(steps[n], max)
  }

  // ---------------------------------------------------------------- what a counter knows

  /** The pair (window, counts) accounts for every key of its window, and all earlier keys
      belong to windows that ended before it began. */
  ghost predicate Accounts(window: Time, counts: map<Name, int>, log: seq<Event>) {
    && (forall e :: e in log ==> e.window == window || e.window + DAY <= window)
    && (forall ip :: InWindow(log, ip, window) <= Count(counts, ip))
  }

  ghost predicate ImageAccounts(image: Option<Disk>, log: seq<Event>, time: Time) {
    match image
    case None => log == []
    case Some(d) => d.counts.Some? && d.window <= time && Accounts(d.window, d.counts.value, log)
  }

  ghost predicate Disciplined(log: seq<Event>, max: nat, time: Time) {
    && (forall e :: e in log ==> e.window <= e.time < e.window + DAY && e.time <= time)
    && (forall e, f :: e in log && f in log ==>
      e.window == f.window || e.window + DAY <= f.window || f.window + DAY <= e.window)
    && (forall ip, window :: InWindow(log, ip, window) <= max)
  }

  ghost predicate Counted(w: World, log: seq<Event>, max: nat) {
    && Disciplined(log, max, w.time)
    && (w.up ==> w.sys.mem.window <= w.time && Accounts(w.sys.mem.window, w.sys.mem.counts, log))
    && (forall image :: image in w.sys.images ==> ImageAccounts(image, log, w.time))
  }

  lemma {:induction false} UnusedWindowIsEmpty(log: seq<Event>, ip: Name, window: Time)
    requires forall e :: e in log ==> e.window != window
    ensures InWindow(log, ip, window) == 0
  {
    if |log| > 0 {
      UnusedWindowIsEmpty(log[..|log| - 1], ip, window);
      assert log[|log| - 1] in log;
    }
  }

  /** Opening a new window loses nothing: every earlier key is in a window that is over. */
  lemma RollingAccounts(m: Memory, now: Time, log: seq<Event>)
    requires Accounts(m.window, m.counts, log) && m.window <= now
    requires IsZero(m.window) ==> log == []
    ensures Accounts(RollWindow(m, now, DAY).window, RollWindow(m, now, DAY).counts, log)
    ensures RollWindow(m, now, DAY).window <= now < RollWindow(m, now, DAY).window + DAY
  {
    if IsZero(m.window) || now - m.window >= DAY {
      forall ip ensures InWindow(log, ip, now) == 0 {
        UnusedWindowIsEmpty(log, ip, now);
      }
    }
  }

  lemma AppendCounts(log: seq<Event>, e: Event, ip: Name, window: Time)
    ensures InWindow(log + [e], ip, window) == InWindow(log, ip, window) + if e.ip == ip && e.window == window then 1
      else 0
  {
    assert (log + [e])[..|log|] == log;
  }

  // ---------------------------------------------------------------- steps that hand out no key

  /** The issue counter is as before, and any new image carries it. */
  ghost predicate CounterKept(s: System, t: System) {
    && t.mem.window == s.mem.window && t.mem.counts == s.mem.counts
    && (forall image :: image in t.images ==>
      image in s.images ||
        (image.Some? && image.value.window == s.mem.window && image.value.counts == Some(s.mem.counts)))
  }

  lemma PersistKeepsCounter(s: System, outcome: SaveOutcome)
    ensures CounterKept(s, Persist(s, outcome))
  {
  }

  lemma RegisterKeepsCounter(s: System, i: RegisterInput)
    ensures CounterKept(s, RegisterPeer(s, i).sys)
  {
    if !s.mem.failed {
      var credential := Authorize(i.mode, i.request, i.validated, i.revoked).credential;
      var c := AdmitCases(s, i, credential);
      var written := Written(s.mem, i.peer, credential, i.clock);
      assert written.window == s.mem.window && written.counts == s.mem.counts;
      hide Admit, Written, OtherPeers, AccountOf;
    }
  }

  lemma ReconcileKeepsCounter(s: System, i: ReconcileInput)
    requires Structural(s.mem)
    ensures CounterKept(s, Reconcile(s, i).sys)
  {
    ReconciledKeepsCounter(s.mem, i);
    PersistKeepsCounter(s.(mem := Reconciled(s.mem, i)), i.save);
    hide Structural, Reconciled, RemovedKeys;
  }

  lemma ReconciledKeepsCounter(m: Memory, i: ReconcileInput)
    requires Structural(m)
    ensures Reconciled(m, i).window == m.window && Reconciled(m, i).counts == m.counts
  {
    ChargeAllKeepsCounter(m, i.snapshot, i.mode, i.clock);
    hide Structural, ChargeAll, RejectedKeys, SnapshotKeys;
  }

  lemma {:induction false} ChargeAllKeepsCounter(m: Memory, s: seq<PeerInfo>, mode: Mode, c: Clock)
    requires Structural(m)
    ensures ChargeAll(m, s, mode, c).window == m.window && ChargeAll(m, s, mode, c).counts == m.counts
  {
    if |s| > 0 {
      ChargeAllKeepsCounter(m, s[..|s| - 1], mode, c);
      hide Structural;
    }
  }

  lemma RestoreKeepsCounter(s: System, i: RestoreInput)
    requires Structural(s.mem)
    ensures CounterKept(s, RestorePeers(s, i).sys)
  {
    PersistKeepsCounter(s.(mem := RestoredMemory(s.mem, i), device := RestoredDevice(s, i)), i.save);
    hide Structural, RestoredDevice, RestoreChanges, RestoredRecord, Restored, RecentOwners;
  }

  lemma KeptCounterStaysCounted(w: World, t: System, time: Time, log: seq<Event>, max: nat)
    requires Counted(w, log, max) && w.up && CounterKept(w.sys, t) && w.time <= time
    ensures Counted(w.(sys := t, time := time), log, max)
  {
    hide Accounts, InWindow;
  }

  // ---------------------------------------------------------------- issuing and restarting

  lemma IssueIsCounted(w: World, i: IssueInput, log: seq<Event>, max: nat)
    requires Counted(w, log, max) && w.up && !IsZero(w.sys.mem.window) && i.max == max && i.window == DAY
    requires w.time <= i.clock.now
    ensures Counted(Apply(w, Issue(i)), log + Handed(w, Issue(i)), max)
  {
    var now := i.clock.now;
    RollingAccounts(w.sys.mem, now, log);
    var rolled := RollWindow(w.sys.mem, now, DAY);
    var used := Count(rolled.counts, i.ip);
    hide RollWindow;
    if Handed(w, Issue(i)) == [] {
      assert log + [] == log;
      RefusalIsCounted(w, i, log, max, rolled);
    } else {
      GrantIsCounted(w, i, log, max, rolled);
    }
  }

  /** A request leaves the counter alone, or rolls its window and perhaps raises one count;
      a new image carries the raised count. */
  ghost predicate IssueEffect(s: System, t: System, rolled: Memory, ip: Name) {
    var used := Count(rolled.counts, ip);
    && (|| (t.mem.window == s.mem.window && t.mem.counts == s.mem.counts)
        || (t.mem.window == rolled.window &&
          t.mem.counts in {rolled.counts, rolled.counts[ip := used], rolled.counts[ip := used + 1]}))
    && (forall image :: image in t.images ==>
        (image in s.images || (image.Some? && image.value.window == rolled.window &&
          image.value.counts == Some(rolled.counts[ip := used + 1]))))
  }

  lemma IssueHasEffect(s: System, i: IssueInput)
    ensures IssueEffect(s, IssueAuthKey(s, i).sys, RollWindow(s.mem, i.clock.now, i.window), i.ip)
  {
    hide RollWindow;
  }

  lemma RaisedCountAccounts(window: Time, counts: map<Name, int>, ip: Name, n: int, log: seq<Event>)
    requires Accounts(window, counts, log) && Count(counts, ip) <= n
    ensures Accounts(window, counts[ip := n], log)
  {
    hide InWindow;
  }

  lemma RefusalIsCounted(w: World, i: IssueInput, log: seq<Event>, max: nat, rolled: Memory)
    requires Counted(w, log, max) && w.up && i.max == max && i.window == DAY && w.time <= i.clock.now
    requires rolled == RollWindow(w.sys.mem, i.clock.now, DAY) && rolled.window <= i.clock.now
    requires Accounts(rolled.window, rolled.counts, log)
    requires IssueAuthKey(w.sys, i).error != NoError
    ensures Counted(Apply(w, Issue(i)), log, max)
  {
    var used := Count(rolled.counts, i.ip);
    RaisedCountAccounts(rolled.window, rolled.counts, i.ip, used, log);
    RaisedCountAccounts(rolled.window, rolled.counts, i.ip, used + 1, log);
    hide RollWindow, Accounts, InWindow, Disciplined;
    var after := Apply(w, Issue(i));
    IssueHasEffect(w.sys, i);
    LaterIsDisciplined(log, max, w.time, i.clock.now);
    hide IssueAuthKey;
  }

  lemma LaterIsDisciplined(log: seq<Event>, max: nat, time: Time, later: Time)
    requires Disciplined(log, max, time) && time <= later
    ensures Disciplined(log, max, later)
  {
    hide InWindow;
  }

  lemma GrantIsCounted(w: World, i: IssueInput, log: seq<Event>, max: nat, rolled: Memory)
    requires Counted(w, log, max) && w.up && i.max == max && i.window == DAY && w.time <= i.clock.now
    requires rolled == RollWindow(w.sys.mem, i.clock.now, DAY) && rolled.window <= i.clock.now < rolled.window + DAY
    requires Accounts(rolled.window, rolled.counts, log)
    requires IssueAuthKey(w.sys, i).error == NoError
    ensures Counted(Apply(w, Issue(i)), log + [Event(i.ip, i.clock.now, rolled.window)], max)
  {
    var e := Event(i.ip, i.clock.now, rolled.window);
    var used := Count(rolled.counts, i.ip);
    var counts := rolled.counts[i.ip := used + 1];
    var after := Apply(w, Issue(i));
    hide Accounts, Disciplined, RollWindow, IssueAuthKey;
    GrantOutcome(w.sys, i);
    GrantAccounts(rolled.window, rolled.counts, log, e);
    GrantIsDisciplined(log, e, max, w.time, used, rolled.counts);
  }

  lemma GrantOutcome(s: System, i: IssueInput)
    requires IssueAuthKey(s, i).error == NoError
    ensures var t, rolled := IssueAuthKey(s, i).sys, RollWindow(s.mem, i.clock.now, i.window);
      var used := Count(rolled.counts, i.ip);
      && used < i.max && t.mem.counts == rolled.counts[i.ip := used + 1] && t.mem.window == rolled.window
      && t.images == {Some(DiskOf(t.mem))}
  {
    hide RollWindow, Count;
  }

  lemma GrantAccounts(window: Time, counts: map<Name, int>, log: seq<Event>, e: Event)
    requires Accounts(window, counts, log) && e.window == window
    ensures Accounts(window, counts[e.ip := Count(counts, e.ip) + 1], log + [e])
  {
    forall ip ensures InWindow(log + [e], ip, window) <= Count(counts[e.ip := Count(counts, e.ip) + 1], ip) {
      AppendCounts(log, e, ip, window);
    }
    hide InWindow;
  }

  lemma GrantIsDisciplined(log: seq<Event>, e: Event, max: nat, time: Time, used: int, counts: map<Name, int>)
    requires Disciplined(log, max, time) && Accounts(e.window, counts, log) && Count(counts, e.ip) == used < max
    requires time <= e.time && e.window <= e.time < e.window + DAY
    ensures Disciplined(log + [e], max, e.time)
  {
    forall ip, window ensures InWindow(log + [e], ip, window) <= max {
      AppendCounts(log, e, ip, window);
    }
    hide InWindow;
  }

  lemma StartIsCounted(w: World, image: Option<Disk>, c: Clock, save: SaveOutcome, restore: RestoreInput,
    log: seq<Event>, max: nat)
    requires Counted(w, log, max) && image in w.sys.images && (image.Some? ==> Loadable(image.value))
    requires w.time <= c.now <= restore.clock.now && Sane(c)
    ensures Counted(Start(w, image, c, save, restore), log, max)
  {
    assert ImageAccounts(image, log, w.time);
    var s := Booted(w);
    RecallAccounts(image, c, log, w.time);
    var m := RollWindow(Recall(image, ZERO_TIME, c), c.now, DAY);
    RollingAccounts(Recall(image, ZERO_TIME, c), c.now, log);
    var base := World(System(m, w.sys.images, map[]), true, None, w.pendingAt, c.now);
    assert Counted(base, log, max) by { hide Accounts, InWindow, RollWindow; }
    PersistKeepsCounter(base.sys, save);
    KeptCounterStaysCounted(base, Persist(base.sys, save), c.now, log, max);
    var loaded := Load(s, image, c, save);
    assert loaded.sys == Persist(base.sys, save);
    if loaded.error == NoError && Structural(loaded.sys.mem) {
      RestoreKeepsCounter(loaded.sys, restore);
      KeptCounterStaysCounted(base.(sys := loaded.sys), RestorePeers(loaded.sys, restore).sys, restore.clock.now, log,
        max);
    }
    hide Load, RestorePeers, Structural, Accounts, InWindow, Disciplined, ImageAccounts, RollWindow;
  }

  lemma RecallAccounts(image: Option<Disk>, c: Clock, log: seq<Event>, time: Time)
    requires ImageAccounts(image, log, time) && (image.Some? ==> Loadable(image.value)) && time <= c.now && Sane(c)
    ensures Recall(image, ZERO_TIME, c).window <= c.now && (IsZero(Recall(image, ZERO_TIME, c).window) ==> log == [])
    ensures Accounts(Recall(image, ZERO_TIME, c).window, Recall(image, ZERO_TIME, c).counts, log)
  {
    if image.Some? {
      forall ip ensures Count(Positive(image.value.counts.value), ip) == Count(image.value.counts.value, ip) {
      }
    }
    hide InWindow, NormalizeAll;
  }

  // ---------------------------------------------------------------- runs

  lemma StepIsCounted(w: World, step: Step, zone: int, log: seq<Event>, max: nat)
    requires Healthy(w) && Counted(w, log, max) && Wired(w, step, zone) && Timely(w, step) && Uniform(step, max)
    requires w.pending.Some? ==> w.pendingAt <= w.time
    ensures Counted(Apply(w, step), log + Handed(w, step), max)
  {
    assert log + [] == log;
    match step
    case Restart(image, c, save, restore) =>
      StartIsCounted(w, image, c, save, restore, log, max);
      hide Start, Counted;
    case Issue(i) =>
      if w.up {
        assert !IsZero(w.sys.mem.window);
        IssueIsCounted(w, i, log, max);
      }
      hide IssueAuthKey, Counted, Healthy;
    case Register(i) =>
      if w.up {
        RegisterKeepsCounter(w.sys, i);
        KeptCounterStaysCounted(w, RegisterPeer(w.sys, i).sys, i.clock.now, log, max);
      }
      hide RegisterPeer, Counted, Healthy;
    case Commit(i) =>
      if w.up {
        assert Structural(w.sys.mem);
        ReconcileKeepsCounter(w.sys, i);
        KeptCounterStaysCounted(w, Reconcile(w.sys, i).sys, Max(w.time, i.clock.now), log, max);
        PendingIsIrrelevant(w.(sys := Reconcile(w.sys, i).sys, time := Max(w.time, i.clock.now)), None, w.pendingAt,
          log, max);
      }
      hide Reconcile, Counted, Healthy, Structural;
    case TakeSnapshot(listed, at) =>
      if w.up {
        KeptCounterStaysCounted(w, w.sys, at, log, max);
        PendingIsIrrelevant(w.(time := at), Some(listed), at, log, max);
      }
      hide Counted, Healthy;
    case Traffic(k, _, _) =>
      if w.up && k in w.sys.device { KeptCounterStaysCounted(w, Apply(w, step).sys, w.time, log, max); }
      hide Counted, Healthy;
    case ResetCounters(k) =>
      if w.up && k in w.sys.device { KeptCounterStaysCounted(w, Apply(w, step).sys, w.time, log, max); }
      hide Counted, Healthy;
  }

  lemma PendingIsIrrelevant(w: World, pending: Option<seq<PeerInfo>>, at: Time, log: seq<Event>, max: nat)
    requires Counted(w, log, max)
    ensures Counted(w.(pending := pending, pendingAt := at), log, max)
  {
    hide Accounts, InWindow, Disciplined, ImageAccounts;
  }

  lemma {:induction false} RunIsCounted(w: World, steps: seq<Step>, zone: int, max: nat)
    requires Healthy(w) && Counted(w, [], max) && (w.pending.Some? ==> w.pendingAt <= w.time)
    requires WiredRun(w, steps, zone) && TimelyRun(w, steps) && UniformRun(steps, max)
    ensures Counted(Run(w, steps), Log(w, steps), max)
    ensures Run(w, steps).pending.Some? ==> Run(w, steps).pendingAt <= Run(w, steps).time
  {
    hide Counted, Healthy, Apply, Wired, Handed, Timely, Uniform;
    if |steps| > 0 {
      var before, step := Run(w, steps[..|steps| - 1]), steps[|steps| - 1];
      RunsStayHealthy(w, steps[..|steps| - 1], zone);
      RunIsCounted(w, steps[..|steps| - 1], zone, max);
      StepIsCounted(before, step, zone, Log(w, steps[..|steps| - 1]), max);
      PendingIsPast(before, step);
    }
  }

  lemma PendingIsPast(w: World, step: Step)
    requires (w.pending.Some? ==> w.pendingAt <= w.time) && Timely(w, step)
    ensures Apply(w, step).pending.Some? ==> Apply(w, step).pendingAt <= Apply(w, step).time
  {
    hide RegisterPeer, IssueAuthKey, Reconcile, Start, Structural;
    StartIsIdle(w, step);
  }

  lemma StartIsIdle(w: World, step: Step)
    ensures step.Restart? ==> Start(w, step.image, step.clock, step.save, step.restore).pending.None?
  {
    hide Load, RestorePeers, Structural;
  }

  /** Keys handed to one address within one window never exceed the limit. */
  lemma IssueBoundPerWindow(w: World, steps: seq<Step>, zone: int, max: nat, ip: Name, window: Time)
    requires Fresh(w) && WiredRun(w, steps, zone) && TimelyRun(w, steps) && UniformRun(steps, max)
    ensures InWindow(Log(w, steps), ip, window) <= max
  {
    FreshIsCounted(w, max);
    RunIsCounted(w, steps, zone, max);
    hide Run, Log, Accounts, ImageAccounts;
  }

  lemma FreshIsCounted(w: World, max: nat)
    requires Fresh(w)
    ensures Healthy(w) && Counted(w, [], max)
  {
  }

  // ---------------------------------------------------------------- any 24 hours

  /** An event of one address in the interval. */
  predicate Counts(e: Event, ip: Name, from: Time) {
    e.ip == ip && from <= e.time < from + DAY
  }

  lemma {:induction false} DayWithinWindows(log: seq<Event>, ip: Name, from: Time, a: Time, b: Time)
    requires forall e :: e in log && Counts(e, ip, from) ==> e.window == a || e.window == b
    ensures InDay(log, ip, from) <= InWindow(log, ip, a) + InWindow(log, ip, b)
    ensures a == b ==> InDay(log, ip, from) <= InWindow(log, ip, a)
  {
    if |log| > 0 {
      var e := log[|log| - 1];
      assert e in log;
      DayWithinWindows(log[..|log| - 1], ip, from, a, b);
    }
  }

  /** 24 hours never touch three windows. */
  lemma ThreeWindowsNeverMeet(log: seq<Event>, max: nat, time: Time, ip: Name, from: Time, e: Event, f: Event, g: Event)
    requires Disciplined(log, max, time) && e in log && f in log && g in log
    requires Counts(e, ip, from) && Counts(f, ip, from) && Counts(g, ip, from)
    ensures e.window == f.window || f.window == g.window || e.window == g.window
  {
    hide InWindow;
  }

  lemma AnyDayOfLog(log: seq<Event>, max: nat, time: Time, ip: Name, from: Time)
    requires Disciplined(log, max, time)
    ensures InDay(log, ip, from) <= 2 * max
  {
    if e :| e in log && Counts(e, ip, from) {
      if f :| f in log && Counts(f, ip, from) && f.window != e.window {
        forall g | g in log && Counts(g, ip, from) ensures g.window == e.window || g.window == f.window {
          ThreeWindowsNeverMeet(log, max, time, ip, from, e, f, g);
        }
        DayWithinWindows(log, ip, from, e.window, f.window);
      } else {
        DayWithinWindows(log, ip, from, e.window, e.window);
      }
    } else {
      DayWithinWindows(log, ip, from, 0, 1);
      UncountedDayIsEmpty(log, ip, from);
    }
  }

  lemma {:induction false} UncountedDayIsEmpty(log: seq<Event>, ip: Name, from: Time)
    requires forall e :: e in log ==> !Counts(e, ip, from)
    ensures InDay(log, ip, from) == 0
  {
    if |log| > 0 {
      assert log[|log| - 1] in log;
      UncountedDayIsEmpty(log[..|log| - 1], ip, from);
    }
  }

  /** Keys handed to one address within any 24 hours never exceed twice the limit, across
      restarts and failed saves. */
  lemma IssueBoundPerDay(w: World, steps: seq<Step>, zone: int, max: nat, ip: Name, from: Time)
    requires Fresh(w) && WiredRun(w, steps, zone) && TimelyRun(w, steps) && UniformRun(steps, max)
    ensures InDay(Log(w, steps), ip, from) <= 2 * max
  {
    FreshIsCounted(w, max);
    RunIsCounted(w, steps, zone, max);
    AnyDayOfLog(Log(w, steps), max, Run(w, steps).time, ip, from);
  }
}
