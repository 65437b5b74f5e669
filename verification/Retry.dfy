/** The advertised Retry-After is long enough: a client that stays silent that long is not rate
    limited on its next request, whatever other clients, reconciles and restarts do meanwhile. */
module Retry {
  import opened Clocks
  import opened Records
  import opened Operations
  import opened Runs
  import opened Issuing

  /** The header value: the wait rounded up to whole seconds. */
  function AdvertisedSeconds(retryAfter: int): int {
    (retryAfter + SECOND - 1) / SECOND
  }

  lemma RetryAfterBounds(s: System, i: IssueInput)
    requires IssueAuthKey(s, i).error.RateLimited? && SECOND <= i.window
    ensures var wait := IssueAuthKey(s, i).error.retryAfter;
      && SECOND <= wait <= i.window
      && wait <= AdvertisedSeconds(wait) * SECOND < wait + SECOND
      && IssueAuthKey(s, i).sys.mem.window + i.window <= i.clock.now + AdvertisedSeconds(wait) * SECOND
  {
  }

  /** The counter will not refuse `ip` once a window that began at `start` is over. */
  ghost predicate Idle(window: Time, counts: map<Name, int>, ip: Name, start: Time) {
    window <= start || Count(counts, ip) <= 0
  }

  ghost predicate IdleImage(image: Option<Disk>, ip: Name, start: Time) {
    image.Some? && image.value.counts.Some? ==> Idle(image.value.window, image.value.counts.value, ip, start)
  }

  ghost predicate IdleWorld(w: World, ip: Name, start: Time) {
    && (w.up ==> Idle(w.sys.mem.window, w.sys.mem.counts, ip, start))
    && (forall image :: image in w.sys.images ==> IdleImage(image, ip, start))
  }

  /** The running server's window is the newest, and none lies in the future. */
  ghost predicate Newest(w: World) {
    w.up ==>
      && w.sys.mem.window <= w.time
      && (forall image :: image in w.sys.images && image.Some? ==> image.value.window <= w.sys.mem.window)
  }

  predicate Silent(step: Step, ip: Name) {
    step.Issue? ==> step.issue.ip != ip && step.issue.window == DAY
  }

  ghost predicate SilentRun(steps: seq<Step>, ip: Name) {
    forall n :: 0 <= n < |steps| ==> Silent(steps[n], ip)
  }

  // ---------------------------------------------------------------- steps

  lemma KeptCounterStaysIdle(w: World, t: System, time: Time, ip: Name, start: Time)
    requires IdleWorld(w, ip, start) && w.up && CounterKept(w.sys, t)
    ensures IdleWorld(w.(sys := t, time := time), ip, start)
  {
  }

  lemma OtherIssueStaysIdle(w: World, i: IssueInput, ip: Name, start: Time)
    requires IdleWorld(w, ip, start) && w.up && i.ip != ip
    ensures IdleWorld(Apply(w, Issue(i)), ip, start)
  {
    var rolled := RollWindow(w.sys.mem, i.clock.now, i.window);
    var used := Count(rolled.counts, i.ip);
    assert Idle(rolled.window, rolled.counts, ip, start);
    assert Idle(rolled.window, rolled.counts[i.ip := used], ip, start);
    assert Idle(rolled.window, rolled.counts[i.ip := used + 1], ip, start);
    hide RollWindow, Idle, IssueAuthKey;
    IssueHasEffect(w.sys, i);
  }

  lemma StartStaysIdle(w: World, image: Option<Disk>, c: Clock, save: SaveOutcome, restore: RestoreInput, ip: Name,
    start: Time)
    requires IdleWorld(w, ip, start) && image in w.sys.images && (image.Some? ==> Loadable(image.value))
    ensures IdleWorld(Start(w, image, c, save, restore), ip, start)
  {
    var m := RollWindow(Recall(image, ZERO_TIME, c), c.now, DAY);
    assert Idle(m.window, m.counts, ip, start) by { hide NormalizeAll; }
    var base := World(System(m, w.sys.images, map[]), true, None, w.pendingAt, c.now);
    PersistKeepsCounter(base.sys, save);
    KeptCounterStaysIdle(base, Persist(base.sys, save), c.now, ip, start);
    var loaded := Load(Booted(w), image, c, save);
    assert loaded.sys == Persist(base.sys, save);
    if loaded.error == NoError && Structural(loaded.sys.mem) {
      RestoreKeepsCounter(loaded.sys, restore);
      KeptCounterStaysIdle(base.(sys := loaded.sys), RestorePeers(loaded.sys, restore).sys, restore.clock.now, ip,
        start);
    }
    hide Load, RestorePeers, Structural, Idle, RollWindow;
  }

  lemma StepStaysIdle(w: World, step: Step, zone: int, ip: Name, start: Time)
    requires Healthy(w) && IdleWorld(w, ip, start) && Wired(w, step, zone) && Silent(step, ip)
    ensures IdleWorld(Apply(w, step), ip, start)
  {
    match step
    case Restart(image, c, save, restore) =>
      StartStaysIdle(w, image, c, save, restore, ip, start);
      hide Start, IdleWorld;
    case Issue(i) =>
      if w.up { OtherIssueStaysIdle(w, i, ip, start); }
      hide IssueAuthKey, IdleWorld, Healthy;
    case Register(i) =>
      if w.up {
        RegisterKeepsCounter(w.sys, i);
        KeptCounterStaysIdle(w, RegisterPeer(w.sys, i).sys, i.clock.now, ip, start);
      }
      hide RegisterPeer, IdleWorld, Healthy;
    case Commit(i) =>
      if w.up {
        assert Structural(w.sys.mem);
        ReconcileKeepsCounter(w.sys, i);
        KeptCounterStaysIdle(w, Reconcile(w.sys, i).sys, w.time, ip, start);
      }
      hide Reconcile, Healthy, Structural, Idle, IdleImage;
    case TakeSnapshot(_, _) =>
      hide Healthy, Idle, IdleImage;
    case Traffic(_, _, _) =>
      hide Healthy, Idle, IdleImage;
    case ResetCounters(_) =>
      hide Healthy, Idle, IdleImage;
  }

  lemma {:induction false} SilenceStaysIdle(w: World, steps: seq<Step>, zone: int, ip: Name, start: Time)
    requires Healthy(w) && IdleWorld(w, ip, start) && WiredRun(w, steps, zone) && SilentRun(steps, ip)
    ensures IdleWorld(Run(w, steps), ip, start)
  {
    if |steps| > 0 {
      RunsStayHealthy(w, steps[..|steps| - 1], zone);
      SilenceStaysIdle(w, steps[..|steps| - 1], zone, ip, start);
      StepStaysIdle(Run(w, steps[..|steps| - 1]), steps[|steps| - 1], zone, ip, start);
      hide Healthy, IdleWorld, Apply, Wired;
    }
  }

  // ---------------------------------------------------------------- the newest window

  lemma KeptCounterStaysNewest(w: World, t: System, time: Time)
    requires Newest(w) && w.up && CounterKept(w.sys, t) && w.time <= time
    ensures Newest(w.(sys := t, time := time))
  {
  }

  lemma StartIsNewest(w: World, image: Option<Disk>, c: Clock, save: SaveOutcome, restore: RestoreInput)
    requires c.now <= restore.clock.now
    ensures Newest(Start(w, image, c, save, restore))
  {
    var loaded := Load(Booted(w), image, c, save);
    if loaded.error == NoError && Structural(loaded.sys.mem) {
      assert loaded.sys.mem.window <= c.now by { hide Recall, Structural, Loadable; }
      assert loaded.sys.images == {Some(DiskOf(loaded.sys.mem))} by { hide Recall, Structural, Loadable, RollWindow; }
      RestoreKeepsCounter(loaded.sys, restore);
      KeptCounterStaysNewest(World(loaded.sys, true, None, w.pendingAt, c.now), RestorePeers(loaded.sys, restore).sys,
        restore.clock.now);
    }
    hide Load, RestorePeers, Structural;
  }

  lemma IssueStaysNewest(w: World, i: IssueInput)
    requires Newest(w) && w.up && w.time <= i.clock.now
    ensures Newest(w.(sys := IssueAuthKey(w.sys, i).sys, time := i.clock.now))
  {
    var rolled := RollWindow(w.sys.mem, i.clock.now, i.window);
    assert w.sys.mem.window <= rolled.window <= i.clock.now;
    hide RollWindow, IssueAuthKey;
    IssueHasEffect(w.sys, i);
    IssueCarriesWindow(w.sys, i);
  }

  /** A new image appears only together with the window it carries. */
  lemma IssueCarriesWindow(s: System, i: IssueInput)
    ensures var t := IssueAuthKey(s, i).sys;
      t.images == s.images || t.mem.window == RollWindow(s.mem, i.clock.now, i.window).window
  {
    hide RollWindow;
  }

  lemma StepStaysNewest(w: World, step: Step, zone: int)
    requires Healthy(w) && Newest(w) && Wired(w, step, zone) && Timely(w, step)
    ensures Newest(Apply(w, step))
  {
    match step
    case Restart(image, c, save, restore) =>
      StartIsNewest(w, image, c, save, restore);
      hide Start;
    case Issue(i) =>
      if w.up { IssueStaysNewest(w, i); }
      hide Healthy, IssueAuthKey;
    case Register(i) =>
      if w.up {
        RegisterKeepsCounter(w.sys, i);
        KeptCounterStaysNewest(w, RegisterPeer(w.sys, i).sys, i.clock.now);
      }
      hide RegisterPeer, Healthy;
    case Commit(i) =>
      if w.up {
        assert Structural(w.sys.mem);
        ReconcileKeepsCounter(w.sys, i);
        KeptCounterStaysNewest(w, Reconcile(w.sys, i).sys, Max(w.time, i.clock.now));
      }
      hide Reconcile, Healthy, Structural;
    case TakeSnapshot(_, _) =>
      hide Healthy;
    case Traffic(_, _, _) =>
      hide Healthy;
    case ResetCounters(_) =>
      hide Healthy;
  }

  lemma {:induction false} RunsStayNewest(w: World, steps: seq<Step>, zone: int)
    requires Healthy(w) && Newest(w) && WiredRun(w, steps, zone) && TimelyRun(w, steps)
    ensures Newest(Run(w, steps))
  {
    if |steps| > 0 {
      RunsStayHealthy(w, steps[..|steps| - 1], zone);
      RunsStayNewest(w, steps[..|steps| - 1], zone);
      StepStaysNewest(Run(w, steps[..|steps| - 1]), steps[|steps| - 1], zone);
      hide Healthy, Newest, Apply, Wired, Timely;
    }
  }

  // ---------------------------------------------------------------- the theorem

  lemma RefusalLeavesIdle(w: World, i: IssueInput)
    requires w.up && Newest(w) && w.time <= i.clock.now && IssueAuthKey(w.sys, i).error.RateLimited?
    ensures IdleWorld(Apply(w, Issue(i)), i.ip, IssueAuthKey(w.sys, i).sys.mem.window)
  {
  }

  lemma IdleIsServed(s: System, i: IssueInput, start: Time)
    requires Idle(s.mem.window, s.mem.counts, i.ip, start)
    requires i.max > 0 && start + i.window <= i.clock.now
    ensures !IssueAuthKey(s, i).error.RateLimited?
  {
  }

  /** In any run from a fresh start: a client refused at step |before| that stays silent for the
      advertised seconds, while anything else happens, is not refused for its rate again. */
  lemma WaitingIsEnough(w: World, before: seq<Step>, refused: IssueInput, between: seq<Step>, next: IssueInput,
    zone: int)
    requires Fresh(w) && WiredRun(w, before, zone) && TimelyRun(w, before)
    requires Run(w, before).up && Wired(Run(w, before), Issue(refused), zone) && Timely(Run(w, before), Issue(refused))
    requires refused.window == DAY && IssueAuthKey(Run(w, before).sys, refused).error.RateLimited?
    requires var after := Apply(Run(w, before), Issue(refused));
      && WiredRun(after, between, zone) && SilentRun(between, refused.ip)
    requires next.ip == refused.ip && next.window == DAY && next.max > 0
    requires var wait := IssueAuthKey(Run(w, before).sys, refused).error.retryAfter;
      refused.clock.now + AdvertisedSeconds(wait) * SECOND <= next.clock.now
    requires Run(Apply(Run(w, before), Issue(refused)), between).up
    ensures !IssueAuthKey(Run(Apply(Run(w, before), Issue(refused)), between).sys, next).error.RateLimited?
  {
    var at := Run(w, before);
    var start := IssueAuthKey(at.sys, refused).sys.mem.window;
    FreshIsHealthy(w);
    RunsStayHealthy(w, before, zone);
    RunsStayNewest(w, before, zone);
    RetryAfterBounds(at.sys, refused);
    RefusalLeavesIdle(at, refused);
    StepKeepsHealthy(at, Issue(refused), zone);
    var after := Apply(at, Issue(refused));
    SilenceStaysIdle(after, between, zone, refused.ip, start);
    IdleIsServed(Run(after, between).sys, next, start);
    hide IssueAuthKey, Apply, Healthy, Newest;
  }
}
