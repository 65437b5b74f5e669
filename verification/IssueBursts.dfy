/** The bound of twice the limit in 24 hours is sharp: asking just before a window ends and again
    just after gets exactly that many keys within a nanosecond, for every limit. */
module IssueBursts {
  import opened Clocks
  import opened Records
  import opened Operations
  import opened Runs
  import opened Issuing

  const LATE: Time := 2 * DAY - 1
  const NEXT: Time := 2 * DAY

  function Ask(max: nat, now: Time): Step {
    Issue(IssueInput(0, max, DAY, Some(0), Some(0), Some(0), Clock(now, 0), SaveOk))
  }

  /** A first start, then `n` requests: as many as the limit late in the first window, the
      others at the first instant of the next. */
  function Burst(max: nat, n: nat): (steps: seq<Step>)
    ensures |steps| == n + 1
  {
    if n == 0 then [FirstStart(OpenMode)] else Burst(max, n - 1) + [Ask(max, if n <= max then LATE else NEXT)]
  }

  /** A running server with `used` keys counted for the address in its window. */
  ghost predicate Counting(w: World, window: Time, used: int, time: Time) {
    w.up && !w.sys.mem.failed && w.sys.mem.window == window && Count(w.sys.mem.counts, 0) == used && w.time == time
  }

  lemma AnsweredRequest(w: World, max: nat, now: Time, window: Time, used: nat)
    requires Counting(w, window, used, w.time) && window != ZERO_TIME && window <= now
    requires (if now - window < DAY then used else 0) < max
    ensures Counting(Apply(w, Ask(max, now)), if now - window < DAY then window else now, if now - window < DAY
      then used + 1 else 1, now)
    ensures |Handed(w, Ask(max, now))| == 1 && Handed(w, Ask(max, now))[0].ip == 0
    ensures Handed(w, Ask(max, now))[0].time == now
  {
  }

  lemma LogGrows(w: World, steps: seq<Step>, step: Step)
    ensures Log(w, steps + [step]) == Log(w, steps) + Handed(Run(w, steps), step)
  {
    hide Apply, Handed;
    assert (steps + [step])[..|steps|] == steps;
  }

  lemma NothingRun()
    ensures Run(NEW_SERVER, []) == NEW_SERVER && Log(NEW_SERVER, []) == []
    ensures WiredRun(NEW_SERVER, [], 0) && TimelyRun(NEW_SERVER, [])
  {
  }

  lemma {:induction false} BurstIsAnswered(max: nat, n: nat)
    requires n <= 2 * max
    ensures var steps := Burst(max, n);
      && WiredRun(NEW_SERVER, steps, 0) && TimelyRun(NEW_SERVER, steps) && UniformRun(steps, max)
      && InDay(Log(NEW_SERVER, steps), 0, LATE) == n
      && Counting(Run(NEW_SERVER, steps), if n <= max then DAY else NEXT, if n <= max then n else n - max, if n == 0
        then DAY else if n <= max then LATE else NEXT)
  {
    hide Apply, Handed, WiredRun, TimelyRun, Log, Run, InDay;
    if n == 0 {
      NothingRun();
      FirstStartOutcome(OpenMode);
      assert Burst(max, 0) == [] + [FirstStart(OpenMode)];
      RunGrows(NEW_SERVER, [], FirstStart(OpenMode));
      LogGrows(NEW_SERVER, [], FirstStart(OpenMode));
      StartHandsNothing(NEW_SERVER);
    } else {
      var before := Burst(max, n - 1);
      var now := if n <= max then LATE else NEXT;
      var w := Run(NEW_SERVER, before);
      BurstIsAnswered(max, n - 1);
      RunGrows(NEW_SERVER, before, Ask(max, now));
      LogGrows(NEW_SERVER, before, Ask(max, now));
      AnsweredRequest(w, max, now, w.sys.mem.window, Count(w.sys.mem.counts, 0));
      OneMoreInDay(Log(NEW_SERVER, before), Handed(w, Ask(max, now))[0]);
      assert Handed(w, Ask(max, now)) == [Handed(w, Ask(max, now))[0]];
    }
  }

  lemma StartHandsNothing(w: World)
    ensures Handed(w, FirstStart(OpenMode)) == [] && InDay([], 0, LATE) == 0
  {
  }

  lemma OneMoreInDay(log: seq<Event>, e: Event)
    requires e.ip == 0 && LATE <= e.time < LATE + DAY
    ensures InDay(log + [e], 0, LATE) == InDay(log, 0, LATE) + 1
  {
    assert (log + [e])[..|log|] == log;
  }

  /** For every limit there is a run that hands one address twice the limit within 24 hours, so
      the bound of IssueBoundPerDay cannot be improved. */
  lemma TwiceTheLimitIsReached(max: nat)
    ensures Fresh(NEW_SERVER)
    ensures exists steps ::
      && WiredRun(NEW_SERVER, steps, 0) && TimelyRun(NEW_SERVER, steps) && UniformRun(steps, max)
      && InDay(Log(NEW_SERVER, steps), 0, LATE) == 2 * max
  {
    hide Burst, WiredRun, TimelyRun, Log, InDay;
    BurstIsAnswered(max, 2 * max);
  }
}
