/** Telescoping over device sessions. A session is a peer's stay on the device, from when it is
    added, or its counters are reset, to when it leaves. With atomic reconciles the bytes charged
    for a peer are what its sessions' counters showed when a reconcile last charged them, less
    what stale baselines hide; without resets and silent removals nothing is hidden. */
module Sessions {
  import opened Records
  import opened Operations
  import opened Structure
  import opened Charging
  import opened Runs
  import opened PeerLimit
  import opened Metering
  import opened SplitMetering

  ghost predicate UniquePending(w: World) {
    w.pending.Some? ==> UniqueKeys(w.pending.value)
  }

  lemma {:induction false} SnapshotsListKeysOnce(w: World, steps: seq<Step>, zone: int)
    requires UniquePending(w) && WiredRun(w, steps, zone)
    ensures UniquePending(Run(w, steps))
  {
    hide RegisterPeer, IssueAuthKey, Reconcile, Load, RestorePeers, UniqueKeys, Structural;
    if |steps| > 0 {
      SnapshotsListKeysOnce(w, steps[..|steps| - 1], zone);
    }
  }

  // ---------------------------------------------------------------- sessions on the device

  const NOTHING := Counters(0, 0)

  function Sum(c: Counters): int {
    c.rx + c.tx
  }

  /** A reconcile charges the peer's session on the device. */
  ghost predicate Observes(w: World, step: Step, k: Key) {
    Commits(w, step) && k in w.sys.device && (k in w.sys.mem.peers || step.commit.mode.OpenMode?)
  }

  /** The step ends the peer's session: a restart, a counter reset, or leaving the device. */
  ghost predicate Ends(w: World, step: Step, k: Key) {
    && k in w.sys.device
    && (step.Restart? || (step.ResetCounters? && step.key == k) || k !in Apply(w, step).sys.device)
  }

  /** What the session had shown when last charged, this step included. */
  ghost function ShownBy(w: World, step: Step, k: Key, shown: Counters): Counters {
    if Observes(w, step, k) then w.sys.device[k] else shown
  }

  /** The counters at which the session now on the device was last charged; nothing for a session
      that was not charged yet, and off the device. */
  ghost function Shown(w: World, steps: seq<Step>, k: Key): Counters {
    if |steps| == 0 then NOTHING
    else
      var before, step := Run(w, steps[..|steps| - 1]), steps[|steps| - 1];
      ShownAfter(before, step, k, Shown(w, steps[..|steps| - 1], k))
  }

  ghost function ShownAfter(w: World, step: Step, k: Key, shown: Counters): Counters {
    if k in w.sys.device && !Ends(w, step, k) then ShownBy(w, step, k, shown) else NOTHING
  }

  /** The last charged counters of all the peer's ended sessions. */
  ghost function Closed(w: World, steps: seq<Step>, k: Key): int {
    if |steps| == 0 then 0
    else
      var before, step := Run(w, steps[..|steps| - 1]), steps[|steps| - 1];
      Closed(w, steps[..|steps| - 1], k) + ClosedBy(before, step, k, Shown(w, steps[..|steps| - 1], k))
  }

  ghost function ClosedBy(w: World, step: Step, k: Key, shown: Counters): int {
    if Ends(w, step, k) then Sum(ShownBy(w, step, k, shown)) else 0
  }

  /** What a baseline of an earlier session hides when the counter has passed it again. */
  function HiddenIn(counter: int, baseline: int, shown: int): int {
    if baseline != shown && baseline <= counter then baseline else 0
  }

  ghost function HiddenBy(w: World, step: Step, k: Key, shown: Counters): int {
    if !Observes(w, step, k) then 0
    else
      HiddenIn(w.sys.device[k].rx, LastRx(w.sys.mem, k), shown.rx) +
      HiddenIn(w.sys.device[k].tx, LastTx(w.sys.mem, k), shown.tx)
  }

  ghost function Hidden(w: World, steps: seq<Step>, k: Key): int {
    if |steps| == 0 then 0
    else
      var before, step := Run(w, steps[..|steps| - 1]), steps[|steps| - 1];
      Hidden(w, steps[..|steps| - 1], k) + HiddenBy(before, step, k, Shown(w, steps[..|steps| - 1], k))
  }

  // ---------------------------------------------------------------- the balance of one step

  /** The session on the device was last charged at its baseline, or not charged yet. */
  ghost predicate Follows(s: System, k: Key, shown: Counters) {
    && NonNegative(s) && (k !in s.device ==> shown == NOTHING)
    && (k in s.device && shown != NOTHING ==>
      && shown == Counters(LastRx(s.mem, k), LastTx(s.mem, k))
      && shown.rx <= s.device[k].rx && shown.tx <= s.device[k].tx)
  }

  /** A session that goes on keeps its baseline, and its counters do not go back. */
  ghost predicate GoesOn(s: System, t: System, k: Key) {
    && k in s.device && k in t.device
    && s.device[k].rx <= t.device[k].rx && s.device[k].tx <= t.device[k].tx
    && LastRx(t.mem, k) == LastRx(s.mem, k) && LastTx(t.mem, k) == LastTx(s.mem, k)
  }

  ghost predicate Balanced(w: World, step: Step, k: Key, shown: Counters) {
    ByKey(StepCharges(w, step), k) + HiddenBy(w, step, k, shown) + Sum(shown) ==
    ClosedBy(w, step, k, shown) + Sum(ShownAfter(w, step, k, shown))
  }

  /** Steps that charge nothing: a session goes on or ends with what it had shown. */
  lemma QuietStep(w: World, step: Step, k: Key, shown: Counters)
    requires Follows(w.sys, k, shown) && NonNegative(Apply(w, step).sys) && !Commits(w, step)
    requires k in w.sys.device && !Ends(w, step, k) ==> GoesOn(w.sys, Apply(w, step).sys, k)
    ensures Follows(Apply(w, step).sys, k, ShownAfter(w, step, k, shown)) && Balanced(w, step, k, shown)
  {
    hide Apply, NonNegative, Commits, Balanced;
    QuietBalance(w, step, k, shown);
    if k in w.sys.device && !Ends(w, step, k) {
      assert GoesOn(w.sys, Apply(w, step).sys, k);
    }
  }

  lemma QuietBalance(w: World, step: Step, k: Key, shown: Counters)
    requires !Commits(w, step) && (k !in w.sys.device ==> shown == NOTHING)
    ensures Balanced(w, step, k, shown)
  {
    hide Apply, Commits, Sum, StepCharges, ByKey, Ends, HiddenIn, LastRx, LastTx;
    NothingLogged(w, step, k);
    assert HiddenBy(w, step, k, shown) == 0 && ShownBy(w, step, k, shown) == shown;
    assert Sum(NOTHING) == 0 by { SumOfNothing(); }
    assert Ends(w, step, k) ==> k in w.sys.device by { EndsOnDevice(w, step, k); }
  }

  lemma SumOfNothing()
    ensures Sum(NOTHING) == 0
  {
  }

  lemma EndsOnDevice(w: World, step: Step, k: Key)
    ensures Ends(w, step, k) ==> k in w.sys.device
  {
    hide Apply;
  }

  lemma NothingLogged(w: World, step: Step, k: Key)
    requires !Commits(w, step)
    ensures ByKey(StepCharges(w, step), k) == 0
  {
    hide Commits;
  }

  lemma AdmissionGoesOn(s: System, i: RegisterInput, credential: Credential, k: Key)
    requires !s.mem.failed && k in s.device && k in Admit(s, i, credential).sys.device
    ensures GoesOn(s, Admit(s, i, credential).sys, k)
  {
    hide Admit, Written, OtherPeers, QuotaFor, OverQuota, DiskOf, AddTo, RemoveFrom;
    var c := AdmitCases(s, i, credential);
    var t := Admit(s, i, credential).sys;
    if c.Started? {
      TouchedDevice(s, i, t.device, k);
      TouchKeepsBaseline(s.mem, t.mem, i.peer, i.clock.now, k);
    } else if c.Undone? {
      UndoneDevice(s.device, i.peer, i.add);
    }
  }

  lemma RegisterGoesOn(s: System, i: RegisterInput, k: Key)
    requires k in s.device && k in RegisterPeer(s, i).sys.device
    ensures GoesOn(s, RegisterPeer(s, i).sys, k)
  {
    hide Admit;
    var auth := Authorize(i.mode, i.request, i.validated, i.revoked);
    if !s.mem.failed && auth.error == NoError && CredentialMatches(i.mode, auth.credential) {
      AdmissionGoesOn(s, i, auth.credential, k);
    }
  }

  lemma UpStepGoesOn(w: World, step: Step, k: Key)
    requires w.up && !step.Restart? && !step.Commit? && k in w.sys.device && !Ends(w, step, k)
    ensures GoesOn(w.sys, Apply(w, step).sys, k)
  {
    hide RegisterPeer, IssueAuthKey;
    match step
    case Register(i) => RegisterGoesOn(w.sys, i, k);
    case Issue(i) => IssueTouchesNoPeer(w.sys, i);
    case TakeSnapshot(_, _) =>
    case Traffic(_, _, _) =>
    case ResetCounters(_) =>
  }

  /** One counter: what is charged and what is hidden add up to what the session showed anew. */
  lemma CounterBalances(counter: int, baseline: int, shown: int)
    requires 0 <= baseline && 0 <= counter && ((shown == baseline && shown <= counter) || shown == 0)
    ensures Delta(counter, baseline) + HiddenIn(counter, baseline, shown) == counter - shown
  {
  }

  lemma ObservedBalances(s: System, k: Key, shown: Counters)
    requires Follows(s, k, shown) && k in s.device
    ensures PendingBytes(s, k) + HiddenIn(s.device[k].rx, LastRx(s.mem, k), shown.rx)
      + HiddenIn(s.device[k].tx, LastTx(s.mem, k), shown.tx) == Sum(s.device[k]) - Sum(shown)
  {
    hide Delta, HiddenIn;
    CounterBalances(s.device[k].rx, LastRx(s.mem, k), shown.rx);
    CounterBalances(s.device[k].tx, LastTx(s.mem, k), shown.tx);
  }

  /** A reconcile's entry for a device peer, and what it leaves of the session. */
  lemma CommittedSession(s: System, i: ReconcileInput, k: Key)
    requires Structural(s.mem) && !s.mem.failed && NonNegative(s) && Lists(i.snapshot, s.device)
    ensures NonNegative(Reconcile(s, i).sys)
    ensures var charged := k in s.device && (k in s.mem.peers || i.mode.OpenMode?);
      var t := Reconcile(s, i).sys;
      && ByKey(Entries(s.mem, i.snapshot, i.mode, i.clock.now), k) == (if charged then PendingBytes(s, k) else 0)
      && (k in t.device ==> k in s.device && t.device[k] == s.device[k])
      && (k in t.device ==>
        Counters(LastRx(t.mem, k), LastTx(t.mem, k)) == if charged then s.device[k] else NOTHING)
      && (k in s.device && !charged ==> LastRx(s.mem, k) == 0 && LastTx(s.mem, k) == 0)
  {
    hide Structural, Reconcile, Reconciled, Entries, ByKey, PeerCharge, PendingBytes;
    ReconcileStaysNonNegative(s, i);
    EntriesByKey(s.mem, i.snapshot, i.mode, i.clock.now, k);
    ReconcileOutcomeAt(s, i, k);
    if k in s.device {
      ReconciledBaseline(s, i, k);
      assert k in SnapshotKeys(i.snapshot);
      var p :| p in i.snapshot && p.key == k;
      ChargeIsPending(s, p, i.clock.now);
    } else {
      assert k !in SnapshotKeys(i.snapshot);
    }
  }

  lemma CommitBalances(w: World, i: ReconcileInput, k: Key, shown: Counters)
    requires Follows(w.sys, k, shown) && Lists(i.snapshot, w.sys.device) && Commits(w, Commit(i))
    ensures Follows(Apply(w, Commit(i)).sys, k, ShownAfter(w, Commit(i), k, shown)) && Balanced(w, Commit(i), k, shown)
  {
    hide Structural, Reconcile, Entries, ByKey, HiddenIn, PendingBytes, NonNegative, Lists, LastRx, LastTx, Sum;
    CommittedSession(w.sys, i, k);
    SumOfNothing();
    assert Balanced(w, Commit(i), k, shown) by {
      if k in w.sys.device {
        ObservedBalances(w.sys, k, shown);
      }
    }
    hide Balanced;
  }

  lemma StepBalances(w: World, step: Step, zone: int, k: Key, shown: Counters)
    requires Healthy(w) && Follows(w.sys, k, shown) && Wired(w, step, zone) && AtomicCommit(w, step)
    ensures Follows(Apply(w, step).sys, k, ShownAfter(w, step, k, shown)) && Balanced(w, step, k, shown)
  {
    hide Follows, Balanced, Lists, Healthy, Structural, ShownAfter;
    if Commits(w, step) {
      CommitBalances(w, step.commit, k, shown);
    } else {
      assert NonNegative(w.sys) by { FollowedIsNonNegative(w.sys, k, shown); }
      StepStaysNonNegative(w, step, zone);
      assert k in w.sys.device ==> w.up by { DownHasNoDevice(w); }
      hide NonNegative;
      if step.Commit? {
        UncommittedChangesNothing(w, step.commit, k);
        hide Apply;
      } else if w.up && k in w.sys.device && !Ends(w, step, k) {
        assert !step.Restart?;
        UpStepGoesOn(w, step, k);
        hide Apply;
      }
      QuietStep(w, step, k, shown);
    }
  }

  lemma FollowedIsNonNegative(s: System, k: Key, shown: Counters)
    requires Follows(s, k, shown)
    ensures NonNegative(s)
  {
  }

  lemma DownHasNoDevice(w: World)
    requires Healthy(w)
    ensures !w.up ==> w.sys.device == map[]
  {
  }

  lemma StepStaysNonNegative(w: World, step: Step, zone: int)
    requires NonNegative(w.sys) && !Commits(w, step) && Wired(w, step, zone)
    ensures NonNegative(Apply(w, step).sys)
  {
    hide RegisterPeer, IssueAuthKey, Start, Structural;
    match step
    case Restart(image, c, save, restore) => StartedSessionsAreNew(w, image, c, save, restore);
    case Register(i) => RegisterKeepsSessions(w.sys, i);
    case Issue(i) => IssueTouchesNoPeer(w.sys, i);
    case Commit(i) => UncommittedChangesNothing(w, i, 0);
    case TakeSnapshot(_, _) =>
    case Traffic(_, _, _) =>
    case ResetCounters(_) =>
  }

  // ---------------------------------------------------------------- runs

  /** With atomic reconciles, over every run with resets, failures, re-registrations under other
      keys, removals and restarts, the bytes charged for a peer and the bytes hidden are together
      the last charged counters of all its device sessions. */
  lemma {:induction false} ChargesTelescope(w: World, steps: seq<Step>, zone: int, k: Key)
    requires Fresh(w) && WiredRun(w, steps, zone) && AtomicCommits(w, steps)
    ensures ByKey(Charges(w, steps), k) + Hidden(w, steps, k) == Closed(w, steps, k) + Sum(Shown(w, steps, k))
    ensures Follows(Run(w, steps).sys, k, Shown(w, steps, k))
  {
    FreshIsHealthy(w);
    if |steps| > 0 {
      hide Healthy, Apply, Wired, AtomicCommit, StepCharges, Follows, ByKey, Sum, HiddenBy, ClosedBy, ShownAfter,
        Charges, Hidden, Closed, Shown;
      var prefix, step := steps[..|steps| - 1], steps[|steps| - 1];
      RunsStayHealthy(w, prefix, zone);
      ChargesTelescope(w, prefix, zone, k);
      StepBalances(Run(w, prefix), step, zone, k, Shown(w, prefix, k));
      LedgerAppends(Charges(w, prefix), StepCharges(Run(w, prefix), step));
      SessionsUnfold(w, steps, k);
    } else {
      NoSessionsYet(w, steps, k);
    }
  }

  lemma NoSessionsYet(w: World, steps: seq<Step>, k: Key)
    requires Fresh(w) && steps == []
    ensures ByKey(Charges(w, steps), k) == 0 && Hidden(w, steps, k) == 0 && Closed(w, steps, k) == 0
    ensures Shown(w, steps, k) == NOTHING && Follows(Run(w, steps).sys, k, NOTHING)
  {
  }

  lemma SessionsUnfold(w: World, steps: seq<Step>, k: Key)
    requires |steps| > 0
    ensures var prefix, step := steps[..|steps| - 1], steps[|steps| - 1];
      var before, shown := Run(w, prefix), Shown(w, prefix, k);
      && Charges(w, steps) == Charges(w, prefix) + StepCharges(before, step)
      && Hidden(w, steps, k) == Hidden(w, prefix, k) + HiddenBy(before, step, k, shown)
      && Closed(w, steps, k) == Closed(w, prefix, k) + ClosedBy(before, step, k, shown)
      && Shown(w, steps, k) == ShownAfter(before, step, k, shown)
  {
    hide Apply, StepCharges, HiddenBy, ClosedBy, ShownAfter;
  }

  // ---------------------------------------------------------------- when nothing is hidden

  /** No counter is reset, and no device call that reports an error has removed the peer. */
  predicate Plain(step: Step) {
    match step
    case ResetCounters(_) => false
    case Register(i) => i.add.AddOk? || !i.cleanup.RemoveFailedGone?
    case Commit(i) => forall k :: k in i.removals ==> !i.removals[k].RemoveFailedGone?
    case _ => true
  }

  ghost predicate PlainRun(steps: seq<Step>) {
    forall n :: 0 <= n < |steps| ==> Plain(steps[n])
  }

  /** A baseline belongs to the session on the device; off the device there is none. */
  ghost predicate OwnBaseline(s: System, k: Key, shown: Counters) {
    Counters(LastRx(s.mem, k), LastTx(s.mem, k)) == if k in s.device then shown else NOTHING
  }

  lemma AdmissionKeepsOwn(s: System, i: RegisterInput, credential: Credential, k: Key, shown: Counters)
    requires OwnBaseline(s, k, shown) && !s.mem.failed && Plain(Register(i))
    ensures var t := Admit(s, i, credential).sys;
      OwnBaseline(t, k, if k in s.device && k in t.device then shown else NOTHING)
  {
    hide Admit, Written, OtherPeers, QuotaFor, OverQuota, DiskOf;
    var c := AdmitCases(s, i, credential);
    var t := Admit(s, i, credential).sys;
    if c.Started? {
      TouchKeepsBaseline(s.mem, t.mem, i.peer, i.clock.now, k);
      hide Touch, LastRx, LastTx;
    } else if c.Undone? {
      UndoneDevice(s.device, i.peer, i.add);
      hide AddTo, RemoveFrom;
    }
  }

  lemma RegisterKeepsOwn(s: System, i: RegisterInput, k: Key, shown: Counters)
    requires OwnBaseline(s, k, shown) && Plain(Register(i))
    ensures var t := RegisterPeer(s, i).sys;
      OwnBaseline(t, k, if k in s.device && k in t.device then shown else NOTHING)
  {
    hide Admit, LastRx, LastTx;
    var auth := Authorize(i.mode, i.request, i.validated, i.revoked);
    if !s.mem.failed && auth.error == NoError && CredentialMatches(i.mode, auth.credential) {
      AdmissionKeepsOwn(s, i, auth.credential, k, shown);
    }
  }

  /** A peer that a plain reconcile took off the device has no session left. */
  lemma RemovedHasNoSession(s: System, i: ReconcileInput, k: Key)
    requires Structural(s.mem) && !s.mem.failed && Plain(Commit(i))
    requires k in s.device && k !in Reconcile(s, i).sys.device
    ensures k !in Reconcile(s, i).sys.mem.runtime
  {
    hide Structural, Reconciled, RemovedKeys;
  }

  lemma CommitKeepsOwn(w: World, i: ReconcileInput, k: Key, shown: Counters)
    requires Follows(w.sys, k, shown) && OwnBaseline(w.sys, k, shown) && Lists(i.snapshot, w.sys.device)
    requires Commits(w, Commit(i)) && Plain(Commit(i))
    ensures OwnBaseline(Apply(w, Commit(i)).sys, k, ShownAfter(w, Commit(i), k, shown))
  {
    hide Structural, Reconcile, Reconciled, NonNegative;
    ReconcileOutcomeAt(w.sys, i, k);
    if k in w.sys.device {
      ReconciledBaseline(w.sys, i, k);
      if k !in Reconcile(w.sys, i).sys.device {
        RemovedHasNoSession(w.sys, i, k);
      }
    } else {
      UnlistedBaseline(w.sys.mem, i, k);
    }
  }

  lemma StepKeepsOwn(w: World, step: Step, zone: int, k: Key, shown: Counters)
    requires Healthy(w) && Follows(w.sys, k, shown) && OwnBaseline(w.sys, k, shown)
    requires Wired(w, step, zone) && AtomicCommit(w, step) && Plain(step)
    ensures OwnBaseline(Apply(w, step).sys, k, ShownAfter(w, step, k, shown)) && HiddenBy(w, step, k, shown) == 0
  {
    hide RegisterPeer, IssueAuthKey, Start, Reconcile, Lists, Healthy, Follows, Structural;
    DownHasNoDevice(w);
    match step
    case Restart(image, c, save, restore) =>
      StartedSessionsAreNew(w, image, c, save, restore);
    case Register(i) =>
      if w.up { RegisterKeepsOwn(w.sys, i, k, shown); }
    case Issue(i) =>
      IssueTouchesNoPeer(w.sys, i);
    case Commit(i) =>
      if Commits(w, step) {
        CommitKeepsOwn(w, i, k, shown);
        hide Apply;
      } else {
        UncommittedChangesNothing(w, i, k);
        hide Apply;
      }
    case TakeSnapshot(_, _) =>
    case Traffic(_, _, _) =>
  }

  lemma {:induction false} NothingIsHidden(w: World, steps: seq<Step>, zone: int, k: Key)
    requires Fresh(w) && WiredRun(w, steps, zone) && AtomicCommits(w, steps) && PlainRun(steps)
    ensures Hidden(w, steps, k) == 0 && OwnBaseline(Run(w, steps).sys, k, Shown(w, steps, k))
  {
    FreshIsHealthy(w);
    if |steps| > 0 {
      hide Healthy, Apply, Wired, AtomicCommit, Follows, OwnBaseline, HiddenBy, ShownAfter, Plain;
      var prefix, step := steps[..|steps| - 1], steps[|steps| - 1];
      RunsStayHealthy(w, prefix, zone);
      NothingIsHidden(w, prefix, zone, k);
      ChargesTelescope(w, prefix, zone, k);
      StepKeepsOwn(Run(w, prefix), step, zone, k, Shown(w, prefix, k));
    }
  }

  /** Without resets and silent removals, the bytes charged for a peer are exactly the sum, over its
      device sessions, of the counters at which they were last charged. */
  lemma ChargesAreSessionTotals(w: World, steps: seq<Step>, zone: int, k: Key)
    requires Fresh(w) && WiredRun(w, steps, zone) && AtomicCommits(w, steps) && PlainRun(steps)
    ensures ByKey(Charges(w, steps), k) == Closed(w, steps, k) + Sum(Shown(w, steps, k))
  {
    hide Run, Charges, Closed, Shown, Hidden, ByKey, WiredRun, AtomicCommits, PlainRun;
    ChargesTelescope(w, steps, zone, k);
    NothingIsHidden(w, steps, zone, k);
  }
}
