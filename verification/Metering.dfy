/** Accounting over whole runs. Every reconcile writes one ledger entry per listed peer; these
    lemmas relate the ledger to the traffic that really flowed, to the device sessions' last
    observed counters, and to the usage that registrations see. */
module Metering {
  import opened Clocks
  import opened Records
  import opened Operations
  import opened Structure
  import opened Charging
  import opened Verdicts
  import opened Runs
  import opened PeerLimit

  datatype Entry = Entry(key: Key, owner: Owner, bytes: nat)

  function ByKey(log: seq<Entry>, k: Key): nat {
    if |log| == 0 then 0
    else ByKey(log[..|log| - 1], k) + if log[|log| - 1].key == k then log[|log| - 1].bytes else 0
  }

  function ByOwner(log: seq<Entry>, o: Owner): nat {
    if |log| == 0 then 0
    else ByOwner(log[..|log| - 1], o) + if log[|log| - 1].owner == o then log[|log| - 1].bytes else 0
  }

  function Total(log: seq<Entry>): nat {
    if |log| == 0 then 0 else Total(log[..|log| - 1]) + log[|log| - 1].bytes
  }

  /** What one reconcile charges, peer by peer. */
  function Entries(m: Memory, s: seq<PeerInfo>, mode: Mode, now: Time): seq<Entry> {
    if |s| == 0 then []
    else
      var p := s[|s| - 1];
      Entries(m, s[..|s| - 1], mode, now) +
      if p.key in m.peers || mode.OpenMode?
      then [Entry(p.key, OwnerFound(m, p), PeerCharge(m, p, now))] else []
  }

  ghost predicate Commits(w: World, step: Step) {
    w.up && step.Commit? && w.pending.Some? && Structural(w.sys.mem) && !w.sys.mem.failed
  }

  ghost function StepCharges(w: World, step: Step): seq<Entry> {
    if Commits(w, step) then Entries(w.sys.mem, step.commit.snapshot, step.commit.mode, step.commit.clock.now) else []
  }

  ghost function StepTraffic(w: World, step: Step): seq<Entry> {
    if w.up && step.Traffic? && step.key in w.sys.device then [Entry(step.key, EmptyOwner, step.rx + step.tx)] else []
  }

  /** The ledger of a run, and the traffic that flowed during it. */
  ghost function Charges(w: World, steps: seq<Step>): seq<Entry> {
    if |steps| == 0 then []
    else Charges(w, steps[..|steps| - 1]) + StepCharges(Run(w, steps[..|steps| - 1]), steps[|steps| - 1])
  }

  ghost function Flowed(w: World, steps: seq<Step>): seq<Entry> {
    if |steps| == 0 then []
    else Flowed(w, steps[..|steps| - 1]) + StepTraffic(Run(w, steps[..|steps| - 1]), steps[|steps| - 1])
  }

  /** A reconcile that does not commit changes nothing. */
  lemma UncommittedChangesNothing(w: World, i: ReconcileInput, k: Key)
    requires !Commits(w, Commit(i))
    ensures Apply(w, Commit(i)).sys == w.sys && Apply(w, Commit(i)).up == w.up
    ensures ByKey(StepCharges(w, Commit(i)), k) == 0
  {
    hide Reconciled, Persist, Structural;
  }

  // ---------------------------------------------------------------- ledgers

  lemma {:induction false} LedgerAppends(a: seq<Entry>, b: seq<Entry>)
    ensures forall k :: ByKey(a + b, k) == ByKey(a, k) + ByKey(b, k)
    ensures forall o :: ByOwner(a + b, o) == ByOwner(a, o) + ByOwner(b, o)
  {
    if |b| == 0 {
      assert a + b == a;
    } else {
      LedgerAppends(a, b[..|b| - 1]);
      assert (a + b)[..|a + b| - 1] == a + b[..|b| - 1];
    }
  }

  lemma {:induction false} TotalAppends(a: seq<Entry>, b: seq<Entry>)
    ensures Total(a + b) == Total(a) + Total(b)
  {
    if |b| == 0 {
      assert a + b == a;
    } else {
      TotalAppends(a, b[..|b| - 1]);
      assert (a + b)[..|a + b| - 1] == a + b[..|b| - 1];
    }
  }

  lemma LedgerGrows(w: World, steps: seq<Step>, step: Step)
    ensures Charges(w, steps + [step]) == Charges(w, steps) + StepCharges(Run(w, steps), step)
    ensures Flowed(w, steps + [step]) == Flowed(w, steps) + StepTraffic(Run(w, steps), step)
  {
    hide Apply, StepCharges, StepTraffic;
    assert (steps + [step])[..|steps|] == steps;
  }

  function WithoutKey(log: seq<Entry>, k: Key): seq<Entry> {
    if |log| == 0 then []
    else WithoutKey(log[..|log| - 1], k) + if log[|log| - 1].key == k then [] else [log[|log| - 1]]
  }

  lemma OneEntryMore(log: seq<Entry>, e: Entry, k: Key)
    ensures Total(log + [e]) == Total(log) + e.bytes
    ensures ByKey(log + [e], k) == ByKey(log, k) + if e.key == k then e.bytes else 0
    ensures WithoutKey(log + [e], k) == WithoutKey(log, k) + if e.key == k then [] else [e]
  {
    assert (log + [e])[..|log|] == log;
  }

  lemma NothingLogged(k: Key)
    ensures Total([]) == 0 && ByKey([], k) == 0 && WithoutKey([], k) == []
  {
  }

  lemma {:induction false} TakingOutAKey(log: seq<Entry>, k: Key)
    ensures Total(log) == ByKey(log, k) + Total(WithoutKey(log, k))
    ensures forall j :: ByKey(WithoutKey(log, k), j) == if j == k then 0 else ByKey(log, j)
    ensures |WithoutKey(log, k)| <= |log| && ((exists e :: e in log && e.key == k) ==> |WithoutKey(log, k)| < |log|)
  {
    hide *;
    if |log| > 0 {
      var before, e := log[..|log| - 1], log[|log| - 1];
      assert log == before + [e];
      TakingOutAKey(before, k);
      OneEntryMore(before, e, k);
      if e.key != k {
        OneEntryMore(WithoutKey(before, k), e, k);
      }
      forall j ensures ByKey(WithoutKey(log, k), j) == if j == k then 0 else ByKey(log, j) {
        OneEntryMore(before, e, j);
        OneEntryMore(WithoutKey(before, k), e, j);
        assert WithoutKey(before, k) + [] == WithoutKey(before, k);
      }
      assert WithoutKey(before, k) + [] == WithoutKey(before, k);
    } else {
      assert log == [];
      NothingLogged(k);
      forall j ensures ByKey(WithoutKey(log, k), j) == if j == k then 0 else ByKey(log, j) {
        NothingLogged(j);
      }
    }
  }

  /** A ledger bounded key by key is bounded in total. */
  lemma {:induction false} TotalsFollowKeys(a: seq<Entry>, b: seq<Entry>)
    requires forall k :: ByKey(a, k) <= ByKey(b, k)
    ensures Total(a) <= Total(b)
    decreases |a|
  {
    if |a| > 0 {
      var k := a[|a| - 1].key;
      assert a[|a| - 1] in a;
      TakingOutAKey(a, k);
      TakingOutAKey(b, k);
      TotalsFollowKeys(WithoutKey(a, k), WithoutKey(b, k));
    }
  }

  lemma {:induction false} EntriesByOwner(m: Memory, s: seq<PeerInfo>, mode: Mode, now: Time, o: Owner)
    ensures ByOwner(Entries(m, s, mode, now), o) == TotalCharge(m, s, mode, now, o)
  {
    if |s| > 0 {
      var p := s[|s| - 1];
      EntriesByOwner(m, s[..|s| - 1], mode, now, o);
      hide PeerCharge;
      if p.key in m.peers || mode.OpenMode? {
        var rest, e := Entries(m, s[..|s| - 1], mode, now), Entry(p.key, OwnerFound(m, p), PeerCharge(m, p, now));
        assert Entries(m, s, mode, now) == rest + [e] && (rest + [e])[..|rest|] == rest;
      } else {
        assert Entries(m, s, mode, now) == Entries(m, s[..|s| - 1], mode, now);
      }
    }
  }

  /** A key has one entry: its pending bytes if it is listed and charged. */
  lemma LastEntry(m: Memory, s: seq<PeerInfo>, mode: Mode, now: Time, k: Key)
    requires |s| > 0
    ensures var p := s[|s| - 1];
      ByKey(Entries(m, s, mode, now), k) == ByKey(Entries(m, s[..|s| - 1], mode, now), k) +
        if p.key == k && (k in m.peers || mode.OpenMode?) then PeerCharge(m, p, now) else 0
  {
    hide PeerCharge, OwnerFound;
    var p, rest := s[|s| - 1], Entries(m, s[..|s| - 1], mode, now);
    if p.key in m.peers || mode.OpenMode? {
      var e := Entry(p.key, OwnerFound(m, p), PeerCharge(m, p, now));
      assert Entries(m, s, mode, now) == rest + [e] && (rest + [e])[..|rest|] == rest;
    } else {
      assert Entries(m, s, mode, now) == rest;
    }
  }

  lemma LastListed(s: seq<PeerInfo>)
    requires |s| > 0 && UniqueKeys(s)
    ensures var n := |s| - 1;
      && s == s[..n] + [s[n]] && UniqueKeys(s[..n])
      && SnapshotKeys(s) == SnapshotKeys(s[..n]) + {s[n].key} && s[n].key !in SnapshotKeys(s[..n])
  {
    var n := |s| - 1;
    assert s == s[..n] + [s[n]];
    assert forall p :: p in s[..n] ==> p.key != s[n].key;
  }

  lemma KeyIsListed(s: seq<PeerInfo>, p: PeerInfo)
    requires p in s
    ensures p.key in SnapshotKeys(s)
  {
  }

  lemma NothingEntered(m: Memory, mode: Mode, now: Time, k: Key)
    ensures ByKey(Entries(m, [], mode, now), k) == 0
  {
  }

  lemma {:induction false} EntriesByKey(m: Memory, s: seq<PeerInfo>, mode: Mode, now: Time, k: Key)
    requires UniqueKeys(s)
    ensures k !in SnapshotKeys(s) ==> ByKey(Entries(m, s, mode, now), k) == 0
    ensures forall p :: p in s && p.key == k ==>
      ByKey(Entries(m, s, mode, now), k) == if k in m.peers || mode.OpenMode? then PeerCharge(m, p, now) else 0
  {
    hide *;
    if |s| == 0 {
      NothingEntered(m, mode, now, k);
      assert s == [];
    } else {
      var n := |s| - 1;
      LastListed(s);
      LastEntry(m, s, mode, now, k);
      EntriesByKey(m, s[..n], mode, now, k);
      forall p | p in s && p.key == k
        ensures ByKey(Entries(m, s, mode, now), k) == if k in m.peers || mode.OpenMode? then PeerCharge(m, p, now)
          else 0
      {
        if p in s[..n] {
          KeyIsListed(s[..n], p);
        }
      }
    }
  }

  // ---------------------------------------------------------------- never more than flowed

  function LastRx(m: Memory, k: Key): int { if k in m.runtime then m.runtime[k].lastRx else 0 }
  function LastTx(m: Memory, k: Key): int { if k in m.runtime then m.runtime[k].lastTx else 0 }

  /** Bytes already charged for a key's open session; 0 without one. */
  function LastObserved(m: Memory, k: Key): int {
    LastRx(m, k) + LastTx(m, k)
  }

  /** Bytes the next observation of a device peer would charge. */
  function PendingBytes(s: System, k: Key): int {
    if k in s.device then Delta(s.device[k].rx, LastRx(s.mem, k)) + Delta(s.device[k].tx, LastTx(s.mem, k)) else 0
  }

  ghost predicate NonNegative(s: System) {
    && (forall k :: k in s.device ==> 0 <= s.device[k].rx && 0 <= s.device[k].tx)
    && (forall k :: k in s.mem.runtime ==> 0 <= s.mem.runtime[k].lastRx && 0 <= s.mem.runtime[k].lastTx)
  }

  ghost predicate Metered(w: World, charged: seq<Entry>, flowed: seq<Entry>) {
    && NonNegative(w.sys)
    && (forall k :: ByKey(charged, k) + PendingBytes(w.sys, k) <= ByKey(flowed, k))
  }

  /** What happens to one key's session while nothing is charged: it goes on with the same
      counters and baseline, starts afresh, or ends. */
  ghost predicate SessionKept(s: System, t: System, k: Key) {
    k in t.device ==>
      || (k in s.device && t.device[k] == s.device[k] && LastRx(t.mem, k) == LastRx(s.mem, k) &&
        LastTx(t.mem, k) == LastTx(s.mem, k))
      || (t.device[k] == Counters(0, 0) && 0 <= LastRx(t.mem, k) && 0 <= LastTx(t.mem, k))
  }

  lemma KeptSessionsStayMetered(w: World, t: System, charged: seq<Entry>, flowed: seq<Entry>)
    requires Metered(w, charged, flowed) && NonNegative(t) && forall k :: SessionKept(w.sys, t, k)
    ensures Metered(w.(sys := t), charged, flowed)
  {
    forall k ensures ByKey(charged, k) + PendingBytes(t, k) <= ByKey(flowed, k) {
      assert SessionKept(w.sys, t, k);
      assert 0 <= PendingBytes(w.sys, k);
      hide ByKey;
    }
  }

  lemma RegisterKeepsSessions(s: System, i: RegisterInput)
    requires NonNegative(s)
    ensures NonNegative(RegisterPeer(s, i).sys) && forall k :: SessionKept(s, RegisterPeer(s, i).sys, k)
  {
    if !s.mem.failed {
      AdmissionKeepsSessions(s, i, Authorize(i.mode, i.request, i.validated, i.revoked).credential);
    }
    hide Admit, NonNegative;
  }

  lemma AdmissionKeepsSessions(s: System, i: RegisterInput, credential: Credential)
    requires NonNegative(s) && !s.mem.failed
    ensures NonNegative(Admit(s, i, credential).sys) && forall k :: SessionKept(s, Admit(s, i, credential).sys, k)
  {
    var c := AdmitCases(s, i, credential);
    var t := Admit(s, i, credential).sys;
    hide Admit, Written, OtherPeers, AccountOf, DiskOf, OverQuota;
    match c
    case Refused =>
    case SaveLost =>
    case Started =>
      assert t.mem.runtime == Touch(s.mem.runtime, i.peer, i.clock.now);
      TouchedSession(s, t, i);
    case Undone =>
      assert t.device == RemoveFrom(AddTo(s.device, i.peer, i.add), i.peer, RemoveOk);
      UndoneSession(s, t, i);
  }

  /** A key's session on the device of a registration that touched `i.peer`. */
  lemma TouchedDevice(s: System, i: RegisterInput, device: map<Key, Counters>, k: Key)
    requires device == AddTo(s.device, i.peer, AddOk) ||
      device == RemoveFrom(AddTo(s.device, i.peer, i.add), i.peer, i.cleanup)
    ensures k in device ==>
      (k in s.device && device[k] == s.device[k]) || (k !in s.device && device[k] == Counters(0, 0))
  {
  }

  lemma TouchedSession(s: System, t: System, i: RegisterInput)
    requires NonNegative(s) && t.mem.runtime == Touch(s.mem.runtime, i.peer, i.clock.now)
    requires t.device == AddTo(s.device, i.peer, AddOk) ||
      t.device == RemoveFrom(AddTo(s.device, i.peer, i.add), i.peer, i.cleanup)
    ensures NonNegative(t) && forall k :: SessionKept(s, t, k)
  {
    forall k
      ensures SessionKept(s, t, k)
      ensures k in t.device ==> 0 <= t.device[k].rx && 0 <= t.device[k].tx
    {
      TouchedDevice(s, i, t.device, k);
      hide AddTo, RemoveFrom;
    }
    hide AddTo, RemoveFrom, SessionKept;
  }

  lemma UndoneSession(s: System, t: System, i: RegisterInput)
    requires NonNegative(s) && t.mem.runtime == s.mem.runtime - {i.peer}
    requires t.device == RemoveFrom(AddTo(s.device, i.peer, i.add), i.peer, RemoveOk)
    ensures NonNegative(t) && forall k :: SessionKept(s, t, k)
  {
    assert t.device == s.device - {i.peer};
    hide AddTo, RemoveFrom;
  }

  lemma IssueKeepsSessions(s: System, i: IssueInput)
    requires NonNegative(s)
    ensures NonNegative(IssueAuthKey(s, i).sys) && forall k :: SessionKept(s, IssueAuthKey(s, i).sys, k)
  {
    hide IssueAuthKey;
    IssueTouchesNoPeer(s, i);
  }

  /** After a reconcile, a listed peer's session has the listed counters as its baseline. */
  lemma {:induction false} ChargedBaseline(m: Memory, s: seq<PeerInfo>, mode: Mode, c: Clock, p: PeerInfo)
    requires Structural(m) && UniqueKeys(s) && p in s && (p.key in m.peers || mode.OpenMode?)
    ensures var r := ChargeAll(m, s, mode, c);
      p.key in r.runtime && LastRx(r, p.key) == p.rx && LastTx(r, p.key) == p.tx
  {
    hide Structural, ChargePeer;
    var n := |s| - 1;
    var before := ChargeAll(m, s[..n], mode, c);
    assert s == s[..n] + [s[n]];
    if s[n] != p {
      ChargedBaseline(m, s[..n], mode, c, p);
      assert p.key != s[n].key;
    }
    ChargePeerBaseline(before, s[n], mode, c, p.key);
  }

  lemma ChargePeerBaseline(m: Memory, q: PeerInfo, mode: Mode, c: Clock, k: Key)
    requires Structural(m)
    ensures var r := ChargePeer(m, q, mode, c);
      if k == q.key && (k in m.peers || mode.OpenMode?)
      then k in r.runtime && LastRx(r, k) == q.rx && LastTx(r, k) == q.tx
      else (k in r.runtime <==> k in m.runtime) && LastRx(r, k) == LastRx(m, k) && LastTx(r, k) == LastTx(m, k)
  {
    hide Structural, Observed, ChargeAccount;
  }

  /** A listed peer's baseline in the memory a reconcile writes. */
  lemma ListedBaseline(m: Memory, i: ReconcileInput, p: PeerInfo)
    requires Structural(m) && UniqueKeys(i.snapshot) && p in i.snapshot
    ensures var t := Reconciled(m, i);
      if p.key in m.peers || i.mode.OpenMode?
      then p.key in t.runtime && LastRx(t, p.key) == p.rx && LastTx(t, p.key) == p.tx
      else p.key !in m.runtime && p.key !in t.runtime
  {
    if p.key in m.peers || i.mode.OpenMode? {
      ChargedBaseline(m, i.snapshot, i.mode, i.clock, p);
    } else {
      assert Structural(ChargeAll(m, i.snapshot, i.mode, i.clock));
    }
    assert p.key in SnapshotKeys(i.snapshot);
    hide Structural, ChargeAll, RejectedKeys, SnapshotKeys;
  }

  /** One device peer's baseline after an atomic reconcile. */
  lemma ReconciledBaseline(s: System, i: ReconcileInput, k: Key)
    requires Structural(s.mem) && Lists(i.snapshot, s.device) && k in s.device
    ensures var t := Reconciled(s.mem, i);
      if k in s.mem.peers || i.mode.OpenMode?
      then k in t.runtime && LastRx(t, k) == s.device[k].rx && LastTx(t, k) == s.device[k].tx
      else k !in s.mem.runtime && k !in t.runtime
  {
    hide Structural, Reconciled;
    var p :| p in i.snapshot && p.key == k;
    ListedBaseline(s.mem, i, p);
  }

  lemma ReconcileOutcomeAt(s: System, i: ReconcileInput, k: Key)
    requires Structural(s.mem) && !s.mem.failed
    ensures var t := Reconcile(s, i).sys;
      && (k in t.device ==> k in s.device && t.device[k] == s.device[k])
      && (k in t.mem.runtime ==>
        k in Reconciled(s.mem, i).runtime && t.mem.runtime[k] == Reconciled(s.mem, i).runtime[k])
      && (k in t.device && k in Reconciled(s.mem, i).runtime ==> k in t.mem.runtime)
  {
    hide Structural, Reconciled, RemovedKeys;
  }

  lemma ReconcileMeters(s: System, i: ReconcileInput, k: Key)
    requires Structural(s.mem) && !s.mem.failed && Lists(i.snapshot, s.device) && NonNegative(s)
    ensures ByKey(Entries(s.mem, i.snapshot, i.mode, i.clock.now), k) + PendingBytes(Reconcile(s, i).sys, k) <=
      PendingBytes(s, k)
  {
    hide Structural, Reconcile, Reconciled, Entries, PeerCharge, ByKey;
    EntriesByKey(s.mem, i.snapshot, i.mode, i.clock.now, k);
    ReconcileOutcomeAt(s, i, k);
    if k in s.device {
      ReconciledBaseline(s, i, k);
      var p :| p in i.snapshot && p.key == k;
      assert s.device[k] == Counters(p.rx, p.tx);
      ChargeIsPending(s, p, i.clock.now);
    } else {
      assert k !in SnapshotKeys(i.snapshot);
    }
  }

  lemma ChargeIsPending(s: System, p: PeerInfo, now: Time)
    requires NonNegative(s) && p.key in s.device && s.device[p.key] == Counters(p.rx, p.tx)
    ensures PeerCharge(s.mem, p, now) == PendingBytes(s, p.key)
  {
  }

  lemma ReconcileStaysNonNegative(s: System, i: ReconcileInput)
    requires Structural(s.mem) && Lists(i.snapshot, s.device) && NonNegative(s)
    ensures NonNegative(Reconcile(s, i).sys)
  {
    if !s.mem.failed {
      forall k ensures var t := Reconcile(s, i).sys;
        && (k in t.device ==> 0 <= t.device[k].rx && 0 <= t.device[k].tx)
        && (k in t.mem.runtime ==> 0 <= t.mem.runtime[k].lastRx && 0 <= t.mem.runtime[k].lastTx)
      {
        ReconcileOutcomeAt(s, i, k);
        if k in s.device {
          ReconciledBaseline(s, i, k);
        } else {
          UnlistedBaseline(s.mem, i, k);
        }
        hide Structural, Reconcile, Reconciled, Lists;
      }
    }
    hide Structural, Reconcile, Lists;
  }

  lemma UnlistedBaseline(m: Memory, i: ReconcileInput, k: Key)
    requires Structural(m) && k !in SnapshotKeys(i.snapshot)
    ensures k in Reconciled(m, i).runtime ==> k in m.runtime && Reconciled(m, i).runtime[k] == m.runtime[k]
  {
    assert forall p :: p in i.snapshot ==> p.key in SnapshotKeys(i.snapshot);
    ChargeLeavesOthers(m, i.snapshot, i.mode, i.clock, k);
    hide Structural, ChargeAll, RejectedKeys, SnapshotKeys;
  }

  lemma StartIsMetered(w: World, image: Option<Disk>, c: Clock, save: SaveOutcome, restore: RestoreInput,
    charged: seq<Entry>, flowed: seq<Entry>)
    requires Metered(w, charged, flowed)
    ensures Metered(Start(w, image, c, save, restore), charged, flowed)
    ensures forall k :: LastRx(Start(w, image, c, save, restore).sys.mem, k) == 0
    ensures forall k :: LastTx(Start(w, image, c, save, restore).sys.mem, k) == 0
  {
    hide Start, SessionKept, LastRx, LastTx, NonNegative, PendingBytes, ByKey;
    var t := Start(w, image, c, save, restore).sys;
    StartedSessionsAreNew(w, image, c, save, restore);
    KeptSessionsStayMetered(w, t, charged, flowed);
  }

  lemma StartedSessionsAreNew(w: World, image: Option<Disk>, c: Clock, save: SaveOutcome, restore: RestoreInput)
    ensures var t := Start(w, image, c, save, restore).sys;
      && NonNegative(t)
      && (forall k :: SessionKept(w.sys, t, k))
      && (forall k :: LastRx(t.mem, k) == 0 && LastTx(t.mem, k) == 0)
  {
    hide Load, RestorePeers, Structural;
    var loaded := Load(Booted(w), image, c, save);
    LoadedParts(Booted(w), image, c, save);
    if loaded.error == NoError && Structural(loaded.sys.mem) {
      RestoredSessionsAreNew(loaded.sys, restore);
    }
  }

  lemma RestoredSessionsAreNew(s: System, i: RestoreInput)
    requires Structural(s.mem) && s.mem.runtime == map[] && s.device == map[]
    ensures var t := RestorePeers(s, i).sys;
      && (forall k :: k in t.mem.runtime ==> t.mem.runtime[k].lastRx == 0 && t.mem.runtime[k].lastTx == 0)
      && (forall k :: k in t.device ==> t.device[k] == Counters(0, 0))
  {
    hide Structural, DecideFor, AddOutcomeOf, RecentOwners, RestoreQuota, RestoredRecord, RestoreChanges;
  }

  lemma StepIsMetered(w: World, step: Step, zone: int, charged: seq<Entry>, flowed: seq<Entry>)
    requires Healthy(w) && Metered(w, charged, flowed) && Wired(w, step, zone) && AtomicCommit(w, step)
    ensures Metered(Apply(w, step), charged + StepCharges(w, step), flowed + StepTraffic(w, step))
  {
    assert charged + [] == charged && flowed + [] == flowed;
    match step
    case Restart(image, c, save, restore) =>
      StartIsMetered(w, image, c, save, restore, charged, flowed);
      hide Start, Metered, Healthy;
    case Register(i) =>
      if w.up {
        RegisterKeepsSessions(w.sys, i);
        KeptSessionsStayMetered(w, RegisterPeer(w.sys, i).sys, charged, flowed);
      }
      hide RegisterPeer, Healthy, SessionKept, ByKey, PendingBytes, NonNegative;
    case Issue(i) =>
      if w.up {
        IssueKeepsSessions(w.sys, i);
        KeptSessionsStayMetered(w, IssueAuthKey(w.sys, i).sys, charged, flowed);
      }
      hide IssueAuthKey, Healthy, SessionKept, ByKey, PendingBytes, NonNegative;
    case Commit(i) =>
      CommitIsMetered(w, i, charged, flowed);
      hide Reconcile, Metered, Healthy;
    case Traffic(k, rx, tx) =>
      TrafficIsMetered(w, k, rx, tx, charged, flowed);
      hide Metered, Healthy;
    case ResetCounters(k) =>
      if w.up && k in w.sys.device {
        KeptSessionsStayMetered(w, Apply(w, step).sys, charged, flowed);
      }
      hide Metered, Healthy;
    case TakeSnapshot(_, _) =>
      hide Healthy, ByKey, PendingBytes, NonNegative;
  }

  lemma CommitIsMetered(w: World, i: ReconcileInput, charged: seq<Entry>, flowed: seq<Entry>)
    requires Healthy(w) && Metered(w, charged, flowed) && AtomicCommit(w, Commit(i)) && w.pending == Some(i.snapshot)
    ensures Metered(Apply(w, Commit(i)), charged + StepCharges(w, Commit(i)), flowed)
  {
    assert charged + [] == charged;
    if w.up {
      assert Structural(w.sys.mem);
      ReconcileStaysNonNegative(w.sys, i);
      if !w.sys.mem.failed {
        var entries := Entries(w.sys.mem, i.snapshot, i.mode, i.clock.now);
        LedgerAppends(charged, entries);
        forall k ensures ByKey(charged + entries, k) + PendingBytes(Reconcile(w.sys, i).sys, k) <= ByKey(flowed, k) {
          ReconcileMeters(w.sys, i, k);
        }
      }
    }
    hide Healthy, Reconcile, Entries, Structural, ByKey, PendingBytes, NonNegative, Lists;
  }

  lemma TrafficIsMetered(w: World, key: Key, rx: nat, tx: nat, charged: seq<Entry>, flowed: seq<Entry>)
    requires Metered(w, charged, flowed)
    ensures Metered(Apply(w, Traffic(key, rx, tx)), charged, flowed + StepTraffic(w, Traffic(key, rx, tx)))
  {
    assert flowed + [] == flowed;
    var step := Traffic(key, rx, tx);
    if w.up && key in w.sys.device {
      var e := Entry(key, EmptyOwner, rx + tx);
      LedgerAppends(flowed, [e]);
      assert forall k :: ByKey([e], k) == if k == key then rx + tx else 0;
      hide ByKey;
    }
  }

  lemma {:induction false} RunIsMetered(w: World, steps: seq<Step>, zone: int)
    requires Fresh(w) && WiredRun(w, steps, zone) && AtomicCommits(w, steps)
    ensures Metered(Run(w, steps), Charges(w, steps), Flowed(w, steps))
  {
    FreshIsHealthy(w);
    if |steps| > 0 {
      RunsStayHealthy(w, steps[..|steps| - 1], zone);
      RunIsMetered(w, steps[..|steps| - 1], zone);
      StepIsMetered(Run(w, steps[..|steps| - 1]), steps[|steps| - 1], zone, Charges(w, steps[..|steps| - 1]),
        Flowed(w, steps[..|steps| - 1]));
      hide Healthy, Metered, Apply, Wired, AtomicCommit, StepCharges, StepTraffic;
    }
  }

  /** Over any run of registrations, atomic reconciles, counter resets, removals and restarts,
      no peer is charged more than it sent, and neither are all of them together. */
  lemma AtomicRunsNeverOvercharge(w: World, steps: seq<Step>, zone: int)
    requires Fresh(w) && WiredRun(w, steps, zone) && AtomicCommits(w, steps)
    ensures forall k :: ByKey(Charges(w, steps), k) <= ByKey(Flowed(w, steps), k)
    ensures Total(Charges(w, steps)) <= Total(Flowed(w, steps))
  {
    hide Run, Charges, Flowed, WiredRun, AtomicCommits;
    RunIsMetered(w, steps, zone);
    MeteredIsBounded(Run(w, steps), Charges(w, steps), Flowed(w, steps));
  }

  lemma MeteredIsBounded(w: World, charged: seq<Entry>, flowed: seq<Entry>)
    requires Metered(w, charged, flowed)
    ensures forall k :: ByKey(charged, k) <= ByKey(flowed, k)
    ensures Total(charged) <= Total(flowed)
  {
    hide ByKey;
    forall k ensures ByKey(charged, k) <= ByKey(flowed, k) {
      assert 0 <= PendingBytes(w.sys, k);
    }
    TotalsFollowKeys(charged, flowed);
  }
}
