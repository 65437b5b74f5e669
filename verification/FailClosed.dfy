/** Failing closed: what a failed save or device call leaves behind, the latch that stops
    everything until the next load, and which peers a restart may bring back. */
module FailClosed {
  import opened Clocks
  import opened Records
  import opened Operations
  import opened Structure
  import opened Runs
  import opened Terms

  // ---------------------------------------------------------------- rollback

  /** A registration whose first save fails has no effect but the latch. */
  lemma LostSaveChangesNothing(s: System, i: RegisterInput)
    requires i.save.SaveFailed?
    ensures var r := RegisterPeer(s, i);
      && r.error != NoError
      && r.sys.mem.(failed := s.mem.failed) == s.mem
      && r.sys.device == s.device
      && (r.sys.images != s.images ==> r.sys.mem.failed)
  {
    if !s.mem.failed {
      var c := AdmitCases(s, i, Authorize(i.mode, i.request, i.validated, i.revoked).credential);
      hide Admit, Written, OtherPeers, AccountOf;
    }
  }

  /** A registration whose device call fails and is cleaned up gives everything back; the peer is
      neither running nor on the device, and no other peer is affected. */
  lemma FailedAddIsTakenBack(s: System, i: RegisterInput)
    requires !i.add.AddOk? && i.cleanup.RemoveOk?
    ensures var r := RegisterPeer(s, i);
      && r.error != NoError
      && r.sys.mem.peers == s.mem.peers && r.sys.mem.quotas == s.mem.quotas
      && (r.error == AddFailed ==>
        && r.sys.mem.runtime == s.mem.runtime - {i.peer}
        && i.peer !in r.sys.device
        && r.sys.images == {Some(DiskOf(s.mem))})
      && (forall k :: k != i.peer ==>
        (k in r.sys.device <==> k in s.device) && (k in r.sys.mem.runtime <==> k in s.mem.runtime))
  {
    hide Admit, Written, OtherPeers, QuotaFor, DiskOf, OverQuota, Touch, AddTo, RemoveFrom;
    if !s.mem.failed {
      var c := AdmitCases(s, i, Authorize(i.mode, i.request, i.validated, i.revoked).credential);
      AddedAndRemoved(s.device, i.peer, i.add);
    }
  }

  lemma AddedAndRemoved(device: map<Key, Counters>, k: Key, add: AddOutcome)
    ensures RemoveFrom(AddTo(device, k, add), k, RemoveOk).Keys == device.Keys - {k}
  {
  }

  // ---------------------------------------------------------------- the latch

  /** An operation reports an unavailable state exactly when it leaves the latch set, and no key
      is ever returned with it. */
  lemma FailedSaveLatches(s: System, r: RegisterInput, q: IssueInput, c: ReconcileInput)
    requires Structural(s.mem)
    ensures RegisterPeer(s, r).error == StateUnavailable <==> RegisterPeer(s, r).sys.mem.failed
    ensures IssueAuthKey(s, q).sys.mem.failed ==> IssueAuthKey(s, q).key.None?
    ensures Reconcile(s, c).error == StateUnavailable <==> Reconcile(s, c).sys.mem.failed
  {
    hide RegisterPeer, IssueAuthKey, Reconcile, Structural;
    RegisterLatches(s, r);
    IssueLatches(s, q);
    ReconcileLatches(s, c);
  }

  lemma RegisterLatches(s: System, i: RegisterInput)
    ensures RegisterPeer(s, i).error == StateUnavailable <==> RegisterPeer(s, i).sys.mem.failed
  {
    hide Admit, Written, OtherPeers, QuotaFor, OverQuota, DiskOf, AddTo, RemoveFrom, Touch;
    if !s.mem.failed {
      var a := AdmitCases(s, i, Authorize(i.mode, i.request, i.validated, i.revoked).credential);
      assert !Written(s.mem, i.peer, Authorize(i.mode, i.request, i.validated, i.revoked).credential, i.clock).failed
        by {
        WrittenKeepsLatch(s.mem, i.peer, Authorize(i.mode, i.request, i.validated, i.revoked).credential, i.clock);
      }
    }
  }

  lemma WrittenKeepsLatch(m: Memory, peer: Key, credential: Credential, c: Clock)
    ensures Written(m, peer, credential, c).failed == m.failed
  {
  }

  lemma IssueLatches(s: System, i: IssueInput)
    ensures IssueAuthKey(s, i).sys.mem.failed ==> IssueAuthKey(s, i).key.None?
  {
    hide RollWindow, Count;
  }

  lemma ReconcileLatches(s: System, i: ReconcileInput)
    requires Structural(s.mem)
    ensures Reconcile(s, i).error == StateUnavailable <==> Reconcile(s, i).sys.mem.failed
  {
    hide Structural, Reconciled, RemovedKeys;
    ReconciledKeepsLatch(s.mem, i);
  }

  lemma ReconciledKeepsLatch(m: Memory, i: ReconcileInput)
    requires Structural(m)
    ensures Reconciled(m, i).failed == m.failed
  {
    hide Structural, ChargeAll, RejectedKeys, SnapshotKeys, SnapshotOwners;
    ChargeAllKeepsLatch(m, i.snapshot, i.mode, i.clock);
  }

  lemma {:induction false} ChargeAllKeepsLatch(m: Memory, s: seq<PeerInfo>, mode: Mode, c: Clock)
    requires Structural(m)
    ensures ChargeAll(m, s, mode, c).failed == m.failed
  {
    if |s| > 0 {
      ChargeAllKeepsLatch(m, s[..|s| - 1], mode, c);
      hide Structural;
    }
  }

  /** Everything but the traffic counters. */
  ghost predicate SameBut(w: World, t: World) {
    t.sys.mem == w.sys.mem && t.sys.images == w.sys.images && t.sys.device.Keys == w.sys.device.Keys && t.up == w.up
  }

  lemma LatchedStepIsInert(w: World, step: Step)
    requires w.up && w.sys.mem.failed && !step.Restart?
    ensures SameBut(w, Apply(w, step))
    ensures step.Register? ==> RegisterPeer(w.sys, step.register).error == StateUnavailable
    ensures step.Issue? ==> IssueAuthKey(w.sys, step.issue).key.None?
    ensures step.Commit? && Structural(w.sys.mem) ==> Reconcile(w.sys, step.commit).error == StateUnavailable
  {
    hide Structural;
  }

  /** Once latched, no sequence of calls changes memory, disk or the set of device peers until
      the next restart. */
  lemma {:induction false} LatchHoldsUntilRestart(w: World, steps: seq<Step>)
    requires w.up && w.sys.mem.failed
    requires forall n :: 0 <= n < |steps| ==> !steps[n].Restart?
    ensures SameBut(w, Run(w, steps))
    ensures forall i: RestoreInput :: Structural(w.sys.mem) ==>
      RestorePeers(Run(w, steps).sys, i) == Result(Run(w, steps).sys, StateUnavailable)
  {
    if |steps| > 0 {
      LatchHoldsUntilRestart(w, steps[..|steps| - 1]);
      LatchedStepIsInert(Run(w, steps[..|steps| - 1]), steps[|steps| - 1]);
      hide Apply, Structural;
    }
  }

  // ---------------------------------------------------------------- restoring

  /** The peers a restart may put back: a recent endpoint, the current mode, no revocation that
      is known or cannot be ruled out, and an owner neither blocked nor over quota. */
  predicate MayReturn(m: Memory, k: Key, i: RestoreInput) {
    && k in m.peers
    && SeenLately(m.peers[k], i.clock.now)
    && OfMode(i.mode, m.peers[k])
    && (i.mode.SecretMode? ==> i.revoked.Some? && m.peers[k].keyID !in i.revoked.value)
    && WithinQuota(m.quotas, OwnerOf(k, m.peers[k]), i.limit, i.clock)
  }

  /** The device after restorePeers: what was there, and exactly the peers that may return and
      whose device call did not fail cleanly; only those with a successful call run. */
  lemma RestoreIsExact(s: System, i: RestoreInput, k: Key)
    requires Structural(s.mem) && !s.mem.failed
    ensures var r := RestorePeers(s, i).sys;
      && (k in r.device <==> k in s.device || (MayReturn(s.mem, k, i) && !AddOutcomeOf(i, k).AddFailedClean?))
      && (k in r.mem.runtime <==> k in s.mem.runtime || (MayReturn(s.mem, k, i) && AddOutcomeOf(i, k).AddOk?))
      && r.mem.peers.Keys == s.mem.peers.Keys
      && (MayReturn(s.mem, k, i) && AddOutcomeOf(i, k).AddOk? ==>
        r.mem.peers[k] == s.mem.peers[k] && r.mem.runtime[k] == Runtime(0, 0, i.clock.now))
      && (k in r.device ==> r.device[k] == if k in s.device then s.device[k] else Counters(0, 0))
  {
    hide RestorePeers, DecideFor, AddOutcomeOf, RestoredMemory, RestoredDevice;
    assert s.mem.runtime.Keys <= s.mem.peers.Keys;
    assert MayReturn(s.mem, k, i) ==> k in s.mem.peers;
    hide Structural, MayReturn;
    RestoreEnds(s, i);
    RestoredParts(s, i, k);
    if k in s.mem.peers {
      AttemptIsPermitted(s.mem, k, i);
    }
  }

  lemma RestoreEnds(s: System, i: RestoreInput)
    requires Structural(s.mem) && !s.mem.failed
    ensures var r, m := RestorePeers(s, i).sys, RestoredMemory(s.mem, i);
      r.device == RestoredDevice(s, i) && r.mem.peers == m.peers && r.mem.runtime == m.runtime
  {
    hide Structural, RestoredMemory, RestoredDevice, RestoreChanges;
  }

  lemma AttemptIsPermitted(m: Memory, k: Key, i: RestoreInput)
    requires Structural(m) && k in m.peers
    ensures DecideFor(m, k, i).Attempt? <==> MayReturn(m, k, i)
  {
    assert i.clock.now < NextLocalMidnight(i.clock);
    hide Structural, NextLocalMidnight;
  }

  lemma RestoredParts(s: System, i: RestoreInput, k: Key)
    requires Structural(s.mem)
    ensures var m := RestoredMemory(s.mem, i);
      && m.peers.Keys == s.mem.peers.Keys
      && (k in s.mem.peers && Restored(s.mem, k, i) ==> m.peers[k] == s.mem.peers[k])
      && (k in m.runtime <==> k in s.mem.peers && (k in s.mem.runtime || Restored(s.mem, k, i)))
      && (k in s.mem.peers && Restored(s.mem, k, i) ==> k in m.runtime && m.runtime[k] == Runtime(0, 0, i.clock.now))
    ensures k in RestoredDevice(s, i) <==>
      (k in s.device || (k in s.mem.peers && DecideFor(s.mem, k, i).Attempt? && !AddOutcomeOf(i, k).AddFailedClean?))
    ensures k in RestoredDevice(s, i) ==>
      RestoredDevice(s, i)[k] == if k in s.device then s.device[k] else Counters(0, 0)
  {
    hide Structural, DecideFor, AddOutcomeOf, RecentOwners, RestoreQuota;
  }
}
