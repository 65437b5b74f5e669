/** What a reconcile that returned nil leaves of every record, session, account and device peer:
    in terms of the state it starts from and of what the device lists. */
module Reconciles {
  import opened Clocks
  import opened Records
  import opened Operations
  import opened Charging
  import opened Verdicts
  import opened Terms

  // ---------------------------------------------------------------- the passes, one key at a time

  /** Charging leaves a listed peer's record and session as one observation of it does. */
  lemma {:induction false} ChargedRecord(m: Memory, s: seq<PeerInfo>, mode: Mode, c: Clock, p: PeerInfo)
    requires Structural(m) && UniqueKeys(s) && p in s
    ensures var r := ChargeAll(m, s, mode, c);
      if p.key in m.peers || mode.OpenMode? then
        && p.key in r.peers && p.key in r.runtime
        && r.peers[p.key] == Observed(KnownRecord(m, p.key, c.now), p, RuntimeOf(m, p.key, c.now).addedAt, c.now)
        && r.runtime[p.key] == Runtime(p.rx, p.tx, RuntimeOf(m, p.key, c.now).addedAt)
      else
        p.key !in r.peers && p.key !in r.runtime
  {
    hide Structural, ChargePeer, UniqueKeys, Observed, KnownRecord, RuntimeOf;
    var n := |s| - 1;
    var before := ChargeAll(m, s[..n], mode, c);
    assert s == s[..n] + [s[n]];
    LastKeyIsNew(s);
    if s[n] == p {
      ChargeLeavesOthers(m, s[..n], mode, c, p.key);
      SameBefore(m, before, p.key, c.now);
      OnlyRecordedRun(m, p.key);
      ChargePeerIs(before, p, mode, c);
    } else {
      ChargedRecord(m, s[..n], mode, c, p);
      ChargePeerLeavesOthers(before, s[n], mode, c, p.key);
    }
  }

  lemma SameBefore(m: Memory, r: Memory, k: Key, now: Time)
    requires (k in r.peers <==> k in m.peers) && (k in m.peers ==> r.peers[k] == m.peers[k])
    requires (k in r.runtime <==> k in m.runtime) && (k in m.runtime ==> r.runtime[k] == m.runtime[k])
    ensures KnownRecord(r, k, now) == KnownRecord(m, k, now) && RuntimeOf(r, k, now) == RuntimeOf(m, k, now)
  {
  }

  lemma OnlyRecordedRun(m: Memory, k: Key)
    requires Structural(m)
    ensures k in m.runtime ==> k in m.peers
  {
  }

  lemma ChargePeerIs(m: Memory, p: PeerInfo, mode: Mode, c: Clock)
    requires Structural(m)
    ensures var r := ChargePeer(m, p, mode, c);
      if p.key in m.peers || mode.OpenMode? then
        && p.key in r.peers && p.key in r.runtime
        && r.peers[p.key] == Observed(KnownRecord(m, p.key, c.now), p, RuntimeOf(m, p.key, c.now).addedAt, c.now)
        && r.runtime[p.key] == Runtime(p.rx, p.tx, RuntimeOf(m, p.key, c.now).addedAt)
      else r == m
  {
    hide Structural, Observed, ChargeAccount;
  }

  /** The later passes: rejected peers lose their endpoint, unlisted records go after 48 hours. */
  lemma LaterPasses(m: Memory, i: ReconcileInput, k: Key)
    requires Structural(m)
    ensures var j, t, now := Judged(m, i), Reconciled(m, i), i.clock.now;
      && (k in t.peers <==>
        k in j.peers && (k in SnapshotKeys(i.snapshot) || now - j.peers[k].lastSeen < 48 * HOUR))
      && (k in t.peers ==>
        t.peers[k] == if k in RejectedKeys(j, i.snapshot, i)
          then j.peers[k].(endpoint := None, endpointSeenAt := ZERO_TIME) else j.peers[k])
      && (k in t.runtime <==> k in j.runtime && (k in j.peers ==> k in t.peers))
      && (k in t.runtime ==> t.runtime[k] == j.runtime[k])
  {
    hide Structural, Judged, RejectedKeys, SnapshotKeys, Referenced;
  }

  /** ... and accounts nobody refers to go after 48 idle hours without a block. */
  lemma LastPass(m: Memory, i: ReconcileInput, o: Owner)
    requires Structural(m)
    ensures var j, t, now := Judged(m, i), Reconciled(m, i), i.clock.now;
      && (o in t.quotas <==>
        && o in j.quotas
        && (|| (exists k :: k in t.peers && OwnerOf(k, t.peers[k]) == o)
            || now - j.quotas[o].lastSeen < 48 * HOUR || now < j.quotas[o].blockedUntil))
      && (o in t.quotas ==> t.quotas[o] == j.quotas[o])
  {
    hide Structural, Judged, RejectedKeys, SnapshotKeys, OwnerOf;
  }

  lemma ReconciledRest(m: Memory, i: ReconcileInput)
    requires Structural(m)
    ensures var t := Reconciled(m, i); t.window == m.window && t.counts == m.counts && t.failed == m.failed
  {
    hide Structural, ChargeAll, RejectedKeys, SnapshotKeys, SnapshotOwners;
    ChargingKeepsRest(m, i.snapshot, i.mode, i.clock);
  }

  lemma {:induction false} ChargingKeepsRest(m: Memory, s: seq<PeerInfo>, mode: Mode, c: Clock)
    requires Structural(m)
    ensures var t := ChargeAll(m, s, mode, c); t.window == m.window && t.counts == m.counts && t.failed == m.failed
  {
    if |s| > 0 {
      ChargingKeepsRest(m, s[..|s| - 1], mode, c);
      hide Structural, KnownRecord, RuntimeOf, ChargeAccount;
    }
  }

  lemma RejectedExactly(m: Memory, i: ReconcileInput, p: PeerInfo)
    requires Structural(m) && UniqueKeys(i.snapshot) && p in i.snapshot
    ensures var j := Judged(m, i);
      p.key in RejectedKeys(j, i.snapshot, i) <==> (p.key in m.peers || i.mode.OpenMode?) && !MayStay(m, i, p)
  {
    JudgedPeer(m, i, p);
    forall q | q in i.snapshot && q.key == p.key ensures q == p {
    }
    hide Structural, Judged, MayStay, Rejected;
  }

  lemma JudgedRecords(m: Memory, i: ReconcileInput)
    requires Structural(m)
    ensures var r := ChargeAll(m, i.snapshot, i.mode, i.clock);
      Judged(m, i).peers == r.peers && Judged(m, i).runtime == r.runtime
  {
    hide Structural, ChargeAll;
  }

  // ---------------------------------------------------------------- the answer

  /** A listed peer's record: its own, or the one the open mode gives it. */
  function RecordFound(m: Memory, p: PeerInfo, now: Time): PeerRecord {
    if p.key in m.peers then m.peers[p.key] else PeerRecord(OpenId, NoGeneration, now, now, None, ZERO_TIME)
  }

  /** The record afterwards: seen now, with the listed endpoint if the last handshake is under 15
      minutes old, with none if the peer is removed or 15 minutes idle, and else the one it had. */
  function RecordAfter(m: Memory, i: ReconcileInput, p: PeerInfo): PeerRecord {
    var seen := RecordFound(m, p, i.clock.now).(lastSeen := i.clock.now);
    if !MayStay(m, i, p) then seen.(endpoint := None, endpointSeenAt := ZERO_TIME)
    else if p.handshake != ZERO_TIME && i.clock.now - p.handshake < 15 * MINUTE && p.endpoint.Some? then
      seen.(endpoint := p.endpoint, endpointSeenAt := p.handshake)
    else if IdleTime(m, p, i.clock.now) >= 15 * MINUTE then seen.(endpoint := None, endpointSeenAt := ZERO_TIME)
    else seen
  }

  /** A listed peer's session afterwards: the listed counters, begun when it was. */
  function SessionAfter(m: Memory, i: ReconcileInput, p: PeerInfo): Runtime {
    Runtime(p.rx, p.tx, if p.key in m.runtime then m.runtime[p.key].addedAt else i.clock.now)
  }

  lemma ObservedIs(m: Memory, i: ReconcileInput, p: PeerInfo)
    ensures var now := i.clock.now;
      var seen := Observed(KnownRecord(m, p.key, now), p, RuntimeOf(m, p.key, now).addedAt, now);
      RecordAfter(m, i, p) == if MayStay(m, i, p) then seen else seen.(endpoint := None, endpointSeenAt := ZERO_TIME)
    ensures Runtime(p.rx, p.tx, RuntimeOf(m, p.key, i.clock.now).addedAt) == SessionAfter(m, i, p)
  {
    hide MayStay;
  }

  lemma ListedAfter(m: Memory, i: ReconcileInput, p: PeerInfo)
    requires Structural(m) && UniqueKeys(i.snapshot) && p in i.snapshot
    ensures var t := Reconciled(m, i);
      if p.key in m.peers || i.mode.OpenMode? then
        && p.key in t.peers && t.peers[p.key] == RecordAfter(m, i, p)
        && p.key in t.runtime && t.runtime[p.key] == SessionAfter(m, i, p)
      else
        p.key !in t.peers && p.key !in t.runtime
  {
    assert p.key in SnapshotKeys(i.snapshot);
    hide *;
    ChargedRecord(m, i.snapshot, i.mode, i.clock, p);
    JudgedRecords(m, i);
    LaterPasses(m, i, p.key);
    RejectedExactly(m, i, p);
    ObservedIs(m, i, p);
  }

  lemma UnlistedAfter(m: Memory, i: ReconcileInput, k: Key)
    requires Structural(m) && k !in SnapshotKeys(i.snapshot)
    ensures var t := Reconciled(m, i);
      && (k in t.peers <==> k in m.peers && i.clock.now - m.peers[k].lastSeen < 48 * HOUR)
      && (k in t.peers ==> t.peers[k] == m.peers[k])
      && (k in t.runtime <==> k in m.runtime && k in t.peers)
      && (k in t.runtime ==> t.runtime[k] == m.runtime[k])
  {
    assert forall p :: p in i.snapshot ==> p.key != k;
    assert k !in RejectedKeys(Judged(m, i), i.snapshot, i) by { hide Judged, Structural, Rejected; }
    hide *;
    ChargeLeavesOthers(m, i.snapshot, i.mode, i.clock, k);
    JudgedRecords(m, i);
    LaterPasses(m, i, k);
    OnlyRecordedRun(m, k);
  }

  /** An owner with a listed peer: its charges are added to what it used today, and it is blocked
      until the end of the day when that is over a positive limit. */
  function AccountAfter(m: Memory, i: ReconcileInput, o: Owner): QuotaRecord {
    QuotaRecord(Day(DayOf(i.clock)), UsageAfter(m, i, o),
      if i.limit > 0 && UsageAfter(m, i, o) > i.limit && i.clock.now >= BlockEnd(m.quotas, o, i.clock)
      then EndOfDay(i.clock) else BlockEnd(m.quotas, o, i.clock), i.clock.now)
  }

  /** Some listed peer with a record, or adopted by the open mode, is charged to `o`. */
  ghost predicate Charges(m: Memory, i: ReconcileInput, o: Owner) {
    exists p :: p in i.snapshot && (p.key in m.peers || i.mode.OpenMode?) && OwnerFound(m, p) == o
  }

  lemma ChargedAccountAfter(m: Memory, i: ReconcileInput, p: PeerInfo)
    requires Structural(m) && UniqueKeys(i.snapshot) && p in i.snapshot && (p.key in m.peers || i.mode.OpenMode?)
    ensures var t, o := Reconciled(m, i), OwnerFound(m, p);
      o in t.quotas && t.quotas[o] == AccountAfter(m, i, o)
  {
    var o := OwnerFound(m, p);
    assert OwnerOf(p.key, RecordAfter(m, i, p)) == o by { hide MayStay, IdleTime; }
    hide *;
    JudgedAccount(m, i, p);
    AccountAfterIs(m, i, o);
    ListedAfter(m, i, p);
    LastPass(m, i, o);
  }

  lemma AccountAfterIs(m: Memory, i: ReconcileInput, o: Owner)
    ensures var q := QuotaFor(m, o, i.clock);
      AccountAfter(m, i, o) == q.(
        usedBytes := UsageAfter(m, i, o),
        lastSeen := i.clock.now,
        blockedUntil := if i.limit > 0 && UsageAfter(m, i, o) > i.limit && !(i.clock.now < q.blockedUntil)
          then NextLocalMidnight(i.clock) else q.blockedUntil)
  {
    AccountIsOfTheDay(m.quotas, o, i.clock);
    DayIs(i.clock);
    hide AccountOf, UsageAfter, BlockEnd, UsedToday, NextLocalMidnight, EndOfDay, DayOf;
  }

  lemma OtherAccountAfter(m: Memory, i: ReconcileInput, o: Owner)
    requires Structural(m) && UniqueKeys(i.snapshot) && !Charges(m, i, o)
    ensures var t, now := Reconciled(m, i), i.clock.now;
      && (o in t.quotas <==>
        && o in m.quotas
        && (|| (exists k :: k in t.peers && OwnerOf(k, t.peers[k]) == o)
            || now - m.quotas[o].lastSeen < 48 * HOUR || now < m.quotas[o].blockedUntil))
      && (o in t.quotas ==> t.quotas[o] == m.quotas[o])
  {
    var charged := ChargeAll(m, i.snapshot, i.mode, i.clock);
    assert (o in charged.quotas <==> o in m.quotas) && (o in m.quotas ==> charged.quotas[o] == m.quotas[o]) by {
      AggregateCharge(m, i.snapshot, i.mode, i.clock, o);
      NobodyPays(m, i, o);
      hide Structural, Listed, ChargeAll, QuotaFor, TotalCharge, Charges, UniqueKeys;
    }
    assert o !in SnapshotOwners(charged, i.snapshot) by { NobodyIsCharged(m, i, o); }
    UntouchedAccount(charged, i.snapshot, i.limit, i.clock, o);
    assert Judged(m, i) == BlockOwners(charged, i.snapshot, i.limit, i.clock) by { hide Structural, BlockOwners; }
    hide *;
    LastPass(m, i, o);
  }

  lemma NobodyPays(m: Memory, i: ReconcileInput, o: Owner)
    requires !Charges(m, i, o)
    ensures !Listed(m, i.snapshot, i.mode, i.clock.now, o)
  {
    forall p | p in i.snapshot ensures !Pays(m, p, i.mode, i.clock.now, o) {
    }
    hide Pays;
  }

  lemma NobodyIsCharged(m: Memory, i: ReconcileInput, o: Owner)
    requires Structural(m) && !Charges(m, i, o)
    ensures o !in SnapshotOwners(ChargeAll(m, i.snapshot, i.mode, i.clock), i.snapshot)
  {
    hide Structural, ChargeAll, UniqueKeys;
    forall p | p in i.snapshot && p.key in ChargeAll(m, i.snapshot, i.mode, i.clock).peers
      ensures OwnerOf(p.key, ChargeAll(m, i.snapshot, i.mode, i.clock).peers[p.key]) != o
    {
      ChargeKeepsIdentity(m, i.snapshot, i.mode, i.clock, p.key);
    }
  }

  lemma UntouchedAccount(m: Memory, snapshot: seq<PeerInfo>, limit: int, c: Clock, o: Owner)
    requires o !in SnapshotOwners(m, snapshot)
    ensures var b := BlockOwners(m, snapshot, limit, c);
      (o in b.quotas <==> o in m.quotas) && (o in m.quotas ==> b.quotas[o] == m.quotas[o])
  {
    hide SnapshotOwners;
  }

  lemma ReconcileEnds(s: System, i: ReconcileInput)
    requires Structural(s.mem) && Reconcile(s, i).error == NoError
    ensures var m, t := Reconciled(s.mem, i), Reconcile(s, i).sys;
      && !s.mem.failed && t.mem == m.(runtime := t.mem.runtime) && t.images == {Some(DiskOf(t.mem))}
      && (forall k :: k in t.mem.runtime <==>
        k in m.runtime && (k in RemovedKeys(s.mem, i) ==> !RemoveOutcomeOf(i, k).RemoveOk?))
      && (forall k :: k in t.mem.runtime ==> t.mem.runtime[k] == m.runtime[k])
      && (forall k :: k in t.device <==>
        k in s.device && (k in RemovedKeys(s.mem, i) ==> RemoveOutcomeOf(i, k).RemoveFailedKept?))
      && (forall k :: k in t.device ==> t.device[k] == s.device[k])
  {
    ReconciledRest(s.mem, i);
    RemoveAllIs(System(Reconciled(s.mem, i), {Some(DiskOf(Reconciled(s.mem, i)))}, s.device), RemovedKeys(s.mem, i), i);
    hide Structural, RemovedKeys, Reconciled, RemoveAll, RemoveOutcomeOf;
  }

  lemma RemoveAllIs(s: System, keys: set<Key>, i: ReconcileInput)
    ensures var t := RemoveAll(s, keys, i);
      && t.mem == s.mem.(runtime := t.mem.runtime) && t.images == s.images
      && (forall k :: k in t.mem.runtime <==>
        k in s.mem.runtime && (k in keys ==> !RemoveOutcomeOf(i, k).RemoveOk?))
      && (forall k :: k in t.mem.runtime ==> t.mem.runtime[k] == s.mem.runtime[k])
      && (forall k :: k in t.device <==> k in s.device && (k in keys ==> RemoveOutcomeOf(i, k).RemoveFailedKept?))
      && (forall k :: k in t.device ==> t.device[k] == s.device[k])
  {
    hide RemoveOutcomeOf;
  }

  /** After a reconcile that returned nil: every listed peer with a record, its own or an adopted
      one, was seen now, and its session goes on with the listed counters unless it was removed;
      unlisted records and their sessions stay as they were for 48 hours. */
  lemma ReconcileLeavesExactly(s: System, i: ReconcileInput)
    requires Structural(s.mem) && UniqueKeys(i.snapshot) && Reconcile(s, i).error == NoError
    ensures var m, t, now := s.mem, Reconcile(s, i).sys.mem, i.clock.now;
      && (forall p :: p in i.snapshot ==>
        && (p.key in t.peers <==> p.key in m.peers || i.mode.OpenMode?)
        && (p.key in t.peers ==> t.peers[p.key] == RecordAfter(m, i, p))
        && (p.key in t.runtime <==>
          p.key in t.peers && (MayStay(m, i, p) || !RemoveOutcomeOf(i, p.key).RemoveOk?))
        && (p.key in t.runtime ==> t.runtime[p.key] == SessionAfter(m, i, p)))
      && (forall k :: k !in SnapshotKeys(i.snapshot) ==>
        && (k in t.peers <==> k in m.peers && now - m.peers[k].lastSeen < 48 * HOUR)
        && (k in t.peers ==> t.peers[k] == m.peers[k])
        && (k in t.runtime <==> k in m.runtime && k in t.peers)
        && (k in t.runtime ==> t.runtime[k] == m.runtime[k]))
  {
    hide *;
    ReconcileEnds(s, i);
    forall p | p in i.snapshot
      ensures var m, t := s.mem, Reconcile(s, i).sys.mem;
        && (p.key in t.peers <==> p.key in m.peers || i.mode.OpenMode?)
        && (p.key in t.peers ==> t.peers[p.key] == RecordAfter(m, i, p))
        && (p.key in t.runtime <==>
          p.key in t.peers && (MayStay(m, i, p) || !RemoveOutcomeOf(i, p.key).RemoveOk?))
        && (p.key in t.runtime ==> t.runtime[p.key] == SessionAfter(m, i, p))
    {
      ListedAfter(s.mem, i, p);
      RemovedExactly(s.mem, i, p);
    }
    forall k | k !in SnapshotKeys(i.snapshot)
      ensures var m, t, now := s.mem, Reconcile(s, i).sys.mem, i.clock.now;
        && (k in t.peers <==> k in m.peers && now - m.peers[k].lastSeen < 48 * HOUR)
        && (k in t.peers ==> t.peers[k] == m.peers[k])
        && (k in t.runtime <==> k in m.runtime && k in t.peers)
        && (k in t.runtime ==> t.runtime[k] == m.runtime[k])
    {
      UnlistedAfter(s.mem, i, k);
      if k in RemovedKeys(s.mem, i) {
        RemovedAreListed(s.mem, i, k);
      }
    }
  }

  /** ... every owner that was charged has its account of the day with all charges in it, blocked
      until the end of the day when over a positive limit; any other account is as it was, and kept
      exactly while a record is charged to it, for 48 hours, or while blocked; and the file has
      just this state. */
  lemma ReconcileAccountsExactly(s: System, i: ReconcileInput)
    requires Structural(s.mem) && UniqueKeys(i.snapshot) && Reconcile(s, i).error == NoError
    ensures var m, t, now := s.mem, Reconcile(s, i).sys.mem, i.clock.now;
      && (forall o :: Charges(m, i, o) ==> o in t.quotas && t.quotas[o] == AccountAfter(m, i, o))
      && (forall o :: !Charges(m, i, o) ==>
        && (o in t.quotas <==>
          && o in m.quotas
          && (|| (exists k :: k in t.peers && OwnerOf(k, t.peers[k]) == o)
              || now - m.quotas[o].lastSeen < 48 * HOUR || now < m.quotas[o].blockedUntil))
        && (o in t.quotas ==> t.quotas[o] == m.quotas[o]))
      && t.window == m.window && t.counts == m.counts && !t.failed
      && Reconcile(s, i).sys.images == {Some(DiskOf(t))}
  {
    ReconciledRest(s.mem, i);
    ReconcileEnds(s, i);
    hide Structural, Reconcile, Reconciled, UniqueKeys, AccountAfter, DiskOf, RemovedKeys, RemoveOutcomeOf, OwnerOf,
      OwnerFound;
    forall o | Charges(s.mem, i, o)
      ensures var t := Reconcile(s, i).sys.mem; o in t.quotas && t.quotas[o] == AccountAfter(s.mem, i, o)
    {
      var p :| p in i.snapshot && (p.key in s.mem.peers || i.mode.OpenMode?) && OwnerFound(s.mem, p) == o;
      ChargedAccountAfter(s.mem, i, p);
    }
    forall o | !Charges(s.mem, i, o)
      ensures var m, t, now := s.mem, Reconcile(s, i).sys.mem, i.clock.now;
        && (o in t.quotas <==>
          && o in m.quotas
          && (|| (exists k :: k in t.peers && OwnerOf(k, t.peers[k]) == o)
              || now - m.quotas[o].lastSeen < 48 * HOUR || now < m.quotas[o].blockedUntil))
        && (o in t.quotas ==> t.quotas[o] == m.quotas[o])
    {
      hide Charges;
      OtherAccountAfter(s.mem, i, o);
    }
  }

  /** A reconcile fails if and only if the state is latched, and then it does nothing, or its save
      fails, and then it has removed nobody and the file may hold the old or the new state. */
  lemma ReconcileFailsExactly(s: System, i: ReconcileInput)
    requires Structural(s.mem)
    ensures var r, w := Reconcile(s, i), Reconcile(s, i.(save := SaveOk)).sys.mem;
      && r.error == (if s.mem.failed || i.save.SaveFailed? then StateUnavailable else NoError)
      && (s.mem.failed ==> r.sys == s)
      && (!s.mem.failed && i.save.SaveFailed? ==>
        && r.sys.mem.failed && r.sys.device == s.device
        && r.sys.images == s.images + {Some(DiskOf(r.sys.mem))}
        && r.sys.mem.peers == w.peers && r.sys.mem.quotas == w.quotas)
  {
    ReconciledRest(s.mem, i);
    SaveDoesNotMatter(s.mem, i);
    hide Structural, Reconciled, RemovedKeys;
  }

  lemma SaveDoesNotMatter(m: Memory, i: ReconcileInput)
    requires Structural(m)
    ensures Reconciled(m, i.(save := SaveOk)) == Reconciled(m, i)
  {
    var j := i.(save := SaveOk);
    assert Judged(m, j) == Judged(m, i);
    assert RejectedKeys(Judged(m, j), j.snapshot, j) == RejectedKeys(Judged(m, i), i.snapshot, i) by {
      hide Judged, Structural;
    }
    hide Structural, Judged, RejectedKeys, PrunePeers, PruneQuotas, ClearEndpoints;
  }

  /** Once the secret is rotated, a nil reconcile whose removals work leaves nobody on the device
      but peers recorded under an issued id of the new secret that is not revoked. */
  lemma RotationRemovesTheOthers(s: System, i: ReconcileInput)
    requires Structural(s.mem) && UniqueKeys(i.snapshot) && Reconcile(s, i).error == NoError
    requires SnapshotKeys(i.snapshot) == s.device.Keys && i.mode.SecretMode?
    requires forall k :: k in i.removals ==> i.removals[k].RemoveOk?
    ensures var t := Reconcile(s, i).sys;
      forall k :: k in t.device ==>
        && k in t.mem.peers && t.mem.peers[k].keyID.IssuedId? && t.mem.peers[k].generation == Digest(i.mode.digest)
        && i.revoked.Some? && t.mem.peers[k].keyID !in i.revoked.value
  {
    hide *;
    ReconcileKeepsExactly(s, i);
    ReconcileLeavesExactly(s, i);
    forall k | k in Reconcile(s, i).sys.device
      ensures var t := Reconcile(s, i).sys;
        && k in t.mem.peers && t.mem.peers[k].keyID.IssuedId? && t.mem.peers[k].generation == Digest(i.mode.digest)
        && i.revoked.Some? && t.mem.peers[k].keyID !in i.revoked.value
    {
      OnlyListedStay(s, i, k);
      var p := WhoIsListed(i.snapshot, k);
      StayingRecord(s.mem, i, p);
    }
  }

  lemma OnlyListedStay(s: System, i: ReconcileInput, k: Key)
    requires Structural(s.mem) && Reconcile(s, i).error == NoError && k in Reconcile(s, i).sys.device
    ensures k in s.device
  {
    hide *;
    ReconcileEnds(s, i);
  }

  lemma WhoIsListed(snapshot: seq<PeerInfo>, k: Key) returns (p: PeerInfo)
    requires k in SnapshotKeys(snapshot)
    ensures p in snapshot && p.key == k
  {
    p :| p in snapshot && p.key == k;
  }

  lemma StayingRecord(m: Memory, i: ReconcileInput, p: PeerInfo)
    requires MayStay(m, i, p) && i.mode.SecretMode?
    ensures var r := RecordAfter(m, i, p);
      && p.key in m.peers && r.keyID.IssuedId? && r.generation == Digest(i.mode.digest)
      && i.revoked.Some? && r.keyID !in i.revoked.value
  {
    hide UsageAfter, BlockEnd, IdleTime;
  }
}
