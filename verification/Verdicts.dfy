/** Who stays on the device after a reconcile, in terms of the state it started from. */
module Verdicts {
  import opened Clocks
  import opened Records
  import opened Operations
  import opened Charging
  import opened Terms

  /** The owner's usage once every listed peer of that owner has been charged. */
  function UsageAfter(m: Memory, i: ReconcileInput, o: Owner): Int64 {
    Capped(UsedToday(m.quotas, o, i.clock) + TotalCharge(m, i.snapshot, i.mode, i.clock.now, o))
  }

  /** Who pays for a listed peer: a peer without a record, which only the open mode adopts, for itself. */
  function OwnerFound(m: Memory, p: PeerInfo): Owner {
    if p.key in m.peers then OwnerOf(p.key, m.peers[p.key]) else PeerOwner(p.key)
  }

  /** How long a listed peer has been idle: since its last handshake, or else since it was added. */
  function IdleTime(m: Memory, p: PeerInfo, now: Time): int {
    if p.handshake != ZERO_TIME then now - p.handshake
    else if p.key in m.runtime then now - m.runtime[p.key].addedAt
    else 0
  }

  /** The conditions under which a listed peer may stay: a record of the current mode, or the open
      mode; no revocation that is known or cannot be ruled out; an owner neither blocked nor over a
      positive limit once all charges are made; and less than 30 idle minutes. */
  predicate MayStay(m: Memory, i: ReconcileInput, p: PeerInfo) {
    && (p.key in m.peers ==> OfMode(i.mode, m.peers[p.key]))
    && (p.key !in m.peers ==> i.mode.OpenMode?)
    && (i.mode.SecretMode? ==> i.revoked.Some? && m.peers[p.key].keyID !in i.revoked.value)
    && i.clock.now >= BlockEnd(m.quotas, OwnerFound(m, p), i.clock)
    && (i.limit > 0 ==> UsageAfter(m, i, OwnerFound(m, p)) <= i.limit)
    && IdleTime(m, p, i.clock.now) < 30 * MINUTE
  }

  ghost predicate SameIdentity(r: PeerRecord, t: PeerRecord) {
    r.keyID == t.keyID && r.generation == t.generation
  }

  lemma ChargePeerKeepsIdentity(m: Memory, p: PeerInfo, mode: Mode, c: Clock, k: Key)
    requires Structural(m)
    ensures var r := ChargePeer(m, p, mode, c);
      && (k in r.peers <==> k in m.peers || (mode.OpenMode? && p.key == k))
      && SameIdentity(KnownRecord(r, k, c.now), KnownRecord(m, k, c.now))
      && RuntimeOf(r, k, c.now).addedAt == RuntimeOf(m, k, c.now).addedAt
  {
    hide Structural, ChargeAccount;
  }

  /** Charging keeps every identity and every session's start. */
  lemma {:induction false} ChargeKeepsIdentity(m: Memory, s: seq<PeerInfo>, mode: Mode, c: Clock, k: Key)
    requires Structural(m)
    ensures var r := ChargeAll(m, s, mode, c);
      && (k in r.peers <==> k in m.peers || (mode.OpenMode? && k in SnapshotKeys(s)))
      && SameIdentity(KnownRecord(r, k, c.now), KnownRecord(m, k, c.now))
      && RuntimeOf(r, k, c.now).addedAt == RuntimeOf(m, k, c.now).addedAt
  {
    hide Structural, ChargePeer, KnownRecord, RuntimeOf;
    if |s| > 0 {
      var n := |s| - 1;
      ChargeKeepsIdentity(m, s[..n], mode, c, k);
      ChargePeerKeepsIdentity(ChargeAll(m, s[..n], mode, c), s[n], mode, c, k);
      assert s == s[..n] + [s[n]];
      assert SnapshotKeys(s) == SnapshotKeys(s[..n]) + {s[n].key};
    }
  }

  lemma ChargedAccount(m: Memory, i: ReconcileInput, p: PeerInfo)
    requires Structural(m) && UniqueKeys(i.snapshot) && p in i.snapshot
    requires p.key in m.peers || i.mode.OpenMode?
    ensures var o := OwnerFound(m, p);
      var charged := ChargeAll(m, i.snapshot, i.mode, i.clock);
      && o in charged.quotas
      && charged.quotas[o] == QuotaFor(m, o, i.clock).(usedBytes := UsageAfter(m, i, o), lastSeen := i.clock.now)
      && o in SnapshotOwners(charged, i.snapshot)
  {
    var o := OwnerFound(m, p);
    AggregateCharge(m, i.snapshot, i.mode, i.clock, o);
    AccountIsOfTheDay(m.quotas, o, i.clock);
    assert Pays(m, p, i.mode, i.clock.now, o);
    ChargeKeepsIdentity(m, i.snapshot, i.mode, i.clock, p.key);
    assert p.key in SnapshotKeys(i.snapshot);
    hide Structural, AccountOf, BlockEnd, UsedToday, TotalCharge, ChargeAll, UniqueKeys, SnapshotKeys;
    assert OwnerOf(p.key, ChargeAll(m, i.snapshot, i.mode, i.clock).peers[p.key]) == o;
  }

  lemma BlockedAccount(m: Memory, snapshot: seq<PeerInfo>, limit: int, c: Clock, o: Owner)
    requires o in m.quotas && o in SnapshotOwners(m, snapshot)
    ensures o in BlockOwners(m, snapshot, limit, c).quotas
    ensures BlockOwners(m, snapshot, limit, c).quotas[o] ==
      if limit > 0 && m.quotas[o].usedBytes > limit && !(c.now < m.quotas[o].blockedUntil)
      then m.quotas[o].(blockedUntil := NextLocalMidnight(c)) else m.quotas[o]
  {
  }

  lemma JudgedAccount(m: Memory, i: ReconcileInput, p: PeerInfo)
    requires Structural(m) && UniqueKeys(i.snapshot) && p in i.snapshot
    requires p.key in m.peers || i.mode.OpenMode?
    ensures var o := OwnerFound(m, p);
      var q := QuotaFor(m, o, i.clock);
      && o in Judged(m, i).quotas
      && Judged(m, i).quotas[o] == q.(
        usedBytes := UsageAfter(m, i, o),
        lastSeen := i.clock.now,
        blockedUntil := if i.limit > 0 && UsageAfter(m, i, o) > i.limit && !(i.clock.now < q.blockedUntil)
          then NextLocalMidnight(i.clock) else q.blockedUntil)
  {
    hide Structural, QuotaFor, TotalCharge, ChargeAll, UniqueKeys, BlockOwners, UsageAfter, SnapshotOwners;
    ChargedAccount(m, i, p);
    BlockedAccount(ChargeAll(m, i.snapshot, i.mode, i.clock), i.snapshot, i.limit, i.clock,
      OwnerFound(m, p));
  }

  lemma IdleIsStale(m: Memory, p: PeerInfo, now: Time)
    ensures Stale(p, RuntimeOf(m, p.key, now).addedAt, now) <==> IdleTime(m, p, now) >= 30 * MINUTE
  {
  }

  lemma JudgedPeer(m: Memory, i: ReconcileInput, p: PeerInfo)
    requires Structural(m) && UniqueKeys(i.snapshot) && p in i.snapshot
    ensures p.key in Judged(m, i).peers <==> p.key in m.peers || i.mode.OpenMode?
    ensures p.key in Judged(m, i).peers ==> p.key in Judged(m, i).runtime
    ensures p.key in Judged(m, i).peers ==> (Rejected(Judged(m, i), p, i) <==> !MayStay(m, i, p))
  {
    JudgedIdentity(m, i, p);
    if p.key in m.peers || i.mode.OpenMode? {
      JudgedAccount(m, i, p);
      IdleIsStale(m, p, i.clock.now);
      AccountIsOfTheDay(m.quotas, OwnerFound(m, p), i.clock);
      hide Structural, Judged, UsageAfter, KnownRecord, AccountOf, RuntimeOf, Stale, IdleTime, UniqueKeys;
      assert KnownRecord(m, p.key, i.clock.now) == if p.key in m.peers then m.peers[p.key]
        else AdoptedRecord(i.clock.now) by { KnownIs(m, p.key, i.clock.now); }
    }
  }

  /** Judging keeps every identity and every session's start. */
  lemma JudgedIdentity(m: Memory, i: ReconcileInput, p: PeerInfo)
    requires Structural(m) && p in i.snapshot
    ensures var r := Judged(m, i);
      && (p.key in r.peers <==> p.key in m.peers || i.mode.OpenMode?)
      && (p.key in r.peers ==> p.key in r.runtime)
      && (p.key in r.peers ==> SameIdentity(r.peers[p.key], KnownRecord(m, p.key, i.clock.now)))
      && (p.key in r.peers ==> r.runtime[p.key].addedAt == RuntimeOf(m, p.key, i.clock.now).addedAt)
  {
    ChargeKeepsIdentity(m, i.snapshot, i.mode, i.clock, p.key);
    hide Structural, ChargeAll;
  }

  lemma KnownIs(m: Memory, k: Key, now: Time)
    ensures KnownRecord(m, k, now) == if k in m.peers then m.peers[k] else AdoptedRecord(now)
  {
  }

  lemma RemovedExactly(m: Memory, i: ReconcileInput, p: PeerInfo)
    requires Structural(m) && UniqueKeys(i.snapshot) && p in i.snapshot
    ensures p.key in RemovedKeys(m, i) <==> !MayStay(m, i, p)
  {
    JudgedPeer(m, i, p);
    forall q | q in i.snapshot && q.key == p.key ensures q == p {
    }
    hide Structural, Judged, MayStay, Rejected;
  }

  lemma {:induction false} RemovedAreListed(m: Memory, i: ReconcileInput, k: Key)
    requires Structural(m) && k in RemovedKeys(m, i)
    ensures k in SnapshotKeys(i.snapshot)
  {
    hide Structural, Judged, Rejected;
  }

  /** After a reconcile that returned nil and whose removals succeeded, the listed peers still on
      the device are exactly those that may stay; unlisted peers are untouched. */
  lemma ReconcileKeepsExactly(s: System, i: ReconcileInput)
    requires Structural(s.mem) && UniqueKeys(i.snapshot)
    requires SnapshotKeys(i.snapshot) <= s.device.Keys
    requires forall k :: k in i.removals ==> i.removals[k].RemoveOk?
    requires Reconcile(s, i).error == NoError
    ensures forall p :: p in i.snapshot ==> (p.key in Reconcile(s, i).sys.device <==> MayStay(s.mem, i, p))
    ensures forall k :: k !in SnapshotKeys(i.snapshot) ==> (k in Reconcile(s, i).sys.device <==> k in s.device)
  {
    hide Structural, RemovedKeys, MayStay, UniqueKeys, Reconcile;
    forall p | p in i.snapshot
      ensures p.key in Reconcile(s, i).sys.device <==> MayStay(s.mem, i, p)
    {
      assert p.key in SnapshotKeys(i.snapshot);
      RemovedExactly(s.mem, i, p);
      DeviceAfter(s, i, p.key);
    }
    forall k | k !in SnapshotKeys(i.snapshot)
      ensures k in Reconcile(s, i).sys.device <==> k in s.device
    {
      if k in RemovedKeys(s.mem, i) {
        RemovedAreListed(s.mem, i, k);
      }
      DeviceAfter(s, i, k);
    }
  }

  lemma DeviceAfter(s: System, i: ReconcileInput, k: Key)
    requires Structural(s.mem) && Reconcile(s, i).error == NoError
    ensures k in Reconcile(s, i).sys.device <==>
      k in s.device && (k in RemovedKeys(s.mem, i) ==> RemoveOutcomeOf(i, k).RemoveFailedKept?)
  {
    hide Structural, RemovedKeys, Reconciled;
  }

  /** An owner over a positive limit loses every listed peer at once. */
  lemma OverQuotaOwnerLosesAll(s: System, i: ReconcileInput, o: Owner)
    requires Structural(s.mem) && UniqueKeys(i.snapshot)
    requires SnapshotKeys(i.snapshot) <= s.device.Keys
    requires forall k :: k in i.removals ==> i.removals[k].RemoveOk?
    requires Reconcile(s, i).error == NoError
    requires i.limit > 0 && UsageAfter(s.mem, i, o) > i.limit
    ensures forall p :: p in i.snapshot && Pays(s.mem, p, i.mode, i.clock.now, o) ==>
      p.key !in Reconcile(s, i).sys.device
  {
    ReconcileKeepsExactly(s, i);
    hide Structural, Reconcile, UsageAfter;
  }

  lemma BlockIgnoresOrder(m: Memory, s: seq<PeerInfo>, t: seq<PeerInfo>, limit: int, c: Clock)
    requires forall p :: p in s <==> p in t
    ensures BlockOwners(m, s, limit, c) == BlockOwners(m, t, limit, c)
  {
    assert SnapshotOwners(m, s) == SnapshotOwners(m, t);
  }

  lemma KeysIgnoreOrder(m: Memory, i: ReconcileInput, j: ReconcileInput)
    requires Structural(m) && Running(m, i.snapshot) && j == i.(snapshot := j.snapshot)
    requires forall p :: p in i.snapshot <==> p in j.snapshot
    ensures Running(m, j.snapshot)
    ensures SnapshotKeys(i.snapshot) == SnapshotKeys(j.snapshot)
    ensures UnknownKeys(m, i.snapshot) == UnknownKeys(m, j.snapshot)
    ensures RejectedKeys(m, i.snapshot, i) == RejectedKeys(m, j.snapshot, j)
  {
    hide Structural;
  }

  /** A whole reconcile does not depend on the order in which the device lists its peers. */
  lemma ReconcileIgnoresOrder(s: System, i: ReconcileInput, order: seq<PeerInfo>)
    requires Structural(s.mem) && UniqueKeys(i.snapshot) && multiset(order) == multiset(i.snapshot)
    ensures Reconcile(s, i.(snapshot := order)) == Reconcile(s, i)
  {
    var j := i.(snapshot := order);
    assert forall p :: p in order <==> p in i.snapshot by {
      assert forall p :: p in order <==> p in multiset(order);
      assert forall p :: p in i.snapshot <==> p in multiset(i.snapshot);
    }
    hide Structural, ChargeAll, UniqueKeys, RejectedKeys, UnknownKeys, SnapshotKeys, PrunePeers, PruneQuotas,
      ClearEndpoints, BlockOwners, Running, RemoveAll, Persist;
    ChargeIgnoresOrder(s.mem, i.snapshot, order, i.mode, i.clock);
    BlockIgnoresOrder(ChargeAll(s.mem, i.snapshot, i.mode, i.clock), i.snapshot, order, i.limit, i.clock);
    KeysIgnoreOrder(Judged(s.mem, i), i, j);
    RemoveIgnoresOrder(Persist(s.(mem := Reconciled(s.mem, i)), i.save), RemovedKeys(s.mem, i), i, j);
  }

  lemma RemoveIgnoresOrder(s: System, keys: set<Key>, i: ReconcileInput, j: ReconcileInput)
    requires j == i.(snapshot := j.snapshot)
    ensures RemoveAll(s, keys, i) == RemoveAll(s, keys, j)
  {
  }
}
