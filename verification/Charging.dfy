/** What one reconcile charges: every owner pays, saturating at the largest 64-bit integer, for
    the sum of its peers' deltas, whatever order the device lists its peers in. */
module Charging {
  import opened Clocks
  import opened Records
  import opened Operations

  ghost predicate UniqueKeys(s: seq<PeerInfo>) {
    forall a, b :: 0 <= a < b < |s| ==> s[a].key != s[b].key
  }

  function Clip(x: int): nat {
    if x > 0 then x else 0
  }

  function Capped(x: int): int {
    if x > MAX_INT64 then MAX_INT64 else x
  }

  /** The bytes one listed peer adds to its owner's account. */
  function PeerCharge(m: Memory, p: PeerInfo, now: Time): nat {
    var session := RuntimeOf(m, p.key, now);
    Clip(Delta(p.rx, session.lastRx)) + Clip(Delta(p.tx, session.lastTx))
  }

  /** Whether a listed peer is charged to `o`: it has a record, or the open mode adopts it. */
  predicate Pays(m: Memory, p: PeerInfo, mode: Mode, now: Time, o: Owner) {
    (p.key in m.peers || mode.OpenMode?) && OwnerOf(p.key, KnownRecord(m, p.key, now)) == o
  }

  function TotalCharge(m: Memory, s: seq<PeerInfo>, mode: Mode, now: Time, o: Owner): nat {
    if |s| == 0 then 0
    else
      var n := |s| - 1;
      TotalCharge(m, s[..n], mode, now, o) + if Pays(m, s[n], mode, now, o) then PeerCharge(m, s[n], now) else 0
  }

  ghost predicate Listed(m: Memory, s: seq<PeerInfo>, mode: Mode, now: Time, o: Owner) {
    exists p :: p in s && Pays(m, p, mode, now, o)
  }

  // ---------------------------------------------------------------- no overflow

  /** A delta is what the counter grew by, or all of it when it was reset; counters and baselines
      are non-negative 64-bit integers, and then so is every delta. */
  lemma DeltaFitsInt64(counter: int, last: int)
    requires 0 <= counter <= MAX_INT64 && 0 <= last <= MAX_INT64
    ensures Delta(counter, last) == if last <= counter then counter - last else counter
    ensures 0 <= Delta(counter, last) <= counter
  {
  }

  lemma AddUsageIsCappedSum(current: Int64, delta: int)
    ensures AddUsage(current, delta) == Capped(current + Clip(delta))
    ensures Capped(current + Clip(delta)) ==
      if delta <= 0 then current
      else if current + delta > 0x7FFF_FFFF_FFFF_FFFF then 0x7FFF_FFFF_FFFF_FFFF
      else current + delta
  {
  }

  lemma ChargedIsCappedSum(q: QuotaRecord, m: Memory, p: PeerInfo, now: Time)
    ensures Charged(q, p, RuntimeOf(m, p.key, now), now).usedBytes == Capped(q.usedBytes + PeerCharge(m, p, now))
  {
    var session := RuntimeOf(m, p.key, now);
    AddUsageIsCappedSum(q.usedBytes, Delta(p.rx, session.lastRx));
    AddUsageIsCappedSum(AddUsage(q.usedBytes, Delta(p.rx, session.lastRx)), Delta(p.tx, session.lastTx));
  }

  // ---------------------------------------------------------------- aggregation

  /** Charging some peers leaves the records and baselines of all others alone. */
  lemma {:induction false} ChargeLeavesOthers(m: Memory, s: seq<PeerInfo>, mode: Mode, c: Clock, k: Key)
    requires Structural(m) && forall p :: p in s ==> p.key != k
    ensures var r := ChargeAll(m, s, mode, c);
      && (k in r.peers <==> k in m.peers) && (k in m.peers ==> r.peers[k] == m.peers[k])
      && (k in r.runtime <==> k in m.runtime) && (k in m.runtime ==> r.runtime[k] == m.runtime[k])
  {
    hide Structural, ChargePeer;
    if |s| > 0 {
      ChargeLeavesOthers(m, s[..|s| - 1], mode, c, k);
      ChargePeerLeavesOthers(ChargeAll(m, s[..|s| - 1], mode, c), s[|s| - 1], mode, c, k);
    }
  }

  lemma ChargePeerLeavesOthers(m: Memory, p: PeerInfo, mode: Mode, c: Clock, k: Key)
    requires Structural(m) && p.key != k
    ensures var r := ChargePeer(m, p, mode, c);
      && (k in r.peers <==> k in m.peers) && (k in m.peers ==> r.peers[k] == m.peers[k])
      && (k in r.runtime <==> k in m.runtime) && (k in m.runtime ==> r.runtime[k] == m.runtime[k])
  {
    hide Structural, Observed, ChargeAccount;
  }

  /** The account of `o` after the listed peers were charged. */
  ghost predicate Settled(m: Memory, s: seq<PeerInfo>, mode: Mode, c: Clock, o: Owner, r: Memory) {
    if Listed(m, s, mode, c.now, o) then
      && o in r.quotas
      && r.quotas[o].usedBytes == Capped(QuotaFor(m, o, c).usedBytes + TotalCharge(m, s, mode, c.now, o))
      && r.quotas[o] == QuotaFor(m, o, c).(usedBytes := r.quotas[o].usedBytes, lastSeen := c.now)
    else
      && (o in r.quotas <==> o in m.quotas)
      && (o in m.quotas ==> r.quotas[o] == m.quotas[o])
      && TotalCharge(m, s, mode, c.now, o) == 0
  }

  lemma {:induction false} AggregateCharge(m: Memory, s: seq<PeerInfo>, mode: Mode, c: Clock, o: Owner)
    requires Structural(m) && UniqueKeys(s)
    ensures Settled(m, s, mode, c, o, ChargeAll(m, s, mode, c))
  {
    if |s| > 0 {
      hide Structural, ChargePeer, Settled, UniqueKeys;
      var n := |s| - 1;
      var before, p := ChargeAll(m, s[..n], mode, c), s[n];
      LastKeyIsNew(s);
      AggregateCharge(m, s[..n], mode, c, o);
      ChargeLeavesOthers(m, s[..n], mode, c, p.key);
      SettledStep(m, s[..n], p, mode, c, o, before);
      assert s == s[..n] + [p];
    }
  }

  lemma LastKeyIsNew(s: seq<PeerInfo>)
    requires |s| > 0 && UniqueKeys(s)
    ensures UniqueKeys(s[..|s| - 1]) && forall q :: q in s[..|s| - 1] ==> q.key != s[|s| - 1].key
  {
  }

  lemma SettledStep(m: Memory, s: seq<PeerInfo>, p: PeerInfo, mode: Mode, c: Clock, o: Owner, r: Memory)
    requires Structural(r) && Settled(m, s, mode, c, o, r)
    requires (p.key in r.peers <==> p.key in m.peers) && (p.key in m.peers ==> r.peers[p.key] == m.peers[p.key])
    requires (p.key in r.runtime <==> p.key in m.runtime)
    requires (p.key in m.runtime ==> r.runtime[p.key] == m.runtime[p.key])
    ensures Settled(m, s + [p], mode, c, o, ChargePeer(r, p, mode, c))
  {
    assert (s + [p])[..|s|] == s;
    assert Pays(r, p, mode, c.now, o) == Pays(m, p, mode, c.now, o);
    assert PeerCharge(r, p, c.now) == PeerCharge(m, p, c.now);
    ListedStep(m, s, p, mode, c.now, o);
    if Pays(m, p, mode, c.now, o) {
      ChargedIsCappedSum(QuotaFor(r, o, c), r, p, c.now);
      PaidStep(m, s, p, mode, c, o, r);
    } else {
      UnpaidStep(r, p, mode, c, o);
    }
  }

  lemma UnpaidStep(r: Memory, p: PeerInfo, mode: Mode, c: Clock, o: Owner)
    requires Structural(r) && !Pays(r, p, mode, c.now, o)
    ensures var t := ChargePeer(r, p, mode, c);
      (o in t.quotas <==> o in r.quotas) && (o in r.quotas ==> t.quotas[o] == r.quotas[o])
  {
    hide Structural, Observed, Charged, AccountOf;
  }

  lemma ListedStep(m: Memory, s: seq<PeerInfo>, p: PeerInfo, mode: Mode, now: Time, o: Owner)
    ensures Listed(m, s + [p], mode, now, o) <==> Listed(m, s, mode, now, o) || Pays(m, p, mode, now, o)
  {
    hide Pays;
    if Listed(m, s, mode, now, o) {
      var q :| q in s && Pays(m, q, mode, now, o);
      assert q in s + [p];
    }
    assert p in s + [p];
  }

  lemma PaidStep(m: Memory, s: seq<PeerInfo>, p: PeerInfo, mode: Mode, c: Clock, o: Owner, r: Memory)
    requires Structural(r) && Settled(m, s, mode, c, o, r) && Pays(r, p, mode, c.now, o) && Pays(m, p, mode, c.now, o)
    requires PeerCharge(r, p, c.now) == PeerCharge(m, p, c.now)
    requires Charged(QuotaFor(r, o, c), p, RuntimeOf(r, p.key, c.now), c.now).usedBytes ==
      Capped(QuotaFor(r, o, c).usedBytes + PeerCharge(r, p, c.now))
    requires (s + [p])[..|s|] == s && Listed(m, s + [p], mode, c.now, o)
    ensures Settled(m, s + [p], mode, c, o, ChargePeer(r, p, mode, c))
  {
    hide Structural, Observed, PeerCharge, Listed, RuntimeOf;
    NormalizeIsIdempotent(if o in m.quotas then m.quotas[o] else FreshQuota(c), c);
  }

  // ---------------------------------------------------------------- order independence

  lemma NormalizeIsIdempotent(q: QuotaRecord, c: Clock)
    ensures Normalize(Normalize(q, c), c) == Normalize(q, c)
  {
  }

  lemma ChargesCommute(q: QuotaRecord, a: PeerInfo, x: Runtime, b: PeerInfo, y: Runtime, c: Clock)
    requires q.usageDate == Day(Today(c))
    ensures Charged(Normalize(Charged(q, a, x, c.now), c), b, y, c.now) ==
      Charged(Normalize(Charged(q, b, y, c.now), c), a, x, c.now)
  {
    AddUsageIsCappedSum(q.usedBytes, Delta(a.rx, x.lastRx));
  }

  lemma ChargeAccountSwaps(quotas: map<Owner, QuotaRecord>, oa: Owner, a: PeerInfo, x: Runtime, ob: Owner, b: PeerInfo,
    y: Runtime, c: Clock)
    ensures ChargeAccount(ChargeAccount(quotas, oa, a, x, c), ob, b, y, c) ==
      ChargeAccount(ChargeAccount(quotas, ob, b, y, c), oa, a, x, c)
  {
    if oa == ob {
      ChargesCommute(AccountOf(quotas, oa, c), a, x, b, y, c);
    }
    hide Charged, Normalize;
    assert ChargeAccount(ChargeAccount(quotas, oa, a, x, c), ob, b, y, c) ==
      ChargeAccount(ChargeAccount(quotas, ob, b, y, c), oa, a, x, c);
  }

  lemma ChargeOther(m: Memory, p: PeerInfo, c: Clock, k: Key)
    requires k != p.key
    ensures var r := Charge(m, p, c);
      && (k in r.peers <==> k in m.peers)
      && KnownRecord(r, k, c.now) == KnownRecord(m, k, c.now)
      && RuntimeOf(r, k, c.now) == RuntimeOf(m, k, c.now)
  {
    hide Observed, ChargeAccount;
  }

  lemma ChargeSwaps(m: Memory, a: PeerInfo, b: PeerInfo, c: Clock)
    requires a.key != b.key
    ensures Charge(Charge(m, a, c), b, c) == Charge(Charge(m, b, c), a, c)
  {
    var oa, ob := OwnerOf(a.key, KnownRecord(m, a.key, c.now)), OwnerOf(b.key, KnownRecord(m, b.key, c.now));
    ChargeAccountSwaps(m.quotas, oa, a, RuntimeOf(m, a.key, c.now), ob, b, RuntimeOf(m, b.key, c.now), c);
    ChargeOther(m, a, c, b.key);
    ChargeOther(m, b, c, a.key);
    hide Observed, ChargeAccount, KnownRecord, RuntimeOf, OwnerOf;
    var ab, ba := Charge(Charge(m, a, c), b, c), Charge(Charge(m, b, c), a, c);
    UpdatesSwap(m.peers, a.key, ab.peers[a.key], b.key, ab.peers[b.key]);
    UpdatesSwap(m.runtime, a.key, ab.runtime[a.key], b.key, ab.runtime[b.key]);
  }

  lemma UpdatesSwap<K, V>(m: map<K, V>, a: K, x: V, b: K, y: V)
    requires a != b
    ensures m[a := x][b := y] == m[b := y][a := x]
  {
  }

  lemma ChargePeerSwaps(m: Memory, a: PeerInfo, b: PeerInfo, mode: Mode, c: Clock)
    requires Structural(m) && a.key != b.key
    ensures ChargePeer(ChargePeer(m, a, mode, c), b, mode, c) == ChargePeer(ChargePeer(m, b, mode, c), a, mode, c)
  {
    ChargeSwaps(m, a, b, c);
    ChargeOther(m, a, c, b.key);
    ChargeOther(m, b, c, a.key);
    hide Structural, Charge;
  }

  function Without(s: seq<PeerInfo>, n: nat): seq<PeerInfo>
    requires n < |s|
  {
    s[..n] + s[n + 1..]
  }

  lemma WithoutTakesOne(s: seq<PeerInfo>, n: nat)
    requires n < |s|
    ensures multiset(Without(s, n)) == multiset(s) - multiset{s[n]}
  {
    assert s == s[..n] + [s[n]] + s[n + 1..];
  }

  lemma WithoutKeepsUnique(s: seq<PeerInfo>, n: nat)
    requires n < |s| && UniqueKeys(s)
    ensures UniqueKeys(Without(s, n))
  {
  }

  lemma ChargeEndsWith(m: Memory, s: seq<PeerInfo>, p: PeerInfo, mode: Mode, c: Clock)
    requires Structural(m)
    ensures ChargeAll(m, s + [p], mode, c) == ChargePeer(ChargeAll(m, s, mode, c), p, mode, c)
  {
    hide Structural, ChargePeer;
    assert (s + [p])[..|s|] == s;
  }

  lemma WithoutBeforeLast(s: seq<PeerInfo>, n: nat)
    requires n < |s| - 1
    ensures Without(s, n) == Without(s[..|s| - 1], n) + [s[|s| - 1]]
  {
  }

  lemma {:induction false} ChargeMovesLast(m: Memory, s: seq<PeerInfo>, n: nat, mode: Mode, c: Clock)
    requires Structural(m) && UniqueKeys(s) && n < |s|
    ensures ChargeAll(m, s, mode, c) == ChargePeer(ChargeAll(m, Without(s, n), mode, c), s[n], mode, c)
  {
    var last := |s| - 1;
    assert s == s[..last] + [s[last]];
    if n < last {
      hide Structural, ChargePeer, ChargeAll, UniqueKeys, Without;
      LastKeyIsNew(s);
      assert s[n] in s[..last] && s[..last][n] == s[n];
      ChargeMovesLast(m, s[..last], n, mode, c);
      ChargeEndsWith(m, s[..last], s[last], mode, c);
      WithoutBeforeLast(s, n);
      ChargeEndsWith(m, Without(s[..last], n), s[last], mode, c);
      ChargePeerSwaps(ChargeAll(m, Without(s[..last], n), mode, c), s[n], s[last], mode, c);
    } else {
      hide Structural, ChargePeer, ChargeAll, UniqueKeys;
      assert Without(s, n) == s[..last];
      ChargeEndsWith(m, s[..last], s[last], mode, c);
    }
  }

  /** The outcome of charging depends on which peers are listed, not on their order. */
  lemma {:induction false} ChargeIgnoresOrder(m: Memory, s: seq<PeerInfo>, t: seq<PeerInfo>, mode: Mode, c: Clock)
    requires Structural(m) && UniqueKeys(s) && multiset(s) == multiset(t)
    ensures ChargeAll(m, s, mode, c) == ChargeAll(m, t, mode, c)
    decreases |t|
  {
    hide Structural, ChargePeer, UniqueKeys, Without;
    assert |s| == |multiset(s)| == |multiset(t)| == |t|;
    if |t| > 0 {
      var last := |t| - 1;
      assert t == t[..last] + [t[last]];
      assert t[last] in multiset(s);
      var n :| 0 <= n < |s| && s[n] == t[last];
      WithoutTakesOne(s, n);
      WithoutKeepsUnique(s, n);
      assert multiset(Without(s, n)) == multiset(t[..last]);
      ChargeMovesLast(m, s, n, mode, c);
      ChargeIgnoresOrder(m, Without(s, n), t[..last], mode, c);
    }
  }
}
