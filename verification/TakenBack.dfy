/** Two runs from a fresh start that show what a registration taken back between a snapshot and
    its commit can do: bytes are charged twice, and a key gets a fourth running peer. */
module TakenBack {
  import opened Clocks
  import opened Records
  import opened Operations
  import opened Charging
  import opened Verdicts
  import opened Runs
  import opened PeerLimit
  import opened Metering
  import opened Scenes

  // ---------------------------------------------------------------- bytes charged twice

  lemma {:induction false} EntriesOfOne(m: Memory, p: PeerInfo)
    requires p.key in m.peers
    ensures Total(Entries(m, [p], SecretMode(0), DAY)) == PeerCharge(m, p, DAY)
  {
    hide PeerCharge, Verdicts.OwnerFound;
    var e := Entry(p.key, OwnerFound(m, p), PeerCharge(m, p, DAY));
    assert [p][..0] == [] && Entries(m, [], SecretMode(0), DAY) == [];
    assert Entries(m, [p], SecretMode(0), DAY) == [] + [e];
    hide Entries;
    assert [] + [e] == [e];
    TotalOfOne(e);
  }

  lemma TotalOfOne(e: Entry)
    ensures Total([e]) == e.bytes
  {
    assert [e][..0] == [];
  }

  lemma OnlyPeer(device: map<Key, Counters>, rx: nat)
    requires device == map[0 := Counters(rx, 0)]
    ensures Lists([Silent(0, rx)], device) && SnapshotKeys([Silent(0, rx)]) == {0}
  {
  }

  lemma FirstAdded(device: map<Key, Counters>)
    requires device == map[]
    ensures AddTo(device, 0, AddOk) == map[0 := Counters(0, 0)]
  {
  }

  lemma FirstSession(m: Memory, p: PeerInfo)
    requires m.peers.Keys == {0} && p == Silent(0, 100) && (m.runtime == Touch(map[], 0, DAY) || m.runtime == map[])
    ensures FreshlyListed(m, [p]) && PeerCharge(m, p, DAY) == 100
  {
  }

  /** One peer sends 100 bytes. */
  lemma SentOnce() returns (steps: seq<Step>, w: World)
    ensures Reaches(steps, w, 0, 100) && Calm(w, {0}, {0}, {0}, Some([Silent(0, 100)]))
    ensures w.sys.device == map[0 := Counters(100, 0)] && w.sys.mem.runtime == Touch(map[], 0, DAY)
  {
    hide *;
    assert {} + {0} == {0} && {} - {0} == {};
    var s0, w0 := StartRun();
    var w1 := JoinRun(s0, w0, 0, 0, 0, {}, {}, {}, None);
    FirstAdded(w0.sys.device);
    var s1 := s0 + [Join(0, AddOk)];
    var w2 := TrafficRun(s1, w1, 0, 0, 0, 100, {0}, {0}, {0}, None);
    var s2 := s1 + [Traffic(0, 100, 0)];
    OnlyPeer(w2.sys.device, 100);
    w := SnapshotRun(s2, w2, 0, 100, [Silent(0, 100)], {0}, {0}, {0}, None);
    steps := s2 + [TakeSnapshot([Silent(0, 100)], DAY)];
  }

  /** It is charged for them. */
  lemma ChargedOnce() returns (steps: seq<Step>, w: World)
    ensures Reaches(steps, w, 100, 100) && Calm(w, {0}, {0}, {0}, None)
    ensures w.sys.device == map[0 := Counters(100, 0)]
  {
    hide *;
    var p := Silent(0, 100);
    var s3, w3 := SentOnce();
    CalmWorld(w3, {0}, {0}, {0}, Some([p]));
    FirstSession(w3.sys.mem, p);
    assert p.key == 0 by { SilentKey(0, 100); }
    EntriesOfOne(w3.sys.mem, p);
    OnlyPeer(w3.sys.device, 100);
    assert {0} + {0} == {0};
    w := CommitRun(s3, w3, 0, 100, [p], {0}, {0}, {0});
    steps := s3 + [Commit(Reconciling([p]))];
  }

  lemma SilentKey(k: Key, rx: nat)
    ensures Silent(k, rx).key == k
  {
  }

  lemma ChargedAgain() returns (steps: seq<Step>, w: World)
    ensures Reaches(steps, w, 200, 100)
  {
    hide *;
    var p := Silent(0, 100);
    var s4, w4 := ChargedOnce();
    OnlyPeer(w4.sys.device, 100);
    var w5 := SnapshotRun(s4, w4, 100, 100, [p], {0}, {0}, {0}, None);
    var s5 := s4 + [TakeSnapshot([p], DAY)];
    assert {0} - {0} == {};
    var w6 := FailedJoinRun(s5, w5, 100, 100, 0, {0}, {0}, {0}, Some([p]));
    var s6 := s5 + [Join(0, AddFailedClean)];
    CalmWorld(w6, {0}, {}, {}, Some([p]));
    assert w6.sys.mem.runtime == map[];
    FirstSession(w6.sys.mem, p);
    assert p.key == 0 by { SilentKey(0, 100); }
    EntriesOfOne(w6.sys.mem, p);
    w := CommitRun(s6, w6, 100, 100, [p], {0}, {}, {});
    steps := s6 + [Commit(Reconciling([p]))];
  }

  /** Its registration is then taken back between the next snapshot and its commit, and the same
      100 bytes are charged again: in a run from a fresh start more is charged than was ever sent. */
  lemma MoreChargedThanFlowed()
    ensures Fresh(NEW_SERVER)
    ensures exists steps ::
      && WiredRun(NEW_SERVER, steps, 0) && TimelyRun(NEW_SERVER, steps)
      && Total(Charges(NEW_SERVER, steps)) == 200 && Total(Flowed(NEW_SERVER, steps)) == 100
  {
    hide Run, WiredRun, TimelyRun, Charges, Flowed, Total, Apply;
    FirstStartOutcome(OpenMode);
    var steps, w := ChargedAgain();
  }

  // ---------------------------------------------------------------- a fourth peer

  /** Every session started now and has not been charged. */
  ghost predicate NewSessions(m: Memory) {
    forall k :: k in m.runtime ==> m.runtime[k] == Runtime(0, 0, DAY)
  }

  const THREE := map[1 := Counters(0, 0), 2 := Counters(0, 0), 3 := Counters(0, 0)]

  lemma ThreePeers(device: map<Key, Counters>)
    requires device == THREE
    ensures var listed := [Silent(1, 0), Silent(2, 0), Silent(3, 0)];
      Lists(listed, device) && SnapshotKeys(listed) == {1, 2, 3}
  {
    var listed := [Silent(1, 0), Silent(2, 0), Silent(3, 0)];
    assert Silent(1, 0) in listed && Silent(2, 0) in listed && Silent(3, 0) in listed;
    assert SnapshotKeys(listed) == {1, 2, 3};
  }

  lemma ThreeJoined() returns (steps: seq<Step>, w: World)
    ensures Reaches(steps, w, 0, 0) && Calm(w, {1, 2, 3}, {1, 2, 3}, {1, 2, 3}, None) && NewSessions(w.sys.mem)
    ensures w.sys.device == THREE
  {
    hide *;
    var s0, w0 := StartRun();
    NoSessions(w0.sys.mem);
    assert {} + {1} == {1} && {1} + {2} == {1, 2} && {1, 2} + {3} == {1, 2, 3};
    assert {} - {1} == {} && {1} - {2} == {1} && {1, 2} - {3} == {1, 2};
    var w1 := JoinRun(s0, w0, 0, 0, 1, {}, {}, {}, None);
    NewSession(w0.sys, w1.sys, 1);
    var s1 := s0 + [Join(1, AddOk)];
    var w2 := JoinRun(s1, w1, 0, 0, 2, {1}, {1}, {1}, None);
    NewSession(w1.sys, w2.sys, 2);
    var s2 := s1 + [Join(2, AddOk)];
    w := JoinRun(s2, w2, 0, 0, 3, {1, 2}, {1, 2}, {1, 2}, None);
    NewSession(w2.sys, w.sys, 3);
    steps := s2 + [Join(3, AddOk)];
    assert w.sys.device == map[][1 := Counters(0, 0)][2 := Counters(0, 0)][3 := Counters(0, 0)];
    ThreeInARow(w.sys.device);
  }

  lemma ThreeInARow(device: map<Key, Counters>)
    requires device == map[][1 := Counters(0, 0)][2 := Counters(0, 0)][3 := Counters(0, 0)]
    ensures device == THREE
  {
  }

  lemma NoSessions(m: Memory)
    requires m.runtime == map[]
    ensures NewSessions(m)
  {
  }

  lemma NewSession(s: System, t: System, k: Key)
    requires t.mem.runtime == Touch(s.mem.runtime, k, DAY) && t.device == AddTo(s.device, k, AddOk)
    requires NewSessions(s.mem)
    ensures NewSessions(t.mem) && (k !in s.device ==> t.device == s.device[k := Counters(0, 0)])
  {
  }

  lemma FewerSessions(m: Memory, n: Memory, k: Key)
    requires NewSessions(m) && n.runtime == m.runtime - {k}
    ensures NewSessions(n)
  {
  }

  /** Before the commit: one of the listed three is gone, a fourth runs in its place. */
  lemma FourthJoined() returns (steps: seq<Step>, w: World, listed: seq<PeerInfo>)
    ensures listed == [Silent(1, 0), Silent(2, 0), Silent(3, 0)] && SnapshotKeys(listed) == {1, 2, 3}
    ensures Reaches(steps, w, 0, 0) && Calm(w, {1, 2, 3, 4}, {2, 3, 4}, {2, 3, 4}, Some(listed))
    ensures NewSessions(w.sys.mem)
  {
    hide *;
    listed := [Silent(1, 0), Silent(2, 0), Silent(3, 0)];
    assert {1, 2, 3} - {1} == {2, 3} && {2, 3} - {4} == {2, 3};
    assert {1, 2, 3} + {4} == {1, 2, 3, 4} && {2, 3} + {4} == {2, 3, 4};
    var s3, w3 := ThreeJoined();
    ThreePeers(w3.sys.device);
    var w4 := SnapshotRun(s3, w3, 0, 0, listed, {1, 2, 3}, {1, 2, 3}, {1, 2, 3}, None);
    var s4 := s3 + [TakeSnapshot(listed, DAY)];
    var w5 := FailedJoinRun(s4, w4, 0, 0, 1, {1, 2, 3}, {1, 2, 3}, {1, 2, 3}, Some(listed));
    FewerSessions(w4.sys.mem, w5.sys.mem, 1);
    var s5 := s4 + [Join(1, AddFailedClean)];
    w := JoinRun(s5, w5, 0, 0, 4, {1, 2, 3}, {2, 3}, {2, 3}, Some(listed));
    NewSession(w5.sys, w.sys, 4);
    steps := s5 + [Join(4, AddOk)];
  }

  lemma FourRunning() returns (steps: seq<Step>, w: World)
    ensures Reaches(steps, w, 0, 0) && Calm(w, {1, 2, 3, 4}, {1, 2, 3, 4}, {2, 3, 4}, None)
  {
    hide *;
    var s6, w6, listed := FourthJoined();
    CalmWorld(w6, {1, 2, 3, 4}, {2, 3, 4}, {2, 3, 4}, Some(listed));
    AllFreshlyListed(w6.sys.mem, listed);
    NothingToCharge(w6.sys.mem, listed);
    assert {2, 3, 4} + {1, 2, 3} == {1, 2, 3, 4};
    w := CommitRun(s6, w6, 0, 0, listed, {1, 2, 3, 4}, {2, 3, 4}, {2, 3, 4});
    steps := s6 + [Commit(Reconciling(listed))];
  }

  lemma AllFreshlyListed(m: Memory, listed: seq<PeerInfo>)
    requires m.peers.Keys == {1, 2, 3, 4} && NewSessions(m) && listed == [Silent(1, 0), Silent(2, 0), Silent(3, 0)]
    ensures FreshlyListed(m, listed) && forall p :: p in listed ==> p.rx == 0 && p.tx == 0
  {
  }

  lemma {:induction false} NothingToCharge(m: Memory, listed: seq<PeerInfo>)
    requires NewSessions(m) && forall p :: p in listed ==> p.rx == 0 && p.tx == 0
    ensures Total(Entries(m, listed, SecretMode(0), DAY)) == 0
  {
    if |listed| > 0 {
      var n := |listed| - 1;
      NothingToCharge(m, listed[..n]);
      var rest := Entries(m, listed[..n], SecretMode(0), DAY);
      if listed[n].key in m.peers {
        var e := Entry(listed[n].key, OwnerFound(m, listed[n]), PeerCharge(m, listed[n], DAY));
        assert (rest + [e])[..|rest|] == rest;
      } else {
        assert rest + [] == rest;
      }
    }
  }

  lemma ActiveAreRunning(w: World, running: set<Key>, recorded: set<Key>, device: set<Key>)
    requires Calm(w, recorded, running, device, None) && running <= recorded
    ensures ActivePeers(w.sys.mem, OWNER) == running
  {
  }

  /** Three peers of one key run; one is taken back while a snapshot lists it, a fourth takes its
      place, and the commit counts the first as running again: four peers of one issued key. */
  lemma FourPeersOfOneKey()
    ensures Fresh(NEW_SERVER) && IssuedOwner(OWNER)
    ensures exists steps ::
      && WiredRun(NEW_SERVER, steps, 0) && TimelyRun(NEW_SERVER, steps)
      && |ActivePeers(Run(NEW_SERVER, steps).sys.mem, OWNER)| == 4
  {
    hide Run, WiredRun, TimelyRun, Charges, Flowed, Total, Apply;
    FirstStartOutcome(OpenMode);
    var steps, w := FourRunning();
    ActiveAreRunning(w, {1, 2, 3, 4}, {1, 2, 3, 4}, {2, 3, 4});
  }
}
