/** Restarts and the peer limit: restorePeers does not count, and a run from a fresh start that
    brings back four peers of one issued key. */
module Returns {
  import opened Clocks
  import opened Records
  import opened Operations
  import opened Runs
  import opened PeerLimit
  import opened Metering
  import opened Scenes
  import opened TakenBack

  lemma ThreeConnected(device: map<Key, Counters>)
    requires device == THREE
    ensures var listed := [Connected(1), Connected(2), Connected(3)];
      Lists(listed, device) && SnapshotKeys(listed) == {1, 2, 3}
  {
    var listed := [Connected(1), Connected(2), Connected(3)];
    assert Connected(1) in listed && Connected(2) in listed && Connected(3) in listed;
    assert SnapshotKeys(listed) == {1, 2, 3};
  }

  lemma FreshlyConnected(m: Memory, listed: seq<PeerInfo>)
    requires NewSessions(m) && (listed == [Connected(4)] || listed == [Connected(1), Connected(2), Connected(3)])
    requires SnapshotKeys(listed) <= m.peers.Keys
    ensures FreshlyListed(m, listed) && forall p :: p in listed ==> p.rx == 0 && p.tx == 0
  {
    assert forall p :: p in listed ==> p.key in SnapshotKeys(listed);
  }

  lemma ThreeHomed(peers: map<Key, PeerRecord>)
    requires peers.Keys == {1, 2, 3}
    requires RecentEndpoint(peers[1], DAY) && RecentEndpoint(peers[2], DAY) && RecentEndpoint(peers[3], DAY)
    ensures Homed(peers)
  {
    hide RecentEndpoint;
  }

  /** Three peers connect, and their endpoints are recorded. */
  lemma ThreeSettled() returns (steps: seq<Step>, w: World)
    ensures Reaches(steps, w, 0, 0) && Calm(w, {1, 2, 3}, {1, 2, 3}, {1, 2, 3}, None) && Homed(w.sys.mem.peers)
  {
    hide *;
    var listed := [Connected(1), Connected(2), Connected(3)];
    assert Connected(1) in listed && Connected(2) in listed && Connected(3) in listed;
    var s3, w3 := ThreeJoined();
    ThreeConnected(w3.sys.device);
    var w4 := SnapshotRun(s3, w3, 0, 0, listed, {1, 2, 3}, {1, 2, 3}, {1, 2, 3}, None);
    var s4 := s3 + [TakeSnapshot(listed, DAY)];
    CalmWorld(w4, {1, 2, 3}, {1, 2, 3}, {1, 2, 3}, Some(listed));
    FreshlyConnected(w4.sys.mem, listed);
    NothingToCharge(w4.sys.mem, listed);
    assert {1, 2, 3} + {1, 2, 3} == {1, 2, 3};
    w := CommitRun(s4, w4, 0, 0, listed, {1, 2, 3}, {1, 2, 3}, {1, 2, 3});
    steps := s4 + [Commit(Reconciling(listed))];
    ThreeHomed(w.sys.mem.peers);
  }

  lemma FourthConnected(device: map<Key, Counters>)
    requires device == map[]
    ensures AddTo(device, 4, AddOk) == map[4 := Counters(0, 0)]
    ensures Lists([Connected(4)], AddTo(device, 4, AddOk)) && SnapshotKeys([Connected(4)]) == {4}
  {
  }

  lemma FourHomed(before: map<Key, PeerRecord>, peers: map<Key, PeerRecord>)
    requires Homed(before) && before.Keys == {1, 2, 3} && peers.Keys == {1, 2, 3, 4}
    requires forall k :: k in before ==> peers[k] == before[k]
    requires RecentEndpoint(peers[4], DAY)
    ensures Homed(peers)
  {
    hide RecentEndpoint;
  }

  /** A restart that cannot read the revocations keeps their endpoints and runs none of them. */
  lemma ThreeKept() returns (steps: seq<Step>, w: World)
    ensures Reaches(steps, w, 0, 0) && Calm(w, {1, 2, 3}, {}, {}, None) && Homed(w.sys.mem.peers)
    ensures w.sys.mem.runtime == map[] && w.sys.device == map[] && w.sys.mem.peers.Keys == {1, 2, 3}
  {
    hide *;
    var s5, w5 := ThreeSettled();
    steps, w := RestartRun(s5, w5, 0, 0, None, {1, 2, 3}, {1, 2, 3}, {1, 2, 3}, None);
    CalmWorld(w, {1, 2, 3}, {}, {}, None);
  }

  /** A fourth peer connects. */
  lemma FourthListed() returns (steps: seq<Step>, w: World, before: map<Key, PeerRecord>)
    ensures Reaches(steps, w, 0, 0) && Calm(w, {1, 2, 3, 4}, {4}, {4}, Some([Connected(4)])) && NewSessions(w.sys.mem)
    ensures Homed(before) && before.Keys == {1, 2, 3} && w.sys.mem.peers.Keys == {1, 2, 3, 4}
    ensures forall k :: k in before ==> w.sys.mem.peers[k] == before[k]
  {
    hide *;
    assert {} + {4} == {4} && {1, 2, 3} + {4} == {1, 2, 3, 4} && {} - {4} == {};
    var s6, w6 := ThreeKept();
    before := w6.sys.mem.peers;
    NoSessions(w6.sys.mem);
    var w7 := JoinRun(s6, w6, 0, 0, 4, {1, 2, 3}, {}, {}, None);
    NewSession(w6.sys, w7.sys, 4);
    FourthConnected(w6.sys.device);
    var s7 := s6 + [Join(4, AddOk)];
    w := SnapshotRun(s7, w7, 0, 0, [Connected(4)], {1, 2, 3, 4}, {4}, {4}, None);
    steps := s7 + [TakeSnapshot([Connected(4)], DAY)];
    CalmWorld(w, {1, 2, 3, 4}, {4}, {4}, Some([Connected(4)]));
  }

  lemma FourSettled() returns (steps: seq<Step>, w: World)
    ensures Reaches(steps, w, 0, 0) && Calm(w, {1, 2, 3, 4}, {4}, {4}, None) && Homed(w.sys.mem.peers)
  {
    hide *;
    var listed := [Connected(4)];
    assert Connected(4) in listed && {4} + {4} == {4};
    var s8, w8, before := FourthListed();
    assert SnapshotKeys(listed) == {4} by { FourthConnected(map[]); }
    FreshlyConnected(w8.sys.mem, listed);
    NothingToCharge(w8.sys.mem, listed);
    w := CommitRun(s8, w8, 0, 0, listed, {1, 2, 3, 4}, {4}, {4});
    steps := s8 + [Commit(Reconciling(listed))];
    FourHomed(before, w.sys.mem.peers);
  }

  /** The next restart reads them and brings back all four: four running peers of one issued key,
      with no registration taken back. */
  lemma FourReturn()
    ensures Fresh(NEW_SERVER) && IssuedOwner(OWNER)
    ensures exists steps ::
      && WiredRun(NEW_SERVER, steps, 0) && TimelyRun(NEW_SERVER, steps)
      && |ActivePeers(Run(NEW_SERVER, steps).sys.mem, OWNER)| == 4
  {
    hide Run, WiredRun, TimelyRun, Charges, Flowed, Total, Apply;
    FirstStartOutcome(OpenMode);
    var s9, w9 := FourSettled();
    var steps, w := RestartRun(s9, w9, 0, 0, Some({}), {1, 2, 3, 4}, {4}, {4}, None);
    ActiveAreRunning(w, {1, 2, 3, 4}, {1, 2, 3, 4}, {1, 2, 3, 4});
  }
}
