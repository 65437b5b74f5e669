/** What a parsed listing says about the device: no peer is lost or moved, every field is the
    last one printed for that peer, and how printed handshake times meet the controller's
    notion of a peer that never completed a handshake. */
module Listings {
  import opened Clocks
  import opened Records
  import opened DeviceInfo
  import opened Libraries
  import opened Charging
  import Operations
  import Verdicts

  // ---------------------------------------------------------------- the cut

  function Flatten(segments: seq<seq<string>>): seq<string> {
    if |segments| == 0 then [] else Flatten(segments[..|segments| - 1]) + segments[|segments| - 1]
  }

  ghost predicate OnePeer(segment: seq<string>) {
    |segment| > 0 && StartsPeer(segment[0]) && forall i :: 0 < i < |segment| ==> !StartsPeer(segment[i])
  }

  /** The segments are the listing cut before each `public_key`: nothing is dropped, repeated or
      moved, and every segment has exactly one such line, its first. */
  lemma {:induction false} SegmentsCutTheListing(lines: seq<string>)
    ensures Header(lines) + Flatten(Segments(lines)) == lines
    ensures forall line :: line in Header(lines) ==> !StartsPeer(line)
    ensures forall i :: 0 <= i < |Segments(lines)| ==> OnePeer(Segments(lines)[i])
  {
    hide *;
    PiecesMakeTheListing(lines);
    HeaderStartsNoPeer(lines);
    SegmentsHoldOnePeer(lines);
  }

  lemma {:induction false} PiecesMakeTheListing(lines: seq<string>)
    ensures Header(lines) + Flatten(Segments(lines)) == lines
  {
    hide *;
    if |lines| > 0 {
      var n := |lines| - 1;
      PiecesMakeTheListing(lines[..n]);
      assert lines == lines[..n] + [lines[n]];
      OneMoreLine(lines[..n], lines[n]);
    } else {
      NothingListed(lines);
    }
  }

  lemma NothingListed(lines: seq<string>)
    requires lines == []
    ensures Header(lines) + Flatten(Segments(lines)) == lines
  {
  }

  lemma OneMoreLine(done: seq<string>, line: string)
    requires Header(done) + Flatten(Segments(done)) == done
    ensures Header(done + [line]) + Flatten(Segments(done + [line])) == done + [line]
  {
    hide StartsPeer, Segments, Header;
    var head, before := Header(done), Segments(done);
    SegmentsStep(done, line);
    HeaderStep(done, line);
    HeaderIsAllWithoutPeers(done);
    if |before| == 0 && !StartsPeer(line) {
      assert Flatten(before) == [];
      assert Header(done + [line]) == done + [line] && Flatten(Segments(done + [line])) == [];
    } else {
      FlattenGrows(before, line);
      if |before| == 0 {
        assert Flatten(before) == [];
      }
      hide Flatten;
      assert Header(done + [line]) == head && Flatten(Segments(done + [line])) == Flatten(before) + [line];
      assert head + (Flatten(before) + [line]) == (head + Flatten(before)) + [line];
    }
  }

  lemma {:induction false} HeaderStartsNoPeer(lines: seq<string>)
    ensures forall line :: line in Header(lines) ==> !StartsPeer(line)
  {
    hide StartsPeer;
    if |lines| > 0 && !StartsPeer(lines[0]) {
      HeaderStartsNoPeer(lines[1..]);
    }
  }

  lemma {:induction false} SegmentsHoldOnePeer(lines: seq<string>)
    ensures forall i :: 0 <= i < |Segments(lines)| ==> OnePeer(Segments(lines)[i])
  {
    hide StartsPeer;
    if |lines| > 0 {
      SegmentsHoldOnePeer(lines[..|lines| - 1]);
    }
  }

  lemma {:induction false} FlattenGrows(segments: seq<seq<string>>, line: string)
    ensures Flatten(segments + [[line]]) == Flatten(segments) + [line]
    ensures var n := |segments| - 1;
      n >= 0 ==> Flatten(segments[..n] + [segments[n] + [line]]) == Flatten(segments) + [line]
  {
    FlattenAppends(segments, [line]);
    if |segments| > 0 {
      var n := |segments| - 1;
      assert segments == segments[..n] + [segments[n]];
      FlattenAppends(segments[..n], segments[n]);
      FlattenAppends(segments[..n], segments[n] + [line]);
      hide Flatten;
    }
  }

  lemma {:induction false} FlattenAppends(segments: seq<seq<string>>, segment: seq<string>)
    ensures Flatten(segments + [segment]) == Flatten(segments) + segment
  {
    assert (segments + [segment])[..|segments|] == segments;
  }

  function KeyLines(lines: seq<string>): seq<string> {
    if |lines| == 0 then []
    else KeyLines(lines[..|lines| - 1]) + if StartsPeer(lines[|lines| - 1]) then [lines[|lines| - 1]] else []
  }

  lemma {:induction false} SegmentsFollowKeyLines(lines: seq<string>)
    ensures |Segments(lines)| == |KeyLines(lines)|
    ensures forall i :: 0 <= i < |Segments(lines)| ==>
      |Segments(lines)[i]| > 0 && Segments(lines)[i][0] == KeyLines(lines)[i]
  {
    hide StartsPeer;
    if |lines| > 0 {
      SegmentsFollowKeyLines(lines[..|lines| - 1]);
    }
  }

  lemma {:induction false} KeyLinesAreLines(lines: seq<string>)
    ensures forall line :: line in KeyLines(lines) ==> StartsPeer(line) && line in lines
  {
    hide StartsPeer;
    if |lines| > 0 {
      KeyLinesAreLines(lines[..|lines| - 1]);
      assert lines == lines[..|lines| - 1] + [lines[|lines| - 1]];
    }
  }

  lemma {:induction false} SegmentKey(segment: seq<string>, lib: Library)
    requires |segment| > 0 && lib.parseKey(ValueOf(segment[0])).Some?
    ensures Some(PeerOf(segment, lib).key) == lib.parseKey(ValueOf(segment[0]))
  {
    hide KeyOf, ValueOf, ParseInt, ParseEndpoint;
    if |segment| > 1 {
      SegmentKey(segment[..|segment| - 1], lib);
    }
  }

  /** Each `public_key` line of the listing gives one peer, in the order of the lines. */
  lemma NoPeerIsLost(d: Device, lines: seq<string>, lib: Library)
    requires Means(Info(d), lines, lib)
    ensures |d.peers| == |KeyLines(Body(lines))|
    ensures forall i :: 0 <= i < |d.peers| ==> Some(d.peers[i].key) == lib.parseKey(ValueOf(KeyLines(Body(lines))[i]))
  {
    var body := Body(lines);
    SegmentsFollowKeyLines(body);
    KeyLinesAreLines(body);
    hide Segments, KeyLines, PeerOf, Body, Header, HeaderPort;
    forall i | 0 <= i < |d.peers| ensures Some(d.peers[i].key) == lib.parseKey(ValueOf(KeyLines(body)[i])) {
      var line := KeyLines(body)[i];
      assert line in KeyLines(body);
      var m :| 0 <= m < |body| && body[m] == line;
      assert FaultAt(body, m, lib).NoFault?;
      SegmentKey(Segments(body)[i], lib);
    }
  }

  // ---------------------------------------------------------------- fields

  /** The last number printed for a field, or what it is when none is. */
  function LastNumber(segment: seq<string>, key: string, otherwise: int): int {
    if |segment| <= 1 then otherwise
    else
      var line := segment[|segment| - 1];
      if KeyOf(line) == key && ParseInt(ValueOf(line)).Some? then ParseInt(ValueOf(line)).value
      else LastNumber(segment[..|segment| - 1], key, otherwise)
  }

  /** The last endpoint printed that can be parsed. */
  function LastEndpoint(segment: seq<string>, lib: Library): Option<Endpoint> {
    if |segment| <= 1 then None
    else
      var line := segment[|segment| - 1];
      if KeyOf(line) == "endpoint" && ParseEndpoint(ValueOf(line), lib).Some? then ParseEndpoint(ValueOf(line), lib)
      else LastEndpoint(segment[..|segment| - 1], lib)
  }

  /** Nanoseconds are below a second, as every listing prints them. */
  ghost predicate SmallNanoseconds(segment: seq<string>) {
    forall i ::
      0 < i < |segment| && KeyOf(segment[i]) == "last_handshake_time_nsec" && ParseInt(ValueOf(segment[i])).Some? ==>
      0 <= ParseInt(ValueOf(segment[i])).value < SECOND
  }

  const ZERO_SECONDS: int := -62_135_596_800

  function PrintedHandshake(segment: seq<string>): Time {
    LastNumber(segment, "last_handshake_time_sec", ZERO_SECONDS) * SECOND +
      LastNumber(segment, "last_handshake_time_nsec", 0)
  }

  lemma {:induction false} NanosecondsAreSmall(segment: seq<string>)
    requires SmallNanoseconds(segment)
    ensures 0 <= LastNumber(segment, "last_handshake_time_nsec", 0) < SECOND
  {
    hide KeyOf, ValueOf, ParseInt;
    if |segment| > 1 {
      NanosecondsAreSmall(segment[..|segment| - 1]);
    }
  }

  lemma SetTime(seconds: int, nanoseconds: int, n: int)
    requires 0 <= nanoseconds < SECOND
    ensures WithSeconds(seconds * SECOND + nanoseconds, n) == n * SECOND + nanoseconds
    ensures WithNanoseconds(seconds * SECOND + nanoseconds, n) == seconds * SECOND + n
  {
  }

  lemma UpdatedFields(p: Peer, line: string, lib: Library)
    ensures var q, n := Update(p, KeyOf(line), ValueOf(line), lib), ParseInt(ValueOf(line));
      q.Some? ==>
        && q.value.rx == (if KeyOf(line) == "rx_bytes" then n.value else p.rx)
        && q.value.tx == (if KeyOf(line) == "tx_bytes" then n.value else p.tx)
        && q.value.handshake == (if KeyOf(line) == "last_handshake_time_sec" then WithSeconds(p.handshake, n.value)
             else if KeyOf(line) == "last_handshake_time_nsec" then WithNanoseconds(p.handshake, n.value)
               else p.handshake)
        && q.value.endpoint == (if KeyOf(line) == "endpoint" && ParseEndpoint(ValueOf(line), lib).Some?
          then ParseEndpoint(ValueOf(line), lib) else p.endpoint)
  {
    hide KeyOf, ValueOf, ParseInt, ParseEndpoint, WithSeconds, WithNanoseconds;
  }

  /** Counters, endpoint and handshake are the last ones printed for the peer, whatever the order of its
      lines; without handshake lines the handshake is Go's zero time. */
  lemma {:induction false} FieldsArePrinted(segment: seq<string>, lib: Library)
    requires |segment| > 0 && SmallNanoseconds(segment)
    ensures var p := PeerOf(segment, lib);
      && p.rx == LastNumber(segment, "rx_bytes", 0)
      && p.tx == LastNumber(segment, "tx_bytes", 0)
      && p.handshake == PrintedHandshake(segment)
      && p.endpoint == LastEndpoint(segment, lib)
  {
    hide KeyOf, ValueOf, ParseInt, Update, ParseEndpoint;
    if |segment| > 1 {
      var n := |segment| - 1;
      var shorter, line := segment[..n], segment[n];
      FieldsArePrinted(shorter, lib);
      NanosecondsAreSmall(shorter);
      var p := PeerOf(shorter, lib);
      UpdatedFields(p, line, lib);
      UpdatePanics(p, line, lib);
      if ParseInt(ValueOf(line)).Some? {
        SetTime(LastNumber(shorter, "last_handshake_time_sec", ZERO_SECONDS),
          LastNumber(shorter, "last_handshake_time_nsec", 0), ParseInt(ValueOf(line)).value);
      }
      hide WithSeconds, WithNanoseconds;
    }
  }

  // ---------------------------------------------------------------- the controller's grace period

  /** A listed peer as the controller sees it; `name` numbers endpoints. */
  function Observation(p: Peer, name: Endpoint -> Name): Operations.PeerInfo {
    Operations.PeerInfo(p.key, p.rx, p.tx, p.handshake,
      match p.endpoint case Some(e) => Some(name(e)) case None => None)
  }

  /** The controller counts a peer's idle time from when it was added, instead of from its last
      handshake, exactly when the listing prints no handshake for it, or Go's zero time itself.
      A device that prints zeros for "never" does not get this grace. */
  lemma GraceNeedsAnUnprintedHandshake(segment: seq<string>, lib: Library, name: Endpoint -> Name)
    requires |segment| > 0 && SmallNanoseconds(segment)
    ensures (forall added, now :: Operations.Stale(Observation(PeerOf(segment, lib), name), added, now) <==>
      now - added >= STALE_PEER_MAX_IDLE)
      <==> (LastNumber(segment, "last_handshake_time_sec", ZERO_SECONDS) == ZERO_SECONDS &&
        LastNumber(segment, "last_handshake_time_nsec", 0) == 0)
  {
    hide PeerOf, LastNumber, SmallNanoseconds;
    FieldsArePrinted(segment, lib);
    NanosecondsAreSmall(segment);
    var p := Observation(PeerOf(segment, lib), name);
    if p.handshake != ZERO_TIME {
      assert Operations.Stale(p, p.handshake + STALE_PEER_MAX_IDLE, p.handshake + STALE_PEER_MAX_IDLE);
    }
  }

  /** So a peer printed with handshake 0 is removed by the very next reconcile that returns nil
      and removes what it decides to, even one at the instant the peer was added. */
  lemma PrintedZeroIsRemovedAtOnce(s: Operations.System, i: Operations.ReconcileInput, segment: seq<string>,
    lib: Library, name: Endpoint -> Name)
    requires Operations.Structural(s.mem) && UniqueKeys(i.snapshot)
    requires Operations.SnapshotKeys(i.snapshot) <= s.device.Keys
    requires forall k :: k in i.removals ==> i.removals[k].RemoveOk?
    requires Operations.Reconcile(s, i).error == NoError && i.clock.now >= STALE_PEER_MAX_IDLE
    requires |segment| > 0 && SmallNanoseconds(segment) && Observation(PeerOf(segment, lib), name) in i.snapshot
    requires LastNumber(segment, "last_handshake_time_sec", ZERO_SECONDS) == 0
    requires LastNumber(segment, "last_handshake_time_nsec", 0) == 0
    ensures PeerOf(segment, lib).key !in Operations.Reconcile(s, i).sys.device
  {
    FieldsArePrinted(segment, lib);
    var p := Observation(PeerOf(segment, lib), name);
    hide PeerOf, LastNumber, UniqueKeys, Operations.Structural, Operations.Reconcile, Operations.SnapshotKeys;
    assert Operations.Stale(p, Operations.RuntimeOf(s.mem, p.key, i.clock.now).addedAt, i.clock.now);
    Verdicts.ReconcileKeepsExactly(s, i);
  }
}
