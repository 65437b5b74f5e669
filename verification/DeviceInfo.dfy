/** The listing of the WireGuard device, parsed line by line: a line `public_key` starts a peer,
    lines before the first one describe the interface, and an empty line ends the listing. */
module DeviceInfo {
  import opened Clocks
  import opened Records
  import opened Text
  import opened Decimals
  import opened Libraries

  datatype Endpoint = Endpoint(ip: Option<Name>, port: int)
  datatype Peer = Peer(key: Key, rx: int, tx: int, handshake: Time, endpoint: Option<Endpoint>)
  datatype Device = Device(listenPort: int, peers: seq<Peer>)

  /** A device, a line without '=', or a value that makes the parser panic. */
  datatype Reading = Info(device: Device) | Unparsed(line: string) | Panicked

  // ---------------------------------------------------------------- numbers

  /** A signed decimal that fits 64 bits. */
  function ParseInt(s: string): Option<int> {
    var signed := |s| > 0 && (s[0] == '-' || s[0] == '+');
    var digits := if signed then s[1..] else s;
    if !AllDigits(digits) then None
    else
      var n := if signed && s[0] == '-' then -Decimal(digits) else Decimal(digits);
      if -MAX_INT64 - 1 <= n <= MAX_INT64 then Some(n) else None
  }

  /** Every number that fits 64 bits is read back from its text, with or without a plus sign;
      a number that does not fit is refused, and so is text that is no number. */
  lemma PrintedNumbersAreRead(n: int)
    ensures ParseInt(PrintedInt(n)) == if -0x8000_0000_0000_0000 <= n <= 0x7FFF_FFFF_FFFF_FFFF then Some(n) else None
    ensures 0 <= n <= 0x7FFF_FFFF_FFFF_FFFF ==> ParseInt("+" + Printed(n)) == Some(n)
  {
    var digits := Printed(if n < 0 then -n else n);
    PrintedIsRead(if n < 0 then -n else n);
    UnsignedIsRead(digits);
    hide Decimal, Printed, ParseInt;
    if n < 0 {
      SignedIsRead('-', digits);
    } else {
      SignedIsRead('+', digits);
    }
  }

  lemma SignedIsRead(sign: char, digits: string)
    requires AllDigits(digits) && (sign == '-' || sign == '+')
    ensures var n := if sign == '-' then -Decimal(digits) else Decimal(digits);
      ParseInt([sign] + digits) == if -0x8000_0000_0000_0000 <= n <= 0x7FFF_FFFF_FFFF_FFFF then Some(n) else None
  {
    assert ([sign] + digits)[1..] == digits;
    hide Decimal;
  }

  lemma UnsignedIsRead(digits: string)
    requires AllDigits(digits)
    ensures ParseInt(digits) ==
      if -0x8000_0000_0000_0000 <= Decimal(digits) <= 0x7FFF_FFFF_FFFF_FFFF then Some(Decimal(digits)) else None
  {
    hide Decimal;
  }

  lemma OnlyNumbersAreRead(s: string)
    requires ParseInt(s).Some?
    ensures exists digits :: AllDigits(digits) && s in {digits, "+" + digits, "-" + digits}
  {
    hide Decimal;
    if |s| > 0 && (s[0] == '-' || s[0] == '+') {
      assert s == [s[0]] + s[1..] && AllDigits(s[1..]);
    }
  }

  // ---------------------------------------------------------------- lines

  /** The lines a scanner reads: without their ends, and without an empty last one. */
  function ScanLines(raw: string): seq<string> {
    var parts := Split(raw, '\n');
    var n := |parts| - 1;
    var whole := if parts[n] == "" then parts[..n] else parts;
    seq(|whole|, i requires 0 <= i < |whole| => DropReturn(whole[i]))
  }

  function DropReturn(line: string): string {
    if |line| > 0 && line[|line| - 1] == '\r' then line[..|line| - 1] else line
  }

  /** The lines before the first empty one. */
  function Body(lines: seq<string>): (body: seq<string>)
    ensures body <= lines && "" !in body && (|body| < |lines| ==> lines[|body|] == "")
  {
    if |lines| == 0 || lines[0] == "" then []
    else [lines[0]] + Body(lines[1..])
  }

  function KeyOf(line: string): string {
    match Cut(line, '=')
    case Some(pair) => pair.before
    case None => ""
  }

  function ValueOf(line: string): string {
    match Cut(line, '=')
    case Some(pair) => pair.after
    case None => ""
  }

  predicate StartsPeer(line: string) {
    Cut(line, '=').Some? && KeyOf(line) == "public_key"
  }

  function NewPeer(key: Key): Peer {
    Peer(key, 0, 0, ZERO_TIME, None)
  }

  function WithSeconds(t: Time, seconds: int): Time {
    seconds * SECOND + t % SECOND
  }

  function WithNanoseconds(t: Time, nanoseconds: int): Time {
    t / SECOND * SECOND + nanoseconds
  }

  function ParseEndpoint(value: string, lib: Library): Option<Endpoint> {
    match lib.splitHostPort(value)
    case None => None
    case Some(hp) =>
      match ParseInt(hp.port)
      case None => None
      case Some(port) => Some(Endpoint(lib.parseIP(hp.host), port))
  }

  predicate IsNumeric(key: string) {
    key == "rx_bytes" || key == "tx_bytes" || key == "last_handshake_time_sec" || key == "last_handshake_time_nsec"
  }

  /** What one line changes in the peer it belongs to; None is a panic. */
  function Update(p: Peer, key: string, value: string, lib: Library): Option<Peer> {
    var n := ParseInt(value);
    if IsNumeric(key) && n.None? then None
    else if key == "rx_bytes" then Some(p.(rx := n.value))
    else if key == "tx_bytes" then Some(p.(tx := n.value))
    else if key == "last_handshake_time_sec" then Some(p.(handshake := WithSeconds(p.handshake, n.value)))
    else if key == "last_handshake_time_nsec" then Some(p.(handshake := WithNanoseconds(p.handshake, n.value)))
    else if key == "endpoint" && ParseEndpoint(value, lib).Some? then Some(p.(endpoint := ParseEndpoint(value, lib)))
    else Some(p)
  }

  // ---------------------------------------------------------------- the listing, cut at public_key

  /** The lines of each peer, in order; lines before the first peer belong to none. */
  function Segments(lines: seq<string>): seq<seq<string>> {
    if |lines| == 0 then []
    else
      var n := |lines| - 1;
      var before := Segments(lines[..n]);
      if StartsPeer(lines[n]) then before + [[lines[n]]]
      else if |before| == 0 then []
      else before[..|before| - 1] + [before[|before| - 1] + [lines[n]]]
  }

  /** The lines before the first peer. */
  function Header(lines: seq<string>): seq<string> {
    if |lines| == 0 || StartsPeer(lines[0]) then [] else [lines[0]] + Header(lines[1..])
  }

  function HeaderPort(header: seq<string>): int {
    if |header| == 0 then 0
    else
      var line := header[|header| - 1];
      if KeyOf(line) == "listen_port" && ParseInt(ValueOf(line)).Some? then ParseInt(ValueOf(line)).value
      else HeaderPort(header[..|header| - 1])
  }

  /** One peer from its own lines alone. */
  function PeerOf(segment: seq<string>, lib: Library): Peer {
    if |segment| == 0 then NewPeer(0)
    else if |segment| == 1 then
      NewPeer(match lib.parseKey(ValueOf(segment[0])) case Some(k) => k case None => 0)
    else
      var line := segment[|segment| - 1];
      var p := PeerOf(segment[..|segment| - 1], lib);
      match Update(p, KeyOf(line), ValueOf(line), lib)
      case Some(q) => q
      case None => p
  }

  function PeersOf(segments: seq<seq<string>>, lib: Library): (peers: seq<Peer>)
    ensures |peers| == |segments|
  {
    seq(|segments|, i requires 0 <= i < |segments| => PeerOf(segments[i], lib))
  }

  datatype Fault = NoFault | BadLine | Panic

  /** What is wrong with a line, given whether a peer has started. */
  function FaultOf(line: string, inPeer: bool, lib: Library): Fault {
    if Cut(line, '=').None? then BadLine
    else if StartsPeer(line) then (if lib.parseKey(ValueOf(line)).None? then Panic else NoFault)
    else if inPeer then (if IsNumeric(KeyOf(line)) && ParseInt(ValueOf(line)).None? then Panic else NoFault)
    else if KeyOf(line) == "listen_port" && ParseInt(ValueOf(line)).None? then Panic
    else NoFault
  }

  function FaultAt(lines: seq<string>, n: nat, lib: Library): Fault
    requires n < |lines|
  {
    FaultOf(lines[n], |Segments(lines[..n])| > 0, lib)
  }

  ghost predicate Clean(lines: seq<string>, n: nat, lib: Library)
    requires n <= |lines|
  {
    forall m :: 0 <= m < n ==> FaultAt(lines, m, lib).NoFault?
  }

  /** The meaning of a listing: the peers are those of its segments; a fault is its first one. */
  ghost predicate Means(r: Reading, lines: seq<string>, lib: Library) {
    var body := Body(lines);
    match r
    case Info(d) => Clean(body, |body|, lib) && d == Device(HeaderPort(Header(body)), PeersOf(Segments(body), lib))
    case Unparsed(line) => exists n ::
      0 <= n < |body| && Clean(body, n, lib) && FaultAt(body, n, lib).BadLine? && line == body[n]
    case Panicked => exists n :: 0 <= n < |body| && Clean(body, n, lib) && FaultAt(body, n, lib).Panic?
  }

  // ---------------------------------------------------------------- the scanner refines it

  /** What the scanner's variables hold after the lines `done`. */
  ghost predicate Scanned(done: seq<string>, listenPort: int, peers: seq<Peer>, lastPeer: Option<Peer>, lib: Library) {
    && listenPort == HeaderPort(Header(done))
    && (lastPeer.None? <==> |Segments(done)| == 0)
    && PeersOf(Segments(done), lib) == Flushed(peers, lastPeer)
  }

  function Flushed(peers: seq<Peer>, lastPeer: Option<Peer>): seq<Peer> {
    match lastPeer
    case Some(p) => peers + [p]
    case None => peers
  }

  lemma SegmentsStep(done: seq<string>, line: string)
    ensures var before := Segments(done);
      Segments(done + [line]) ==
        if StartsPeer(line) then before + [[line]]
        else if |before| == 0 then []
        else before[..|before| - 1] + [before[|before| - 1] + [line]]
  {
    assert (done + [line])[..|done|] == done;
  }

  lemma {:induction false} HeaderStep(done: seq<string>, line: string)
    ensures Header(done + [line]) == Header(done) + if Header(done) != done || StartsPeer(line) then [] else [line]
  {
    hide StartsPeer;
    if |done| > 0 && !StartsPeer(done[0]) {
      HeaderStep(done[1..], line);
      assert (done + [line])[1..] == done[1..] + [line];
    }
  }

  lemma {:induction false} HeaderIsAllWithoutPeers(done: seq<string>)
    ensures Header(done) == done <==> |Segments(done)| == 0
  {
    hide StartsPeer;
    if |done| > 0 {
      hide Header;
      var n := |done| - 1;
      HeaderIsAllWithoutPeers(done[..n]);
      HeaderStep(done[..n], done[n]);
      HeaderIsShort(done[..n]);
      assert done == done[..n] + [done[n]];
    }
  }

  lemma {:induction false} HeaderIsShort(done: seq<string>)
    ensures |Header(done)| <= |done|
  {
    if |done| > 0 && !StartsPeer(done[0]) {
      HeaderIsShort(done[1..]);
    }
  }

  lemma PortStep(header: seq<string>, line: string)
    ensures HeaderPort(header + [line]) ==
      if KeyOf(line) == "listen_port" && ParseInt(ValueOf(line)).Some? then ParseInt(ValueOf(line)).value
        else HeaderPort(header)
  {
    assert (header + [line])[..|header|] == header;
  }

  lemma {:induction false} SegmentsAreNotEmpty(done: seq<string>)
    ensures forall i :: 0 <= i < |Segments(done)| ==> |Segments(done)[i]| > 0
  {
    if |done| > 0 {
      SegmentsAreNotEmpty(done[..|done| - 1]);
    }
  }

  lemma PeerStep(segment: seq<string>, line: string, lib: Library)
    requires |segment| > 0
    ensures var p := PeerOf(segment, lib);
      PeerOf(segment + [line], lib) == match Update(p, KeyOf(line), ValueOf(line), lib) case Some(q) => q case None => p
  {
    assert (segment + [line])[..|segment|] == segment;
  }

  lemma ScannedStep(done: seq<string>, line: string, listenPort: int, peers: seq<Peer>, lastPeer: Option<Peer>,
    lib: Library)
    requires Scanned(done, listenPort, peers, lastPeer, lib)
    ensures StartsPeer(line) && lib.parseKey(ValueOf(line)).Some? ==>
      Scanned(done + [line], listenPort, Flushed(peers, lastPeer), Some(NewPeer(lib.parseKey(ValueOf(line)).value)),
        lib)
    ensures !StartsPeer(line) && lastPeer.None? ==>
      Scanned(done + [line], if KeyOf(line) == "listen_port" && ParseInt(ValueOf(line)).Some?
        then ParseInt(ValueOf(line)).value else listenPort, peers, None, lib)
    ensures !StartsPeer(line) && lastPeer.Some? && Update(lastPeer.value, KeyOf(line), ValueOf(line), lib).Some? ==>
      Scanned(done + [line], listenPort, peers, Update(lastPeer.value, KeyOf(line), ValueOf(line), lib), lib)
  {
    hide Segments, Header, HeaderPort, StartsPeer, KeyOf, ValueOf, Update, ParseInt;
    SegmentsStep(done, line);
    HeaderStep(done, line);
    HeaderIsAllWithoutPeers(done);
    PortStep(Header(done), line);
    SegmentsAreNotEmpty(done);
    var before := Segments(done);
    assert Header(done) + [] == Header(done);
    if !StartsPeer(line) && |before| > 0 {
      var last := |before| - 1;
      PeerStep(before[last], line, lib);
      assert PeersOf(before, lib)[last] == lastPeer.value;
      assert PeersOf(before, lib)[..last] == peers;
      hide PeerOf;
      assert forall i :: 0 <= i < last ==> PeersOf(before, lib)[i] == peers[i];
    }
  }

  lemma NothingScanned(lib: Library)
    ensures Scanned([], 0, [], None, lib)
  {
  }

  lemma UpdatePanics(p: Peer, line: string, lib: Library)
    ensures Update(p, KeyOf(line), ValueOf(line), lib).None? <==>
      IsNumeric(KeyOf(line)) && ParseInt(ValueOf(line)).None?
  {
    hide ParseInt, KeyOf, ValueOf, ParseEndpoint;
  }

  method GetWgDeviceInfo(raw: string, lib: Library) returns (r: Reading)
    ensures Means(r, ScanLines(raw), lib)
  {
    hide ScanLines, StartsPeer, KeyOf, ValueOf, Update, Segments, Header, HeaderPort, PeersOf, Body, ParseInt, Cut,
      IsNumeric, NewPeer;
    var lines := ScanLines(raw);
    ghost var body := Body(lines);
    NothingScanned(lib);
    var listenPort, peers, lastPeer: Option<Peer> := 0, [], None;
    var index := 0;
    assert body[..0] == [];
    while index < |lines|
      invariant 0 <= index <= |body|
      invariant Scanned(body[..index], listenPort, peers, lastPeer, lib)
      invariant Clean(body, index, lib)
    {
      var line := lines[index];
      if line == "" {
        assert body[..index] == body;
        if lastPeer.Some? {
          peers := peers + [lastPeer.value];
        }
        return Info(Device(listenPort, peers));
      }
      assert index < |body| && body[index] == line;
      assert body[..index + 1] == body[..index] + [line];
      ScannedStep(body[..index], line, listenPort, peers, lastPeer, lib);
      if Cut(line, '=').None? {
        assert FaultAt(body, index, lib).BadLine?;
        return Unparsed(line);
      }
      if StartsPeer(line) {
        if lastPeer.Some? {
          peers := peers + [lastPeer.value];
        }
        var key := lib.parseKey(ValueOf(line));
        if key.None? {
          assert FaultAt(body, index, lib).Panic?;
          return Panicked;
        }
        lastPeer := Some(NewPeer(key.value));
      } else if lastPeer.None? {
        if KeyOf(line) == "listen_port" {
          var port := ParseInt(ValueOf(line));
          if port.None? {
            assert FaultAt(body, index, lib).Panic?;
            return Panicked;
          }
          listenPort := port.value;
        }
      } else {
        UpdatePanics(lastPeer.value, line, lib);
        lastPeer := Update(lastPeer.value, KeyOf(line), ValueOf(line), lib);
        if lastPeer.None? {
          assert FaultAt(body, index, lib).Panic?;
          return Panicked;
        }
      }
      assert FaultAt(body, index, lib).NoFault?;
      index := index + 1;
    }
    assert body[..index] == body;
    if lastPeer.Some? {
      peers := peers + [lastPeer.value];
    }
    return Info(Device(listenPort, peers));
  }
}
