/** The listing a device prints of itself, and reading it again: every line is understood for what
    it is, and the parser gives the device back. */
module Printouts {
  import opened Clocks
  import opened Records
  import opened Text
  import opened Decimals
  import opened Libraries
  import opened DeviceInfo

  // ---------------------------------------------------------------- single lines

  lemma LineParts(key: string, value: string)
    requires '=' !in key
    ensures var line := key + "=" + value;
      Cut(line, '=').Some? && KeyOf(line) == key && ValueOf(line) == value
  {
    CutJoined(key, value, '=');
  }

  /** A peer starts with each line that begins with `public_key=`. */
  lemma StartsPeerIs(line: string)
    ensures StartsPeer(line) <==> "public_key=" <= line
  {
    if "public_key=" <= line {
      var value := line[11..];
      assert line == "public_key" + "=" + value;
      LineParts("public_key", value);
    }
    if StartsPeer(line) {
      var n := IndexOf(line, '=');
      assert line == line[..n] + [line[n]] + line[n + 1..];
      assert "public_key=" == "public_key" + ['='] <= line;
    }
  }

  lemma PartsAre(line: string)
    ensures var n := IndexOf(line, '=');
      if '=' in line then
        n < |line| && Cut(line, '=').Some? && KeyOf(line) == line[..n] && ValueOf(line) == line[n..][1..]
      else Cut(line, '=').None?
  {
    var n := IndexOf(line, '=');
    if n < |line| {
      assert line[n..][1..] == line[n + 1..];
      assert line[n] in line;
    } else {
      assert line[..n] == line;
    }
  }

  /** A line is refused exactly when it has no `=`, and makes the parser panic exactly when it names
      a key that is none, or a number that is none in a field that needs one: before the first peer
      the port, in a peer its counters and its handshake. */
  lemma FaultIs(line: string, inPeer: bool, lib: Library)
    ensures FaultOf(line, inPeer, lib).BadLine? <==> '=' !in line
    ensures FaultOf(line, inPeer, lib).Panic? <==>
      && '=' in line
      && var key, value := line[..IndexOf(line, '=')], line[IndexOf(line, '=')..][1..];
         if key == "public_key" then lib.parseKey(value).None?
         else
           && ParseInt(value).None?
           && key in (if inPeer
             then {"rx_bytes", "tx_bytes", "last_handshake_time_sec", "last_handshake_time_nsec"} else {"listen_port"})
  {
    hide ParseInt, Cut, KeyOf, ValueOf, IndexOf;
    PartsAre(line);
  }

  // ---------------------------------------------------------------- lines and listings

  predicate Plain(line: string) {
    line != "" && '\n' !in line && line[|line| - 1] != '\r'
  }

  lemma ScannedLines(parts: seq<string>, raw: string)
    requires |parts| > 0 && Split(raw, '\n') == parts
    ensures var whole := if parts[|parts| - 1] == "" then parts[..|parts| - 1] else parts;
      |ScanLines(raw)| == |whole| && forall i :: 0 <= i < |whole| ==> ScanLines(raw)[i] == DropReturn(whole[i])
  {
    hide Split, DropReturn;
  }

  /** Each line is read as it was written, whether or not the last one is ended by a newline... */
  lemma LinesAreScanned(lines: seq<string>)
    requires forall i :: 0 <= i < |lines| ==> Plain(lines[i])
    ensures ScanLines(Join(lines + [""], '\n')) == lines
    ensures |lines| > 0 ==> ScanLines(Join(lines, '\n')) == lines
  {
    hide Split, Join, ScanLines;
    SplitJoined(lines + [""], '\n');
    ScannedLines(lines + [""], Join(lines + [""], '\n'));
    assert (lines + [""])[..|lines|] == lines;
    if |lines| > 0 {
      SplitJoined(lines, '\n');
      ScannedLines(lines, Join(lines, '\n'));
    }
  }

  /** ... or by a carriage return before it. */
  lemma ReturnIsDropped(line: string)
    ensures DropReturn(line + "\r") == line
    ensures Plain(line) ==> DropReturn(line) == line
  {
    assert (line + "\r")[..|line|] == line;
  }

  /** What follows an empty line is not read. */
  lemma {:induction false} BodyEndsAtTheGap(lines: seq<string>, rest: seq<string>)
    requires forall i :: 0 <= i < |lines| ==> lines[i] != ""
    ensures Body(lines) == lines && Body(lines + [""] + rest) == lines
  {
    if |lines| > 0 {
      assert forall i :: 0 <= i < |lines| - 1 ==> lines[1..][i] == lines[i + 1];
      BodyEndsAtTheGap(lines[1..], rest);
      assert (lines + [""] + rest)[1..] == lines[1..] + [""] + rest;
    } else {
      assert lines + [""] + rest == [""] + rest;
    }
  }

  /** Which reading a listing has is settled by its lines. */
  lemma ReadingIsUnique(r: Reading, t: Reading, lines: seq<string>, lib: Library)
    requires Means(r, lines, lib) && Means(t, lines, lib)
    ensures r == t
  {
    hide FaultAt, Body, Segments, Header, HeaderPort, PeersOf;
  }

  // ---------------------------------------------------------------- a device as it prints itself

  /** How keys and endpoints are printed. */
  datatype Style = Style(key: Key -> string, endpoint: Endpoint -> string, host: Endpoint -> string)

  /** The library reads printed keys and endpoints back, and their texts fit in a line. */
  ghost predicate ReadsBack(lib: Library, style: Style) {
    && (forall k: Key :: lib.parseKey(style.key(k)) == Some(k) && Plain(style.key(k)))
    && (forall e: Endpoint :: lib.splitHostPort(style.endpoint(e)) == Some(HostPort(style.host(e), PrintedInt(e.port))))
    && (forall e: Endpoint :: lib.parseIP(style.host(e)) == e.ip && Plain(style.endpoint(e)))
  }

  predicate Fits(n: int) {
    -0x8000_0000_0000_0000 <= n <= 0x7FFF_FFFF_FFFF_FFFF
  }

  predicate Printable(p: Peer) {
    Fits(p.rx) && Fits(p.tx) && Fits(p.handshake / SECOND) && (p.endpoint.Some? ==> Fits(p.endpoint.value.port))
  }

  function EndpointLines(p: Peer, style: Style): seq<string> {
    match p.endpoint
    case None => []
    case Some(e) => ["endpoint" + "=" + style.endpoint(e)]
  }

  function PeerLines(p: Peer, style: Style): seq<string> {
    ["public_key" + "=" + style.key(p.key)] + EndpointLines(p, style) + [
      "last_handshake_time_sec" + "=" + PrintedInt(p.handshake / SECOND),
      "last_handshake_time_nsec" + "=" + PrintedInt(p.handshake % SECOND),
      "tx_bytes" + "=" + PrintedInt(p.tx),
      "rx_bytes" + "=" + PrintedInt(p.rx)]
  }

  function AllPeerLines(peers: seq<Peer>, style: Style): seq<string> {
    if |peers| == 0 then []
    else AllPeerLines(peers[..|peers| - 1], style) + PeerLines(peers[|peers| - 1], style)
  }

  function DeviceLines(d: Device, style: Style): seq<string> {
    ["listen_port" + "=" + PrintedInt(d.listenPort)] + AllPeerLines(d.peers, style)
  }

  ghost predicate PrintableDevice(d: Device) {
    Fits(d.listenPort) && forall p :: p in d.peers ==> Printable(p)
  }

  // ---------------------------------------------------------------- reading one peer

  lemma NumberLine(key: string, n: int)
    requires '=' !in key && Fits(n)
    ensures var line := key + "=" + PrintedInt(n);
      Cut(line, '=').Some? && KeyOf(line) == key && ValueOf(line) == PrintedInt(n) && ParseInt(ValueOf(line)) == Some(n)
  {
    LineParts(key, PrintedInt(n));
    PrintedNumbersAreRead(n);
  }

  lemma ReadEndpoint(e: Endpoint, lib: Library, style: Style)
    requires ReadsBack(lib, style) && Fits(e.port)
    ensures ParseEndpoint(style.endpoint(e), lib) == Some(e)
  {
    PrintedNumbersAreRead(e.port);
    hide ParseInt, PrintedInt;
  }

  lemma OneLineMore(segment: seq<string>, key: string, value: string, lib: Library)
    requires |segment| > 0 && '=' !in key
    ensures var p := PeerOf(segment, lib);
      PeerOf(segment + [key + "=" + value], lib) == match Update(p, key, value, lib) case Some(q) => q case None => p
  {
    LineParts(key, value);
    PeerStep(segment, key + "=" + value, lib);
    hide PeerOf, Update;
  }

  /** What each line of a printed peer sets. */
  lemma UpdatesAre(p: Peer, n: int, lib: Library)
    requires Fits(n)
    ensures Update(p, "rx_bytes", PrintedInt(n), lib) == Some(p.(rx := n))
    ensures Update(p, "tx_bytes", PrintedInt(n), lib) == Some(p.(tx := n))
    ensures Update(p, "last_handshake_time_sec", PrintedInt(n), lib) ==
      Some(p.(handshake := n * 1_000_000_000 + p.handshake % 1_000_000_000))
    ensures Update(p, "last_handshake_time_nsec", PrintedInt(n), lib) ==
      Some(p.(handshake := p.handshake / 1_000_000_000 * 1_000_000_000 + n))
  {
    PrintedNumbersAreRead(n);
    hide ParseInt, PrintedInt, ParseEndpoint;
  }

  lemma EndpointUpdateIs(p: Peer, e: Endpoint, lib: Library, style: Style)
    requires ReadsBack(lib, style) && Fits(e.port)
    ensures Update(p, "endpoint", style.endpoint(e), lib) == Some(p.(endpoint := Some(e)))
  {
    ReadEndpoint(e, lib, style);
    hide ParseInt, ParseEndpoint, ReadsBack;
  }

  lemma FirstLine(k: Key, lib: Library, style: Style)
    requires ReadsBack(lib, style)
    ensures PeerOf(["public_key" + "=" + style.key(k)], lib) == Peer(k, 0, 0, ZERO_TIME, None)
  {
    LineParts("public_key", style.key(k));
    hide KeyOf, ValueOf, Cut;
  }

  lemma ReadUpToEndpoint(p: Peer, lib: Library, style: Style)
    requires ReadsBack(lib, style) && Printable(p)
    ensures PeerOf(["public_key" + "=" + style.key(p.key)] + EndpointLines(p, style), lib) ==
      Peer(p.key, 0, 0, ZERO_TIME, p.endpoint)
  {
    hide PeerOf, Update, ReadsBack;
    var first := ["public_key" + "=" + style.key(p.key)];
    FirstLine(p.key, lib, style);
    assert first + [] == first;
    if p.endpoint.Some? {
      EndpointUpdateIs(PeerOf(first, lib), p.endpoint.value, lib, style);
      OneLineMore(first, "endpoint", style.endpoint(p.endpoint.value), lib);
    }
  }

  lemma PeerIsReadBack(p: Peer, lib: Library, style: Style)
    requires ReadsBack(lib, style) && Printable(p)
    ensures PeerOf(PeerLines(p, style), lib) == p
  {
    hide PeerOf, Update, ReadsBack, PrintedInt, EndpointLines;
    var a := ["public_key" + "=" + style.key(p.key)] + EndpointLines(p, style);
    var sec, nsec := p.handshake / SECOND, p.handshake % SECOND;
    var b := a + ["last_handshake_time_sec" + "=" + PrintedInt(sec)];
    var c := b + ["last_handshake_time_nsec" + "=" + PrintedInt(nsec)];
    var d := c + ["tx_bytes" + "=" + PrintedInt(p.tx)];
    assert PeerLines(p, style) == d + ["rx_bytes" + "=" + PrintedInt(p.rx)];
    ReadUpToEndpoint(p, lib, style);
    OneLineMore(a, "last_handshake_time_sec", PrintedInt(sec), lib);
    UpdatesAre(PeerOf(a, lib), sec, lib);
    OneLineMore(b, "last_handshake_time_nsec", PrintedInt(nsec), lib);
    UpdatesAre(PeerOf(b, lib), nsec, lib);
    OneLineMore(c, "tx_bytes", PrintedInt(p.tx), lib);
    UpdatesAre(PeerOf(c, lib), p.tx, lib);
    OneLineMore(d, "rx_bytes", PrintedInt(p.rx), lib);
    UpdatesAre(PeerOf(d, lib), p.rx, lib);
  }

  // ---------------------------------------------------------------- reading the device

  /** A line that can be read wherever it stands. */
  ghost predicate Harmless(line: string, lib: Library) {
    Plain(line) && forall inPeer :: FaultOf(line, inPeer, lib).NoFault?
  }

  lemma PrintedIsPlain(n: int)
    ensures Plain(PrintedInt(n))
  {
    PrintedIsRead(if n < 0 then -n else n);
    hide Decimal, Printed;
  }

  lemma LineIsPlain(key: string, value: string)
    requires Plain(value) && '\n' !in key
    ensures Plain(key + "=" + value)
  {
    var line := key + "=" + value;
    assert line[|line| - 1] == value[|value| - 1];
  }

  lemma GoodLineIsHarmless(key: string, value: string, lib: Library)
    requires '=' !in key && '\n' !in key && Plain(value)
    requires if key == "public_key" then lib.parseKey(value).Some? else ParseInt(value).Some? || key == "endpoint"
    ensures Harmless(key + "=" + value, lib) && (StartsPeer(key + "=" + value) <==> key == "public_key")
  {
    hide KeyOf, ValueOf, Cut, ParseInt, Plain;
    LineParts(key, value);
    LineIsPlain(key, value);
  }

  lemma NumberLineIsHarmless(key: string, n: int, lib: Library)
    requires key in {"listen_port", "last_handshake_time_sec", "last_handshake_time_nsec", "tx_bytes", "rx_bytes"}
    requires Fits(n)
    ensures Harmless(key + "=" + PrintedInt(n), lib) && !StartsPeer(key + "=" + PrintedInt(n))
  {
    hide ParseInt, PrintedInt, Plain, Harmless, StartsPeer;
    assert '=' !in key && '\n' !in key && key != "public_key";
    PrintedNumbersAreRead(n);
    PrintedIsPlain(n);
    GoodLineIsHarmless(key, PrintedInt(n), lib);
  }

  lemma TextLinesAreHarmless(p: Peer, lib: Library, style: Style)
    requires ReadsBack(lib, style)
    ensures var line := "public_key" + "=" + style.key(p.key); Harmless(line, lib) && StartsPeer(line)
    ensures forall line :: line in EndpointLines(p, style) ==> Harmless(line, lib) && !StartsPeer(line)
  {
    hide ParseInt, PrintedInt, Plain, Harmless, StartsPeer;
    GoodLineIsHarmless("public_key", style.key(p.key), lib);
    if p.endpoint.Some? {
      GoodLineIsHarmless("endpoint", style.endpoint(p.endpoint.value), lib);
    }
  }

  lemma PeerLinesAreHarmless(p: Peer, lib: Library, style: Style)
    requires ReadsBack(lib, style) && Printable(p)
    ensures var lines := PeerLines(p, style);
      && |lines| > 0 && StartsPeer(lines[0])
      && (forall line :: line in lines ==> Harmless(line, lib))
      && (forall line :: line in lines[1..] ==> !StartsPeer(line))
  {
    hide Harmless, StartsPeer, EndpointLines, PrintedInt, ReadsBack;
    TextLinesAreHarmless(p, lib, style);
    NumberLineIsHarmless("last_handshake_time_sec", p.handshake / SECOND, lib);
    NumberLineIsHarmless("last_handshake_time_nsec", p.handshake % SECOND, lib);
    NumberLineIsHarmless("tx_bytes", p.tx, lib);
    NumberLineIsHarmless("rx_bytes", p.rx, lib);
    var sec, nsec := PrintedInt(p.handshake / SECOND), PrintedInt(p.handshake % SECOND);
    assert PeerLines(p, style)[1..] == EndpointLines(p, style) + ["last_handshake_time_sec" + "=" + sec,
      "last_handshake_time_nsec" + "=" + nsec, "tx_bytes" + "=" + PrintedInt(p.tx),
        "rx_bytes" + "=" + PrintedInt(p.rx)];
  }

  /** Lines that start no peer belong to the last one. */
  lemma {:induction false} LinesJoinTheLastPeer(done: seq<string>, more: seq<string>)
    requires |Segments(done)| > 0 && forall line :: line in more ==> !StartsPeer(line)
    ensures var n := |Segments(done)| - 1;
      Segments(done + more) == Segments(done)[..n] + [Segments(done)[n] + more]
    ensures Header(done + more) == Header(done)
  {
    hide Segments, Header, StartsPeer;
    var n := |Segments(done)| - 1;
    if |more| == 0 {
      assert done + more == done;
      assert Segments(done)[n] + more == Segments(done)[n];
    } else {
      var line := more[|more| - 1];
      var before := more[..|more| - 1];
      LinesJoinTheLastPeer(done, before);
      assert more == before + [line] && done + more == (done + before) + [line];
      SegmentsStep(done + before, line);
      HeaderStep(done + before, line);
      HeaderIsAllWithoutPeers(done + before);
      assert (Segments(done)[n] + before) + [line] == Segments(done)[n] + more;
    }
  }

  lemma OnePeerMore(done: seq<string>, lines: seq<string>)
    requires |lines| > 0 && StartsPeer(lines[0]) && forall line :: line in lines[1..] ==> !StartsPeer(line)
    ensures Segments(done + lines) == Segments(done) + [lines] && Header(done + lines) == Header(done)
  {
    hide Segments, Header, StartsPeer;
    SegmentsStep(done, lines[0]);
    HeaderStep(done, lines[0]);
    assert done + lines == (done + [lines[0]]) + lines[1..];
    LinesJoinTheLastPeer(done + [lines[0]], lines[1..]);
    assert [lines[0]] + lines[1..] == lines;
  }

  lemma NoPeerYet(first: string)
    requires !StartsPeer(first)
    ensures Header([first]) == [first] && Segments([first]) == []
  {
    hide StartsPeer;
    SegmentsStep([], first);
    assert [] + [first] == [first];
  }

  lemma AllButOne(peers: seq<Peer>, first: string, style: Style)
    ensures |peers| == 0 ==> [first] + AllPeerLines(peers, style) == [first]
    ensures var n := |peers| - 1;
      n >= 0 ==>
        [first] + AllPeerLines(peers, style) == ([first] + AllPeerLines(peers[..n], style)) + PeerLines(peers[n], style)
  {
    hide PeerLines;
  }

  lemma {:induction false} PeersAreCutApart(first: string, peers: seq<Peer>, lib: Library, style: Style)
    requires ReadsBack(lib, style) && (forall p :: p in peers ==> Printable(p))
    requires Harmless(first, lib) && !StartsPeer(first)
    ensures var lines := [first] + AllPeerLines(peers, style);
      && Header(lines) == [first] && |Segments(lines)| == |peers|
      && (forall i :: 0 <= i < |peers| ==> Segments(lines)[i] == PeerLines(peers[i], style))
      && (forall line :: line in lines ==> Harmless(line, lib))
  {
    hide *;
    AllButOne(peers, first, style);
    if |peers| == 0 {
      NoPeerYet(first);
    } else {
      var n := |peers| - 1;
      PeersAreCutApart(first, peers[..n], lib, style);
      PeerLinesAreHarmless(peers[n], lib, style);
      OnePeerMore([first] + AllPeerLines(peers[..n], style), PeerLines(peers[n], style));
    }
  }

  lemma PortIsRead(n: int)
    requires Fits(n)
    ensures HeaderPort(["listen_port" + "=" + PrintedInt(n)]) == n
  {
    NumberLine("listen_port", n);
    hide KeyOf, ValueOf, ParseInt, PrintedInt;
  }

  lemma DeviceIsReadBack(d: Device, lib: Library, style: Style)
    requires ReadsBack(lib, style) && PrintableDevice(d)
    ensures var lines := DeviceLines(d, style);
      && (forall line :: line in lines ==> Harmless(line, lib))
      && Device(HeaderPort(Header(lines)), PeersOf(Segments(lines), lib)) == d
  {
    hide Harmless, ReadsBack, PeerOf, PeerLines, Printable, PrintedInt, AllPeerLines, StartsPeer, Segments, Header,
      HeaderPort;
    var first := "listen_port" + "=" + PrintedInt(d.listenPort);
    NumberLineIsHarmless("listen_port", d.listenPort, lib);
    PeersAreCutApart(first, d.peers, lib, style);
    PortIsRead(d.listenPort);
    var peers := PeersOf(Segments(DeviceLines(d, style)), lib);
    forall i | 0 <= i < |d.peers| ensures peers[i] == d.peers[i] {
      PeerIsReadBack(d.peers[i], lib, style);
    }
    assert peers == d.peers;
  }

  /** Whatever device is printed, the parser gives it back, from the text as it is or from lines
      that an empty one ends. */
  lemma ListingRoundTrip(d: Device, lib: Library, style: Style, rest: seq<string>)
    requires ReadsBack(lib, style) && PrintableDevice(d)
    ensures Means(Info(d), ScanLines(Join(DeviceLines(d, style) + [""], '\n')), lib)
    ensures Means(Info(d), DeviceLines(d, style) + [""] + rest, lib)
  {
    var lines := DeviceLines(d, style);
    DeviceIsReadBack(d, lib, style);
    hide DeviceLines, ReadsBack, Segments, Header, HeaderPort, PeersOf, ScanLines, Join, FaultOf, Body;
    assert forall i :: 0 <= i < |lines| ==> Harmless(lines[i], lib);
    LinesAreScanned(lines);
    BodyEndsAtTheGap(lines, rest);
    assert Clean(lines, |lines|, lib);
  }
}
