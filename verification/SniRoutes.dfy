/** Static routes by server name: the parser of the route list, and why its routes can never
    take a name away from the API domain or from a tunnel. */
module SniRoutes {
  import opened Records
  import opened Text
  import opened NameCodec
  import opened TunnelNames
  import opened Libraries
  import opened Decimals

  datatype SniRoute = SniRoute(host: string, target: string)
  datatype SniConfig = SniConfig(routes: seq<SniRoute>, proxyProtocol: bool)

  datatype Problem = ExpectedPair | NotAHostname | Reserved | Duplicate | BadTarget

  /** `line` counts from one. */
  datatype Parse = Parsed(config: SniConfig) | BadFlag | BadLine(line: nat, problem: Problem)

  // ---------------------------------------------------------------- hosts and targets

  predicate HostChar(c: char) {
    'a' <= c <= 'z' || '0' <= c <= '9' || c == '-'
  }

  predicate ValidLabel(part: string) {
    && 0 < |part| <= 63 && part[0] != '-' && part[|part| - 1] != '-'
    && forall i :: 0 <= i < |part| ==> HostChar(part[i])
  }

  predicate ValidDNSName(host: string) {
    0 < |host| <= 253 && forall i :: 0 <= i < |Split(host, '.')| ==> ValidLabel(Split(host, '.')[i])
  }

  predicate ValidPort(port: string) {
    AllDigits(port) && 0 < Decimal(port) < 65536
  }

  predicate ValidTarget(target: string, lib: Library) {
    match lib.splitHostPort(target)
    case None => false
    case Some(hp) =>
      && hp.host != "" && ValidPort(hp.port)
      && (lib.isAddr(hp.host) || ValidDNSName(NormalizeHost(hp.host)))
  }

  // ---------------------------------------------------------------- lines

  predicate Blank(line: string) {
    TrimSpace(line) == ""
  }

  function RouteOf(line: string): SniRoute {
    match Cut(TrimSpace(line), '=')
    case None => SniRoute(NormalizeHost(TrimSpace(TrimSpace(line))), "")
    case Some(pair) => SniRoute(NormalizeHost(TrimSpace(pair.before)), TrimSpace(pair.after))
  }

  predicate Under(host: string, api: string) {
    host == api || HasSuffix(host, "." + api)
  }

  /** The first rule a line breaks; `api` is normalized and `taken` are the hosts before it. */
  function ProblemOf(line: string, api: string, taken: set<string>, lib: Library): Option<Problem> {
    var route := RouteOf(line);
    if Cut(TrimSpace(line), '=').None? then Some(ExpectedPair)
    else if !ValidDNSName(route.host) || lib.parseIP(route.host).Some? then Some(NotAHostname)
    else if Under(route.host, api) then Some(Reserved)
    else if route.host in taken then Some(Duplicate)
    else if !ValidTarget(route.target, lib) then Some(BadTarget)
    else None
  }

  function Hosts(routes: seq<SniRoute>): set<string> {
    set r | r in routes :: r.host
  }

  /** The routes that the first lines describe, whether or not they are acceptable. */
  function RoutesOf(lines: seq<string>): seq<SniRoute> {
    if |lines| == 0 then []
    else
      var n := |lines| - 1;
      RoutesOf(lines[..n]) + if Blank(lines[n]) then [] else [RouteOf(lines[n])]
  }

  predicate LineOk(lines: seq<string>, n: nat, api: string, lib: Library)
    requires n < |lines|
  {
    Blank(lines[n]) || ProblemOf(lines[n], api, Hosts(RoutesOf(lines[..n])), lib).None?
  }

  /** What the setting says about the PROXY protocol; None when it is not a boolean. */
  function Flag(raw: string, lib: Library): Option<bool> {
    if TrimSpace(raw) == "" then Some(false) else lib.parseBool(TrimSpace(raw))
  }

  /** An accepted configuration is the flag and every line's route, all lines being acceptable;
      a refusal names the first line that is not and the first rule it breaks. */
  ghost predicate Meets(r: Parse, rawRoutes: string, rawFlag: string, api: string, lib: Library) {
    var lines, domain := Split(rawRoutes, '\n'), NormalizeHost(api);
    match r
    case BadFlag => Flag(rawFlag, lib).None?
    case Parsed(c) =>
      && Flag(rawFlag, lib) == Some(c.proxyProtocol)
      && c.routes == RoutesOf(lines)
      && forall n :: 0 <= n < |lines| ==> LineOk(lines, n, domain, lib)
    case BadLine(k, problem) =>
      && Flag(rawFlag, lib).Some? && 0 < k <= |lines|
      && (forall n :: 0 <= n < k - 1 ==> LineOk(lines, n, domain, lib))
      && !Blank(lines[k - 1])
      && ProblemOf(lines[k - 1], domain, Hosts(RoutesOf(lines[..k - 1])), lib) == Some(problem)
  }

  method ParseSNIConfig(rawRoutes: string, rawFlag: string, api: string, lib: Library) returns (r: Parse)
    ensures Meets(r, rawRoutes, rawFlag, api, lib)
  {
    hide ProblemOf, Flag, NormalizeHost, RoutesOf, Hosts, Blank, RouteOf, Split, TrimSpace, ValidDNSName, ValidTarget,
      HasSuffix, Cut;
    NothingParsed(rawFlag, lib);
    var config := SniConfig([], false);
    var value := TrimSpace(rawFlag);
    if value != "" {
      var enabled := lib.parseBool(value);
      if enabled.None? {
        return BadFlag;
      }
      config := config.(proxyProtocol := enabled.value);
    }
    var domain := NormalizeHost(api);
    var seen: set<string> := {};
    var lines := Split(rawRoutes, '\n');
    assert lines[..0] == [];
    var index := 0;
    while index < |lines|
      invariant 0 <= index <= |lines|
      invariant config.routes == RoutesOf(lines[..index]) && Flag(rawFlag, lib) == Some(config.proxyProtocol)
      invariant seen == Hosts(config.routes)
      invariant forall n :: 0 <= n < index ==> LineOk(lines, n, domain, lib)
    {
      RoutesGrow(lines, index);
      LineIs(lines[index], domain, seen, lib);
      var line := TrimSpace(lines[index]);
      if line != "" {
        var pair := Cut(line, '=');
        var host := NormalizeHost(TrimSpace(if pair.Some? then pair.value.before else line));
        var target := TrimSpace(if pair.Some? then pair.value.after else "");
        var problem: Option<Problem> := None;
        if pair.None? {
          problem := Some(ExpectedPair);
        } else if !ValidDNSName(host) || lib.parseIP(host).Some? {
          problem := Some(NotAHostname);
        } else if host == domain || HasSuffix(host, "." + domain) {
          problem := Some(Reserved);
        } else if host in seen {
          problem := Some(Duplicate);
        } else if !ValidTarget(target, lib) {
          problem := Some(BadTarget);
        }
        if problem.Some? {
          return BadLine(index + 1, problem.value);
        }
        var route := SniRoute(host, target);
        HostsGrow(config.routes, route);
        seen := seen + {route.host};
        config := config.(routes := config.routes + [route]);
      }
      index := index + 1;
    }
    assert lines[..index] == lines;
    return Parsed(config);
  }

  lemma NothingParsed(rawFlag: string, lib: Library)
    ensures RoutesOf([]) == [] && Hosts([]) == {}
    ensures Flag(rawFlag, lib) == if TrimSpace(rawFlag) == "" then Some(false) else lib.parseBool(TrimSpace(rawFlag))
  {
  }

  /** What the specification says about a line, rule by rule. */
  lemma LineIs(line: string, domain: string, taken: set<string>, lib: Library)
    ensures var pair := Cut(TrimSpace(line), '=');
      var host := NormalizeHost(TrimSpace(if pair.Some? then pair.value.before else TrimSpace(line)));
      var target := TrimSpace(if pair.Some? then pair.value.after else "");
      && (Blank(line) <==> TrimSpace(line) == "")
      && RouteOf(line) == SniRoute(host, target)
      && ProblemOf(line, domain, taken, lib) ==
        if pair.None? then Some(ExpectedPair)
        else if !ValidDNSName(host) || lib.parseIP(host).Some? then Some(NotAHostname)
        else if host == domain || HasSuffix(host, "." + domain) then Some(Reserved)
        else if host in taken then Some(Duplicate)
        else if !ValidTarget(target, lib) then Some(BadTarget)
        else None
  {
    hide ValidDNSName, ValidTarget, NormalizeHost, HasSuffix;
  }

  lemma RoutesGrow(lines: seq<string>, n: nat)
    requires n < |lines|
    ensures RoutesOf(lines[..n + 1]) == RoutesOf(lines[..n]) + if Blank(lines[n]) then [] else [RouteOf(lines[n])]
  {
    assert lines[..n + 1][..n] == lines[..n];
    hide Blank, RouteOf;
  }

  lemma HostsGrow(routes: seq<SniRoute>, route: SniRoute)
    ensures Hosts(routes + [route]) == Hosts(routes) + {route.host}
  {
  }

  /** Which answer meets the specification is settled by the inputs. */
  lemma AnswerIsUnique(r: Parse, t: Parse, rawRoutes: string, rawFlag: string, api: string, lib: Library)
    requires Meets(r, rawRoutes, rawFlag, api, lib) && Meets(t, rawRoutes, rawFlag, api, lib)
    ensures r == t
  {
    hide ProblemOf, Flag, NormalizeHost, RoutesOf, Hosts, Blank;
    var lines := Split(rawRoutes, '\n');
    assert r.BadLine? ==> !LineOk(lines, r.line - 1, NormalizeHost(api), lib);
    assert t.BadLine? ==> !LineOk(lines, t.line - 1, NormalizeHost(api), lib);
  }

  // ---------------------------------------------------------------- accepted hosts

  lemma {:induction false} PartsHoldTheRest(s: string, c: char)
    ensures forall x :: x in s && x != c ==> exists k :: 0 <= k < |Split(s, c)| && x in Split(s, c)[k]
    ensures |s| > 0 && s[|s| - 1] == c ==> Split(s, c)[|Split(s, c)| - 1] == ""
    decreases |s|
  {
    hide Split, IndexOf;
    SplitIs(s, c);
    var n := IndexOf(s, c);
    if n < |s| {
      var first, rest := s[..n], Split(s[n + 1..], c);
      PartsHoldTheRest(s[n + 1..], c);
      assert s == first + [c] + s[n + 1..];
      if s[n + 1..] == "" {
        SplitIs("", c);
      }
      forall x | x in s && x != c ensures exists k :: 0 <= k < |[first] + rest| && x in ([first] + rest)[k] {
        if x in first {
          assert x in ([first] + rest)[0];
        } else {
          var k :| 0 <= k < |rest| && x in rest[k];
          assert ([first] + rest)[k + 1] == rest[k];
        }
      }
    } else {
      assert forall x :: x in s ==> x in [s][0];
    }
  }

  /** A valid name is made of host characters and inner dots, so it is its own normal form. */
  lemma ValidNameIsNormal(host: string)
    requires ValidDNSName(host)
    ensures host != "" && host[|host| - 1] != '.' && NormalizeHost(host) == host
    ensures forall x :: x in host ==> HostChar(x) || x == '.'
  {
    PartsHoldTheRest(host, '.');
    assert ValidLabel(Split(host, '.')[|Split(host, '.')| - 1]);
    forall x | x in host && x != '.' ensures HostChar(x) {
      var k :| 0 <= k < |Split(host, '.')| && x in Split(host, '.')[k];
      assert ValidLabel(Split(host, '.')[k]);
    }
    hide ValidDNSName;
    forall i | 0 <= i < |host| ensures ToLower(host)[i] == host[i] {
      assert host[i] in host;
    }
  }

  /** The ports are the numbers from 1 to 65535, as they are printed or after zeros. */
  lemma PrintedPortIsValid(n: nat)
    ensures ValidPort(Printed(n)) <==> 1 <= n <= 65535
    ensures ValidPort("0" + Printed(n)) <==> 1 <= n <= 65535
  {
    PrintedIsRead(n);
    hide Decimal, Printed;
  }

  lemma TargetIsValidExactly(target: string, lib: Library)
    ensures ValidTarget(target, lib) <==>
      exists host, port ::
        && lib.splitHostPort(target) == Some(HostPort(host, port)) && host != ""
        && AllDigits(port) && 1 <= Decimal(port) <= 65535
        && (lib.isAddr(host) || ValidDNSName(NormalizeHost(host)))
  {
    hide Decimal, ValidDNSName, NormalizeHost;
    if lib.splitHostPort(target).Some? {
      var hp := lib.splitHostPort(target).value;
      assert lib.splitHostPort(target) == Some(HostPort(hp.host, hp.port));
    }
  }

  predicate DotOrDash(c: char) {
    c == '.' || c == '-'
  }

  /** Small letters, digits, dots and dashes; no dot or dash at either end or on either side of a
      dot; and a dot among any 64 characters in a row. */
  ghost predicate NameShaped(s: string) {
    && |s| > 0 && !DotOrDash(s[0]) && !DotOrDash(s[|s| - 1])
    && (forall i :: 0 <= i < |s| ==> 'a' <= s[i] <= 'z' || '0' <= s[i] <= '9' || DotOrDash(s[i]))
    && (forall i, j :: 0 <= i < |s| && j == i + 1 && j < |s| ==>
      (s[i] == '.' ==> !DotOrDash(s[j])) && (s[j] == '.' ==> !DotOrDash(s[i])))
    && (forall i, j :: 0 <= i && i + 64 <= j <= |s| ==> '.' in s[i..j])
  }

  lemma OneLabelIsShaped(s: string)
    requires '.' !in s
    ensures ValidLabel(s) <==> NameShaped(s)
  {
    if |s| >= 64 {
      assert '.' !in s[0..64];
    }
    assert forall i :: 0 <= i < |s| ==> s[i] in s;
  }

  lemma PartOfPart(s: string, lo: nat, hi: nat, i: nat, j: nat)
    requires lo <= hi <= |s| && i <= j <= hi - lo
    ensures s[lo..hi][i..j] == s[lo + i..lo + j]
  {
    var a, b := s[lo..hi][i..j], s[lo + i..lo + j];
    assert |a| == |b| && forall k :: 0 <= k < |a| ==> a[k] == s[lo + i + k] == b[k];
  }

  lemma ShapeOfPart(s: string, lo: nat, hi: nat)
    requires NameShaped(s) && lo < hi <= |s| && !DotOrDash(s[lo]) && !DotOrDash(s[hi - 1])
    ensures NameShaped(s[lo..hi])
  {
    hide DotOrDash;
    var t := s[lo..hi];
    forall i, j | 0 <= i < |t| && j == i + 1 && j < |t|
      ensures (t[i] == '.' ==> !DotOrDash(t[j])) && (t[j] == '.' ==> !DotOrDash(t[i])) {
      assert t[i] == s[lo + i] && t[j] == s[lo + j] && lo + j == lo + i + 1;
    }
    forall i, j | 0 <= i && i + 64 <= j <= |t| ensures '.' in t[i..j] {
      PartOfPart(s, lo, hi, i, j);
    }
  }

  lemma ShapeOfParts(part: string, rest: string)
    requires '.' !in part && NameShaped(part + "." + rest)
    ensures NameShaped(part) && NameShaped(rest)
  {
    var s, n := part + "." + rest, |part|;
    assert s[n] == '.' && s[0..n] == part && s[n + 1..|s|] == rest;
    assert n > 0 && s[n - 1] == part[n - 1];
    var m := n + 1;
    assert m < |s| && !DotOrDash(s[m]);
    hide NameShaped;
    ShapeOfPart(s, 0, n);
    ShapeOfPart(s, m, |s|);
  }

  lemma LongNamesHaveDots(s: string)
    requires NameShaped(s) && |s| >= 64
    ensures '.' in s
  {
    assert '.' in s[0..64];
  }

  lemma ShapeOfWhole(part: string, rest: string)
    requires '.' !in part && NameShaped(part) && NameShaped(rest)
    ensures NameShaped(part + "." + rest)
  {
    var s, n := part + "." + rest, |part|;
    if n >= 64 {
      LongNamesHaveDots(part);
    }
    forall i | 0 <= i < |s| ensures s[i] == if i < n then part[i] else if i == n then '.' else rest[i - n - 1] {
    }
    forall i, j | 0 <= i && i + 64 <= j <= |s| ensures '.' in s[i..j] {
      if i <= n {
        assert s[i..j][n - i] == '.';
      } else {
        assert s[i..j] == rest[i - n - 1..j - n - 1];
      }
    }
  }

  ghost predicate AllValid(parts: seq<string>) {
    forall i :: 0 <= i < |parts| ==> ValidLabel(parts[i])
  }

  lemma FirstAndOthers(part: string, others: seq<string>)
    ensures AllValid([part] + others) <==> ValidLabel(part) && AllValid(others)
  {
    hide ValidLabel;
    var parts := [part] + others;
    assert parts[0] == part && forall i :: 0 <= i < |others| ==> parts[i + 1] == others[i];
    if AllValid(parts) {
      forall i | 0 <= i < |others| ensures ValidLabel(others[i]) {
        assert ValidLabel(parts[i + 1]);
      }
    }
  }

  lemma {:induction false} LabelsMakeTheShape(s: string)
    ensures AllValid(Split(s, '.')) <==> NameShaped(s)
    decreases |s|
  {
    hide ValidLabel, NameShaped, AllValid;
    var n := IndexOf(s, '.');
    if n == |s| {
      assert s[..n] == s;
      OneLabelIsShaped(s);
      FirstAndOthers(s, []);
      assert AllValid([]) by { NoneIsInvalid(); }
      assert Split(s, '.') == [s] + [];
    } else {
      var part, rest := s[..n], s[n + 1..];
      assert s == part + "." + rest;
      LabelsMakeTheShape(rest);
      OneLabelIsShaped(part);
      FirstAndOthers(part, Split(rest, '.'));
      assert Split(s, '.') == [part] + Split(rest, '.');
      if NameShaped(s) {
        ShapeOfParts(part, rest);
      }
      if NameShaped(part) && NameShaped(rest) {
        ShapeOfWhole(part, rest);
      }
    }
  }

  lemma NoneIsInvalid()
    ensures AllValid([])
  {
  }

  /** Which names are valid, character by character. */
  lemma ValidNameIsShaped(host: string)
    ensures ValidDNSName(host) <==> |host| <= 253 && NameShaped(host)
  {
    LabelsMakeTheShape(host);
    ShapedIsNotEmpty(host);
    hide NameShaped, ValidLabel;
  }

  lemma ShapedIsNotEmpty(s: string)
    ensures NameShaped(s) ==> |s| > 0
  {
  }

  predicate GoodRoute(route: SniRoute, domain: string, lib: Library) {
    && ValidDNSName(route.host) && lib.parseIP(route.host).None? && !Under(route.host, domain)
    && ValidTarget(route.target, lib) && Trimmed(route.target) && '\n' !in route.target
  }

  ghost predicate DistinctHosts(routes: seq<SniRoute>) {
    forall i, j :: 0 <= i < j < |routes| ==> routes[i].host != routes[j].host
  }

  lemma OkLineGivesGoodRoute(line: string, domain: string, taken: set<string>, lib: Library)
    requires '\n' !in line && ProblemOf(line, domain, taken, lib).None?
    ensures GoodRoute(RouteOf(line), domain, lib) && RouteOf(line).host !in taken
  {
    hide ValidDNSName, ValidTarget, Under, NormalizeHost;
  }

  lemma {:induction false} OkLinesGiveGoodRoutes(lines: seq<string>, domain: string, lib: Library)
    requires forall n :: 0 <= n < |lines| ==> '\n' !in lines[n] && LineOk(lines, n, domain, lib)
    ensures DistinctHosts(RoutesOf(lines)) && forall r :: r in RoutesOf(lines) ==> GoodRoute(r, domain, lib)
  {
    hide GoodRoute, ProblemOf, RouteOf, Blank, Hosts, DistinctHosts;
    if |lines| > 0 {
      var n := |lines| - 1;
      forall m | 0 <= m < n ensures '\n' !in lines[..n][m] && LineOk(lines[..n], m, domain, lib) {
        assert lines[..n][..m] == lines[..m];
        assert LineOk(lines, m, domain, lib);
      }
      OkLinesGiveGoodRoutes(lines[..n], domain, lib);
      assert LineOk(lines, n, domain, lib);
      if !Blank(lines[n]) {
        OkLineGivesGoodRoute(lines[n], domain, Hosts(RoutesOf(lines[..n])), lib);
        HostsAreTaken(RoutesOf(lines[..n]), RouteOf(lines[n]));
      } else {
        assert RoutesOf(lines) == RoutesOf(lines[..n]);
      }
    } else {
      assert DistinctHosts([]) by { NoHosts(); }
    }
  }

  lemma NoHosts()
    ensures DistinctHosts([])
  {
  }

  lemma HostsAreTaken(routes: seq<SniRoute>, route: SniRoute)
    requires DistinctHosts(routes) && route.host !in Hosts(routes)
    ensures DistinctHosts(routes + [route])
  {
    assert forall i :: 0 <= i < |routes| ==> routes[i] in routes && routes[i].host in Hosts(routes);
  }

  /** Every accepted configuration has distinct, normal, unreserved host names. */
  lemma AcceptedConfigIsGood(c: SniConfig, rawRoutes: string, rawFlag: string, api: string, lib: Library)
    requires Meets(Parsed(c), rawRoutes, rawFlag, api, lib)
    ensures DistinctHosts(c.routes)
    ensures forall r :: r in c.routes ==> GoodRoute(r, NormalizeHost(api), lib) && NormalizeHost(r.host) == r.host
  {
    var lines := Split(rawRoutes, '\n');
    OkLinesGiveGoodRoutes(lines, NormalizeHost(api), lib);
    hide Split, RoutesOf, ValidTarget, Under, NormalizeHost, LineOk, Flag, ValidDNSName;
    forall r | r in c.routes ensures NormalizeHost(r.host) == r.host {
      ValidNameIsNormal(r.host);
    }
  }

  // ---------------------------------------------------------------- printing and parsing again

  function PrintLines(routes: seq<SniRoute>): seq<string> {
    seq(|routes|, i requires 0 <= i < |routes| => routes[i].host + "=" + routes[i].target)
  }

  function PrintRoutes(routes: seq<SniRoute>): string {
    Join(PrintLines(routes), '\n')
  }

  lemma PrintedLine(route: SniRoute, domain: string, lib: Library)
    requires GoodRoute(route, domain, lib)
    ensures var line := route.host + "=" + route.target;
      && '\n' !in line && !Blank(line) && RouteOf(line) == route
      && forall taken :: route.host !in taken ==> ProblemOf(line, domain, taken, lib).None?
  {
    ValidNameIsNormal(route.host);
    hide ValidDNSName, ValidTarget, Under, NormalizeHost;
    var line := route.host + "=" + route.target;
    assert route.host[0] in route.host && route.host[|route.host| - 1] in route.host;
    assert Trimmed(route.host) && Trimmed(line);
    CutJoined(route.host, route.target, '=');
  }

  lemma {:induction false} PrintedLinesDescribeRoutes(routes: seq<SniRoute>, domain: string, lib: Library)
    requires DistinctHosts(routes) && forall r :: r in routes ==> GoodRoute(r, domain, lib)
    ensures RoutesOf(PrintLines(routes)) == routes
    ensures forall n :: 0 <= n < |routes| ==>
      '\n' !in PrintLines(routes)[n] && LineOk(PrintLines(routes), n, domain, lib)
  {
    hide GoodRoute, ProblemOf, RouteOf, Blank, RoutesOf;
    if |routes| > 0 {
      var n := |routes| - 1;
      var lines := PrintLines(routes);
      PrintedLinesDescribeRoutes(routes[..n], domain, lib);
      assert lines[..n] == PrintLines(routes[..n]) && lines[..n + 1] == lines;
      PrintedLine(routes[n], domain, lib);
      assert routes[n].host !in Hosts(routes[..n]);
      assert routes == routes[..n] + [routes[n]];
      RoutesGrow(lines, n);
      forall m | 0 <= m < n ensures '\n' !in lines[m] && LineOk(lines, m, domain, lib) {
        assert lines[..n][..m] == lines[..m] && LineOk(lines[..n], m, domain, lib) && lines[..n][m] == lines[m];
      }
      assert LineOk(lines, n, domain, lib);
    } else {
      assert PrintLines(routes) == [];
      NothingParsed("", lib);
    }
  }

  lemma PrintedRoutesAreAccepted(c: SniConfig, rawFlag: string, api: string, lib: Library)
    requires DistinctHosts(c.routes) && forall r :: r in c.routes ==> GoodRoute(r, NormalizeHost(api), lib)
    requires Flag(rawFlag, lib) == Some(c.proxyProtocol)
    ensures Meets(Parsed(c), PrintRoutes(c.routes), rawFlag, api, lib)
  {
    hide NormalizeHost, TrimSpace, GoodRoute, Hosts, ProblemOf, RouteOf, LineOk, RoutesOf, Split, Flag, DistinctHosts,
      Join, PrintLines;
    PrintedLinesDescribeRoutes(c.routes, NormalizeHost(api), lib);
    if |c.routes| > 0 {
      PrintedLinesCount(c.routes);
      SplitJoined(PrintLines(c.routes), '\n');
    } else {
      NothingPrinted(NormalizeHost(api), lib);
    }
  }

  lemma PrintedLinesCount(routes: seq<SniRoute>)
    ensures |PrintLines(routes)| == |routes|
  {
  }

  /** Printing an accepted configuration and parsing it again gives it back. */
  lemma ReparsesToItself(c: SniConfig, rawRoutes: string, rawFlag: string, api: string, lib: Library)
    requires Meets(Parsed(c), rawRoutes, rawFlag, api, lib)
    requires lib.parseBool("true") == Some(true)
    ensures Meets(Parsed(c), PrintRoutes(c.routes), if c.proxyProtocol then "true" else "", api, lib)
  {
    hide *;
    AcceptedConfigIsGood(c, rawRoutes, rawFlag, api, lib);
    PrintedFlag(lib);
    PrintedRoutesAreAccepted(c, if c.proxyProtocol then "true" else "", api, lib);
  }

  /** Every list of routes with distinct valid hosts outside the API domain, which are not
      addresses, and with valid targets is accepted as it is printed. */
  lemma GoodRoutesAreAccepted(routes: seq<SniRoute>, api: string, lib: Library)
    requires DistinctHosts(routes)
    requires forall r :: r in routes ==>
      && ValidDNSName(r.host) && lib.parseIP(r.host).None?
      && r.host != NormalizeHost(api) && !(exists prefix :: r.host == prefix + ("." + NormalizeHost(api)))
      && ValidTarget(r.target, lib) && Trimmed(r.target) && '\n' !in r.target
    ensures Meets(Parsed(SniConfig(routes, false)), PrintRoutes(routes), "", api, lib)
  {
    hide *;
    forall r | r in routes ensures GoodRoute(r, NormalizeHost(api), lib) {
      RouteIsGood(r, NormalizeHost(api), lib);
    }
    PrintedFlag(lib);
    PrintedRoutesAreAccepted(SniConfig(routes, false), "", api, lib);
  }

  lemma RouteIsGood(r: SniRoute, domain: string, lib: Library)
    requires ValidDNSName(r.host) && lib.parseIP(r.host).None?
    requires r.host != domain && !(exists prefix :: r.host == prefix + ("." + domain))
    requires ValidTarget(r.target, lib) && Trimmed(r.target) && '\n' !in r.target
    ensures GoodRoute(r, domain, lib)
  {
    SuffixIs(r.host, "." + domain);
    hide ValidDNSName, ValidTarget, HasSuffix, Trimmed;
  }

  lemma PrintedFlag(lib: Library)
    ensures Flag("", lib) == Some(false) && Flag("true", lib) == lib.parseBool("true")
  {
    assert Trimmed("true") && TrimSpace("true") == "true" && TrimSpace("") == "";
  }

  lemma NothingPrinted(domain: string, lib: Library)
    ensures Split("", '\n') == [""] && RoutesOf([""]) == [] && LineOk([""], 0, domain, lib)
    ensures PrintRoutes([]) == ""
  {
    assert Blank("");
    assert [""][..0] == [];
  }

  // ---------------------------------------------------------------- routing

  datatype Backend = Backend(addr: string, proxyVersion: int)

  function BackendOf(route: SniRoute, proxyProtocol: bool): Backend {
    Backend(route.target, if proxyProtocol then 1 else 0)
  }

  /** Later routes win over earlier ones with the same host. */
  function TargetsOf(routes: seq<SniRoute>, proxyProtocol: bool): map<string, Backend> {
    if |routes| == 0 then map[]
    else
      var n := |routes| - 1;
      TargetsOf(routes[..n], proxyProtocol)[routes[n].host := BackendOf(routes[n], proxyProtocol)]
  }

  /** The table of static backends that the proxy is built with. */
  method BuildTargets(config: SniConfig) returns (targets: map<string, Backend>)
    ensures targets == TargetsOf(config.routes, config.proxyProtocol)
  {
    targets := map[];
    var n := 0;
    while n < |config.routes|
      invariant 0 <= n <= |config.routes|
      invariant targets == TargetsOf(config.routes[..n], config.proxyProtocol)
    {
      var route := config.routes[n];
      assert config.routes[..n + 1][..n] == config.routes[..n];
      var version := 0;
      if config.proxyProtocol {
        version := 1;
      }
      targets := targets[route.host := Backend(route.target, version)];
      n := n + 1;
    }
    assert config.routes[..n] == config.routes;
  }

  /** With distinct hosts the table finds exactly the listed routes. */
  lemma {:induction false} TableFindsRoutes(routes: seq<SniRoute>, proxyProtocol: bool)
    requires DistinctHosts(routes)
    ensures TargetsOf(routes, proxyProtocol).Keys == Hosts(routes)
    ensures forall r :: r in routes ==>
      && r.host in TargetsOf(routes, proxyProtocol)
      && TargetsOf(routes, proxyProtocol)[r.host] == Backend(r.target, if proxyProtocol then 1 else 0)
  {
    if |routes| > 0 {
      var n := |routes| - 1;
      TableFindsRoutes(routes[..n], proxyProtocol);
      assert routes == routes[..n] + [routes[n]];
      HostsGrow(routes[..n], routes[n]);
    }
  }

  predicate ForApi(sni: string, api: string) {
    NormalizeHost(sni) == NormalizeHost(api)
  }

  predicate ForStatic(sni: string, routes: seq<SniRoute>) {
    NormalizeHost(sni) in Hosts(routes)
  }

  predicate ForTunnel(sni: string, api: string) {
    ExtractEncodedLabel(sni, api).Some?
  }

  lemma NormalizesExactly(sni: string, name: string)
    requires |name| > 0 && name[|name| - 1] != '.'
    ensures NormalizeHost(sni) == ToLower(name) <==> Spells(sni, name)
  {
    if Spells(sni, name) {
      SpellingNormalizes(sni, name);
    }
    if NormalizeHost(sni) == ToLower(name) && |sni| > 0 && sni[|sni| - 1] == '.' {
      assert sni == TrimDot(sni) + ".";
      LowerAppends(TrimDot(sni), ".");
      LowerAppends(name, ".");
    }
  }

  /** The API handler takes exactly the spellings of the API domain, the static one exactly those
      of an accepted route's host: any letter case, with or without a dot at the end. */
  lemma HandlersTakeSpellings(c: SniConfig, rawRoutes: string, rawFlag: string, api: string, lib: Library, sni: string)
    requires Meets(Parsed(c), rawRoutes, rawFlag, api, lib)
    ensures UsableApi(api) ==> (ForApi(sni, api) <==> Spells(sni, api))
    ensures ForStatic(sni, c.routes) <==> exists r :: r in c.routes && Spells(sni, r.host)
  {
    hide NormalizeHost, Spells, Meets, ValidDNSName, GoodRoute, UsableApi;
    AcceptedConfigIsGood(c, rawRoutes, rawFlag, api, lib);
    if UsableApi(api) {
      ApiIsSpelled(sni, api);
    }
    forall r | r in c.routes ensures Spells(sni, r.host) <==> NormalizeHost(sni) == r.host {
      RouteIsSpelled(sni, r, NormalizeHost(api), lib);
    }
  }

  lemma ApiIsSpelled(sni: string, api: string)
    requires UsableApi(api)
    ensures ForApi(sni, api) <==> Spells(sni, api)
  {
    NormalizesExactly(sni, api);
    assert NormalizeHost(api) == ToLower(api);
    hide NormalizeHost, Spells;
  }

  lemma RouteIsSpelled(sni: string, r: SniRoute, domain: string, lib: Library)
    requires GoodRoute(r, domain, lib)
    ensures Spells(sni, r.host) <==> NormalizeHost(sni) == r.host
  {
    ValidNameIsNormal(r.host);
    NormalHostIsLower(r.host);
    NormalizesExactly(sni, r.host);
    hide ValidDNSName, Spells, NormalizeHost;
  }

  lemma NormalHostIsLower(host: string)
    requires host != "" && host[|host| - 1] != '.' && NormalizeHost(host) == host
    ensures ToLower(host) == host
  {
  }

  lemma StaticNameIsNoTunnel(name: string, host: string, api: string)
    requires ValidDNSName(host) && !Under(host, NormalizeHost(api)) && NormalizeHost(name) == host
    ensures ExtractEncodedLabel(name, api).None?
  {
    hide ValidDNSName, NormalizeHost, HasSuffix;
    NotUnderApi(host, api);
  }

  lemma SuffixEndsInDot(api: string)
    requires !UsableApi(api)
    ensures var suffix := "." + ToLower(api); suffix[|suffix| - 1] == '.'
  {
  }

  lemma TunnelNameIsNotApi(name: string, api: string)
    requires ExtractEncodedLabel(name, api).Some?
    ensures NormalizeHost(name) != NormalizeHost(api)
  {
    assert |NormalizeHost(name)| > |api|;
  }

  /** For every API domain, however it is written, and every accepted configuration, each server
      name belongs to at most one of the API, the static routes and the directly encoded tunnels. */
  lemma RoutesAreDisjoint(c: SniConfig, rawRoutes: string, rawFlag: string, api: string, lib: Library, sni: string)
    requires Meets(Parsed(c), rawRoutes, rawFlag, api, lib)
    ensures !(ForApi(sni, api) && ForStatic(sni, c.routes))
    ensures !(ForApi(sni, api) && ForTunnel(sni, api))
    ensures !(ForStatic(sni, c.routes) && ForTunnel(sni, api))
  {
    AcceptedConfigIsGood(c, rawRoutes, rawFlag, api, lib);
    hide NormalizeHost, ExtractEncodedLabel, Meets, ValidDNSName, HasSuffix;
    if ForTunnel(sni, api) {
      TunnelNameIsNotApi(sni, api);
    }
    if ForStatic(sni, c.routes) {
      var r :| r in c.routes && r.host == NormalizeHost(sni);
      assert GoodRoute(r, NormalizeHost(api), lib);
      StaticNameIsNoTunnel(sni, r.host, api);
    }
  }

  // ---------------------------------------------------------------- the order of the handlers

  datatype Handler = ApiHandler | StaticHandler | TunnelHandler

  /** `tunnel` is what the tunnel handler finds for the name, directly or through the DNS. */
  predicate Handles(h: Handler, sni: string, api: string, routes: seq<SniRoute>, tunnel: Destination) {
    match h
    case ApiHandler => ForApi(sni, api)
    case StaticHandler => ForStatic(sni, routes)
    case TunnelHandler => tunnel.To?
  }

  function FirstMatch(order: seq<Handler>, sni: string, api: string, routes: seq<SniRoute>,
    tunnel: Destination): (r: Option<Handler>)
    ensures r.Some? <==> exists h :: h in order && Handles(h, sni, api, routes, tunnel)
    ensures r.Some? ==> r.value in order && Handles(r.value, sni, api, routes, tunnel)
  {
    if |order| == 0 then None
    else if Handles(order[0], sni, api, routes, tunnel) then Some(order[0])
    else FirstMatch(order[1..], sni, api, routes, tunnel)
  }

  /** Trying the same handlers in any other order finds the same one. */
  ghost predicate OrderIrrelevant(sni: string, api: string, routes: seq<SniRoute>, tunnel: Destination) {
    forall order: seq<Handler>, other: seq<Handler> :: (forall h :: h in order <==> h in other) ==>
      FirstMatch(order, sni, api, routes, tunnel) == FirstMatch(other, sni, api, routes, tunnel)
  }

  /** The DNS answer names a tunnel. */
  predicate AnswerRoutes(cname: Option<string>, api: string, partial: string -> Option<seq<Byte>>) {
    && cname.Some? && ExtractEncodedLabel(cname.value, api).Some?
    && LookupEncodedIPPort(ExtractEncodedLabel(cname.value, api).value, partial).Some?
  }

  /** A static host or the API domain, normalized again, is as it was. */
  lemma OwnNameIsNormal(c: SniConfig, rawRoutes: string, rawFlag: string, api: string, lib: Library, sni: string)
    requires Meets(Parsed(c), rawRoutes, rawFlag, api, lib) && ForStatic(sni, c.routes)
    ensures NormalizeHost(NormalizeHost(sni)) == NormalizeHost(sni)
    ensures !HasSuffix(NormalizeHost(sni), "." + ToLower(api))
  {
    hide Meets, ValidDNSName, NormalizeHost, HasSuffix;
    AcceptedConfigIsGood(c, rawRoutes, rawFlag, api, lib);
    var r :| r in c.routes && r.host == NormalizeHost(sni);
    assert GoodRoute(r, NormalizeHost(api), lib);
    NotUnderApi(r.host, api);
  }

  lemma NotUnderApi(host: string, api: string)
    requires ValidDNSName(host) && !Under(host, NormalizeHost(api))
    ensures !HasSuffix(host, "." + ToLower(api))
  {
    ValidNameIsNormal(host);
    hide ValidDNSName;
    if UsableApi(api) {
      assert NormalizeHost(api) == ToLower(api);
    } else {
      SuffixEndsInDot(api);
    }
  }

  /** No name of the API domain itself is long enough to be under it. */
  lemma ApiNameIsShort(sni: string, api: string)
    requires ForApi(sni, api)
    ensures ExtractEncodedLabel(NormalizeHost(sni), api).None? && !HasSuffix(NormalizeHost(sni), "." + ToLower(api))
  {
    assert |NormalizeHost(sni)| <= |api|;
  }

  /** For the API domain and static hosts, the tunnel handler goes by the DNS answer alone. */
  lemma OwnNameFollowsAnswer(c: SniConfig, rawRoutes: string, rawFlag: string, api: string, lib: Library,
    sni: string, cname: Option<string>, partial: string -> Option<seq<Byte>>)
    requires Meets(Parsed(c), rawRoutes, rawFlag, api, lib) && (ForApi(sni, api) || ForStatic(sni, c.routes))
    ensures GetIPForDomain(sni, api, cname, partial).To? <==> AnswerRoutes(cname, api, partial)
  {
    hide Meets, NormalizeHost, ExtractEncodedLabel, HasSuffix, LookupEncodedIPPort, Hosts;
    if ForApi(sni, api) {
      ApiNameIsShort(sni, api);
    } else {
      OwnNameIsNormal(c, rawRoutes, rawFlag, api, lib, sni);
      StaticStaysStatic(sni, c.routes);
      RoutesAreDisjoint(c, rawRoutes, rawFlag, api, lib, NormalizeHost(sni));
    }
  }

  lemma StaticStaysStatic(sni: string, routes: seq<SniRoute>)
    requires ForStatic(sni, routes) && NormalizeHost(NormalizeHost(sni)) == NormalizeHost(sni)
    ensures ForStatic(NormalizeHost(sni), routes)
  {
    hide NormalizeHost;
  }

  /** The order in which the proxy tries its handlers is irrelevant for a name if and only if the name
      is neither the API domain nor a static host, or its DNS answer names no tunnel. */
  lemma OrderIsIrrelevantExactly(c: SniConfig, rawRoutes: string, rawFlag: string, api: string, lib: Library,
    sni: string, cname: Option<string>, partial: string -> Option<seq<Byte>>)
    requires Meets(Parsed(c), rawRoutes, rawFlag, api, lib)
    ensures OrderIrrelevant(sni, api, c.routes, GetIPForDomain(sni, api, cname, partial)) <==>
      !((ForApi(sni, api) || ForStatic(sni, c.routes)) && AnswerRoutes(cname, api, partial))
  {
    hide Meets, ForApi, ForStatic, ForTunnel, GetIPForDomain, AnswerRoutes;
    RoutesAreDisjoint(c, rawRoutes, rawFlag, api, lib, sni);
    var tunnel := GetIPForDomain(sni, api, cname, partial);
    if ForApi(sni, api) || ForStatic(sni, c.routes) {
      OwnNameFollowsAnswer(c, rawRoutes, rawFlag, api, lib, sni, cname, partial);
    }
    if (ForApi(sni, api) || ForStatic(sni, c.routes)) && tunnel.To? {
      var own := if ForApi(sni, api) then ApiHandler else StaticHandler;
      OrdersDiffer(own, sni, api, c.routes, tunnel);
    } else {
      OneHandlerAtMost(sni, api, c.routes, tunnel);
    }
  }

  lemma OrdersDiffer(own: Handler, sni: string, api: string, routes: seq<SniRoute>, tunnel: Destination)
    requires !own.TunnelHandler? && Handles(own, sni, api, routes, tunnel) && tunnel.To?
    ensures !OrderIrrelevant(sni, api, routes, tunnel)
  {
    hide ForApi, ForStatic;
    var order, other := [own, TunnelHandler], [TunnelHandler, own];
    assert forall h :: h in order <==> h in other;
    assert FirstMatch(order, sni, api, routes, tunnel) == Some(own);
    assert FirstMatch(other, sni, api, routes, tunnel) == Some(TunnelHandler);
  }

  lemma OneHandlerAtMost(sni: string, api: string, routes: seq<SniRoute>, tunnel: Destination)
    requires !(ForApi(sni, api) && ForStatic(sni, routes))
    requires !((ForApi(sni, api) || ForStatic(sni, routes)) && tunnel.To?)
    ensures OrderIrrelevant(sni, api, routes, tunnel)
  {
    hide ForApi, ForStatic;
    forall order: seq<Handler>, other: seq<Handler> | forall h :: h in order <==> h in other
      ensures FirstMatch(order, sni, api, routes, tunnel) == FirstMatch(other, sni, api, routes, tunnel)
    {
      var a, b := FirstMatch(order, sni, api, routes, tunnel), FirstMatch(other, sni, api, routes, tunnel);
      if a.Some? && b.Some? {
        assert Handles(a.value, sni, api, routes, tunnel) && Handles(b.value, sni, api, routes, tunnel);
      }
    }
  }

  /** The names for which it matters: every static host whose canonical name spells a published
      tunnel name. The proxy registers the static handler first, so the static backend wins. */
  lemma StaticHostWithTunnelAnswer(c: SniConfig, rawRoutes: string, rawFlag: string, api: string, lib: Library,
    r: SniRoute, a: AddrPort, cname: string, partial: string -> Option<seq<Byte>>)
    requires Meets(Parsed(c), rawRoutes, rawFlag, api, lib) && r in c.routes
    requires IsPort(a.port) && |a.addr| == 16 && a.addr[..8] == SUBNET && UsableApi(api)
    requires Spells(cname, GetEncodedIPPort(a) + "." + api)
    ensures var tunnel := GetIPForDomain(r.host, api, Some(cname), partial);
      && tunnel == To(a) && !OrderIrrelevant(r.host, api, c.routes, tunnel)
      && FirstMatch([ApiHandler, StaticHandler, TunnelHandler], r.host, api, c.routes, tunnel) == Some(StaticHandler)
  {
    hide Meets, NormalizeHost, HasSuffix, GetEncodedIPPort, Spells, GetIPForDomain, ValidDNSName;
    AcceptedConfigIsGood(c, rawRoutes, rawFlag, api, lib);
    assert r.host in Hosts(c.routes);
    OwnNameIsNormal(c, rawRoutes, rawFlag, api, lib, r.host);
    assert TrimDot(r.host) == r.host by { ValidNameIsNormal(r.host); }
    CanonicalNameRoundTrip(r.host, a, api, cname, partial);
    var tunnel := GetIPForDomain(r.host, api, Some(cname), partial);
    RoutesAreDisjoint(c, rawRoutes, rawFlag, api, lib, r.host);
    OrdersDiffer(StaticHandler, r.host, api, c.routes, tunnel);
  }
}
