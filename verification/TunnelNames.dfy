/** From a server name to a tunnel address: the label in front of the API domain is looked up
    directly; any other name goes through its canonical name in the DNS. */
module TunnelNames {
  import opened Records
  import opened Text
  import opened NameCodec

  /** The name without one trailing dot, in lower case. */
  function NormalizeHost(host: string): string {
    ToLower(TrimDot(host))
  }

  function ExtractEncodedLabel(host: string, api: string): Option<string> {
    var name, suffix := NormalizeHost(host), "." + ToLower(api);
    if !HasSuffix(name, suffix) then None
    else
      var encoded := name[..|name| - |suffix|];
      if encoded == "" || '.' in encoded then None else Some(encoded)
  }

  datatype Destination = To(addr: AddrPort) | InvalidHost | LookupFailed | NoSuffix | NotAnAddress

  /** `cname` is the DNS answer for the name, None when the lookup fails. */
  function GetIPForDomain(sni: string, api: string, cname: Option<string>,
    partial: string -> Option<seq<Byte>>): Destination {
    var name := NormalizeHost(sni);
    match ExtractEncodedLabel(name, api)
    case Some(encoded) => Dispatched(encoded, partial)
    case None =>
      if HasSuffix(name, "." + ToLower(api)) then InvalidHost
      else if cname.None? then LookupFailed
      else
        match ExtractEncodedLabel(cname.value, api)
        case Some(encoded) => Dispatched(encoded, partial)
        case None => NoSuffix
  }

  function Dispatched(encoded: string, partial: string -> Option<seq<Byte>>): Destination {
    match LookupEncodedIPPort(encoded, partial)
    case Some(addr) => To(addr)
    case None => NotAnAddress
  }

  /** A label is extracted exactly from its own name under the domain. */
  lemma ExtractsExactly(host: string, api: string, encoded: string)
    ensures ExtractEncodedLabel(host, api) == Some(encoded) <==>
      NormalizeHost(host) == encoded + ("." + ToLower(api)) && encoded != "" && '.' !in encoded
  {
    var name, suffix := NormalizeHost(host), "." + ToLower(api);
    hide NormalizeHost, ToLower;
    SuffixIs(name, suffix);
    if name == encoded + suffix {
      assert name[|encoded|..] == suffix && name[..|name| - |suffix|] == encoded;
    }
    if HasSuffix(name, suffix) {
      assert name == name[..|name| - |suffix|] + suffix;
    }
  }

  /** Where a name leads, and why nowhere: its own label decides if it has one; a name under the
      API domain without one is refused; any other follows the DNS answer. */
  lemma RoutesExactly(sni: string, api: string, cname: Option<string>, partial: string -> Option<seq<Byte>>)
    ensures var r, name := GetIPForDomain(sni, api, cname, partial), NormalizeHost(sni);
      var own := ExtractEncodedLabel(name, api);
      var under := exists prefix :: name == prefix + ("." + ToLower(api));
      var found := if own.Some? then own
        else if !under && cname.Some? then ExtractEncodedLabel(cname.value, api) else None;
      && (r == InvalidHost <==> own.None? && under)
      && (r == LookupFailed <==> own.None? && !under && cname.None?)
      && (r == NoSuffix <==> own.None? && !under && cname.Some? && found.None?)
      && (r == NotAnAddress <==> found.Some? && LookupEncodedIPPort(found.value, partial).None?)
      && (r.To? ==> found.Some? && LookupEncodedIPPort(found.value, partial) == Some(r.addr))
  {
    SuffixIs(NormalizeHost(sni), "." + ToLower(api));
    hide ExtractEncodedLabel, LookupEncodedIPPort, NormalizeHost, HasSuffix, ToLower;
  }

  /** An API domain that names can be put under. */
  predicate UsableApi(api: string) {
    |api| > 0 && api[|api| - 1] != '.'
  }

  /** Any letter case of the name, with or without a trailing dot. */
  ghost predicate Spells(sni: string, name: string) {
    ToLower(sni) == ToLower(name) || ToLower(sni) == ToLower(name + ".")
  }

  lemma LowerKeepsDots(s: string)
    ensures forall i :: 0 <= i < |s| ==> (s[i] == '.' <==> ToLower(s)[i] == '.')
    ensures ToLower(TrimDot(s)) == TrimDot(ToLower(s))
  {
  }

  /** However a name is spelled, normalizing it once or twice gives its lower case. */
  lemma SpellingNormalizes(sni: string, name: string)
    requires |name| > 0 && name[|name| - 1] != '.' && Spells(sni, name)
    ensures NormalizeHost(sni) == ToLower(name) && NormalizeHost(NormalizeHost(sni)) == ToLower(name)
  {
    LowerKeepsDots(sni);
    LowerKeepsDots(name);
    CaseFolds(name);
    LowerAppends(name, ".");
    assert TrimDot(ToLower(name)) == ToLower(name);
    assert TrimDot(ToLower(name) + ".") == ToLower(name);
    assert ToLower(".") == ".";
    LowerKeepsDots(ToLower(name));
  }

  /** Under a usable domain, a name made of a dotless label is taken apart again, however it is
      spelled, both directly and after the router's own normalization. */
  lemma ExtractSpelled(encoded: string, api: string, sni: string)
    requires UsableApi(api) && encoded != "" && '.' !in encoded && ToLower(encoded) == encoded
    requires Spells(sni, encoded + "." + api)
    ensures ExtractEncodedLabel(sni, api) == Some(encoded)
    ensures ExtractEncodedLabel(NormalizeHost(sni), api) == Some(encoded)
  {
    var name, suffix := encoded + "." + api, "." + ToLower(api);
    LowerAppends(encoded, "." + api);
    LowerAppends(".", api);
    assert name == encoded + ("." + api) && ToLower(".") == ".";
    assert ToLower(name) == encoded + suffix;
    SpellingNormalizes(sni, name);
    assert (encoded + suffix)[|encoded|..] == suffix && (encoded + suffix)[..|encoded|] == encoded;
    hide ToLower, NormalizeHost, Spells;
  }

  lemma NoSuffixBefore(s: string, suffix: string, n: nat)
    requires |suffix| > 0 && suffix[0] == '.' && |s| - |suffix| < n
    requires forall i :: 0 <= i < n && i < |s| ==> s[i] != '.'
    ensures !HasSuffix(s, suffix)
  {
  }

  /** With an unusable domain the suffix never matches a name built from it. */
  lemma ExtractFails(encoded: string, api: string)
    requires !UsableApi(api) && |encoded| > 0 && '.' !in encoded
    ensures ExtractEncodedLabel(NormalizeHost(encoded + "." + api), api) == None
    ensures !HasSuffix(NormalizeHost(encoded + "." + api), "." + ToLower(api))
  {
    var name, suffix := encoded + "." + api, "." + ToLower(api);
    var trimmed := TrimDot(name);
    assert name[|name| - 1] == '.' && trimmed == name[..|name| - 1];
    LowerKeepsDots(trimmed);
    var n := NormalizeHost(name);
    assert |n| == |encoded| + |api|;
    // The suffix would have to start inside the label.
    assert n[|encoded| - 1] == Lower(encoded[|encoded| - 1]) != '.';
    assert !HasSuffix(n, suffix);
    ExtractFailsAgain(n, encoded, api);
  }

  lemma ExtractFailsAgain(n: string, encoded: string, api: string)
    requires |encoded| > 0 && |n| == |encoded| + |api| && '.' !in n[..|encoded|]
    ensures ExtractEncodedLabel(n, api) == None
  {
    var again := NormalizeHost(n);
    LowerKeepsDots(TrimDot(n));
    forall i | 0 <= i < |encoded| && i < |again| ensures again[i] != '.' {
      assert n[..|encoded|][i] == n[i];
    }
    NoSuffixBefore(again, "." + ToLower(api), |encoded|);
  }

  /** End to end: for every address of the fixed subnet and every port, the published name, in
      any letter case and with an optional trailing dot, is routed back to exactly that address
      and port, whatever the DNS says, if and only if the API domain is usable. */
  lemma NameRoundTrip(a: AddrPort, api: string, partial: string -> Option<seq<Byte>>)
    requires IsPort(a.port) && |a.addr| == 16 && a.addr[..8] == SUBNET
    ensures var name := GetEncodedIPPort(a) + "." + api;
      (forall sni, cname :: Spells(sni, name) ==> GetIPForDomain(sni, api, cname, partial) == To(a)) <==> UsableApi(api)
  {
    var encoded := GetEncodedIPPort(a);
    var name := encoded + "." + api;
    CaseFolds(Encode(Payload(a)));
    LabelRoundTrip(a, encoded, partial);
    hide GetEncodedIPPort, LookupEncodedIPPort, ExtractEncodedLabel, HasSuffix, ToLower;
    if UsableApi(api) {
      forall sni, cname | Spells(sni, name) ensures GetIPForDomain(sni, api, cname, partial) == To(a) {
        ExtractSpelled(encoded, api, sni);
      }
    } else {
      ExtractFails(encoded, api);
      assert Spells(name, name) && GetIPForDomain(name, api, None, partial) == LookupFailed;
    }
  }

  /** A name outside the API domain is routed through its canonical name: if that spells
      a published name, to the same place; without an answer, nowhere. */
  lemma CanonicalNameRoundTrip(sni: string, a: AddrPort, api: string, cname: string,
    partial: string -> Option<seq<Byte>>)
    requires IsPort(a.port) && |a.addr| == 16 && a.addr[..8] == SUBNET && UsableApi(api)
    requires !HasSuffix(TrimDot(NormalizeHost(sni)), "." + ToLower(api))
    requires !HasSuffix(NormalizeHost(sni), "." + ToLower(api))
    requires Spells(cname, GetEncodedIPPort(a) + "." + api)
    ensures GetIPForDomain(sni, api, Some(cname), partial) == To(a)
    ensures GetIPForDomain(sni, api, None, partial) == LookupFailed
  {
    var encoded := GetEncodedIPPort(a);
    CaseFolds(Encode(Payload(a)));
    LabelRoundTrip(a, encoded, partial);
    CaseFolds(TrimDot(sni));
    LowerKeepsDots(NormalizeHost(sni));
    assert NormalizeHost(NormalizeHost(sni)) == TrimDot(NormalizeHost(sni));
    hide GetEncodedIPPort, LookupEncodedIPPort, ToLower;
    ExtractSpelled(encoded, api, cname);
  }

  /** A name that has more than one label in front of the API domain, or none, is refused
      without asking the DNS. */
  lemma DeepNamesAreRefused(prefix: string, api: string, sni: string, cname: Option<string>,
    partial: string -> Option<seq<Byte>>)
    requires UsableApi(api) && (prefix == "" || '.' in prefix) && Spells(sni, prefix + "." + api)
    ensures GetIPForDomain(sni, api, cname, partial) == InvalidHost
  {
    hide ToLower, NormalizeHost, Spells, HasSuffix;
    LoweredName(prefix, api);
    SpellingNormalizes(sni, prefix + "." + api);
    LowerKeepsDottedness(prefix);
    SuffixCuts(ToLower(prefix), "." + ToLower(api));
  }

  lemma LoweredName(prefix: string, api: string)
    ensures ToLower(prefix + "." + api) == ToLower(prefix) + ("." + ToLower(api))
  {
    LowerAppends(prefix, "." + api);
    LowerAppends(".", api);
    assert prefix + "." + api == prefix + ("." + api) && ToLower(".") == ".";
  }

  lemma LowerKeepsDottedness(s: string)
    ensures ToLower(s) == "" <==> s == ""
    ensures '.' in s ==> '.' in ToLower(s)
  {
    if '.' in s {
      var i :| 0 <= i < |s| && s[i] == '.';
      assert ToLower(s)[i] in ToLower(s);
    }
  }

  lemma SuffixCuts(prefix: string, suffix: string)
    ensures HasSuffix(prefix + suffix, suffix) && (prefix + suffix)[..|prefix + suffix| - |suffix|] == prefix
  {
    assert (prefix + suffix)[|prefix|..] == suffix;
  }
}
