/** The provider's policy object and the lenient string parsers around it
    (src/config/mod.rs): the protocol classifier, the positional
    `name-port-protocol` tag convention, and the two `a:b,c:d` mapping
    strings. Every way of rejecting an input is a `None`, never a failure. */
module Config {
  import opened Wrappers
  import opened Text

  datatype Protocol = Http | Tcp | Udp

  /** `Protocol::from_str`: total and case-insensitive; anything that is not
      `tcp` or `udp` (including `http` and `https`) is HTTP. */
  function ProtocolFromStr(s: string): (p: Protocol)
    ensures p == Tcp <==> ToLower(s) == "tcp"
    ensures p == Udp <==> ToLower(s) == "udp"
  {
    var lower := ToLower(s);
    if lower == "tcp" then Tcp
    else if lower == "udp" then Udp
    else Http
  }

  lemma ToLowerIdempotent(s: string)
    ensures ToLower(ToLower(s)) == ToLower(s)
  {
  }

  /** Classifying a string and classifying its lower-cased form agree, so
      the classification ignores ASCII case. */
  lemma ProtocolIgnoresCase(s: string, t: string)
    requires ToLower(s) == ToLower(t)
    ensures ProtocolFromStr(s) == ProtocolFromStr(t)
    ensures ProtocolFromStr(s) == ProtocolFromStr(ToLower(s))
  {
    ToLowerIdempotent(s);
  }

  /** A logical service on a peer: `ServiceInfo`. */
  datatype ServiceInfo = ServiceInfo(name: string, port: Option<uint16>, protocol: Protocol, scheme: string)

  /** `ProviderConfig`: the policy knobs, as read once at startup. */
  datatype ProviderConfig = ProviderConfig(
    tailscaleSocketPath: Option<string>,
    defaultPort: uint16,
    excludeExitNodes: bool,
    includeTags: Option<seq<string>>,
    excludeHostnames: Option<seq<string>>,
    healthCheckPath: Option<string>,
    updateIntervalSeconds: uint64,
    serverPort: uint16,
    maxInactiveSeconds: Option<int64>,
    includeOs: Option<seq<string>>,
    excludeExpired: bool,
    extractProtocolFromTag: bool,
    tagServiceMapping: Option<map<string, ServiceInfo>>,
    defaultScheme: string,
    defaultProtocol: Protocol,
    serviceDomainMapping: Option<map<string, string>>)

  /** `ProviderConfig::default()`. */
  function DefaultConfig(): (c: ProviderConfig)
    ensures c.defaultPort == 80 && c.defaultProtocol == Http && c.defaultScheme == "http"
    ensures c.excludeExitNodes && c.excludeExpired && c.extractProtocolFromTag
    ensures c.healthCheckPath == Some("/health") && c.updateIntervalSeconds == 30 && c.serverPort == 8080
    ensures c.includeTags.None? && c.excludeHostnames.None? && c.includeOs.None?
    ensures c.maxInactiveSeconds.None? && c.tagServiceMapping.None? && c.serviceDomainMapping.None?
    ensures c.tailscaleSocketPath.None?
  {
    ProviderConfig(
      tailscaleSocketPath := None,
      defaultPort := 80,
      excludeExitNodes := true,
      includeTags := None,
      excludeHostnames := None,
      healthCheckPath := Some("/health"),
      updateIntervalSeconds := 30,
      serverPort := 8080,
      maxInactiveSeconds := None,
      includeOs := None,
      excludeExpired := true,
      extractProtocolFromTag := true,
      tagServiceMapping := None,
      defaultScheme := "http",
      defaultProtocol := Http,
      serviceDomainMapping := None)
  }

  /** The scheme a protocol implies when nothing more specific is known. */
  function SchemeName(p: Protocol): string {
    match p
    case Http => "http"
    case Tcp => "tcp"
    case Udp => "udp"
  }

  /** The scheme of a tag whose protocol token is `token`: HTTP tags keep
      `https` when the token says so. */
  function TagScheme(p: Protocol, token: string): string {
    match p
    case Http => if ToLower(token) == "https" then "https" else "http"
    case Tcp => "tcp"
    case Udp => "udp"
  }

  // ---------------------------------------------------------------------
  // The tag convention
  // ---------------------------------------------------------------------

  const TagPrefix := "tag:"

  /** The segments the positional rules look at: the tag without one leading
      `tag:`, split on `-`. */
  function TagSegments(tag: string): seq<string> {
    Split(StripPrefix(tag, TagPrefix), '-')
  }

  /** The segment a tag's port is read from: the last of two, otherwise the
      second-to-last. */
  function PortSegment(parts: seq<string>): string
    requires |parts| >= 2
  {
    if |parts| == 2 then parts[1] else parts[|parts| - 2]
  }

  /** `parse_service_info_from_tag`. Every descriptor it returns carries a
      port, and a port segment that is not a `u16` is the only reason for
      `None`. */
  function ParseServiceInfoFromTag(cfg: ProviderConfig, tag: string): (r: Option<ServiceInfo>)
    ensures r.Some? ==> r.value.port.Some?
    ensures r.None? <==>
      (cfg.extractProtocolFromTag && |TagSegments(tag)| >= 2
       && ParseU16(PortSegment(TagSegments(tag))).None?)
  {
    var clean := StripPrefix(tag, TagPrefix);
    if !cfg.extractProtocolFromTag then
      Some(ServiceInfo(clean, Some(cfg.defaultPort), cfg.defaultProtocol, cfg.defaultScheme))
    else
      var parts := Split(clean, '-');
      if |parts| == 1 then
        Some(ServiceInfo(parts[0], Some(cfg.defaultPort), cfg.defaultProtocol, cfg.defaultScheme))
      else if |parts| == 2 then
        match ParseU16(parts[1])
        case Some(port) => Some(ServiceInfo(parts[0], Some(port), cfg.defaultProtocol, cfg.defaultScheme))
        case None => None
      else if |parts| == 3 then
        match ParseU16(parts[1])
        case Some(port) =>
          var protocol := ProtocolFromStr(parts[2]);
          Some(ServiceInfo(parts[0], Some(port), protocol, TagScheme(protocol, parts[2])))
        case None => None
      else
        var serviceName := Join(parts[..|parts| - 2], '-');
        match ParseU16(parts[|parts| - 2])
        case Some(port) =>
          var protocol := ProtocolFromStr(parts[|parts| - 1]);
          Some(ServiceInfo(serviceName, Some(port), protocol, TagScheme(protocol, parts[|parts| - 1])))
        case None => None
  }

  /** With extraction switched off the parser never fails: the name is the
      cleaned tag, dashes included, and everything else is a default. */
  lemma TagWithoutExtraction(cfg: ProviderConfig, tag: string)
    requires !cfg.extractProtocolFromTag
    ensures ParseServiceInfoFromTag(cfg, tag)
         == Some(ServiceInfo(StripPrefix(tag, TagPrefix), Some(cfg.defaultPort), cfg.defaultProtocol, cfg.defaultScheme))
  {
  }

  /** A tag without a dash names a service on the default port. */
  lemma TagOneSegment(cfg: ProviderConfig, tag: string)
    requires cfg.extractProtocolFromTag
    requires '-' !in StripPrefix(tag, TagPrefix)
    ensures ParseServiceInfoFromTag(cfg, tag)
         == Some(ServiceInfo(StripPrefix(tag, TagPrefix), Some(cfg.defaultPort), cfg.defaultProtocol, cfg.defaultScheme))
  {
    SplitWithoutSeparator(StripPrefix(tag, TagPrefix), '-');
  }

  /** `name-port` is accepted exactly when `port` is a `u16`. */
  lemma TagTwoSegments(cfg: ProviderConfig, tag: string, name: string, port: string)
    requires cfg.extractProtocolFromTag
    requires TagSegments(tag) == [name, port]
    ensures ParseServiceInfoFromTag(cfg, tag).Some? <==> ParseU16(port).Some?
    ensures ParseU16(port).Some? ==>
      ParseServiceInfoFromTag(cfg, tag)
      == Some(ServiceInfo(name, ParseU16(port), cfg.defaultProtocol, cfg.defaultScheme))
  {
  }

  /** Three or more segments: the name is every segment but the last two,
      joined by dashes; the port is the second-to-last; the protocol and
      scheme come from the last. The three-segment case of the source is
      this rule with a one-segment name. */
  lemma TagManySegments(cfg: ProviderConfig, tag: string)
    requires cfg.extractProtocolFromTag
    requires |TagSegments(tag)| >= 3
    ensures var parts := TagSegments(tag);
            var n := |parts|;
            ParseServiceInfoFromTag(cfg, tag)
            == match ParseU16(parts[n - 2])
               case None => None
               case Some(port) =>
                 Some(ServiceInfo(Join(parts[..n - 2], '-'), Some(port), ProtocolFromStr(parts[n - 1]),
                                  TagScheme(ProtocolFromStr(parts[n - 1]), parts[n - 1])))
  {
    var parts := TagSegments(tag);
    if |parts| == 3 {
      assert parts[..1] == [parts[0]];
    }
  }

  /** The scheme of a tag is `https` exactly when its protocol token
      lower-cases to `https`. */
  lemma TagSchemeIsHttpsExactly(p: Protocol, token: string)
    requires p == ProtocolFromStr(token)
    ensures TagScheme(p, token) == "https" <==> ToLower(token) == "https"
    ensures TagScheme(p, token) != "https" ==> TagScheme(p, token) == SchemeName(p)
  {
  }

  lemma NotTagPrefixed(name: string, rest: string)
    requires !StartsWith(name, TagPrefix)
    requires |rest| > 0 && rest[0] == '-'
    ensures !StartsWith(name + rest, TagPrefix)
  {
    var s := name + rest;
    if |name| >= |TagPrefix| {
      assert s[..|TagPrefix|] == name[..|TagPrefix|];
    } else if |s| >= |TagPrefix| {
      assert s[..|TagPrefix|][|name|] == '-';
    }
  }

  /** Round trip of the tag convention: printing a name, a port and a
      protocol token as `name-port-token` and parsing the result gives back
      the name, the port and the token's protocol. */
  lemma {:induction false} TagRoundTrip(cfg: ProviderConfig, name: string, port: uint16, token: string)
    requires cfg.extractProtocolFromTag
    requires !StartsWith(name, TagPrefix)
    requires '-' !in token
    ensures ParseServiceInfoFromTag(cfg, name + "-" + NatToString(port) + "-" + token)
         == Some(ServiceInfo(name, Some(port), ProtocolFromStr(token), TagScheme(ProtocolFromStr(token), token)))
  {
    var ps := NatToString(port);
    var tag := name + "-" + ps + "-" + token;
    AllDigitsHasNoSeparator(ps, '-');
    NotTagPrefixed(name, "-" + ps + "-" + token);
    assert tag == name + "-" + (ps + "-" + token);
    assert StripPrefix(tag, TagPrefix) == tag;
    SplitAround(name, '-', ps + "-" + token);
    SplitAround(ps, '-', token);
    SplitWithoutSeparator(ps, '-');
    SplitWithoutSeparator(token, '-');
    var parts := Split(tag, '-');
    assert parts == Split(name, '-') + [ps, token];
    assert parts[..|parts| - 2] == Split(name, '-');
    JoinSplit(name, '-');
    ParseU16OfNatToString(port);
    TagManySegments(cfg, tag);
  }

  // ---------------------------------------------------------------------
  // The `key:value,key:value` mapping strings
  // ---------------------------------------------------------------------

  /** The map built by inserting, in order, every entry that `parse`
      accepts; a later entry with the same key replaces an earlier one. */
  function InsertAll<V>(entries: seq<string>, parse: string -> Option<(string, V)>): map<string, V> {
    if |entries| == 0 then map[]
    else
      var m := InsertAll(entries[..|entries| - 1], parse);
      match parse(entries[|entries| - 1])
      case None => m
      case Some((k, v)) => m[k := v]
  }

  /** One more entry: the map so far, updated by that entry when accepted. */
  lemma InsertAllStep<V>(entries: seq<string>, parse: string -> Option<(string, V)>, i: nat)
    requires i < |entries|
    ensures InsertAll(entries[..i + 1], parse)
         == match parse(entries[i])
            case None => InsertAll(entries[..i], parse)
            case Some((k, v)) => InsertAll(entries[..i], parse)[k := v]
  {
    assert entries[..i + 1][..i] == entries[..i];
  }

  /** The `for entry in mapping_str.split(',')` loop shared by both mapping
      parsers: insert every entry `parse` accepts, in order. */
  method InsertEntries<V>(entries: seq<string>, parse: string -> Option<(string, V)>) returns (mapping: map<string, V>)
    ensures mapping == InsertAll(entries, parse)
  {
    mapping := map[];
    var i := 0;
    while i < |entries|
      invariant 0 <= i <= |entries|
      invariant mapping == InsertAll(entries[..i], parse)
    {
      InsertAllStep(entries, parse, i);
      match parse(entries[i]) {
        case Some((key, value)) => mapping := mapping[key := value];
        case None =>
      }
      i := i + 1;
    }
    assert entries[..|entries|] == entries;
  }

  predicate AcceptedWithKey<V>(entries: seq<string>, parse: string -> Option<(string, V)>, i: int, k: string) {
    0 <= i < |entries| && parse(entries[i]).Some? && parse(entries[i]).value.0 == k
  }

  /** A key is in the map exactly when some accepted entry has it. */
  lemma {:induction false} InsertAllKeys<V>(entries: seq<string>, parse: string -> Option<(string, V)>, k: string)
    ensures k in InsertAll(entries, parse) <==> exists i :: AcceptedWithKey(entries, parse, i, k)
    decreases |entries|
  {
    if |entries| > 0 {
      var init := entries[..|entries| - 1];
      var last := |entries| - 1;
      InsertAllKeys(init, parse, k);
      forall i | 0 <= i < last
        ensures AcceptedWithKey(entries, parse, i, k) <==> AcceptedWithKey(init, parse, i, k)
      {
        assert entries[i] == init[i];
      }
      if AcceptedWithKey(entries, parse, last, k) {
        assert k in InsertAll(entries, parse);
      } else {
        assert k in InsertAll(entries, parse) <==> k in InsertAll(init, parse);
      }
    }
  }

  /** Last write wins: the value under a key comes from the last accepted
      entry with that key. */
  lemma {:induction false} InsertAllLastWins<V>(entries: seq<string>, parse: string -> Option<(string, V)>, i: int, k: string, v: V)
    requires 0 <= i < |entries| && parse(entries[i]) == Some((k, v))
    requires forall j :: i < j < |entries| ==> !AcceptedWithKey(entries, parse, j, k)
    ensures k in InsertAll(entries, parse) && InsertAll(entries, parse)[k] == v
    decreases |entries|
  {
    var init := entries[..|entries| - 1];
    if i < |entries| - 1 {
      forall j | i < j < |init| ensures !AcceptedWithKey(init, parse, j, k) {
        assert !AcceptedWithKey(entries, parse, j, k);
      }
      InsertAllLastWins(init, parse, i, k, v);
      assert !AcceptedWithKey(entries, parse, |entries| - 1, k);
    }
  }

  /** Every value in the map was produced by `parse` for its key. */
  lemma {:induction false} InsertAllValues<V>(entries: seq<string>, parse: string -> Option<(string, V)>, k: string)
    requires k in InsertAll(entries, parse)
    ensures exists i :: 0 <= i < |entries| && parse(entries[i]) == Some((k, InsertAll(entries, parse)[k]))
    decreases |entries|
  {
    var init := entries[..|entries| - 1];
    var last := |entries| - 1;
    if parse(entries[last]).Some? && parse(entries[last]).value.0 == k {
      assert parse(entries[last]) == Some((k, InsertAll(entries, parse)[k]));
    } else {
      InsertAllValues(init, parse, k);
      var i :| 0 <= i < |init| && parse(init[i]) == Some((k, InsertAll(init, parse)[k]));
      assert entries[i] == init[i];
    }
  }

  /** One entry of `SERVICE_DOMAIN_MAPPING`: exactly two `:`-separated parts
      of the trimmed entry, each trimmed. */
  function DomainEntry(entry: string): Option<(string, string)> {
    var parts := Split(Trim(entry), ':');
    if |parts| == 2 then Some((Trim(parts[0]), Trim(parts[1]))) else None
  }

  /** What `parse_domain_mapping` returns for `s`. */
  function DomainMapping(s: string): Option<map<string, string>> {
    if |s| == 0 then None
    else
      var m := InsertAll(Split(s, ','), DomainEntry);
      if m == map[] then None else Some(m)
  }

  /** `parse_domain_mapping`. */
  method ParseDomainMapping(mappingStr: string) returns (r: Option<map<string, string>>)
    ensures r == DomainMapping(mappingStr)
    ensures |mappingStr| == 0 ==> r.None?
    ensures r.Some? ==> r.value != map[]
  {
    if |mappingStr| == 0 {
      return None;
    }
    var mapping := InsertEntries(Split(mappingStr, ','), DomainEntry);
    if mapping == map[] {
      r := None;
    } else {
      r := Some(mapping);
    }
  }

  /** A service is mapped to a domain exactly when some `,`-entry of the
      string is `service:domain` (up to spaces); the last such entry wins. */
  lemma DomainMappingContents(s: string, service: string)
    requires DomainMapping(s).Some?
    ensures service in DomainMapping(s).value ==>
      exists i :: AcceptedWithKey(Split(s, ','), DomainEntry, i, service)
    ensures (exists i :: AcceptedWithKey(Split(s, ','), DomainEntry, i, service)) ==>
      service in DomainMapping(s).value
  {
    var entries := Split(s, ',');
    assert DomainMapping(s) == Some(InsertAll(entries, DomainEntry));
    InsertAllKeys(entries, DomainEntry, service);
  }

  /** A later entry for the same service overwrites an earlier one: the
      domain is that of the last accepted entry naming the service. */
  lemma DomainMappingLastWins(s: string, i: int, service: string, domain: string)
    requires 0 <= i < |Split(s, ',')| && DomainEntry(Split(s, ',')[i]) == Some((service, domain))
    requires forall j :: i < j < |Split(s, ',')| ==> !AcceptedWithKey(Split(s, ','), DomainEntry, j, service)
    ensures DomainMapping(s).Some? && service in DomainMapping(s).value
    ensures DomainMapping(s).value[service] == domain
  {
    InsertAllLastWins(Split(s, ','), DomainEntry, i, service, domain);
  }

  /** Every mapped domain is the trimmed right-hand side of an entry with
      exactly two parts whose trimmed left-hand side is the service. */
  lemma DomainMappingValues(s: string, service: string)
    requires DomainMapping(s).Some? && service in DomainMapping(s).value
    ensures exists i ::
              0 <= i < |Split(s, ',')|
              && |Split(Trim(Split(s, ',')[i]), ':')| == 2
              && Trim(Split(Trim(Split(s, ',')[i]), ':')[0]) == service
              && Trim(Split(Trim(Split(s, ',')[i]), ':')[1]) == DomainMapping(s).value[service]
  {
    var entries := Split(s, ',');
    InsertAllValues(entries, DomainEntry, service);
    var i :| 0 <= i < |entries| && DomainEntry(entries[i]) == Some((service, InsertAll(entries, DomainEntry)[service]));
    assert |Split(Trim(entries[i]), ':')| == 2;
  }

  /** No acceptable entry at all gives `None`. */
  lemma DomainMappingNoneWhenNothingAccepted(s: string)
    requires forall i :: 0 <= i < |Split(s, ',')| ==> DomainEntry(Split(s, ',')[i]).None?
    ensures DomainMapping(s).None?
  {
    if |s| > 0 {
      var m := InsertAll(Split(s, ','), DomainEntry);
      if m != map[] {
        var k :| k in m;
        InsertAllKeys(Split(s, ','), DomainEntry, k);
      }
    }
  }

  /** One entry of `TAG_SERVICE_MAPPING`: `tag:port[:protocol...]` with a
      `u16` port; the protocol defaults to HTTP and the scheme follows the
      protocol (never `https`). */
  function ServiceEntry(entry: string): Option<(string, ServiceInfo)> {
    var parts := Split(Trim(entry), ':');
    if |parts| >= 2 then
      var tag := Trim(parts[0]);
      match ParseU16(Trim(parts[1]))
      case None => None
      case Some(port) =>
        var protocol := if |parts| >= 3 then ProtocolFromStr(Trim(parts[2])) else Http;
        Some((tag, ServiceInfo(tag, Some(port), protocol, SchemeName(protocol))))
    else None
  }

  /** What `parse_service_mapping` returns for `s`. */
  function ServiceMapping(s: string): Option<map<string, ServiceInfo>> {
    if |s| == 0 then None
    else
      var m := InsertAll(Split(s, ','), ServiceEntry);
      if m == map[] then None else Some(m)
  }

  /** `parse_service_mapping`. */
  method ParseServiceMapping(mappingStr: string) returns (r: Option<map<string, ServiceInfo>>)
    ensures r == ServiceMapping(mappingStr)
    ensures |mappingStr| == 0 ==> r.None?
    ensures r.Some? ==> r.value != map[]
  {
    if |mappingStr| == 0 {
      return None;
    }
    var mapping := InsertEntries(Split(mappingStr, ','), ServiceEntry);
    if mapping == map[] {
      r := None;
    } else {
      r := Some(mapping);
    }
  }

  /** Every mapped descriptor is named by its key, has a port, and has the
      plain scheme of its protocol, so never `https`. */
  lemma ServiceMappingValues(s: string, tag: string)
    requires ServiceMapping(s).Some? && tag in ServiceMapping(s).value
    ensures var info := ServiceMapping(s).value[tag];
            info.name == tag && info.port.Some? && info.scheme == SchemeName(info.protocol)
            && info.scheme != "https"
  {
    InsertAllValues(Split(s, ','), ServiceEntry, tag);
  }

  /** A tag is mapped exactly when some entry names it with a valid port. */
  lemma ServiceMappingContents(s: string, tag: string)
    requires ServiceMapping(s).Some?
    ensures tag in ServiceMapping(s).value ==>
      exists i :: AcceptedWithKey(Split(s, ','), ServiceEntry, i, tag)
    ensures (exists i :: AcceptedWithKey(Split(s, ','), ServiceEntry, i, tag)) ==>
      tag in ServiceMapping(s).value
  {
    var entries := Split(s, ',');
    assert ServiceMapping(s) == Some(InsertAll(entries, ServiceEntry));
    InsertAllKeys(entries, ServiceEntry, tag);
  }

  /** A later entry for the same tag overwrites an earlier one. */
  lemma ServiceMappingLastWins(s: string, i: int, tag: string, info: ServiceInfo)
    requires 0 <= i < |Split(s, ',')| && ServiceEntry(Split(s, ',')[i]) == Some((tag, info))
    requires forall j :: i < j < |Split(s, ',')| ==> !AcceptedWithKey(Split(s, ','), ServiceEntry, j, tag)
    ensures ServiceMapping(s).Some? && tag in ServiceMapping(s).value
    ensures ServiceMapping(s).value[tag] == info
  {
    InsertAllLastWins(Split(s, ','), ServiceEntry, i, tag, info);
  }

  /** No acceptable entry at all gives `None`. */
  lemma ServiceMappingNoneWhenNothingAccepted(s: string)
    requires forall i :: 0 <= i < |Split(s, ',')| ==> ServiceEntry(Split(s, ',')[i]).None?
    ensures ServiceMapping(s).None?
  {
    if |s| > 0 {
      var m := InsertAll(Split(s, ','), ServiceEntry);
      if m != map[] {
        var k :| k in m;
        InsertAllKeys(Split(s, ','), ServiceEntry, k);
      }
    }
  }
}
