/** The Traefik provider (src/traefik/provider.rs): which peers are
    published, which logical services each one offers, how they are named,
    and how all of them are folded into one dynamic configuration. */
module Provider {
  import opened Wrappers
  import opened Text
  import opened Config
  import opened TailscaleTypes
  import opened TraefikConfig
  import Platform
  import Client

  // ---------------------------------------------------------------------
  // The peer filter
  // ---------------------------------------------------------------------

  /** `Utc.timestamp_opt(0, 0)`: a `LastWrite` at the epoch means the peer
      never wrote. */
  const Epoch := 0

  /** Some configured tag occurs inside some peer tag with `tag:` removed. */
  predicate HasMatchingTag(includeTags: seq<string>, peerTags: seq<string>) {
    exists i, j :: 0 <= i < |includeTags| && 0 <= j < |peerTags|
      && Contains(StripPrefix(peerTags[j], TagPrefix), includeTags[i])
  }

  // The seven rules, each stated on its own.

  predicate OnlineRule(peer: PeerStatus) {
    IsOnline(peer)
  }

  predicate ExitNodeRule(cfg: ProviderConfig, peer: PeerStatus) {
    !(cfg.excludeExitNodes && peer.exitNode)
  }

  predicate TagRule(cfg: ProviderConfig, peer: PeerStatus) {
    cfg.includeTags.Some? ==> peer.tags.Some? && HasMatchingTag(cfg.includeTags.value, peer.tags.value)
  }

  predicate HostnameRule(cfg: ProviderConfig, peer: PeerStatus) {
    cfg.excludeHostnames.Some? ==> peer.hostname !in cfg.excludeHostnames.value
  }

  /** With a maximum set, a peer is too inactive when it never wrote or when
      more than the maximum number of whole seconds have passed since. */
  predicate ActivityRule(cfg: ProviderConfig, peer: PeerStatus, now: int) {
    cfg.maxInactiveSeconds.Some? ==>
      peer.lastWrite != Epoch && now - peer.lastWrite <= cfg.maxInactiveSeconds.value
  }

  predicate OsRule(cfg: ProviderConfig, peer: PeerStatus) {
    cfg.includeOs.Some? ==> peer.os in cfg.includeOs.value
  }

  predicate ExpiryRule(cfg: ProviderConfig, peer: PeerStatus) {
    !(cfg.excludeExpired && IsExpired(peer))
  }

  /** `should_include_peer`, with the clock reading `now` (seconds since the
      epoch) as a parameter: the seven checks in order, each able to reject
      the peer. A peer is published exactly when it passes every rule. */
  function ShouldIncludePeer(cfg: ProviderConfig, peer: PeerStatus, now: int): (b: bool)
    ensures b <==> OnlineRule(peer) && ExitNodeRule(cfg, peer) && TagRule(cfg, peer) && HostnameRule(cfg, peer)
                   && ActivityRule(cfg, peer, now) && OsRule(cfg, peer) && ExpiryRule(cfg, peer)
  {
    if !peer.online.GetOr(false) then false
    else if cfg.excludeExitNodes && peer.exitNode then false
    else if cfg.includeTags.Some? && (peer.tags.None? || !HasMatchingTag(cfg.includeTags.value, peer.tags.value)) then false
    else if cfg.excludeHostnames.Some? && peer.hostname in cfg.excludeHostnames.value then false
    else if cfg.maxInactiveSeconds.Some? && peer.lastWrite == Epoch then false
    else if cfg.maxInactiveSeconds.Some? && now - peer.lastWrite > cfg.maxInactiveSeconds.value then false
    else if cfg.includeOs.Some? && peer.os !in cfg.includeOs.value then false
    else if cfg.excludeExpired && peer.expired.GetOr(false) then false
    else true
  }

  /** A peer that is not known to be online is never published, whatever
      the rest of the configuration says. */
  lemma OfflinePeerExcluded(cfg: ProviderConfig, peer: PeerStatus, now: int)
    requires peer.online != Some(true)
    ensures !ShouldIncludePeer(cfg, peer, now)
  {
  }

  /** Switching on `exclude_exit_nodes` never adds a peer, and removes
      exactly the exit nodes. */
  lemma ExcludingExitNodesOnlyRemoves(cfg: ProviderConfig, peer: PeerStatus, now: int)
    ensures ShouldIncludePeer(cfg.(excludeExitNodes := true), peer, now) ==> ShouldIncludePeer(cfg, peer, now)
    ensures ShouldIncludePeer(cfg.(excludeExitNodes := true), peer, now)
        <==> ShouldIncludePeer(cfg.(excludeExitNodes := false), peer, now) && !peer.exitNode
  {
  }

  /** With a tag filter, an untagged peer is excluded, and an empty filter
      excludes every peer. */
  lemma TagFilterExclusions(cfg: ProviderConfig, peer: PeerStatus, now: int)
    requires cfg.includeTags.Some?
    requires peer.tags.None? || cfg.includeTags.value == []
    ensures !ShouldIncludePeer(cfg, peer, now)
  {
  }

  /** The inactivity boundary is inclusive: exactly `max` seconds is still
      active. */
  lemma InactivityBoundary(cfg: ProviderConfig, peer: PeerStatus, now: int)
    requires cfg.maxInactiveSeconds.Some? && peer.lastWrite != Epoch
    requires OnlineRule(peer) && ExitNodeRule(cfg, peer) && TagRule(cfg, peer) && HostnameRule(cfg, peer)
    requires OsRule(cfg, peer) && ExpiryRule(cfg, peer)
    ensures ShouldIncludePeer(cfg, peer, now) <==> now - peer.lastWrite <= cfg.maxInactiveSeconds.value
  {
  }

  // ---------------------------------------------------------------------
  // Service descriptors of a peer
  // ---------------------------------------------------------------------

  /** The descriptor of an untagged peer when no tag filter is set. */
  function DefaultServiceInfo(cfg: ProviderConfig): ServiceInfo {
    ServiceInfo("default", Some(cfg.defaultPort), cfg.defaultProtocol, cfg.defaultScheme)
  }

  /** A descriptor passes the tag filter when there is none or its name is
      listed. */
  predicate Admitted(cfg: ProviderConfig, info: ServiceInfo) {
    cfg.includeTags.Some? ==> info.name in cfg.includeTags.value
  }

  /** The descriptors parsed from `tags`, in tag order. */
  function TagServiceInfos(cfg: ProviderConfig, tags: seq<string>): seq<ServiceInfo> {
    if |tags| == 0 then []
    else
      TagServiceInfos(cfg, tags[..|tags| - 1])
      + match ParseServiceInfoFromTag(cfg, tags[|tags| - 1])
        case Some(info) => if Admitted(cfg, info) then [info] else []
        case None => []
  }

  /** The descriptors the override table adds for `tags`, in tag order. */
  function MappedServiceInfos(cfg: ProviderConfig, mapping: map<string, ServiceInfo>, tags: seq<string>): seq<ServiceInfo> {
    if |tags| == 0 then []
    else
      var clean := StripPrefix(tags[|tags| - 1], TagPrefix);
      MappedServiceInfos(cfg, mapping, tags[..|tags| - 1])
      + if clean in mapping && Admitted(cfg, mapping[clean]) then [mapping[clean]] else []
  }

  /** What `extract_service_infos_from_peer` returns: the tag-derived
      descriptors (or the default one), then the mapped ones. */
  function ServiceInfosOf(cfg: ProviderConfig, peer: PeerStatus): seq<ServiceInfo> {
    var fromTags :=
      match peer.tags
      case Some(tags) => TagServiceInfos(cfg, tags)
      case None => if cfg.includeTags.None? then [DefaultServiceInfo(cfg)] else [];
    var mapped :=
      if cfg.tagServiceMapping.Some? && peer.tags.Some?
      then MappedServiceInfos(cfg, cfg.tagServiceMapping.value, peer.tags.value)
      else [];
    fromTags + mapped
  }

  /** The tag loop of `extract_service_infos_from_peer`: parse every tag,
      keeping only listed names when a tag filter is set. */
  method ParseTagDescriptors(cfg: ProviderConfig, peerTags: seq<string>) returns (serviceInfos: seq<ServiceInfo>)
    ensures serviceInfos == TagServiceInfos(cfg, peerTags)
  {
    serviceInfos := [];
    var i := 0;
    while i < |peerTags|
      invariant 0 <= i <= |peerTags|
      invariant serviceInfos == TagServiceInfos(cfg, peerTags[..i])
    {
      assert peerTags[..i + 1][..i] == peerTags[..i];
      var serviceInfo := ParseServiceInfoFromTag(cfg, peerTags[i]);
      if serviceInfo.Some? {
        if cfg.includeTags.Some? {
          if serviceInfo.value.name in cfg.includeTags.value {
            serviceInfos := serviceInfos + [serviceInfo.value];
          }
        } else {
          serviceInfos := serviceInfos + [serviceInfo.value];
        }
      }
      i := i + 1;
    }
    assert peerTags[..|peerTags|] == peerTags;
  }

  /** The override loop of `extract_service_infos_from_peer`: append the
      table entry of every tag whose cleaned form is a key. */
  method AppendMappedDescriptors(cfg: ProviderConfig, mapping: map<string, ServiceInfo>, peerTags: seq<string>,
                                 fromTags: seq<ServiceInfo>)
    returns (serviceInfos: seq<ServiceInfo>)
    ensures serviceInfos == fromTags + MappedServiceInfos(cfg, mapping, peerTags)
  {
    serviceInfos := fromTags;
    var i := 0;
    while i < |peerTags|
      invariant 0 <= i <= |peerTags|
      invariant serviceInfos == fromTags + MappedServiceInfos(cfg, mapping, peerTags[..i])
    {
      assert peerTags[..i + 1][..i] == peerTags[..i];
      var cleanTag := StripPrefix(peerTags[i], TagPrefix);
      if cleanTag in mapping {
        var mappedService := mapping[cleanTag];
        if cfg.includeTags.Some? {
          if mappedService.name in cfg.includeTags.value {
            serviceInfos := serviceInfos + [mappedService];
          }
        } else {
          serviceInfos := serviceInfos + [mappedService];
        }
      }
      i := i + 1;
    }
    assert peerTags[..|peerTags|] == peerTags;
  }

  /** `extract_service_infos_from_peer`. */
  method ExtractServiceInfos(cfg: ProviderConfig, peer: PeerStatus) returns (serviceInfos: seq<ServiceInfo>)
    ensures serviceInfos == ServiceInfosOf(cfg, peer)
  {
    serviceInfos := [];
    if peer.tags.Some? {
      serviceInfos := ParseTagDescriptors(cfg, peer.tags.value);
    } else if cfg.includeTags.None? {
      serviceInfos := serviceInfos + [DefaultServiceInfo(cfg)];
    }
    if cfg.tagServiceMapping.Some? {
      if peer.tags.Some? {
        serviceInfos := AppendMappedDescriptors(cfg, cfg.tagServiceMapping.value, peer.tags.value, serviceInfos);
      }
    }
  }

  /** An untagged peer offers the default service when nothing filters by
      tag, and nothing otherwise; a peer with an empty tag list offers
      nothing. */
  lemma UntaggedAndEmptyTagPeers(cfg: ProviderConfig, peer: PeerStatus)
    ensures peer.tags.None? && cfg.includeTags.None? ==> ServiceInfosOf(cfg, peer) == [DefaultServiceInfo(cfg)]
    ensures peer.tags.None? && cfg.includeTags.Some? ==> ServiceInfosOf(cfg, peer) == []
    ensures peer.tags == Some([]) ==> ServiceInfosOf(cfg, peer) == []
  {
  }

  /** A descriptor is derived from the tags exactly when some tag parses to
      it and it passes the tag filter. */
  lemma {:induction false} TagServiceInfosMembers(cfg: ProviderConfig, tags: seq<string>, info: ServiceInfo)
    ensures info in TagServiceInfos(cfg, tags) <==>
      Admitted(cfg, info) && exists j :: 0 <= j < |tags| && ParseServiceInfoFromTag(cfg, tags[j]) == Some(info)
  {
    if |tags| > 0 {
      var init := tags[..|tags| - 1];
      TagServiceInfosMembers(cfg, init, info);
      forall j | 0 <= j < |init| ensures init[j] == tags[j] { }
      if ParseServiceInfoFromTag(cfg, tags[|tags| - 1]) == Some(info) && Admitted(cfg, info) {
        assert info in TagServiceInfos(cfg, tags);
      }
      if exists j :: 0 <= j < |tags| && ParseServiceInfoFromTag(cfg, tags[j]) == Some(info) {
        var j :| 0 <= j < |tags| && ParseServiceInfoFromTag(cfg, tags[j]) == Some(info);
        if j < |init| {
          assert init[j] == tags[j];
        }
      }
    }
  }

  /** Every mapped descriptor is the table entry of some tag, admitted by
      the filter. */
  lemma {:induction false} MappedServiceInfosAdmitted(cfg: ProviderConfig, mapping: map<string, ServiceInfo>, tags: seq<string>)
    ensures forall k :: 0 <= k < |MappedServiceInfos(cfg, mapping, tags)| ==>
      Admitted(cfg, MappedServiceInfos(cfg, mapping, tags)[k])
      && exists j :: 0 <= j < |tags| && StripPrefix(tags[j], TagPrefix) in mapping
           && mapping[StripPrefix(tags[j], TagPrefix)] == MappedServiceInfos(cfg, mapping, tags)[k]
  {
    if |tags| > 0 {
      var init := tags[..|tags| - 1];
      MappedServiceInfosAdmitted(cfg, mapping, init);
      var prev := MappedServiceInfos(cfg, mapping, init);
      var all := MappedServiceInfos(cfg, mapping, tags);
      forall k | 0 <= k < |all|
        ensures Admitted(cfg, all[k])
        ensures exists j :: 0 <= j < |tags| && StripPrefix(tags[j], TagPrefix) in mapping
                  && mapping[StripPrefix(tags[j], TagPrefix)] == all[k]
      {
        if k < |prev| {
          assert all[k] == prev[k];
          var j :| 0 <= j < |init| && StripPrefix(init[j], TagPrefix) in mapping
                   && mapping[StripPrefix(init[j], TagPrefix)] == prev[k];
          assert init[j] == tags[j];
        } else {
          assert StripPrefix(tags[|tags| - 1], TagPrefix) in mapping;
        }
      }
    }
  }

  /** With a tag filter, every descriptor a peer offers has a listed name. */
  lemma FilteredDescriptorNames(cfg: ProviderConfig, peer: PeerStatus)
    requires cfg.includeTags.Some?
    ensures forall k :: 0 <= k < |ServiceInfosOf(cfg, peer)| ==> ServiceInfosOf(cfg, peer)[k].name in cfg.includeTags.value
  {
    var infos := ServiceInfosOf(cfg, peer);
    if peer.tags.Some? {
      var tags := peer.tags.value;
      var fromTags := TagServiceInfos(cfg, tags);
      var mapped := if cfg.tagServiceMapping.Some? then MappedServiceInfos(cfg, cfg.tagServiceMapping.value, tags) else [];
      assert infos == fromTags + mapped;
      if cfg.tagServiceMapping.Some? {
        MappedServiceInfosAdmitted(cfg, cfg.tagServiceMapping.value, tags);
      }
      forall k | 0 <= k < |infos| ensures infos[k].name in cfg.includeTags.value {
        if k < |fromTags| {
          assert infos[k] == fromTags[k] && fromTags[k] in fromTags;
          TagServiceInfosMembers(cfg, tags, fromTags[k]);
          assert Admitted(cfg, fromTags[k]);
        } else {
          assert infos[k] == mapped[k - |fromTags|];
          assert Admitted(cfg, mapped[k - |fromTags|]);
        }
      }
    } else {
      assert infos == [];
    }
  }

  /** Without extraction and without a tag filter, every tag yields exactly
      one descriptor named by the cleaned tag. */
  lemma {:induction false} OneDescriptorPerTag(cfg: ProviderConfig, tags: seq<string>)
    requires !cfg.extractProtocolFromTag && cfg.includeTags.None?
    ensures |TagServiceInfos(cfg, tags)| == |tags|
    ensures forall k :: 0 <= k < |tags| ==> TagServiceInfos(cfg, tags)[k].name == StripPrefix(tags[k], TagPrefix)
  {
    if |tags| > 0 {
      var init := tags[..|tags| - 1];
      OneDescriptorPerTag(cfg, init);
      TagWithoutExtraction(cfg, tags[|tags| - 1]);
      forall k | 0 <= k < |init| ensures init[k] == tags[k] { }
    }
  }

  // ---------------------------------------------------------------------
  // Names
  // ---------------------------------------------------------------------

  const NamePrefix := "tailscale-"
  const RouterSuffix := "-router"

  /** `hostname.to_lowercase().replace(['.', '_'], "-")`. */
  function HostnameSafe(hostname: string): (r: string)
    ensures |r| == |hostname|
    ensures forall i :: 0 <= i < |r| ==>
      r[i] == (if hostname[i] == '.' || hostname[i] == '_' then '-' else LowerChar(hostname[i]))
    ensures forall i :: 0 <= i < |r| ==> r[i] != '.' && r[i] != '_' && !('A' <= r[i] <= 'Z')
  {
    var lower := ToLower(hostname);
    seq(|lower|, i requires 0 <= i < |lower| => if lower[i] == '.' || lower[i] == '_' then '-' else lower[i])
  }

  /** `generate_service_name_from_info`: `tailscale-`, the sanitised host
      name, and `-` with the descriptor's name unless it is `default`. */
  function ServiceName(hostname: string, infoName: string): (r: string)
    ensures |r| >= |NamePrefix| + |hostname| && r[..|NamePrefix| + |hostname|] == NamePrefix + HostnameSafe(hostname)
    ensures infoName != "default" ==> r[|NamePrefix| + |hostname|..] == "-" + infoName
  {
    if infoName == "default" then NamePrefix + HostnameSafe(hostname)
    else NamePrefix + HostnameSafe(hostname) + "-" + infoName
  }

  /** `generate_router_name_from_info`: the service name with `-router`
      appended, so removing that suffix gives the service name back. */
  function RouterName(hostname: string, infoName: string): (r: string)
    ensures |r| >= |RouterSuffix| && r[|r| - |RouterSuffix|..] == RouterSuffix
    ensures r[..|r| - |RouterSuffix|] == ServiceName(hostname, infoName)
  {
    ServiceName(hostname, infoName) + RouterSuffix
  }

  /** Every generated name is `tailscale-` followed by the sanitised host
      name; only the default service stops there. */
  lemma ServiceNameShape(hostname: string, infoName: string)
    ensures var n := ServiceName(hostname, infoName);
            StartsWith(n, NamePrefix)
            && n[|NamePrefix|..|NamePrefix| + |hostname|] == HostnameSafe(hostname)
            && (|n| == |NamePrefix| + |hostname| <==> infoName == "default")
  {
  }

  /** Within one peer, distinct descriptor names give distinct service
      names, and so distinct router names. */
  lemma ServiceNameInjective(hostname: string, a: string, b: string)
    ensures ServiceName(hostname, a) == ServiceName(hostname, b) ==> a == b
  {
    var base := NamePrefix + HostnameSafe(hostname);
    if a != b {
      if a != "default" && b != "default" {
        assert ServiceName(hostname, a)[|base| + 1..] == a;
        assert ServiceName(hostname, b)[|base| + 1..] == b;
      } else {
        assert |ServiceName(hostname, a)| != |ServiceName(hostname, b)|;
      }
    }
  }

  lemma RouterNameInjective(hostname: string, a: string, b: string)
    ensures RouterName(hostname, a) == RouterName(hostname, b) ==> a == b
  {
    var ra := RouterName(hostname, a);
    var rb := RouterName(hostname, b);
    assert ra[..|ra| - |RouterSuffix|] == ServiceName(hostname, a);
    assert rb[..|rb| - |RouterSuffix|] == ServiceName(hostname, b);
    ServiceNameInjective(hostname, a, b);
  }

  /** Host names that differ only in case or in `.` against `_` produce the
      same names, so one peer's entries overwrite the other's. */
  lemma HostnamesCollide(infoName: string)
    ensures ServiceName("Web.Box", infoName) == ServiceName("web_box", infoName)
  {
    assert HostnameSafe("Web.Box") == HostnameSafe("web_box");
  }

  // ---------------------------------------------------------------------
  // Backends and routers
  // ---------------------------------------------------------------------

  /** `service_info.port.unwrap_or(default_port)`. */
  function PortFor(cfg: ProviderConfig, info: ServiceInfo): uint16 {
    info.port.GetOr(cfg.defaultPort)
  }

  /** `ip:port` for the peer's first address. */
  function Address(peer: PeerStatus, port: uint16): string
    requires |peer.tailscaleIps| > 0
  {
    peer.tailscaleIps[0] + ":" + NatToString(port)
  }

  /** `create_http_service_from_peer`. */
  function HttpServiceFor(cfg: ProviderConfig, peer: PeerStatus, info: ServiceInfo): (r: Option<Service>)
    ensures r.None? <==> |peer.tailscaleIps| == 0
    ensures r.Some? ==>
      r.value.loadBalancer.servers
      == [Server(info.scheme + "://" + peer.tailscaleIps[0] + ":" + NatToString(PortFor(cfg, info)), Some(1))]
    ensures r.Some? ==>
      r.value.loadBalancer.healthCheck
      == if cfg.healthCheckPath.Some? then Some(HealthCheck(cfg.healthCheckPath.value, Some("30s"), Some("5s"))) else None
  {
    if |peer.tailscaleIps| == 0 then None
    else
      var port := PortFor(cfg, info);
      var server := Server(info.scheme + "://" + peer.tailscaleIps[0] + ":" + NatToString(port), Some(1));
      var healthCheck :=
        match cfg.healthCheckPath
        case Some(path) => Some(HealthCheck(path, Some("30s"), Some("5s")))
        case None => None;
      Some(Service(LoadBalancer([server], healthCheck)))
  }

  /** `create_tcp_service_from_peer`. */
  function TcpServiceFor(cfg: ProviderConfig, peer: PeerStatus, info: ServiceInfo): (r: Option<TcpService>)
    ensures r.None? <==> |peer.tailscaleIps| == 0
    ensures r.Some? ==> r.value.loadBalancer.servers == [TcpServer(Address(peer, PortFor(cfg, info)), Some(1))]
  {
    if |peer.tailscaleIps| == 0 then None
    else
      var port := PortFor(cfg, info);
      Some(TcpService(TcpLoadBalancer([TcpServer(Address(peer, port), Some(1))])))
  }

  /** `create_udp_service_from_peer`. */
  function UdpServiceFor(cfg: ProviderConfig, peer: PeerStatus, info: ServiceInfo): (r: Option<UdpService>)
    ensures r.None? <==> |peer.tailscaleIps| == 0
    ensures r.Some? ==> r.value.loadBalancer.servers == [UdpServer(Address(peer, PortFor(cfg, info)), Some(1))]
  {
    if |peer.tailscaleIps| == 0 then None
    else
      var port := PortFor(cfg, info);
      Some(UdpService(UdpLoadBalancer([UdpServer(Address(peer, port), Some(1))])))
  }

  /** The last `:`-separated field of `prefix:port` reads back as the port,
      whatever colons the prefix (an IPv6 address, a scheme) holds. */
  lemma {:induction false} PortSuffixRoundTrip(prefix: string, port: uint16)
    ensures var fields := Split(prefix + ":" + NatToString(port), ':');
            ParseU16(fields[|fields| - 1]) == Some(port)
  {
    var ps := NatToString(port);
    assert prefix + ":" + ps == prefix + [':'] + ps;
    SplitAround(prefix, ':', ps);
    AllDigitsHasNoSeparator(ps, ':');
    SplitWithoutSeparator(ps, ':');
    ParseU16OfNatToString(port);
  }

  /** Every backend address names the descriptor's port, or the default
      port when the descriptor has none. */
  lemma HttpBackendPort(cfg: ProviderConfig, peer: PeerStatus, info: ServiceInfo)
    requires |peer.tailscaleIps| > 0
    ensures var fields := Split(HttpServiceFor(cfg, peer, info).value.loadBalancer.servers[0].url, ':');
            ParseU16(fields[|fields| - 1]) == Some(PortFor(cfg, info))
  {
    var service := HttpServiceFor(cfg, peer, info).value;
    var prefix := info.scheme + "://" + peer.tailscaleIps[0];
    var port := PortFor(cfg, info);
    assert service.loadBalancer.servers == [Server(prefix + ":" + NatToString(port), Some(1))];
    HttpUrlPort(service, prefix, port);
  }

  lemma HttpUrlPort(service: Service, prefix: string, port: uint16)
    requires service.loadBalancer.servers == [Server(prefix + ":" + NatToString(port), Some(1))]
    ensures var fields := Split(service.loadBalancer.servers[0].url, ':');
            ParseU16(fields[|fields| - 1]) == Some(port)
  {
    assert service.loadBalancer.servers[0].url == prefix + ":" + NatToString(port);
    PortSuffixRoundTrip(prefix, port);
  }

  lemma TcpBackendPort(cfg: ProviderConfig, peer: PeerStatus, info: ServiceInfo)
    requires |peer.tailscaleIps| > 0
    ensures var fields := Split(TcpServiceFor(cfg, peer, info).value.loadBalancer.servers[0].address, ':');
            ParseU16(fields[|fields| - 1]) == Some(PortFor(cfg, info))
  {
    var address := Address(peer, PortFor(cfg, info));
    assert TcpServiceFor(cfg, peer, info).value.loadBalancer.servers[0].address == address;
    PortSuffixRoundTrip(peer.tailscaleIps[0], PortFor(cfg, info));
  }

  lemma UdpBackendPort(cfg: ProviderConfig, peer: PeerStatus, info: ServiceInfo)
    requires |peer.tailscaleIps| > 0
    ensures var fields := Split(UdpServiceFor(cfg, peer, info).value.loadBalancer.servers[0].address, ':');
            ParseU16(fields[|fields| - 1]) == Some(PortFor(cfg, info))
  {
    var address := Address(peer, PortFor(cfg, info));
    assert UdpServiceFor(cfg, peer, info).value.loadBalancer.servers[0].address == address;
    PortSuffixRoundTrip(peer.tailscaleIps[0], PortFor(cfg, info));
  }

  /** The custom domain of a descriptor, looked up by the descriptor's own
      name (not by the generated service name). */
  function DomainFor(cfg: ProviderConfig, infoName: string): (r: Option<string>)
    ensures r.Some? <==> cfg.serviceDomainMapping.Some? && infoName in cfg.serviceDomainMapping.value
    ensures r.Some? ==> r.value == cfg.serviceDomainMapping.value[infoName]
  {
    match cfg.serviceDomainMapping
    case Some(mapping) => if infoName in mapping then Some(mapping[infoName]) else None
    case None => None
  }

  /** `generate_default_host_rule`: every host. */
  const DefaultHostRule := "HostRegexp(`.*`)"

  const AnySni := "HostSNI(`*`)"

  /** `create_http_router_for_peer`. */
  function HttpRouterFor(cfg: ProviderConfig, info: ServiceInfo, serviceName: string): (r: Option<Router>)
    ensures r.Some? && r.value.service == serviceName
    ensures r.Some? ==> r.value.middlewares.None? && r.value.priority.None? && r.value.tls.None?
    ensures r.Some? ==> r.value.rule == match DomainFor(cfg, info.name)
                                        case Some(d) => "Host(`" + d + "`)"
                                        case None => DefaultHostRule
  {
    var rule :=
      match cfg.serviceDomainMapping
      case Some(domainMapping) =>
        if info.name in domainMapping then "Host(`" + domainMapping[info.name] + "`)" else DefaultHostRule
      case None => DefaultHostRule;
    Some(Router(rule, serviceName, None, None, None))
  }

  /** `create_tcp_router_for_peer`. */
  function TcpRouterFor(cfg: ProviderConfig, info: ServiceInfo, serviceName: string): (r: Option<TcpRouter>)
    ensures r.Some? && r.value.service == serviceName && r.value.tls.None?
    ensures r.Some? ==> r.value.rule == match DomainFor(cfg, info.name)
                                        case Some(d) => "HostSNI(`" + d + "`)"
                                        case None => AnySni
  {
    var rule :=
      match cfg.serviceDomainMapping
      case Some(domainMapping) =>
        if info.name in domainMapping then "HostSNI(`" + domainMapping[info.name] + "`)" else AnySni
      case None => AnySni;
    Some(TcpRouter(rule, serviceName, None))
  }

  /** `create_udp_router_for_peer`: a UDP router only names its service. */
  function UdpRouterFor(serviceName: string): (r: Option<UdpRouter>)
    ensures r == Some(UdpRouter(serviceName))
  {
    Some(UdpRouter(serviceName))
  }

  /** An HTTP router matches every host exactly when its descriptor has no
      custom domain. */
  lemma HttpRuleDefaultIffUnmapped(cfg: ProviderConfig, info: ServiceInfo, serviceName: string)
    ensures HttpRouterFor(cfg, info, serviceName).value.rule == DefaultHostRule <==> DomainFor(cfg, info.name).None?
  {
    if DomainFor(cfg, info.name).Some? {
      var rule := HttpRouterFor(cfg, info, serviceName).value.rule;
      assert rule[4] == '(';
      assert DefaultHostRule[4] == 'R';
    }
  }

  /** A TCP router accepts every SNI exactly when its descriptor has no
      custom domain or its domain is `*` itself. */
  lemma TcpRuleWildcardIff(cfg: ProviderConfig, info: ServiceInfo, serviceName: string)
    ensures TcpRouterFor(cfg, info, serviceName).value.rule == AnySni
        <==> DomainFor(cfg, info.name).None? || DomainFor(cfg, info.name) == Some("*")
  {
    if DomainFor(cfg, info.name).Some? {
      var d := DomainFor(cfg, info.name).value;
      var rule := TcpRouterFor(cfg, info, serviceName).value.rule;
      assert rule == "HostSNI(`" + d + "`)";
      if rule == AnySni {
        assert |d| == 1;
        assert d[0] == rule[9] == '*';
        assert d == "*";
      }
    }
  }

  // ---------------------------------------------------------------------
  // Configuration synthesis
  // ---------------------------------------------------------------------

  /** The six maps `generate_config` fills. */
  datatype Sections = Sections(
    httpServices: map<string, Service>,
    httpRouters: map<string, Router>,
    tcpServices: map<string, TcpService>,
    tcpRouters: map<string, TcpRouter>,
    udpServices: map<string, UdpService>,
    udpRouters: map<string, UdpRouter>)

  const NoSections := Sections(map[], map[], map[], map[], map[], map[])

  /** One step of the inner loop: the service under its generated name and,
      only if the service exists, its router under the router name. */
  function AddServiceInfo(cfg: ProviderConfig, s: Sections, peer: PeerStatus, info: ServiceInfo): Sections {
    var serviceName := ServiceName(peer.hostname, info.name);
    var routerName := RouterName(peer.hostname, info.name);
    match info.protocol
    case Http =>
      (match HttpServiceFor(cfg, peer, info)
       case None => s
       case Some(service) =>
         var s1 := s.(httpServices := s.httpServices[serviceName := service]);
         match HttpRouterFor(cfg, info, serviceName)
         case None => s1
         case Some(router) => s1.(httpRouters := s1.httpRouters[routerName := router]))
    case Tcp =>
      (match TcpServiceFor(cfg, peer, info)
       case None => s
       case Some(service) =>
         var s1 := s.(tcpServices := s.tcpServices[serviceName := service]);
         match TcpRouterFor(cfg, info, serviceName)
         case None => s1
         case Some(router) => s1.(tcpRouters := s1.tcpRouters[routerName := router]))
    case Udp =>
      (match UdpServiceFor(cfg, peer, info)
       case None => s
       case Some(service) =>
         var s1 := s.(udpServices := s.udpServices[serviceName := service]);
         match UdpRouterFor(serviceName)
         case None => s1
         case Some(router) => s1.(udpRouters := s1.udpRouters[routerName := router]))
  }

  /** The inner loop over one peer's descriptors. */
  function AddServiceInfos(cfg: ProviderConfig, s: Sections, peer: PeerStatus, infos: seq<ServiceInfo>): Sections {
    if |infos| == 0 then s
    else AddServiceInfo(cfg, AddServiceInfos(cfg, s, peer, infos[..|infos| - 1]), peer, infos[|infos| - 1])
  }

  /** The outer loop: null entries and excluded peers are skipped. */
  function AddPeers(cfg: ProviderConfig, s: Sections, peers: seq<Option<PeerStatus>>, now: int): Sections {
    if |peers| == 0 then s
    else
      var s0 := AddPeers(cfg, s, peers[..|peers| - 1], now);
      match peers[|peers| - 1]
      case None => s0
      case Some(peer) => if ShouldIncludePeer(cfg, peer, now) then AddServiceInfos(cfg, s0, peer, ServiceInfosOf(cfg, peer)) else s0
  }

  /** The sections of the document: each is absent exactly when both of its
      maps are empty, and the HTTP section has no middlewares. */
  function Assemble(s: Sections): (d: DynamicConfig)
    ensures d.http.None? <==> s.httpServices == map[] && s.httpRouters == map[]
    ensures d.tcp.None? <==> s.tcpServices == map[] && s.tcpRouters == map[]
    ensures d.udp.None? <==> s.udpServices == map[] && s.udpRouters == map[]
    ensures d.http.Some? ==> d.http.value == HttpConfig(s.httpRouters, s.httpServices, map[])
    ensures d.tcp.Some? ==> d.tcp.value == TcpConfig(s.tcpRouters, s.tcpServices)
    ensures d.udp.Some? ==> d.udp.value == UdpConfig(s.udpRouters, s.udpServices)
  {
    DynamicConfig(
      if s.httpServices == map[] && s.httpRouters == map[] then None else Some(HttpConfig(s.httpRouters, s.httpServices, map[])),
      if s.tcpServices == map[] && s.tcpRouters == map[] then None else Some(TcpConfig(s.tcpRouters, s.tcpServices)),
      if s.udpServices == map[] && s.udpRouters == map[] then None else Some(UdpConfig(s.udpRouters, s.udpServices)))
  }

  /** The document for a status without a peer map: all three sections,
      each empty. */
  const EmptyDocument := DynamicConfig(Some(HttpConfig(map[], map[], map[])), Some(TcpConfig(map[], map[])), Some(UdpConfig(map[], map[])))

  /** The configuration `generate_config` builds from a fetched status. */
  function ConfigFor(cfg: ProviderConfig, status: Status, now: int): DynamicConfig {
    match status.peers
    case None => EmptyDocument
    case Some(peers) => Assemble(AddPeers(cfg, NoSections, peers, now))
  }

  /** `TraefikProvider`: a client and the policy. */
  datatype TraefikProvider = TraefikProvider(client: Client.TailscaleClient, config: ProviderConfig)

  /** `TraefikProvider::new`: an explicit socket path wins over the
      platform default. */
  function NewProvider(cfg: ProviderConfig, host: Client.HostFamily, defaultPath: Result<string, Platform.PlatformError>)
    : (r: Result<TraefikProvider, Client.TailscaleError>)
    ensures r.Ok? ==> r.value.config == cfg
    ensures cfg.tailscaleSocketPath.Some? ==>
      (r.Ok? <==> Client.FromSocketPath(host, cfg.tailscaleSocketPath.value).Ok?)
      && (r.Ok? ==> r.value.client == Client.FromSocketPath(host, cfg.tailscaleSocketPath.value).value)
    ensures cfg.tailscaleSocketPath.None? ==>
      (r.Ok? <==> Client.NewClient(host, defaultPath).Ok?)
      && (r.Ok? ==> r.value.client == Client.NewClient(host, defaultPath).value)
  {
    var client :=
      match cfg.tailscaleSocketPath
      case Some(path) => Client.FromSocketPath(host, path)
      case None => Client.NewClient(host, defaultPath);
    match client
    case Ok(c) => Ok(TraefikProvider(c, cfg))
    case Err(e) => Err(e)
  }

  /** What `generate_config` returns: the fetch error, or the document. */
  function GeneratedConfig(provider: TraefikProvider, send: Client.Request -> Client.Reply, now: int)
    : Result<DynamicConfig, Client.TailscaleError>
  {
    match Client.GetStatus(provider.client, send)
    case Err(e) => Err(e)
    case Ok(status) => Ok(ConfigFor(provider.config, status, now))
  }

  /** One descriptor of the inner loop of `generate_config`: insert the
      backend under its service name and, when the backend exists, the
      router under its router name. */
  method InsertServiceInfo(cfg: ProviderConfig, peer: PeerStatus, serviceInfo: ServiceInfo,
                           httpServices: map<string, Service>, httpRouters: map<string, Router>,
                           tcpServices: map<string, TcpService>, tcpRouters: map<string, TcpRouter>,
                           udpServices: map<string, UdpService>, udpRouters: map<string, UdpRouter>)
    returns (httpServices': map<string, Service>, httpRouters': map<string, Router>,
             tcpServices': map<string, TcpService>, tcpRouters': map<string, TcpRouter>,
             udpServices': map<string, UdpService>, udpRouters': map<string, UdpRouter>)
    ensures Sections(httpServices', httpRouters', tcpServices', tcpRouters', udpServices', udpRouters')
         == AddServiceInfo(cfg, Sections(httpServices, httpRouters, tcpServices, tcpRouters, udpServices, udpRouters),
                           peer, serviceInfo)
  {
    httpServices', httpRouters', tcpServices', tcpRouters', udpServices', udpRouters' :=
      httpServices, httpRouters, tcpServices, tcpRouters, udpServices, udpRouters;
    var serviceName := ServiceName(peer.hostname, serviceInfo.name);
    var routerName := RouterName(peer.hostname, serviceInfo.name);
    match serviceInfo.protocol {
      case Http =>
        var service := HttpServiceFor(cfg, peer, serviceInfo);
        if service.Some? {
          httpServices' := httpServices'[serviceName := service.value];
          var router := HttpRouterFor(cfg, serviceInfo, serviceName);
          if router.Some? {
            httpRouters' := httpRouters'[routerName := router.value];
          }
        }
      case Tcp =>
        var service := TcpServiceFor(cfg, peer, serviceInfo);
        if service.Some? {
          tcpServices' := tcpServices'[serviceName := service.value];
          var router := TcpRouterFor(cfg, serviceInfo, serviceName);
          if router.Some? {
            tcpRouters' := tcpRouters'[routerName := router.value];
          }
        }
      case Udp =>
        var service := UdpServiceFor(cfg, peer, serviceInfo);
        if service.Some? {
          udpServices' := udpServices'[serviceName := service.value];
          var router := UdpRouterFor(serviceName);
          if router.Some? {
            udpRouters' := udpRouters'[routerName := router.value];
          }
        }
    }
  }

  /** The inner loop of `generate_config`: every descriptor of one peer,
      in order. */
  method InsertServiceInfos(cfg: ProviderConfig, peer: PeerStatus, serviceInfos: seq<ServiceInfo>,
                            httpServices: map<string, Service>, httpRouters: map<string, Router>,
                            tcpServices: map<string, TcpService>, tcpRouters: map<string, TcpRouter>,
                            udpServices: map<string, UdpService>, udpRouters: map<string, UdpRouter>)
    returns (httpServices': map<string, Service>, httpRouters': map<string, Router>,
             tcpServices': map<string, TcpService>, tcpRouters': map<string, TcpRouter>,
             udpServices': map<string, UdpService>, udpRouters': map<string, UdpRouter>)
    ensures Sections(httpServices', httpRouters', tcpServices', tcpRouters', udpServices', udpRouters')
         == AddServiceInfos(cfg, Sections(httpServices, httpRouters, tcpServices, tcpRouters, udpServices, udpRouters),
                            peer, serviceInfos)
  {
    httpServices', httpRouters', tcpServices', tcpRouters', udpServices', udpRouters' :=
      httpServices, httpRouters, tcpServices, tcpRouters, udpServices, udpRouters;
    ghost var before := Sections(httpServices, httpRouters, tcpServices, tcpRouters, udpServices, udpRouters);
    var j := 0;
    while j < |serviceInfos|
      invariant 0 <= j <= |serviceInfos|
      invariant Sections(httpServices', httpRouters', tcpServices', tcpRouters', udpServices', udpRouters')
             == AddServiceInfos(cfg, before, peer, serviceInfos[..j])
    {
      assert serviceInfos[..j + 1][..j] == serviceInfos[..j];
      httpServices', httpRouters', tcpServices', tcpRouters', udpServices', udpRouters' :=
        InsertServiceInfo(cfg, peer, serviceInfos[j], httpServices', httpRouters', tcpServices', tcpRouters',
                          udpServices', udpRouters');
      j := j + 1;
    }
    assert serviceInfos[..|serviceInfos|] == serviceInfos;
  }

  /** The synthesis part of `generate_config`: fill the six maps peer by
      peer and descriptor by descriptor, then drop the empty sections. */
  method SynthesizeConfig(cfg: ProviderConfig, status: Status, now: int) returns (config: DynamicConfig)
    ensures config == ConfigFor(cfg, status, now)
  {
    var httpServices: map<string, Service> := map[];
    var httpRouters: map<string, Router> := map[];
    var tcpServices: map<string, TcpService> := map[];
    var tcpRouters: map<string, TcpRouter> := map[];
    var udpServices: map<string, UdpService> := map[];
    var udpRouters: map<string, UdpRouter> := map[];

    if status.peers.None? {
      return DynamicConfig(Some(HttpConfig(map[], map[], map[])), Some(TcpConfig(map[], map[])), Some(UdpConfig(map[], map[])));
    }
    var peers := status.peers.value;

    var i := 0;
    while i < |peers|
      invariant 0 <= i <= |peers|
      invariant Sections(httpServices, httpRouters, tcpServices, tcpRouters, udpServices, udpRouters)
             == AddPeers(cfg, NoSections, peers[..i], now)
    {
      assert peers[..i + 1][..i] == peers[..i];
      var peerOpt := peers[i];
      if peerOpt.Some? && ShouldIncludePeer(cfg, peerOpt.value, now) {
        var peer := peerOpt.value;
        var serviceInfos := ExtractServiceInfos(cfg, peer);
        httpServices, httpRouters, tcpServices, tcpRouters, udpServices, udpRouters :=
          InsertServiceInfos(cfg, peer, serviceInfos, httpServices, httpRouters, tcpServices, tcpRouters,
                             udpServices, udpRouters);
      }
      i := i + 1;
    }
    assert peers[..|peers|] == peers;

    var httpConfig := if httpServices == map[] && httpRouters == map[] then None
                      else Some(HttpConfig(httpRouters, httpServices, map[]));
    var tcpConfig := if tcpServices == map[] && tcpRouters == map[] then None
                     else Some(TcpConfig(tcpRouters, tcpServices));
    var udpConfig := if udpServices == map[] && udpRouters == map[] then None
                     else Some(UdpConfig(udpRouters, udpServices));
    return DynamicConfig(httpConfig, tcpConfig, udpConfig);
  }

  /** `generate_config`: fetch the status with peers, then synthesise. */
  method GenerateConfig(provider: TraefikProvider, send: Client.Request -> Client.Reply, now: int)
    returns (r: Result<DynamicConfig, Client.TailscaleError>)
    ensures r == GeneratedConfig(provider, send, now)
  {
    var fetched := Client.GetStatus(provider.client, send);
    if fetched.Err? {
      return Err(fetched.error);
    }
    var config := SynthesizeConfig(provider.config, fetched.value, now);
    return Ok(config);
  }

  // ---------------------------------------------------------------------
  // Properties of the synthesis
  // ---------------------------------------------------------------------

  /** Every router points at a service of its own section, and is stored
      under that service's name followed by `-router`. */
  predicate HttpRoutersResolve(services: map<string, Service>, routers: map<string, Router>) {
    forall n :: n in routers ==> routers[n].service in services && n == routers[n].service + RouterSuffix
  }

  predicate TcpRoutersResolve(services: map<string, TcpService>, routers: map<string, TcpRouter>) {
    forall n :: n in routers ==> routers[n].service in services && n == routers[n].service + RouterSuffix
  }

  predicate UdpRoutersResolve(services: map<string, UdpService>, routers: map<string, UdpRouter>) {
    forall n :: n in routers ==> routers[n].service in services && n == routers[n].service + RouterSuffix
  }

  predicate RoutersPointToServices(s: Sections) {
    HttpRoutersResolve(s.httpServices, s.httpRouters)
    && TcpRoutersResolve(s.tcpServices, s.tcpRouters)
    && UdpRoutersResolve(s.udpServices, s.udpRouters)
  }

  /** Adding a service and a router that points at it keeps every router
      resolvable. */
  lemma HttpInsertKeepsRouters(services: map<string, Service>, routers: map<string, Router>,
                               serviceName: string, service: Service, router: Router)
    requires HttpRoutersResolve(services, routers) && router.service == serviceName
    ensures HttpRoutersResolve(services[serviceName := service], routers[serviceName + RouterSuffix := router])
  {
  }

  lemma TcpInsertKeepsRouters(services: map<string, TcpService>, routers: map<string, TcpRouter>,
                              serviceName: string, service: TcpService, router: TcpRouter)
    requires TcpRoutersResolve(services, routers) && router.service == serviceName
    ensures TcpRoutersResolve(services[serviceName := service], routers[serviceName + RouterSuffix := router])
  {
  }

  lemma UdpInsertKeepsRouters(services: map<string, UdpService>, routers: map<string, UdpRouter>,
                              serviceName: string, service: UdpService, router: UdpRouter)
    requires UdpRoutersResolve(services, routers) && router.service == serviceName
    ensures UdpRoutersResolve(services[serviceName := service], routers[serviceName + RouterSuffix := router])
  {
  }

  lemma AddServiceInfoKeepsRouters(cfg: ProviderConfig, s: Sections, peer: PeerStatus, info: ServiceInfo)
    requires RoutersPointToServices(s)
    ensures RoutersPointToServices(AddServiceInfo(cfg, s, peer, info))
  {
    var serviceName := ServiceName(peer.hostname, info.name);
    if |peer.tailscaleIps| > 0 {
      match info.protocol
      case Http =>
        HttpInsertKeepsRouters(s.httpServices, s.httpRouters, serviceName,
                               HttpServiceFor(cfg, peer, info).value, HttpRouterFor(cfg, info, serviceName).value);
      case Tcp =>
        TcpInsertKeepsRouters(s.tcpServices, s.tcpRouters, serviceName,
                              TcpServiceFor(cfg, peer, info).value, TcpRouterFor(cfg, info, serviceName).value);
      case Udp =>
        UdpInsertKeepsRouters(s.udpServices, s.udpRouters, serviceName,
                              UdpServiceFor(cfg, peer, info).value, UdpRouter(serviceName));
    }
  }

  lemma {:induction false} AddServiceInfosKeepsRouters(cfg: ProviderConfig, s: Sections, peer: PeerStatus, infos: seq<ServiceInfo>)
    requires RoutersPointToServices(s)
    ensures RoutersPointToServices(AddServiceInfos(cfg, s, peer, infos))
  {
    if |infos| > 0 {
      AddServiceInfosKeepsRouters(cfg, s, peer, infos[..|infos| - 1]);
      AddServiceInfoKeepsRouters(cfg, AddServiceInfos(cfg, s, peer, infos[..|infos| - 1]), peer, infos[|infos| - 1]);
    }
  }

  lemma {:induction false} AddPeersKeepsRouters(cfg: ProviderConfig, s: Sections, peers: seq<Option<PeerStatus>>, now: int)
    requires RoutersPointToServices(s)
    ensures RoutersPointToServices(AddPeers(cfg, s, peers, now))
  {
    if |peers| > 0 {
      var init := peers[..|peers| - 1];
      AddPeersKeepsRouters(cfg, s, init, now);
      match peers[|peers| - 1]
      case None =>
      case Some(peer) =>
        AddServiceInfosKeepsRouters(cfg, AddPeers(cfg, s, init, now), peer, ServiceInfosOf(cfg, peer));
    }
  }

  /** In every generated document each router's `service` names a service
      of the same section. */
  lemma GeneratedRoutersResolve(cfg: ProviderConfig, status: Status, now: int)
    ensures var d := ConfigFor(cfg, status, now);
            (d.http.Some? ==> forall n :: n in d.http.value.routers ==> d.http.value.routers[n].service in d.http.value.services)
            && (d.tcp.Some? ==> forall n :: n in d.tcp.value.routers ==> d.tcp.value.routers[n].service in d.tcp.value.services)
            && (d.udp.Some? ==> forall n :: n in d.udp.value.routers ==> d.udp.value.routers[n].service in d.udp.value.services)
  {
    if status.peers.Some? {
      AddPeersKeepsRouters(cfg, NoSections, status.peers.value, now);
    }
  }

  /** A peer without addresses contributes nothing. */
  lemma {:induction false} AddressLessPeerAddsNothing(cfg: ProviderConfig, s: Sections, peer: PeerStatus, infos: seq<ServiceInfo>)
    requires |peer.tailscaleIps| == 0
    ensures AddServiceInfos(cfg, s, peer, infos) == s
  {
    if |infos| > 0 {
      AddressLessPeerAddsNothing(cfg, s, peer, infos[..|infos| - 1]);
    }
  }

  /** The peers that contribute: exactly the present entries admitted by
      the filter. */
  function Contributing(cfg: ProviderConfig, peers: seq<Option<PeerStatus>>, now: int): (r: seq<Option<PeerStatus>>)
    ensures forall k :: 0 <= k < |r| ==> r[k].Some? && ShouldIncludePeer(cfg, r[k].value, now)
    ensures forall k :: 0 <= k < |peers| && peers[k].Some? && ShouldIncludePeer(cfg, peers[k].value, now) ==> peers[k] in r
  {
    if |peers| == 0 then []
    else
      var init := Contributing(cfg, peers[..|peers| - 1], now);
      var p := peers[|peers| - 1];
      if p.Some? && ShouldIncludePeer(cfg, p.value, now) then init + [p] else init
  }

  /** Null entries and excluded peers can be dropped without changing the
      result. */
  lemma {:induction false} SkippedPeersAddNothing(cfg: ProviderConfig, s: Sections, peers: seq<Option<PeerStatus>>, now: int)
    ensures AddPeers(cfg, s, peers, now) == AddPeers(cfg, s, Contributing(cfg, peers, now), now)
  {
    if |peers| > 0 {
      var init := peers[..|peers| - 1];
      SkippedPeersAddNothing(cfg, s, init, now);
      var c := Contributing(cfg, init, now);
      var p := peers[|peers| - 1];
      if p.Some? && ShouldIncludePeer(cfg, p.value, now) {
        assert (c + [p])[..|c + [p]| - 1] == c;
      }
    }
  }

  /** Last write wins: whatever earlier peers generated, the last
      descriptor of an included final peer with an address leaves its own
      service and router under its names. */
  lemma LaterPeerOverwrites(cfg: ProviderConfig, s: Sections, peers: seq<Option<PeerStatus>>, peer: PeerStatus, now: int)
    requires ShouldIncludePeer(cfg, peer, now)
    requires |ServiceInfosOf(cfg, peer)| > 0
    requires |peer.tailscaleIps| > 0
    ensures var info := ServiceInfosOf(cfg, peer)[|ServiceInfosOf(cfg, peer)| - 1];
            var after := AddPeers(cfg, s, peers + [Some(peer)], now);
            var name := ServiceName(peer.hostname, info.name);
            var router := RouterName(peer.hostname, info.name);
            match info.protocol
            case Http =>
              name in after.httpServices && after.httpServices[name] == HttpServiceFor(cfg, peer, info).value
              && router in after.httpRouters && after.httpRouters[router] == HttpRouterFor(cfg, info, name).value
            case Tcp =>
              name in after.tcpServices && after.tcpServices[name] == TcpServiceFor(cfg, peer, info).value
              && router in after.tcpRouters && after.tcpRouters[router] == TcpRouterFor(cfg, info, name).value
            case Udp =>
              name in after.udpServices && after.udpServices[name] == UdpServiceFor(cfg, peer, info).value
              && router in after.udpRouters && after.udpRouters[router] == UdpRouterFor(name).value
  {
    assert (peers + [Some(peer)])[..|peers|] == peers;
  }

  /** Without a peer map every section is present and empty. */
  lemma NoPeerMap(cfg: ProviderConfig, status: Status, now: int)
    requires status.peers.None?
    ensures ConfigFor(cfg, status, now) == EmptyDocument
    ensures Keys(DynamicConfigJson(ConfigFor(cfg, status, now))) == ["http", "tcp", "udp"]
    ensures Member(DynamicConfigJson(ConfigFor(cfg, status, now)), "http") != Some(Null)
  {
    DocumentKeys(EmptyDocument);
  }

  /** An empty peer map gives a document whose three sections are all
      `null`. */
  lemma EmptyPeerMap(cfg: ProviderConfig, status: Status, now: int)
    requires status.peers == Some([])
    ensures ConfigFor(cfg, status, now) == DynamicConfig(None, None, None)
    ensures Member(DynamicConfigJson(ConfigFor(cfg, status, now)), "http") == Some(Null)
    ensures Member(DynamicConfigJson(ConfigFor(cfg, status, now)), "tcp") == Some(Null)
    ensures Member(DynamicConfigJson(ConfigFor(cfg, status, now)), "udp") == Some(Null)
  {
    DocumentKeys(DynamicConfig(None, None, None));
  }

  /** One online, untagged peer under the default policy yields one HTTP
      service at port 80 with the default health check, and a catch-all
      router. */
  lemma SingleDefaultPeer(peer: PeerStatus, now: int)
    requires peer.online == Some(true) && !peer.exitNode && peer.tags.None? && peer.expired != Some(true)
    requires |peer.tailscaleIps| > 0
    ensures var s := AddPeers(DefaultConfig(), NoSections, [Some(peer)], now);
            var name := NamePrefix + HostnameSafe(peer.hostname);
            s.httpServices == map[name := Service(LoadBalancer(
                [Server("http://" + peer.tailscaleIps[0] + ":80", Some(1))],
                Some(HealthCheck("/health", Some("30s"), Some("5s")))))]
            && s.httpRouters == map[name + RouterSuffix := Router(DefaultHostRule, name, None, None, None)]
            && s.tcpServices == map[] && s.udpServices == map[]
  {
    var cfg := DefaultConfig();
    var info := DefaultServiceInfo(cfg);
    assert ShouldIncludePeer(cfg, peer, now);
    assert ServiceInfosOf(cfg, peer) == [info];
    assert [Some(peer)][..0] == [];
    assert [info][..0] == [];
    var sections := AddPeers(cfg, NoSections, [Some(peer)], now);
    assert AddPeers(cfg, NoSections, [], now) == NoSections;
    assert sections == AddServiceInfos(cfg, NoSections, peer, [info]);
    assert AddServiceInfos(cfg, NoSections, peer, []) == NoSections;
    assert sections == AddServiceInfo(cfg, NoSections, peer, info);
    var name := ServiceName(peer.hostname, "default");
    assert PortFor(cfg, info) == 80;
    assert NatToString(80) == "80";
    var ip := peer.tailscaleIps[0];
    assert "http" + "://" + ip + ":" + "80" == "http://" + ip + ":80";
    var service := Service(LoadBalancer([Server("http://" + ip + ":80", Some(1))],
                                        Some(HealthCheck("/health", Some("30s"), Some("5s")))));
    assert HttpServiceFor(cfg, peer, info) == Some(service);
    assert HttpRouterFor(cfg, info, name) == Some(Router(DefaultHostRule, name, None, None, None));
  }
}
