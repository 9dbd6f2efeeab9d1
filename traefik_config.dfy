/** The Traefik dynamic configuration document the provider serves
    (src/traefik/config.rs), and its JSON form: which keys are written,
    under which names, and which are left out when empty. */
module TraefikConfig {
  import opened Wrappers
  import opened Text

  datatype TlsConfig = TlsConfig(certResolver: Option<string>)

  datatype Router = Router(
    rule: string,
    service: string,
    middlewares: Option<seq<string>>,
    priority: Option<int32>,
    tls: Option<TlsConfig>)

  datatype Server = Server(url: string, weight: Option<int32>)

  datatype HealthCheck = HealthCheck(path: string, interval: Option<string>, timeout: Option<string>)

  datatype LoadBalancer = LoadBalancer(servers: seq<Server>, healthCheck: Option<HealthCheck>)

  datatype Service = Service(loadBalancer: LoadBalancer)

  datatype HeadersMiddleware = HeadersMiddleware(
    customRequestHeaders: Option<map<string, string>>,
    customResponseHeaders: Option<map<string, string>>)

  datatype RetryMiddleware = RetryMiddleware(attempts: int32)

  datatype Middleware = Middleware(headers: Option<HeadersMiddleware>, retry: Option<RetryMiddleware>)

  datatype HttpConfig = HttpConfig(
    routers: map<string, Router>,
    services: map<string, Service>,
    middlewares: map<string, Middleware>)

  datatype TcpTlsConfig = TcpTlsConfig(passthrough: Option<bool>)

  datatype TcpRouter = TcpRouter(rule: string, service: string, tls: Option<TcpTlsConfig>)

  datatype TcpServer = TcpServer(address: string, weight: Option<int32>)

  datatype TcpLoadBalancer = TcpLoadBalancer(servers: seq<TcpServer>)

  datatype TcpService = TcpService(loadBalancer: TcpLoadBalancer)

  datatype TcpConfig = TcpConfig(routers: map<string, TcpRouter>, services: map<string, TcpService>)

  datatype UdpRouter = UdpRouter(service: string)

  datatype UdpServer = UdpServer(address: string, weight: Option<int32>)

  datatype UdpLoadBalancer = UdpLoadBalancer(servers: seq<UdpServer>)

  datatype UdpService = UdpService(loadBalancer: UdpLoadBalancer)

  datatype UdpConfig = UdpConfig(routers: map<string, UdpRouter>, services: map<string, UdpService>)

  datatype DynamicConfig = DynamicConfig(http: Option<HttpConfig>, tcp: Option<TcpConfig>, udp: Option<UdpConfig>)

  // ---------------------------------------------------------------------
  // JSON
  // ---------------------------------------------------------------------

  /** A JSON value. Structs become `Object`s whose members are in field
      order; `HashMap`s become `Dict`s, whose order is not fixed. */
  datatype Json =
    | Null
    | Bool(b: bool)
    | Number(n: int)
    | Str(s: string)
    | Array(items: seq<Json>)
    | Object(members: seq<(string, Json)>)
    | Dict(entries: map<string, Json>)

  /** The names of a member list, in order. */
  function Names(ms: seq<(string, Json)>): (r: seq<string>)
    ensures |r| == |ms|
  {
    if |ms| == 0 then [] else [ms[0].0] + Names(ms[1..])
  }

  lemma {:induction false} NamesAppend(a: seq<(string, Json)>, b: seq<(string, Json)>)
    ensures Names(a + b) == Names(a) + Names(b)
  {
    if |a| > 0 {
      assert (a + b)[1..] == a[1..] + b;
      NamesAppend(a[1..], b);
      assert Names(a + b) == [a[0].0] + Names(a[1..] + b);
    } else {
      assert a + b == b;
    }
  }

  /** The member names of an object, in order. */
  function Keys(j: Json): seq<string> {
    if j.Object? then Names(j.members) else []
  }

  /** The value of the first member named `key`. */
  function Member(j: Json, key: string): Option<Json>
    decreases if j.Object? then |j.members| else 0
  {
    if !j.Object? || |j.members| == 0 then None
    else if j.members[0].0 == key then Some(j.members[0].1)
    else Member(Object(j.members[1..]), key)
  }

  lemma {:induction false} MemberPresentIffKey(j: Json, key: string)
    ensures Member(j, key).Some? <==> key in Keys(j)
    decreases if j.Object? then |j.members| else 0
  {
    if j.Object? && |j.members| > 0 {
      var rest := Object(j.members[1..]);
      MemberPresentIffKey(rest, key);
    }
  }

  /** `skip_serializing_if = "Option::is_none"`: no member for `None`. */
  function Optional(key: string, v: Option<Json>): seq<(string, Json)> {
    match v
    case None => []
    case Some(x) => [(key, x)]
  }

  lemma NamesOptional(key: string, v: Option<Json>)
    ensures Names(Optional(key, v)) == if v.Some? then [key] else []
  {
  }

  function Int32Json(v: Option<int32>): Option<Json> {
    match v
    case None => None
    case Some(n) => Some(Number(n))
  }

  function StringJson(v: Option<string>): Option<Json> {
    match v
    case None => None
    case Some(s) => Some(Str(s))
  }

  function StringsJson(xs: seq<string>): Json {
    Array(seq(|xs|, i requires 0 <= i < |xs| => Str(xs[i])))
  }

  function StringMapJson(m: map<string, string>): Json {
    Dict(map k | k in m :: Str(m[k]))
  }

  function TlsJson(t: TlsConfig): Json {
    Object(Optional("cert_resolver", StringJson(t.certResolver)))
  }

  function RouterJson(r: Router): Json {
    Object([("rule", Str(r.rule)), ("service", Str(r.service))]
           + Optional("middlewares", if r.middlewares.Some? then Some(StringsJson(r.middlewares.value)) else None)
           + Optional("priority", Int32Json(r.priority))
           + Optional("tls", if r.tls.Some? then Some(TlsJson(r.tls.value)) else None))
  }

  function ServerJson(s: Server): Json {
    Object([("url", Str(s.url))] + Optional("weight", Int32Json(s.weight)))
  }

  function HealthCheckJson(h: HealthCheck): Json {
    Object([("path", Str(h.path))]
           + Optional("interval", StringJson(h.interval))
           + Optional("timeout", StringJson(h.timeout)))
  }

  function LoadBalancerJson(lb: LoadBalancer): Json {
    Object([("servers", Array(seq(|lb.servers|, i requires 0 <= i < |lb.servers| => ServerJson(lb.servers[i]))))]
           + Optional("health_check", if lb.healthCheck.Some? then Some(HealthCheckJson(lb.healthCheck.value)) else None))
  }

  function ServiceJson(s: Service): Json {
    Object([("loadBalancer", LoadBalancerJson(s.loadBalancer))])
  }

  function HeadersJson(h: HeadersMiddleware): Json {
    Object(Optional("custom_request_headers",
                    if h.customRequestHeaders.Some? then Some(StringMapJson(h.customRequestHeaders.value)) else None)
           + Optional("custom_response_headers",
                      if h.customResponseHeaders.Some? then Some(StringMapJson(h.customResponseHeaders.value)) else None))
  }

  function MiddlewareJson(m: Middleware): Json {
    Object(Optional("headers", if m.headers.Some? then Some(HeadersJson(m.headers.value)) else None)
           + Optional("retry", if m.retry.Some? then Some(Object([("attempts", Number(m.retry.value.attempts))])) else None))
  }

  function HttpConfigJson(h: HttpConfig): Json {
    Object([("routers", Dict(map k | k in h.routers :: RouterJson(h.routers[k]))),
            ("services", Dict(map k | k in h.services :: ServiceJson(h.services[k])))]
           + (if h.middlewares == map[] then []
              else [("middlewares", Dict(map k | k in h.middlewares :: MiddlewareJson(h.middlewares[k])))]))
  }

  function TcpRouterJson(r: TcpRouter): Json {
    Object([("rule", Str(r.rule)), ("service", Str(r.service))]
           + Optional("tls", if r.tls.Some? then Some(Object(Optional("passthrough",
                                  if r.tls.value.passthrough.Some? then Some(Bool(r.tls.value.passthrough.value)) else None)))
                             else None))
  }

  function TcpServerJson(s: TcpServer): Json {
    Object([("address", Str(s.address))] + Optional("weight", Int32Json(s.weight)))
  }

  function TcpServiceJson(s: TcpService): Json {
    var servers := s.loadBalancer.servers;
    Object([("loadBalancer", Object([("servers", Array(seq(|servers|, i requires 0 <= i < |servers| => TcpServerJson(servers[i]))))]))])
  }

  function TcpConfigJson(c: TcpConfig): Json {
    Object([("routers", Dict(map k | k in c.routers :: TcpRouterJson(c.routers[k]))),
            ("services", Dict(map k | k in c.services :: TcpServiceJson(c.services[k])))])
  }

  function UdpRouterJson(r: UdpRouter): Json {
    Object([("service", Str(r.service))])
  }

  function UdpServerJson(s: UdpServer): Json {
    Object([("address", Str(s.address))] + Optional("weight", Int32Json(s.weight)))
  }

  function UdpServiceJson(s: UdpService): Json {
    var servers := s.loadBalancer.servers;
    Object([("loadBalancer", Object([("servers", Array(seq(|servers|, i requires 0 <= i < |servers| => UdpServerJson(servers[i]))))]))])
  }

  function UdpConfigJson(c: UdpConfig): Json {
    Object([("routers", Dict(map k | k in c.routers :: UdpRouterJson(c.routers[k]))),
            ("services", Dict(map k | k in c.services :: UdpServiceJson(c.services[k])))])
  }

  /** The served document. The three sections have no skip rule, so an
      absent section is written as `null`. */
  function DynamicConfigJson(d: DynamicConfig): Json {
    Object([("http", if d.http.Some? then HttpConfigJson(d.http.value) else Null),
            ("tcp", if d.tcp.Some? then TcpConfigJson(d.tcp.value) else Null),
            ("udp", if d.udp.Some? then UdpConfigJson(d.udp.value) else Null)])
  }

  // ---------------------------------------------------------------------
  // Key rules
  // ---------------------------------------------------------------------

  /** The document always has exactly the keys `http`, `tcp` and `udp`, and
      a section is `null` exactly when it is absent. */
  lemma DocumentKeys(d: DynamicConfig)
    ensures Keys(DynamicConfigJson(d)) == ["http", "tcp", "udp"]
    ensures Member(DynamicConfigJson(d), "http") == Some(Null) <==> d.http.None?
    ensures Member(DynamicConfigJson(d), "tcp") == Some(Null) <==> d.tcp.None?
    ensures Member(DynamicConfigJson(d), "udp") == Some(Null) <==> d.udp.None?
  {
    var ms := DynamicConfigJson(d).members;
    assert ms[1..][1..] == ms[2..];
    assert Names(ms[2..]) == ["udp"];
    assert Names(ms[1..]) == ["tcp", "udp"];
    assert Member(Object(ms[2..]), "udp") == Some(ms[2].1);
    assert Member(Object(ms[1..]), "tcp") == Some(ms[1].1);
    assert Member(Object(ms[1..]), "udp") == Some(ms[2].1);
  }

  /** An HTTP section always has `routers` and `services`; `middlewares` is
      written exactly when there is at least one middleware. */
  lemma HttpConfigKeys(h: HttpConfig)
    ensures Keys(HttpConfigJson(h))[..2] == ["routers", "services"]
    ensures "middlewares" in Keys(HttpConfigJson(h)) <==> h.middlewares != map[]
  {
    var j := HttpConfigJson(h);
    var fixed := j.members[..2];
    assert j.members == fixed + j.members[2..];
    NamesAppend(fixed, j.members[2..]);
  }

  /** A router always has `rule` then `service`; each optional field has a
      key exactly when it is present. */
  lemma RouterKeys(r: Router)
    ensures Keys(RouterJson(r))[..2] == ["rule", "service"]
    ensures "middlewares" in Keys(RouterJson(r)) <==> r.middlewares.Some?
    ensures "priority" in Keys(RouterJson(r)) <==> r.priority.Some?
    ensures "tls" in Keys(RouterJson(r)) <==> r.tls.Some?
  {
    var a := [("rule", Str(r.rule)), ("service", Str(r.service))];
    var b := Optional("middlewares", if r.middlewares.Some? then Some(StringsJson(r.middlewares.value)) else None);
    var c := Optional("priority", Int32Json(r.priority));
    var d := Optional("tls", if r.tls.Some? then Some(TlsJson(r.tls.value)) else None);
    NamesAppend(a + b + c, d);
    NamesAppend(a + b, c);
    NamesAppend(a, b);
    NamesOptional("middlewares", if r.middlewares.Some? then Some(StringsJson(r.middlewares.value)) else None);
    NamesOptional("priority", Int32Json(r.priority));
    NamesOptional("tls", if r.tls.Some? then Some(TlsJson(r.tls.value)) else None);
    assert Names(a) == ["rule", "service"];
    OptionalKeys(["rule", "service"], "middlewares", r.middlewares.Some?, "priority", r.priority.Some?,
                 "tls", r.tls.Some?);
  }

  /** Keys after a fixed prefix, one optional key per present field: each
      optional key occurs exactly when its field is present. */
  lemma OptionalKeys(fixed: seq<string>, x: string, px: bool, y: string, py: bool, z: string, pz: bool)
    requires x !in fixed && y !in fixed && z !in fixed && x != y && x != z && y != z
    ensures var ks := fixed + (if px then [x] else []) + (if py then [y] else []) + (if pz then [z] else []);
            ks[..|fixed|] == fixed && (x in ks <==> px) && (y in ks <==> py) && (z in ks <==> pz)
  {
  }

  lemma ServerKeys(s: Server)
    ensures Keys(ServerJson(s))[0] == "url"
    ensures "weight" in Keys(ServerJson(s)) <==> s.weight.Some?
    ensures "weight" in Keys(TcpServerJson(TcpServer(s.url, s.weight))) <==> s.weight.Some?
    ensures "weight" in Keys(UdpServerJson(UdpServer(s.url, s.weight))) <==> s.weight.Some?
  {
    var w := Optional("weight", Int32Json(s.weight));
    NamesAppend([("url", Str(s.url))], w);
    NamesAppend([("address", Str(s.url))], w);
  }

  lemma HealthCheckKeys(h: HealthCheck)
    ensures Keys(HealthCheckJson(h))[0] == "path"
    ensures "interval" in Keys(HealthCheckJson(h)) <==> h.interval.Some?
    ensures "timeout" in Keys(HealthCheckJson(h)) <==> h.timeout.Some?
  {
    var a := [("path", Str(h.path))];
    var b := Optional("interval", StringJson(h.interval));
    var c := Optional("timeout", StringJson(h.timeout));
    NamesAppend(a + b, c);
    NamesAppend(a, b);
  }

  /** The load balancer sits under `loadBalancer`; its health check, when
      present, under the literal key `health_check`. */
  lemma ServiceKeys(s: Service)
    ensures Keys(ServiceJson(s)) == ["loadBalancer"]
    ensures Keys(LoadBalancerJson(s.loadBalancer))[0] == "servers"
    ensures "health_check" in Keys(LoadBalancerJson(s.loadBalancer)) <==> s.loadBalancer.healthCheck.Some?
  {
    var lb := LoadBalancerJson(s.loadBalancer);
    NamesAppend(lb.members[..1], lb.members[1..]);
    assert lb.members == lb.members[..1] + lb.members[1..];
  }

  /** TCP and UDP services nest their servers the same way and have no
      health check; a UDP router has nothing but its service. */
  lemma StreamKeys(t: TcpService, u: UdpService, r: TcpRouter, ur: UdpRouter)
    ensures Keys(TcpServiceJson(t)) == ["loadBalancer"] && Keys(UdpServiceJson(u)) == ["loadBalancer"]
    ensures Keys(TcpServiceJson(t).members[0].1) == ["servers"]
    ensures Keys(UdpServiceJson(u).members[0].1) == ["servers"]
    ensures Keys(TcpRouterJson(r))[..2] == ["rule", "service"]
    ensures "tls" in Keys(TcpRouterJson(r)) <==> r.tls.Some?
    ensures Keys(UdpRouterJson(ur)) == ["service"]
  {
    var j := TcpRouterJson(r);
    NamesAppend(j.members[..2], j.members[2..]);
    assert j.members == j.members[..2] + j.members[2..];
  }
}
