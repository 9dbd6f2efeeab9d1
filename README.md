# traefik-tailscale-provider, modelled in Dafny

The provider asks the local Tailscale daemon for the status of the tailnet.
It keeps the peers its policy admits and derives logical services from
each peer's tags. It then publishes a Traefik dynamic configuration whose
HTTP, TCP and UDP sections hold one service per (peer, descriptor) pair and
one router pointing at each service. A small HTTP server caches that
document and serves it on `/config`.

The model is a set of Dafny modules, one per source file:

| module | file | source |
|---|---|---|
| `Wrappers` | `wrappers.dfy` | `Option` and `Result` |
| `Text` | `text.dfy` | the `str` operations the code uses: `split`, `join`, `find`, `lines`, `trim`, `strip_prefix`, ASCII lower-casing, `parse::<u16>()` and decimal printing |
| `Encoding` | `encoding.dfy` | UTF-8 (RFC 3629) and base64 (section 4 of RFC 4648), each with a decoder and a proof that decoding undoes encoding |
| `Config` | `config.dfy` | `src/config/mod.rs`: the protocol classifier, the tag convention, the two mapping strings, the defaults |
| `TailscaleTypes` | `tailscale_types.dfy` | `src/tailscale/types.rs`: the peer fields the provider reads, the Taildrop status codec |
| `TraefikConfig` | `traefik_config.dfy` | `src/traefik/config.rs`: the document types and their JSON form |
| `Platform` | `platform.dfy` | `src/platform/mod.rs`: default endpoints, the MacSys token file, the `lsof` scan |
| `Client` | `client.dfy` | `src/tailscale/client.rs`: descriptor parsing, requests, response classification |
| `Provider` | `provider.dfy` | `src/traefik/provider.rs`: the peer filter, service extraction, names, builders, synthesis |
| `App` | `app.dfy` | `src/main.rs`: the startup gate and the cached configuration slot |

Each loop of the source is a `method` with a `while` loop, proved equal to
a specification function. The loops are:

- the mapping parsers;
- the tag loops of `extract_service_infos_from_peer`;
- the two nested loops of `generate_config`;
- the `lsof` line scan.

The first three accumulate, and their specification functions recurse on
the last element, so each loop step adds one element. The `lsof` scan
returns at the first line that yields a proof. Its specification
`Platform.FirstProof` recurses on the first element instead, and the loop
keeps `FirstProof(lines) == FirstProof(lines[i..])`.

The properties are proved about those functions. The cache of `main.rs` is
a class whose methods overwrite its slot.

`generate_config` reads the status through the client, so the transport is a
function parameter `send: Request -> Reply`. The clock reading `now`, the
files, the TCP probe and the `lsof` output are parameters too.

Two points where the code decides and a reading of the documentation might
suggest otherwise are modelled as the code does them:

- A status whose peer map is present but empty leaves every section absent.
  Absent sections serialise as explicit `null`s under the keys `http`, `tcp`
  and `udp`; they are not omitted (`Provider.EmptyPeerMap`).
- A custom domain is looked up by the descriptor's own name, not by the
  generated service name (`Provider.DomainFor`).

## Model

| member | source | states |
|---|---|---|
| Config.ProtocolFromStr | src/config/mod.rs:12-19 | the result is `Tcp` exactly when the lower-cased input is `tcp`, `Udp` exactly when it is `udp`, and `Http` for every other string, `http` and `https` included |
| Config.ProtocolIgnoresCase | src/config/mod.rs:12-19 | strings that agree after lower-casing get the same protocol, so classification ignores case |
| Config.DefaultConfig | src/config/mod.rs:81-101 | every default value: port 80, HTTP and `http`, exit nodes and expired peers excluded, extraction on, health path `/health`, interval 30, server port 8080, no filters, no tables and no socket path |
| Config.ParseServiceInfoFromTag | src/config/mod.rs:227-326 | every descriptor returned carries a port; the result is `None` exactly when extraction is on, the cleaned tag has two or more segments and the port segment is not a `u16` |
| Config.TagWithoutExtraction | src/config/mod.rs:229-238 | with extraction off the parser always succeeds; the name is the tag with one `tag:` removed, dashes kept, and the port, protocol and scheme are the defaults |
| Config.TagOneSegment | src/config/mod.rs:243-251 | a dash-free tag names a service on the default port with the default protocol and scheme |
| Config.TagTwoSegments | src/config/mod.rs:252-265 | `name-port` is accepted exactly when `port` is a `u16`, and then carries that port with the default protocol and scheme |
| Config.TagManySegments | src/config/mod.rs:266-324 | for three or more segments the name is all segments but the last two joined by `-`, the port is the second-to-last (`None` when invalid), and protocol and scheme come from the last |
| Config.TagSchemeIsHttpsExactly | src/config/mod.rs:270-280 | a tag's scheme is `https` exactly when its protocol token lower-cases to `https`; otherwise it is the protocol's plain scheme |
| Config.TagRoundTrip | src/config/mod.rs:266-319 | parsing `name-port-token`, for a name not starting with `tag:` and a dash-free token, gives back the name, the port and the token's protocol and scheme |
| Config.InsertEntries | src/config/mod.rs:164-171 | the insertion loop yields the map built by inserting every accepted entry in order |
| Config.ParseDomainMapping | src/config/mod.rs:157-178 | the parser equals `DomainMapping`: `None` for the empty string, and never `Some` of an empty map |
| Config.DomainMappingContents | src/config/mod.rs:164-171 | a service is a key exactly when some `,`-entry splits on `:` into exactly two parts whose trimmed left side is that service |
| Config.DomainMappingValues | src/config/mod.rs:165-169 | every mapped domain is the trimmed right side of a two-part entry whose trimmed left side is its key |
| Config.DomainMappingLastWins | src/config/mod.rs:169 | a later entry for the same service overwrites an earlier one |
| Config.DomainMappingNoneWhenNothingAccepted | src/config/mod.rs:173-177 | input with no acceptable entry gives `None` |
| Config.ParseServiceMapping | src/config/mod.rs:181-223 | the parser equals `ServiceMapping`: `None` for the empty string, and never `Some` of an empty map |
| Config.ServiceMappingContents | src/config/mod.rs:188-216 | a tag is a key exactly when some entry has at least two parts, that trimmed tag and a valid `u16` port |
| Config.ServiceMappingValues | src/config/mod.rs:193-213 | every mapped descriptor is named by its key and has a port; its scheme is the plain scheme of its protocol, so never `https` |
| Config.ServiceMappingLastWins | src/config/mod.rs:205-213 | a later entry for the same tag overwrites an earlier one |
| Config.ServiceMappingNoneWhenNothingAccepted | src/config/mod.rs:218-222 | input with no acceptable entry gives `None` |
| Provider.ShouldIncludePeer | src/traefik/provider.rs:235-304 | a peer is included exactly when it passes all seven rules: online, exit node, tag match, hostname, activity, OS and expiry |
| Provider.OfflinePeerExcluded | src/traefik/provider.rs:237-239 | a peer whose `online` is absent or false is excluded whatever the policy says |
| Provider.ExcludingExitNodesOnlyRemoves | src/traefik/provider.rs:242-244 | turning on `exclude_exit_nodes` never adds a peer, and removes exactly the exit nodes |
| Provider.TagFilterExclusions | src/traefik/provider.rs:247-264 | with a tag filter, a peer without tags is excluded, and an empty filter excludes every peer |
| Provider.InactivityBoundary | src/traefik/provider.rs:273-287 | when the other rules pass and the peer has written, it is included exactly when at most the maximum number of seconds have passed since its last write |
| Provider.ParseTagDescriptors | src/traefik/provider.rs:159-176 | the tag loop yields the parsed descriptors in tag order, keeping only listed names under a filter |
| Provider.AppendMappedDescriptors | src/traefik/provider.rs:188-205 | the override loop appends, in tag order, the table entry of every tag whose cleaned form is a key and whose name the filter admits |
| Provider.ExtractServiceInfos | src/traefik/provider.rs:156-208 | the method returns the tag-derived descriptors, or the default one, followed by the mapped ones |
| Provider.UntaggedAndEmptyTagPeers | src/traefik/provider.rs:159-185 | an untagged peer offers exactly the default descriptor when there is no tag filter and nothing when there is one; an empty tag list gives nothing |
| Provider.TagServiceInfosMembers | src/traefik/provider.rs:159-176 | a descriptor is derived from the tags exactly when some tag parses to it and the filter admits it |
| Provider.MappedServiceInfosAdmitted | src/traefik/provider.rs:188-205 | every mapped descriptor is the table entry of some tag's cleaned form, and the filter admits it |
| Provider.FilteredDescriptorNames | src/traefik/provider.rs:156-208 | under a tag filter every descriptor a peer offers has a listed name |
| Provider.OneDescriptorPerTag | src/traefik/provider.rs:171-175 | without extraction and without a filter, each tag yields exactly one descriptor, in order, named by the cleaned tag |
| Provider.HostnameSafe | src/traefik/provider.rs:216 | the sanitised host name has the same length; each `.` and `_` becomes `-` and every other character is its lower-cased original, so the result contains no `.`, no `_` and no upper-case ASCII letter |
| Provider.ServiceName | src/traefik/provider.rs:211-222 | the name starts with `tailscale-` and the sanitised host name, and for any descriptor other than `default` continues with `-` and the descriptor's name |
| Provider.RouterName | src/traefik/provider.rs:225-232 | the router name ends with `-router`, and removing that suffix gives the service name |
| Provider.ServiceNameShape | src/traefik/provider.rs:211-222 | the service name is `tailscale-` followed by the sanitised host name; it stops there exactly for the `default` descriptor |
| Provider.ServiceNameInjective | src/traefik/provider.rs:211-222 | within one peer, distinct descriptor names give distinct service names |
| Provider.RouterNameInjective | src/traefik/provider.rs:225-232 | within one peer, distinct descriptor names give distinct router names |
| Provider.HostnamesCollide | src/traefik/provider.rs:216 | `Web.Box` and `web_box` get the same service name for every descriptor, so the later peer's entry replaces the earlier one |
| Provider.HttpServiceFor | src/traefik/provider.rs:308-339 | there is no service exactly when the peer has no address; otherwise one weight-1 server at `scheme://ip0:port`, and a health check (`30s`, `5s`) exactly when a path is configured |
| Provider.TcpServiceFor | src/traefik/provider.rs:377-400 | there is no service exactly when the peer has no address; otherwise one weight-1 server at `ip0:port` |
| Provider.UdpServiceFor | src/traefik/provider.rs:431-454 | there is no service exactly when the peer has no address; otherwise one weight-1 server at `ip0:port` |
| Provider.HttpBackendPort | src/traefik/provider.rs:318-325 | the last `:`-field of the server URL parses back as the descriptor's port, or as the default port when it has none |
| Provider.TcpBackendPort | src/traefik/provider.rs:387-393 | the last `:`-field of the TCP address parses back as the descriptor's port, or the default |
| Provider.UdpBackendPort | src/traefik/provider.rs:441-447 | the last `:`-field of the UDP address parses back as the descriptor's port, or the default |
| Provider.HttpRouterFor | src/traefik/provider.rs:342-369 | the router points at the given service name, has no middlewares, priority or TLS, and its rule is ``Host(`d`)`` for a mapped domain `d`, otherwise the catch-all rule |
| Provider.HttpRuleDefaultIffUnmapped | src/traefik/provider.rs:349-374 | the HTTP rule is ``HostRegexp(`.*`)`` exactly when the descriptor has no custom domain |
| Provider.DomainFor | src/traefik/provider.rs:349-350 | a domain is found exactly when a domain table is configured and has the descriptor's name as a key, and it is that key's value |
| Provider.TcpRouterFor | src/traefik/provider.rs:403-428 | the router points at the given service name, has no TLS, and its rule is ``HostSNI(`d`)`` for a mapped domain `d`, otherwise ``HostSNI(`*`)`` |
| Provider.TcpRuleWildcardIff | src/traefik/provider.rs:410-421 | the TCP rule is the SNI wildcard exactly when there is no custom domain or the domain is `*` |
| Provider.UdpRouterFor | src/traefik/provider.rs:457-467 | a UDP router holds nothing but the service name it points at |
| Provider.NewProvider | src/traefik/provider.rs:16-27 | an explicit socket path takes precedence over the platform default: construction succeeds exactly when the chosen descriptor gives a client, the provider holds that client, and it keeps the policy |
| Provider.Assemble | src/traefik/provider.rs:120-146 | a section is absent exactly when both of its maps are empty; a present section holds those maps, and HTTP has no middlewares |
| Provider.InsertServiceInfo | src/traefik/provider.rs:76-116 | the method's six new maps are exactly those of `AddServiceInfo`: the service under its generated name and, only when the service exists, the router under the router name |
| Provider.InsertServiceInfos | src/traefik/provider.rs:75-117 | the inner loop yields the fold `AddServiceInfos` over the peer's descriptors in order |
| Provider.SynthesizeConfig | src/traefik/provider.rs:39-152 | the nested loops and the section assembly yield `ConfigFor`: the empty document without a peer map, otherwise the assembled fold over the peers |
| Provider.GenerateConfig | src/traefik/provider.rs:30-153 | a failed fetch is returned as it is; otherwise the result is the document for the fetched status |
| Provider.HttpInsertKeepsRouters | src/traefik/provider.rs:84-88 | inserting a service together with a router pointing at it keeps every HTTP router resolvable |
| Provider.TcpInsertKeepsRouters | src/traefik/provider.rs:96-100 | the same for TCP |
| Provider.UdpInsertKeepsRouters | src/traefik/provider.rs:108-112 | the same for UDP |
| Provider.AddServiceInfoKeepsRouters | src/traefik/provider.rs:79-116 | one descriptor step keeps every router of each section pointing at a service of that section |
| Provider.AddServiceInfosKeepsRouters | src/traefik/provider.rs:75-117 | the inner loop keeps that invariant |
| Provider.AddPeersKeepsRouters | src/traefik/provider.rs:66-118 | the outer loop keeps that invariant |
| Provider.GeneratedRoutersResolve | src/traefik/provider.rs:47-152 | in every generated document, each router's `service` is a service key of the same section |
| Provider.AddressLessPeerAddsNothing | src/traefik/provider.rs:313-316 | a peer without addresses leaves all six maps unchanged |
| Provider.Contributing | src/traefik/provider.rs:66-70 | the peers kept are exactly the present entries that pass the filter: each kept entry is present and admitted, and each present, admitted entry is kept |
| Provider.SkippedPeersAddNothing | src/traefik/provider.rs:66-70 | dropping null entries and excluded peers does not change the fold |
| Provider.LaterPeerOverwrites | src/traefik/provider.rs:79-116 | whatever earlier peers generated, the last descriptor of an included final peer with an address leaves its own service under its service name and its own router under its router name, in the section of its protocol (HTTP, TCP or UDP) |
| Provider.NoPeerMap | src/traefik/provider.rs:47-64 | without a peer map all three sections are present and empty, and the document's `http` is not `null` |
| Provider.EmptyPeerMap | src/traefik/provider.rs:120-152 | an empty peer map gives three absent sections, each serialised as `null` |
| Provider.SingleDefaultPeer | src/traefik/provider.rs:66-118 | under the default policy one online, untagged peer with an address yields exactly one HTTP service at `http://ip0:80` with the default health check, and one catch-all router |
| TraefikConfig.DocumentKeys | src/traefik/config.rs:5-10 | the document always has exactly the keys `http`, `tcp`, `udp`, and a section is `null` exactly when it is absent |
| TraefikConfig.HttpConfigKeys | src/traefik/config.rs:12-18 | an HTTP section starts with `routers` and `services`; `middlewares` is written exactly when there is a middleware |
| TraefikConfig.RouterKeys | src/traefik/config.rs:32-42 | a router starts with `rule` and `service`; `middlewares`, `priority` and `tls` are each written exactly when present |
| TraefikConfig.ServerKeys | src/traefik/config.rs:57-62 | a server starts with `url`; `weight` is written exactly when present, for HTTP, TCP and UDP servers |
| TraefikConfig.HealthCheckKeys | src/traefik/config.rs:64-71 | a health check starts with `path`; `interval` and `timeout` are each written exactly when present |
| TraefikConfig.ServiceKeys | src/traefik/config.rs:44-55 | an HTTP service has only `loadBalancer`, which starts with `servers` and has `health_check` exactly when present |
| TraefikConfig.StreamKeys | src/traefik/config.rs:101-149 | TCP and UDP services nest only `servers` under `loadBalancer`; a TCP router has `rule`, `service` and an optional `tls`; a UDP router has only `service` |
| TailscaleTypes.TaildropFromI32 | src/tailscale/types.rs:298-313 | codes 0 to 9 select the variants in declaration order; every other code is `Unknown` |
| TailscaleTypes.TaildropToI32 | src/tailscale/types.rs:316-320 | a variant encodes to its position in declaration order |
| TailscaleTypes.TaildropRoundTrip | src/tailscale/types.rs:298-320 | decoding the code of a status gives back the status |
| TailscaleTypes.TaildropCodeRoundTrip | src/tailscale/types.rs:298-320 | encoding a decoded code gives back the code exactly for 0 to 9 |
| TailscaleTypes.TaildropNamesDistinct | src/tailscale/types.rs:322-336 | distinct statuses display differently |
| TailscaleTypes.TaildropName | src/tailscale/types.rs:322-336 | each status displays as its variant's identifier, which is non-empty and starts with a capital letter |
| Client.FromSocketPath | src/tailscale/client.rs:80-140 | a `tcp://` descriptor selects the TCP transport; any other path is kept unchanged as a socket (Unix) or pipe (Windows) path, and is an error elsewhere |
| Client.TcpDescriptorWithToken | src/tailscale/client.rs:86-95 | three or more `:`-parts give base URL `http://p0:p1` and token `p2`; later parts are ignored |
| Client.TcpDescriptorWithoutToken | src/tailscale/client.rs:96-104 | fewer parts give base URL `http://` followed by the rest, with no token |
| Client.NewClient | src/tailscale/client.rs:69-74 | a platform error becomes a socket-connection error with its text; a default path is parsed like any descriptor |
| Client.DefaultClients | src/tailscale/client.rs:69-74 | the Linux and Windows defaults select the socket and pipe transports |
| Client.TcpDescriptorRoundTrip | src/tailscale/client.rs:86-95 | three `:`-free fields joined by `:` after `tcp://` parse back into `http://addr:port` and the token |
| Client.SameUserDescriptorRoundTrip | src/platform/mod.rs:109 | the loopback descriptor of either macOS variant parses back into `http://127.0.0.1:port` and the same token, when neither contains `:` |
| Client.LsofDescriptorRoundTrip | src/platform/mod.rs:136-143 | for the `lsof` variant only the token needs to be `:`-free, because a valid port never contains `:` |
| Client.StatusPath | src/tailscale/client.rs:151-155 | the path is `/localapi/v0/status` when peers are requested and `/localapi/v0/status?peers=false` otherwise |
| Client.BasicCredentialRoundTrip | src/tailscale/client.rs:209-212 | the credential starts with `Basic `, and decoding the rest gives the UTF-8 bytes of `":" + token` (empty user-id, RFC 7617 section 2) |
| Client.BuildRequest | src/tailscale/client.rs:202-218 | every request is a GET to the target with the fixed `Host` header, plus `Authorization` exactly when a token is given |
| Client.StatusRequest | src/tailscale/client.rs:157-197 | a GET whose target is the socket (Unix) or pipe (Windows) with the status path, or the base URL followed by the path (TCP); only a TCP client with a token sends `Authorization` |
| Client.HandleResponse | src/tailscale/client.rs:220-247 | a non-2xx code is an API error with that code; on 2xx the result is the decoded status, a socket-connection error when the body cannot be read, or a JSON error when it cannot be decoded |
| Client.FailedStatusIgnoresBody | src/tailscale/client.rs:224-231 | on a non-2xx code the body does not affect the result |
| Client.GetStatusWithPeers | src/tailscale/client.rs:150-200 | a send failure is a socket-connection error; a reply is classified by `HandleResponse` |
| Client.GetStatus | src/tailscale/client.rs:142-144 | the full status is requested with peers: a send failure is a socket-connection error, and a reply to the peer request is classified by `HandleResponse` |
| Client.TestConnection | src/tailscale/client.rs:249-251 | the test succeeds exactly when the peer-less status request succeeds, and otherwise returns its error |
| Client.TestConnectionUsesPeerlessPath | src/tailscale/client.rs:249-251 | the test depends only on the reply to the peer-less request |
| Platform.ReadMacsysSameUserProof | src/platform/mod.rs:74-110 | success exactly when the link, the file, a non-empty trimmed token and the probe all succeed; the result is `tcp://127.0.0.1:port:token`; every failure is `SocketNotFound` |
| Platform.PlatformErrorText | src/platform/mod.rs:11-21 | the message is longer than the error's own text and ends with it |
| Platform.PlatformErrorTextInjective | src/platform/mod.rs:11-21 | distinct errors give distinct messages |
| Platform.MacsysTokenIsTrimmed | src/platform/mod.rs:91-96 | the token handed on is non-empty and neither starts nor ends with whitespace |
| Platform.ProofOfLine | src/platform/mod.rs:137-145 | a line without the marker yields nothing, and the port of any proof it yields parses as a `u16` |
| Platform.ProofOfLineShape | src/platform/mod.rs:137-145 | a proof's port contains no `-`, and port, `-` and token are exactly the text after the first marker |
| Platform.ProofOfMarkerLine | src/platform/mod.rs:137-144 | the marker, a printed port, `-` and a token yield exactly that port and token, even when the token contains `-` |
| Platform.FirstProofIsFirst | src/platform/mod.rs:136-147 | the scan's result comes from a line all of whose predecessors yield nothing; no result means no line yields one |
| Platform.FirstProof | src/platform/mod.rs:136-147 | any result is a loopback descriptor starting with `tcp://127.0.0.1:` |
| Platform.FirstProofAt | src/platform/mod.rs:136-147 | from line `i` on, the first proof is line `i`'s own when it yields one, and otherwise the first proof from line `i + 1` on |
| Platform.ReadMacosSameUserProof | src/platform/mod.rs:114-152 | the scan equals `MacosSameUserProof`: spawn and exit failures, the first matching line, or `SocketNotFound` |
| Platform.MacosLocalapiEndpoint | src/platform/mod.rs:56-70 | a MacSys endpoint is returned when there is one; otherwise the App Store endpoint when there is one; when both fail the result is a fixed `SocketNotFound` |
| Platform.DefaultSocketPath | src/platform/mod.rs:29-52 | Linux gets the fixed socket, Windows the fixed pipe, macOS the probe result, and other systems `UnsupportedOS` |
| Platform.DefaultPathsAreNotTcp | src/platform/mod.rs:30-44 | neither fixed path is a `tcp://` descriptor, and the pipe lives in the `\\.\pipe\` namespace |
| Encoding.Base64Encode | src/tailscale/client.rs:211 | the encoding has `4 * ceil(n / 3)` characters, all from the base64 alphabet or `=` |
| Encoding.Base64RoundTrip | src/tailscale/client.rs:211 | base64 decoding undoes base64 encoding |
| Encoding.DecodeUtf8OfEncoding | src/tailscale/client.rs:210-211 | decoding the UTF-8 bytes of a string gives the string back |
| Text.FindIsFirst | src/platform/mod.rs:137 | `find` reports the first occurrence, and `None` only when the pattern occurs nowhere |
| Text.IndexOfChar | src/platform/mod.rs:139 | the first `-` of the suffix, or `None` exactly when there is none |
| Text.ParseU16OfNatToString | src/config/mod.rs:254 | a printed port parses back as itself |
| Text.JoinSplit | src/config/mod.rs:296-297 | joining the segments of a split gives the string back |
| App.SlotHoldsLatestSuccess | src/main.rs:95-111 | after any run of refreshes the slot holds the latest successful generation, or its old value when all failed; a filled slot never empties |
| App.ConfigCache.constructor | src/main.rs:83 | the slot starts empty |
| App.ConfigCache.Refresh | src/main.rs:100-108 | a successful generation replaces the slot; a failed one leaves it unchanged |
| App.ConfigCache.GetDynamicConfig | src/main.rs:175-198 | a filled slot is served with status 200 and no generation; an empty one generates once, stores and serves a success, and answers 503 and stays empty on failure |
| App.Startup | src/main.rs:75-123 | a provider or connection-test error ends start-up before any cache exists; otherwise a fresh cache holds the result of the initial load |

## Left out

- The async runtime, `RwLock`, the interval timer and the spawned refresh task are not modelled. Refresh ticks and requests are sequential calls on `App.ConfigCache`.
- App.Startup: models the initial load only. The first tick of the spawned task, which runs beside it, is one more `Refresh` call.
- App.ConfigCache.GetDynamicConfig: the number of generations is a ghost out-parameter. It counts calls of `generate_config`, so this part of the contract is not available to compiled callers.
- Transports, connection pools, body collection, the hex encoding of pipe paths and the `serde_json` decoding of `Status` are not modelled. A reply is a status code plus an abstract decode outcome.
- Client.StatusRequest: the `Invalid URI` error of the pipe and TCP branches is left out. The target is kept as a socket, pipe or URL value.
- Client.BuildRequest: the builder's own failure is never taken for these inputs, so it is not modelled.
- Client.TailscaleError: library errors are reduced to their messages. `ApiError` keeps the status code, not the reason phrase.
- `ProviderConfig::from_env` and the `.env` loading are environment I/O. `SERVER_PORT` and the `/`, `/status` and `/docs` endpoints are HTTP plumbing.
- The macOS filesystem, the one-second TCP probe and the `lsof` subprocess are inputs to the model.
- Platform.ReadMacsysSameUserProof: the panic of `addr.parse().unwrap()` on a link target that is not a port is not modelled. The probe result is an input.
- Provider.ShouldIncludePeer: one clock reading `now` serves a whole generation, where the source reads the clock for each peer.
- Provider.ShouldIncludePeer: timestamps are whole seconds, so sub-second truncation by `num_seconds` is not modelled.
- `HashMap` iteration order is not modelled. The peer map is a sequence in iteration order, and name collisions are last-write-wins relative to that order.
- The JSON maps (`Dict`) carry no key order.
- Text.ToLower: lower-cases ASCII letters only; Rust's full Unicode `to_lowercase` is not modelled. This affects `Protocol::from_str`, the `https` test and host-name sanitising.
- Fields of `Status` and `PeerStatus` that no modelled code reads are left out, including the `f64` coordinates of `Location`.
- Log messages and `tracing` calls are left out.
