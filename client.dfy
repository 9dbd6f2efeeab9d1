/** The Tailscale local API client (src/tailscale/client.rs): which
    transport a socket descriptor selects, which request is sent, and how a
    response is classified. Sending the request is an input function. */
module Client {
  import opened Wrappers
  import opened Text
  import opened Encoding
  import opened TailscaleTypes
  import opened Platform

  /** The error classes of `TailscaleError`; the underlying library errors
      are reduced to their messages. An API error keeps its status code. */
  datatype TailscaleError =
    | SocketConnection(msg: string)
    | HttpRequest(msg: string)
    | JsonParse(msg: string)
    | ApiError(code: nat)

  /** Which of `cfg(unix)` and `cfg(windows)` the provider was built with. */
  datatype HostFamily = UnixHost | WindowsHost | OtherHost

  /** `TailscaleClient` without its connection pools. */
  datatype TailscaleClient =
    | Unix(socketPath: string)
    | NamedPipe(pipePath: string)
    | Tcp(baseUrl: string, token: Option<string>)

  const TcpScheme := "tcp://"
  const Loopback := "127.0.0.1"

  /** `from_socket_path`. A `tcp://host:port:token` descriptor selects the
      loopback TCP transport; anything else is a socket or pipe path, which
      only Unix and Windows builds support. */
  function FromSocketPath(host: HostFamily, socketPath: string): (r: Result<TailscaleClient, TailscaleError>)
    ensures StartsWith(socketPath, TcpScheme) ==> r.Ok? && r.value.Tcp?
    ensures !StartsWith(socketPath, TcpScheme) ==>
      match host
      case UnixHost => r == Ok(Unix(socketPath))
      case WindowsHost => r == Ok(NamedPipe(socketPath))
      case OtherHost => r.Err? && r.error.SocketConnection?
  {
    if StartsWith(socketPath, TcpScheme) then
      var rest := StripPrefix(socketPath, TcpScheme);
      var parts := Split(rest, ':');
      if |parts| >= 3 then Ok(Tcp("http://" + parts[0] + ":" + parts[1], Some(parts[2])))
      else Ok(Tcp("http://" + rest, None))
    else
      match host
      case UnixHost => Ok(Unix(socketPath))
      case WindowsHost => Ok(NamedPipe(socketPath))
      case OtherHost => Err(SocketConnection("Platform not supported"))
  }

  /** Three or more `:`-separated parts after `tcp://`: the first two form
      the address, the third is the token and the rest is ignored. */
  lemma TcpDescriptorWithToken(host: HostFamily, rest: string)
    requires |Split(rest, ':')| >= 3
    ensures var parts := Split(rest, ':');
            FromSocketPath(host, TcpScheme + rest) == Ok(Tcp("http://" + parts[0] + ":" + parts[1], Some(parts[2])))
  {
    assert (TcpScheme + rest)[..|TcpScheme|] == TcpScheme;
    assert (TcpScheme + rest)[|TcpScheme|..] == rest;
  }

  /** Fewer parts: the whole rest is the address and there is no token. */
  lemma TcpDescriptorWithoutToken(host: HostFamily, rest: string)
    requires |Split(rest, ':')| < 3
    ensures FromSocketPath(host, TcpScheme + rest) == Ok(Tcp("http://" + rest, None))
  {
    assert (TcpScheme + rest)[..|TcpScheme|] == TcpScheme;
    assert (TcpScheme + rest)[|TcpScheme|..] == rest;
  }

  /** `TailscaleClient::new`: the platform's default path, or its error as
      a connection error. */
  function NewClient(host: HostFamily, defaultPath: Result<string, PlatformError>): (r: Result<TailscaleClient, TailscaleError>)
    ensures defaultPath.Err? ==> r == Err(SocketConnection(PlatformErrorText(defaultPath.error)))
    ensures defaultPath.Ok? ==> r == FromSocketPath(host, defaultPath.value)
  {
    match defaultPath
    case Err(e) => Err(SocketConnection(PlatformErrorText(e)))
    case Ok(path) => FromSocketPath(host, path)
  }

  /** The platform defaults on Linux and Windows select the socket and
      pipe transports. */
  lemma DefaultClients()
    ensures NewClient(UnixHost, DefaultSocketPath(Linux, Err(SocketNotFound("")), Err(SocketNotFound(""))))
         == Ok(Unix(LinuxSocketPath))
    ensures NewClient(WindowsHost, DefaultSocketPath(Windows, Err(SocketNotFound("")), Err(SocketNotFound(""))))
         == Ok(NamedPipe(WindowsPipePath))
  {
    DefaultPathsAreNotTcp();
  }

  /** A descriptor of three `:`-free fields selects that address and token. */
  lemma TcpDescriptorRoundTrip(host: HostFamily, addr: string, port: string, token: string)
    requires ':' !in addr && ':' !in port && ':' !in token
    ensures FromSocketPath(host, TcpScheme + (addr + [':'] + port + [':'] + token))
            == Ok(Tcp("http://" + addr + ":" + port, Some(token)))
  {
    SplitThree(addr, port, token, ':');
    TcpDescriptorWithToken(host, addr + [':'] + port + [':'] + token);
  }

  /** Cross-file round trip: the loopback descriptor either macOS variant
      produces is parsed back into the address `127.0.0.1:port` and the same
      token, provided neither contains a `:`. */
  lemma SameUserDescriptorRoundTrip(host: HostFamily, port: string, token: string)
    requires ':' !in port && ':' !in token
    ensures FromSocketPath(host, SameUserDescriptor(port, token)) == Ok(Tcp("http://127.0.0.1:" + port, Some(token)))
  {
    assert ':' !in Loopback;
    assert SameUserDescriptor(port, token) == TcpScheme + (Loopback + [':'] + port + [':'] + token);
    TcpDescriptorRoundTrip(host, Loopback, port, token);
    assert "http://" + Loopback + ":" + port == "http://127.0.0.1:" + port;
  }

  /** For the App Store variant the condition on the port always holds: a
      port that parses as a `u16` has no `:`. */
  lemma LsofDescriptorRoundTrip(host: HostFamily, line: string)
    requires ProofOfLine(line).Some?
    requires ':' !in ProofOfLine(line).value.1
    ensures var (port, token) := ProofOfLine(line).value;
            FromSocketPath(host, SameUserDescriptor(port, token)) == Ok(Tcp("http://127.0.0.1:" + port, Some(token)))
  {
    var (port, token) := ProofOfLine(line).value;
    ParsedPortHasNoSeparator(port, ':');
    SameUserDescriptorRoundTrip(host, port, token);
  }

  // ---------------------------------------------------------------------
  // Requests
  // ---------------------------------------------------------------------

  const StatusPathWithPeers := "/localapi/v0/status"
  const StatusPathWithoutPeers := "/localapi/v0/status?peers=false"

  /** The request path of `get_status_with_peers`. */
  function StatusPath(includePeers: bool): (p: string)
    ensures StartsWith(p, StatusPathWithPeers)
    ensures p == StatusPathWithPeers <==> includePeers
    ensures !includePeers ==> p == StatusPathWithoutPeers
  {
    if includePeers then StatusPathWithPeers else StatusPathWithoutPeers
  }

  /** The target of a request: a socket or pipe plus a path, or a URL. */
  datatype Target =
    | SocketTarget(socketPath: string, path: string)
    | PipeTarget(pipePath: string, path: string)
    | UrlTarget(url: string)

  datatype Request = Request(verb: string, target: Target, headers: seq<(string, string)>)

  const HostHeader := ("Host", "local-tailscaled.sock")

  /** `Authorization: Basic` with an empty user-id and the token as the
      password (section 2 of RFC 7617), base64 as in section 4 of
      RFC 4648 over the UTF-8 bytes. */
  function BasicCredential(token: string): string {
    "Basic " + Base64Encode(Utf8(":" + token))
  }

  /** The credential names the empty user and the token: decoding what
      follows `Basic ` gives back `":" + token`. */
  lemma BasicCredentialRoundTrip(token: string)
    ensures StartsWith(BasicCredential(token), "Basic ")
    ensures var encoded := BasicCredential(token)[6..];
            Base64Decode(encoded).Some? && DecodeUtf8(Base64Decode(encoded).value) == Some(":" + token)
  {
    var bytes := Utf8(":" + token);
    assert BasicCredential(token)[6..] == Base64Encode(bytes);
    Base64RoundTrip(bytes);
    DecodeUtf8OfEncoding(":" + token);
  }

  /** The headers `build_request` sets for `token`. */
  function RequestHeaders(token: Option<string>): seq<(string, string)> {
    if token.Some? then [HostHeader, ("Authorization", BasicCredential(token.value))] else [HostHeader]
  }

  /** `build_request`: a GET with the fixed `Host` header, plus the
      `Authorization` header exactly when a token is given. */
  method BuildRequest(target: Target, token: Option<string>) returns (r: Request)
    ensures r.verb == "GET" && r.target == target
    ensures |r.headers| >= 1 && r.headers[0] == HostHeader
    ensures token.None? ==> r.headers == [HostHeader]
    ensures token.Some? ==> r.headers == [HostHeader, ("Authorization", BasicCredential(token.value))]
    ensures r.headers == RequestHeaders(token)
  {
    var headers := [HostHeader];
    if token.Some? {
      var authValue := ":" + token.value;
      var encoded := Base64Encode(Utf8(authValue));
      headers := headers + [("Authorization", "Basic " + encoded)];
    }
    r := Request("GET", target, headers);
  }

  /** The request a client sends for `includePeers`. Only the TCP transport
      carries a token; its URL is the base URL followed by the path. */
  function StatusRequest(client: TailscaleClient, includePeers: bool): (r: Request)
    ensures r.verb == "GET"
    ensures client.Tcp? && client.token.Some? ==>
      r.headers == [HostHeader, ("Authorization", BasicCredential(client.token.value))]
    ensures !(client.Tcp? && client.token.Some?) ==> r.headers == [HostHeader]
    ensures client.Tcp? ==> r.target == UrlTarget(client.baseUrl + StatusPath(includePeers))
    ensures client.Unix? ==> r.target == SocketTarget(client.socketPath, StatusPath(includePeers))
    ensures client.NamedPipe? ==> r.target == PipeTarget(client.pipePath, StatusPath(includePeers))
  {
    var path := StatusPath(includePeers);
    match client
    case Unix(s) => Request("GET", SocketTarget(s, path), RequestHeaders(None))
    case NamedPipe(p) => Request("GET", PipeTarget(p, path), RequestHeaders(None))
    case Tcp(base, token) => Request("GET", UrlTarget(base + path), RequestHeaders(token))
  }

  // ---------------------------------------------------------------------
  // Responses
  // ---------------------------------------------------------------------

  /** What reading a response body yields: a transport failure, or bytes
      whose JSON decoding succeeded or failed. */
  datatype Body = BodyFailed(msg: string) | Decoded(status: Status) | Undecodable(msg: string)

  /** What the transport does with a request. */
  datatype Reply = SendFailed(msg: string) | Replied(code: nat, body: Body)

  predicate IsSuccess(code: nat) {
    200 <= code <= 299
  }

  /** `handle_response`. */
  function HandleResponse(code: nat, body: Body): (r: Result<Status, TailscaleError>)
    ensures !IsSuccess(code) ==> r == Err(ApiError(code))
    ensures IsSuccess(code) ==> (r.Ok? <==> body.Decoded?)
    ensures IsSuccess(code) && body.Decoded? ==> r.value == body.status
    ensures IsSuccess(code) && body.BodyFailed? ==> r.error.SocketConnection?
    ensures IsSuccess(code) && body.Undecodable? ==> r.error.JsonParse?
  {
    if !IsSuccess(code) then Err(ApiError(code))
    else
      match body
      case BodyFailed(msg) => Err(SocketConnection("Failed to read response body: " + msg))
      case Undecodable(msg) => Err(JsonParse(msg))
      case Decoded(status) => Ok(status)
  }

  /** A failed status is decided before the body is looked at. */
  lemma FailedStatusIgnoresBody(code: nat, a: Body, b: Body)
    requires !IsSuccess(code)
    ensures HandleResponse(code, a) == HandleResponse(code, b)
  {
  }

  /** `get_status_with_peers` over the transport `send`. */
  function GetStatusWithPeers(client: TailscaleClient, includePeers: bool, send: Request -> Reply)
    : (r: Result<Status, TailscaleError>)
    ensures send(StatusRequest(client, includePeers)).SendFailed? ==> r.Err? && r.error.SocketConnection?
    ensures send(StatusRequest(client, includePeers)).Replied? ==>
      r == HandleResponse(send(StatusRequest(client, includePeers)).code, send(StatusRequest(client, includePeers)).body)
  {
    match send(StatusRequest(client, includePeers))
    case SendFailed(msg) => Err(SocketConnection("Failed to send request: " + msg))
    case Replied(code, body) => HandleResponse(code, body)
  }

  /** `get_status`: the full status, peers included. */
  function GetStatus(client: TailscaleClient, send: Request -> Reply): (r: Result<Status, TailscaleError>)
    ensures send(StatusRequest(client, true)).SendFailed? ==> r.Err? && r.error.SocketConnection?
    ensures send(StatusRequest(client, true)).Replied? ==>
      r == HandleResponse(send(StatusRequest(client, true)).code, send(StatusRequest(client, true)).body)
  {
    GetStatusWithPeers(client, true, send)
  }

  /** `test_connection`: asks without peers and keeps only the outcome. */
  function TestConnection(client: TailscaleClient, send: Request -> Reply): (r: Result<(), TailscaleError>)
    ensures r.Ok? <==> GetStatusWithPeers(client, false, send).Ok?
    ensures r.Err? ==> r.error == GetStatusWithPeers(client, false, send).error
  {
    match GetStatusWithPeers(client, false, send)
    case Ok(_) => Ok(())
    case Err(e) => Err(e)
  }

  /** The connection test only ever sends the peer-less request. */
  lemma TestConnectionUsesPeerlessPath(client: TailscaleClient, send: Request -> Reply, send': Request -> Reply)
    requires send(StatusRequest(client, false)) == send'(StatusRequest(client, false))
    ensures TestConnection(client, send) == TestConnection(client, send')
  {
  }
}
