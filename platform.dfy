/** Where the Tailscale daemon's local API is found on each operating
    system (src/platform/mod.rs). The filesystem, the TCP probe and the
    `lsof` subprocess are inputs: their results are passed in. */
module Platform {
  import opened Wrappers
  import opened Text

  datatype PlatformError =
    | UnsupportedOS(os: string)
    | SocketNotFound(reason: string)
    | PermissionDenied(reason: string)

  /** The text an error carries. */
  function PlatformErrorDetail(e: PlatformError): string {
    match e
    case UnsupportedOS(os) => os
    case SocketNotFound(path) => path
    case PermissionDenied(msg) => msg
  }

  /** `Display` for `PlatformError`: a fixed phrase per variant, then the
      error's own text. */
  function PlatformErrorText(e: PlatformError): (r: string)
    ensures |r| > |PlatformErrorDetail(e)|
    ensures r[|r| - |PlatformErrorDetail(e)|..] == PlatformErrorDetail(e)
  {
    match e
    case UnsupportedOS(os) => "Unsupported operating system: " + os
    case SocketNotFound(path) => "Tailscale socket not found at: " + path
    case PermissionDenied(msg) => "Permission denied: " + msg
  }

  /** The message loses nothing: distinct errors display differently. */
  lemma PlatformErrorTextInjective(e: PlatformError, f: PlatformError)
    ensures PlatformErrorText(e) == PlatformErrorText(f) ==> e == f
  {
    if PlatformErrorText(e) == PlatformErrorText(f) {
      var t := PlatformErrorText(e);
      assert t[0] == PlatformErrorText(f)[0];
      var n := |t| - |PlatformErrorDetail(e)|;
      assert e.UnsupportedOS? <==> f.UnsupportedOS?;
      assert e.SocketNotFound? <==> f.SocketNotFound?;
      assert |PlatformErrorDetail(e)| == |PlatformErrorDetail(f)|;
      assert PlatformErrorDetail(e) == t[n..] == PlatformErrorDetail(f);
    }
  }

  /** The operating system the provider was built for. */
  datatype TargetOs = Linux | MacOs | Windows | OtherOs(name: string)

  const LinuxSocketPath := "/var/run/tailscale/tailscaled.sock"

  /** The namespace prefix `\\.\pipe\` of Windows named pipes. */
  const PipeNamespace := "\\\\.\\pipe\\"

  /** The Windows named pipe `\\.\pipe\ProtectedPrefix\Administrators\Tailscale\tailscaled`. */
  const WindowsPipePath := PipeNamespace + "ProtectedPrefix\\Administrators\\Tailscale\\tailscaled"

  const SharedDir := "/Library/Tailscale"

  /** The loopback descriptor both macOS variants produce; the client
      parses it back into an address and a token. */
  function SameUserDescriptor(port: string, token: string): string {
    "tcp://127.0.0.1:" + port + ":" + token
  }

  // ---------------------------------------------------------------------
  // MacSys (standalone) variant
  // ---------------------------------------------------------------------

  /** `read_macsys_same_user_proof`. `portLink` is the target of the
      `ipnport` symlink (`None` when it cannot be read), `readFile` reads a
      file by path and `reachable` is the one-second connect probe. */
  function ReadMacsysSameUserProof(portLink: Option<string>, readFile: string -> Option<string>,
                                   reachable: string -> bool): (r: Result<string, PlatformError>)
    ensures r.Ok? <==>
      portLink.Some?
      && readFile(SharedDir + "/sameuserproof-" + portLink.value).Some?
      && |Trim(readFile(SharedDir + "/sameuserproof-" + portLink.value).value)| > 0
      && reachable("127.0.0.1:" + portLink.value)
    ensures r.Ok? ==>
      r.value == SameUserDescriptor(portLink.value, Trim(readFile(SharedDir + "/sameuserproof-" + portLink.value).value))
    ensures r.Err? ==> r.error.SocketNotFound?
  {
    match portLink
    case None => Err(SocketNotFound("ipnport symlink not found"))
    case Some(portStr) =>
      match readFile(SharedDir + "/sameuserproof-" + portStr)
      case None => Err(SocketNotFound("sameuserproof file not found"))
      case Some(authContent) =>
        var token := Trim(authContent);
        if |token| == 0 then Err(SocketNotFound("empty auth token"))
        else if !reachable("127.0.0.1:" + portStr) then Err(SocketNotFound("port not reachable"))
        else Ok(SameUserDescriptor(portStr, token))
  }

  /** The token the MacSys variant hands on is never empty and has no
      surrounding whitespace. */
  lemma MacsysTokenIsTrimmed(content: string)
    requires |Trim(content)| > 0
    ensures !IsWhitespace(Trim(content)[0]) && !IsWhitespace(Trim(content)[|Trim(content)| - 1])
  {
    TrimmedEnds(content);
  }

  // ---------------------------------------------------------------------
  // App Store variant: scanning `lsof -F` output
  // ---------------------------------------------------------------------

  const SearchPattern := ".tailscale.ipn.macos/sameuserproof-"

  /** What one line of `lsof` output yields: the port text and the token
      after the first marker, when the text up to the first `-` is a
      valid `u16` (see also `ProofOfLineShape`). */
  function ProofOfLine(line: string): (r: Option<(string, string)>)
    ensures Find(line, SearchPattern).None? ==> r.None?
    ensures r.Some? ==> ParseU16(r.value.0).Some?
  {
    match Find(line, SearchPattern)
    case None => None
    case Some(pos) =>
      var suffix := line[pos + |SearchPattern|..];
      match IndexOfChar(suffix, '-')
      case None => None
      case Some(dash) =>
        var portStr := suffix[..dash];
        var token := suffix[dash + 1..];
        if ParseU16(portStr).Some? then Some((portStr, token)) else None
  }

  /** A proof's port is dash-free, and the port and token are exactly the
      text after the first marker. */
  lemma ProofOfLineShape(line: string)
    ensures ProofOfLine(line).Some? ==>
      '-' !in ProofOfLine(line).value.0
      && Find(line, SearchPattern).Some?
      && line[Find(line, SearchPattern).value + |SearchPattern|..]
         == ProofOfLine(line).value.0 + "-" + ProofOfLine(line).value.1
  {
    match Find(line, SearchPattern)
    case None =>
    case Some(pos) =>
      var suffix := line[pos + |SearchPattern|..];
      match IndexOfChar(suffix, '-')
      case None =>
      case Some(dash) =>
        var port, token := suffix[..dash], suffix[dash + 1..];
        assert suffix == port + "-" + token by {
          assert suffix == suffix[..dash] + [suffix[dash]] + suffix[dash + 1..];
        }
        if ParseU16(port).Some? {
          assert ProofOfLine(line) == Some((port, token));
        } else {
          assert ProofOfLine(line).None?;
        }
  }

  /** The first line of `lines` that yields a proof. */
  function FirstProof(lines: seq<string>): (r: Option<string>)
    ensures r.Some? ==> StartsWith(r.value, "tcp://127.0.0.1:")
  {
    if |lines| == 0 then None
    else match ProofOfLine(lines[0])
      case Some((port, token)) => Some(SameUserDescriptor(port, token))
      case None => FirstProof(lines[1..])
  }

  /** The first proof comes from a line every earlier line of which yields
      nothing; no proof means no line yields one. */
  lemma {:induction false} FirstProofIsFirst(lines: seq<string>)
    ensures FirstProof(lines).None? <==> forall i :: 0 <= i < |lines| ==> ProofOfLine(lines[i]).None?
    ensures FirstProof(lines).Some? ==>
      exists i :: 0 <= i < |lines| && ProofOfLine(lines[i]).Some?
        && FirstProof(lines) == Some(SameUserDescriptor(ProofOfLine(lines[i]).value.0, ProofOfLine(lines[i]).value.1))
        && forall j :: 0 <= j < i ==> ProofOfLine(lines[j]).None?
  {
    if |lines| > 0 {
      FirstProofIsFirst(lines[1..]);
      if ProofOfLine(lines[0]).None? {
        forall i | 0 <= i < |lines[1..]| ensures lines[1..][i] == lines[i + 1] { }
        if FirstProof(lines).Some? {
          var k :| 0 <= k < |lines[1..]| && ProofOfLine(lines[1..][k]).Some?
            && FirstProof(lines[1..]) == Some(SameUserDescriptor(ProofOfLine(lines[1..][k]).value.0, ProofOfLine(lines[1..][k]).value.1))
            && forall j :: 0 <= j < k ==> ProofOfLine(lines[1..][j]).None?;
          assert lines[k + 1] == lines[1..][k];
          forall j | 0 <= j < k + 1 ensures ProofOfLine(lines[j]).None? {
            if j > 0 {
              assert lines[j] == lines[1..][j - 1];
            }
          }
        } else {
          forall i | 0 <= i < |lines| ensures ProofOfLine(lines[i]).None? {
            if i > 0 {
              assert lines[i] == lines[1..][i - 1];
            }
          }
        }
      }
    }
  }

  /** The outcome of running `lsof`: it could not be started, or it exited
      with a success flag and its standard output. */
  datatype LsofOutcome = SpawnFailed | Exited(success: bool, stdout: string)

  /** What `read_macos_same_user_proof` returns for an `lsof` outcome. */
  function MacosSameUserProof(lsof: LsofOutcome): Result<string, PlatformError> {
    match lsof
    case SpawnFailed => Err(SocketNotFound("lsof command failed"))
    case Exited(success, stdout) =>
      if !success then Err(SocketNotFound("lsof failed"))
      else match FirstProof(Lines(stdout))
        case Some(d) => Ok(d)
        case None => Err(SocketNotFound("No IPNExtension sameuserproof found"))
  }

  /** One step of the scan: the first proof from line `i` on is that line's,
      or else the first proof from line `i + 1` on. */
  lemma FirstProofAt(lines: seq<string>, i: nat)
    requires i < |lines|
    ensures FirstProof(lines[i..]) == match ProofOfLine(lines[i])
                                      case Some((port, token)) => Some(SameUserDescriptor(port, token))
                                      case None => FirstProof(lines[i + 1..])
  {
    assert lines[i..][0] == lines[i];
    assert lines[i..][1..] == lines[i + 1..];
  }

  /** `read_macos_same_user_proof`: scans the output line by line and
      returns at the first line that yields a proof. */
  method ReadMacosSameUserProof(lsof: LsofOutcome) returns (r: Result<string, PlatformError>)
    ensures r == MacosSameUserProof(lsof)
  {
    if lsof.SpawnFailed? {
      return Err(SocketNotFound("lsof command failed"));
    }
    if !lsof.success {
      return Err(SocketNotFound("lsof failed"));
    }
    var lines := Lines(lsof.stdout);
    var i := 0;
    while i < |lines|
      invariant 0 <= i <= |lines|
      invariant FirstProof(lines) == FirstProof(lines[i..])
    {
      FirstProofAt(lines, i);
      var line := lines[i];
      var pos := Find(line, SearchPattern);
      if pos.Some? {
        var suffix := line[pos.value + |SearchPattern|..];
        var dash := IndexOfChar(suffix, '-');
        if dash.Some? {
          var portStr, token := suffix[..dash.value], suffix[dash.value + 1..];
          if ParseU16(portStr).Some? {
            assert ProofOfLine(line) == Some((portStr, token));
            return Ok(SameUserDescriptor(portStr, token));
          }
        }
      }
      assert ProofOfLine(line).None?;
      i := i + 1;
    }
    return Err(SocketNotFound("No IPNExtension sameuserproof found"));
  }

  /** A line consisting of the marker, a printed port, a dash and a token
      yields exactly that port and token (the token may contain dashes). */
  lemma ProofOfMarkerLine(port: uint16, token: string)
    ensures ProofOfLine(SearchPattern + NatToString(port) + "-" + token) == Some((NatToString(port), token))
  {
    var ps := NatToString(port);
    var line := SearchPattern + ps + "-" + token;
    assert line[..|SearchPattern|] == SearchPattern;
    assert Find(line, SearchPattern) == Some(0);
    var suffix := line[|SearchPattern|..];
    assert suffix == ps + "-" + token;
    AllDigitsHasNoSeparator(ps, '-');
    assert suffix[|ps|] == '-';
    assert suffix[..|ps|] == ps;
    assert IndexOfChar(suffix, '-') == Some(|ps|);
    assert suffix[|ps| + 1..] == token;
    ParseU16OfNatToString(port);
  }

  // ---------------------------------------------------------------------
  // Choosing the endpoint
  // ---------------------------------------------------------------------

  /** `get_macos_localapi_endpoint`: MacSys first, then the App Store
      variant, otherwise `SocketNotFound`. */
  function MacosLocalapiEndpoint(macsys: Result<string, PlatformError>, appStore: Result<string, PlatformError>)
    : (r: Result<string, PlatformError>)
    ensures r.Ok? <==> macsys.Ok? || appStore.Ok?
    ensures macsys.Ok? ==> r == macsys
    ensures macsys.Err? && appStore.Ok? ==> r == appStore
    ensures r.Err? ==> r.error == SocketNotFound("No Tailscale LocalAPI credentials found")
  {
    if macsys.Ok? then macsys
    else if appStore.Ok? then appStore
    else Err(SocketNotFound("No Tailscale LocalAPI credentials found"))
  }

  /** `default_socket_path` on `os`; on macOS the two probes' results are
      combined by `MacosLocalapiEndpoint`. */
  function DefaultSocketPath(os: TargetOs, macsys: Result<string, PlatformError>, appStore: Result<string, PlatformError>)
    : (r: Result<string, PlatformError>)
    ensures os == Linux ==> r == Ok(LinuxSocketPath)
    ensures os == Windows ==> r == Ok(WindowsPipePath)
    ensures os.OtherOs? ==> r == Err(UnsupportedOS(os.name))
    ensures os == MacOs ==> r == MacosLocalapiEndpoint(macsys, appStore)
  {
    match os
    case Linux => Ok(LinuxSocketPath)
    case MacOs => MacosLocalapiEndpoint(macsys, appStore)
    case Windows => Ok(WindowsPipePath)
    case OtherOs(name) => Err(UnsupportedOS(name))
  }

  /** The fixed paths: neither is a `tcp://` descriptor, so the client
      treats both as socket or pipe paths. */
  lemma DefaultPathsAreNotTcp()
    ensures !StartsWith(LinuxSocketPath, "tcp://") && !StartsWith(WindowsPipePath, "tcp://")
    ensures StartsWith(WindowsPipePath, PipeNamespace)
  {
    assert LinuxSocketPath[0] != 't';
    assert WindowsPipePath[0] != 't';
  }
}
