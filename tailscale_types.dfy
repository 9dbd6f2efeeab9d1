/** The parts of the Tailscale local API status document that the provider
    reads (src/tailscale/types.rs), and the Taildrop target status codec. */
module TailscaleTypes {
  import opened Wrappers
  import opened Text

  /** `TaildropTargetStatus`, carried on the wire as an `i32`. */
  datatype TaildropTargetStatus =
    | Unknown
    | Available
    | NoNetmapAvailable
    | IpnStateNotRunning
    | MissingCap
    | Offline
    | NoPeerInfo
    | UnsupportedOS
    | NoPeerAPI
    | OwnedByOtherUser

  /** The variants in declaration order: variant `i` has discriminant `i`. */
  const TaildropVariants: seq<TaildropTargetStatus> :=
    [Unknown, Available, NoNetmapAvailable, IpnStateNotRunning, MissingCap,
     Offline, NoPeerInfo, UnsupportedOS, NoPeerAPI, OwnedByOtherUser]

  /** `From<i32>`: the codes 0 to 9 select the variants in order, every
      other code is `Unknown`. */
  function TaildropFromI32(v: int32): (s: TaildropTargetStatus)
    ensures 0 <= v < |TaildropVariants| ==> s == TaildropVariants[v]
    ensures !(0 <= v <= 9) ==> s == Unknown
  {
    match v
    case 0 => Unknown
    case 1 => Available
    case 2 => NoNetmapAvailable
    case 3 => IpnStateNotRunning
    case 4 => MissingCap
    case 5 => Offline
    case 6 => NoPeerInfo
    case 7 => UnsupportedOS
    case 8 => NoPeerAPI
    case 9 => OwnedByOtherUser
    case _ => Unknown
  }

  /** `From<TaildropTargetStatus> for i32`: the declared discriminant. */
  function TaildropToI32(s: TaildropTargetStatus): (v: int32)
    ensures 0 <= v < |TaildropVariants| && TaildropVariants[v] == s
  {
    match s
    case Unknown => 0
    case Available => 1
    case NoNetmapAvailable => 2
    case IpnStateNotRunning => 3
    case MissingCap => 4
    case Offline => 5
    case NoPeerInfo => 6
    case UnsupportedOS => 7
    case NoPeerAPI => 8
    case OwnedByOtherUser => 9
  }

  /** `Display`: the variant's identifier, which starts with a capital. */
  function TaildropName(s: TaildropTargetStatus): (r: string)
    ensures |r| > 0 && 'A' <= r[0] <= 'Z'
  {
    match s
    case Unknown => "Unknown"
    case Available => "Available"
    case NoNetmapAvailable => "NoNetmapAvailable"
    case IpnStateNotRunning => "IpnStateNotRunning"
    case MissingCap => "MissingCap"
    case Offline => "Offline"
    case NoPeerInfo => "NoPeerInfo"
    case UnsupportedOS => "UnsupportedOS"
    case NoPeerAPI => "NoPeerAPI"
    case OwnedByOtherUser => "OwnedByOtherUser"
  }

  /** Encoding then decoding is the identity on statuses. */
  lemma TaildropRoundTrip(s: TaildropTargetStatus)
    ensures TaildropFromI32(TaildropToI32(s)) == s
  {
  }

  /** Decoding then encoding gives the code back exactly for 0 to 9. */
  lemma TaildropCodeRoundTrip(v: int32)
    ensures TaildropToI32(TaildropFromI32(v)) == v <==> 0 <= v <= 9
  {
  }

  /** Distinct statuses print differently, so the printed name identifies
      the status. */
  lemma TaildropNamesDistinct(s: TaildropTargetStatus, t: TaildropTargetStatus)
    ensures TaildropName(s) == TaildropName(t) ==> s == t
  {
  }

  /** The fields of `PeerStatus` that the filter and the builders read.
      `lastWrite` is whole seconds since the Unix epoch. */
  datatype PeerStatus = PeerStatus(
    id: string,
    hostname: string,
    os: string,
    tailscaleIps: seq<string>,
    tags: Option<seq<string>>,
    lastWrite: int,
    online: Option<bool>,
    exitNode: bool,
    expired: Option<bool>)

  /** The part of `Status` the provider reads. The peer map is a sequence in
      the map's iteration order; an entry may be JSON `null`. */
  datatype Status = Status(
    version: string,
    backendState: string,
    peers: Option<seq<Option<PeerStatus>>>)

  /** An absent `Online` reads as offline. */
  predicate IsOnline(p: PeerStatus) {
    p.online.GetOr(false)
  }

  /** An absent `Expired` reads as not expired. */
  predicate IsExpired(p: PeerStatus) {
    p.expired.GetOr(false)
  }
}
