/** The service loop of src/main.rs, sequentially: the startup gate, the
    cached configuration slot, its refreshes and the `/config` handler.
    Locking, the interval timer and the spawned task are not modelled; each
    refresh tick or request is one call on the cache. */
module App {
  import opened Wrappers
  import opened TraefikConfig
  import Client
  import Config
  import Platform
  import Provider

  /** What one call of `generate_config` produces. */
  type Outcome = Result<DynamicConfig, Client.TailscaleError>

  /** The slot after a refresh or the initial load: a generated
      configuration replaces the cached one, a failure keeps it. */
  function RefreshedSlot(slot: Option<DynamicConfig>, outcome: Outcome): Option<DynamicConfig> {
    match outcome
    case Ok(config) => Some(config)
    case Err(_) => slot
  }

  /** The slot after a run of refreshes, oldest first. */
  function SlotAfter(slot: Option<DynamicConfig>, outcomes: seq<Outcome>): Option<DynamicConfig> {
    if |outcomes| == 0 then slot
    else RefreshedSlot(SlotAfter(slot, outcomes[..|outcomes| - 1]), outcomes[|outcomes| - 1])
  }

  /** The most recent successful generation in a run, read from the front. */
  function LatestSuccess(outcomes: seq<Outcome>): Option<DynamicConfig> {
    if |outcomes| == 0 then None
    else
      var later := LatestSuccess(outcomes[1..]);
      if later.Some? then later
      else if outcomes[0].Ok? then Some(outcomes[0].value)
      else None
  }

  lemma {:induction false} LatestSuccessAppend(outcomes: seq<Outcome>, last: Outcome)
    ensures LatestSuccess(outcomes + [last]) == if last.Ok? then Some(last.value) else LatestSuccess(outcomes)
  {
    if |outcomes| == 0 {
      assert ([] + [last])[1..] == [];
    } else {
      assert (outcomes + [last])[1..] == outcomes[1..] + [last];
      LatestSuccessAppend(outcomes[1..], last);
    }
  }

  /** After any run of refreshes the slot holds the latest successful
      generation, or what it held before when every refresh failed; so a
      filled slot never becomes empty again. */
  lemma {:induction false} SlotHoldsLatestSuccess(slot: Option<DynamicConfig>, outcomes: seq<Outcome>)
    ensures SlotAfter(slot, outcomes) == if LatestSuccess(outcomes).Some? then LatestSuccess(outcomes) else slot
    ensures slot.Some? ==> SlotAfter(slot, outcomes).Some?
  {
    if |outcomes| > 0 {
      var init := outcomes[..|outcomes| - 1];
      SlotHoldsLatestSuccess(slot, init);
      assert outcomes == init + [outcomes[|outcomes| - 1]];
      LatestSuccessAppend(init, outcomes[|outcomes| - 1]);
    }
  }

  /** An HTTP answer: the status code and the JSON body. */
  datatype HttpResponse = HttpResponse(status: nat, body: Json)

  const GenerationFailed := "Failed to generate configuration from Tailscale"

  /** `200 OK` with the document. */
  function ConfigResponse(config: DynamicConfig): HttpResponse {
    HttpResponse(200, DynamicConfigJson(config))
  }

  /** `503 Service Unavailable` with an `ErrorResponse` body. */
  const UnavailableResponse := HttpResponse(503, Object([("error", Str(GenerationFailed))]))

  /** `cached_config`: empty until a generation succeeds. */
  class ConfigCache {
    var slot: Option<DynamicConfig>

    /** The slot is created empty. */
    constructor ()
      ensures slot.None?
    {
      slot := None;
    }

    /** One tick of the refresh task, or the initial load. */
    method Refresh(provider: Provider.TraefikProvider, send: Client.Request -> Client.Reply, now: int)
      modifies this
      ensures slot == RefreshedSlot(old(slot), Provider.GeneratedConfig(provider, send, now))
    {
      var outcome := Provider.GenerateConfig(provider, send, now);
      match outcome {
        case Ok(newConfig) =>
          slot := Some(newConfig);
        case Err(_) =>
      }
    }

    /** `get_dynamic_config`. A filled slot is served as it is, with no
        generation; an empty one triggers exactly one generation, whose
        result is stored and served, or a 503 that leaves the slot empty.
        `generations` counts the calls of `generate_config`. */
    method GetDynamicConfig(provider: Provider.TraefikProvider, send: Client.Request -> Client.Reply, now: int)
      returns (response: HttpResponse, ghost generations: nat)
      modifies this
      ensures old(slot).Some? ==> response == ConfigResponse(old(slot).value) && slot == old(slot) && generations == 0
      ensures old(slot).None? ==> generations == 1
      ensures old(slot).None? ==>
        match Provider.GeneratedConfig(provider, send, now)
        case Ok(config) => response == ConfigResponse(config) && slot == Some(config)
        case Err(_) => response == UnavailableResponse && slot.None?
    {
      generations := 0;
      if slot.Some? {
        return ConfigResponse(slot.value), generations;
      }
      var outcome := Provider.GenerateConfig(provider, send, now);
      generations := generations + 1;
      match outcome {
        case Ok(config) =>
          slot := Some(config);
          response := ConfigResponse(config);
        case Err(_) =>
          response := UnavailableResponse;
      }
    }
  }

  /** What the handlers share. */
  datatype AppState = AppState(provider: Provider.TraefikProvider, cache: ConfigCache)

  /** Start-up: build the provider, test the connection (a failure ends
      start-up before any cache exists), create the empty cache and load the
      first configuration into it. */
  method Startup(cfg: Config.ProviderConfig, host: Client.HostFamily,
                 defaultPath: Result<string, Platform.PlatformError>,
                 send: Client.Request -> Client.Reply, now: int)
    returns (r: Result<AppState, Client.TailscaleError>)
    ensures Provider.NewProvider(cfg, host, defaultPath).Err? ==>
      r == Err(Provider.NewProvider(cfg, host, defaultPath).error)
    ensures Provider.NewProvider(cfg, host, defaultPath).Ok? ==>
      var provider := Provider.NewProvider(cfg, host, defaultPath).value;
      (Client.TestConnection(provider.client, send).Err? ==> r == Err(Client.TestConnection(provider.client, send).error))
      && (Client.TestConnection(provider.client, send).Ok? ==>
            r.Ok? && r.value.provider == provider && fresh(r.value.cache)
            && r.value.cache.slot == RefreshedSlot(None, Provider.GeneratedConfig(provider, send, now)))
  {
    var created := Provider.NewProvider(cfg, host, defaultPath);
    if created.Err? {
      return Err(created.error);
    }
    var provider := created.value;
    var connected := Client.TestConnection(provider.client, send);
    if connected.Err? {
      return Err(connected.error);
    }
    var cache := new ConfigCache();
    cache.Refresh(provider, send, now);
    return Ok(AppState(provider, cache));
  }
}
