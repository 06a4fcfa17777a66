/**
 * Sage::Client: the registry of adapter classes, and complete, which
 * resolves a profile, builds the adapter its provider names, merges the
 * profile's parameters with the call's, and dispatches to the adapter's
 * complete or, when a block is given, its stream.
 */
module SageClient {
  import opened Wrappers
  import opened RubyJson
  import opened SageTypes
  import opened Streaming
  import opened SageConfiguration
  import opened Providers

  const NoDefaultMessage: string := "No default profile configured. Call Sage.configure { |c| c.default_profile :name }"

  /** Client::PROVIDERS: adapter classes by provider name. */
  class ProviderRegistry {
    var adapters: map<string, Vendor>

    constructor ()
      ensures adapters == map[]
    {
      adapters := map[];
    }

    /** register_provider: a later registration of a name replaces the
        earlier one. */
    method RegisterProvider(name: Name, vendor: Vendor)
      modifies this
      ensures adapters == old(adapters)[ToSym(name) := vendor]
    {
      adapters := adapters[ToSym(name) := vendor];
    }
  }

  /** profile.params.merge(params): the call's value wins for a key given
      both ways. */
  function MergeParams(base: Params, call: Params): (m: Params)
    ensures m.Keys == base.Keys + call.Keys
    ensures forall k :: k in call ==> m[k] == call[k]
    ensures forall k :: k in base && k !in call ==> m[k] == base[k]
  {
    base + call
  }

  /** How the caller invokes complete: without a block, or with a block fed
      from a streamed reply. Either way the transport's reply is an input. */
  datatype Call = Blocking(reply: HttpReply) | WithBlock(streamReply: StreamReply)

  /** Raised before any request is sent, or the adapter's outcome together
      with the request it sent. */
  datatype Outcome =
    | DispatchFailed(error: Error)
    | Completed(sent: HttpRequest, result: Result<Response, Error>)
    | Streamed(sent: HttpRequest, stream: StreamResult)

  class Client {
    const configuration: Configuration
    const registry: ProviderRegistry

    constructor (configuration: Configuration, registry: ProviderRegistry)
      ensures this.configuration == configuration && this.registry == registry
    {
      this.configuration := configuration;
      this.registry := registry;
    }

    /** resolve_profile: the named profile, else the default one. */
    function ResolveProfile(name: Option<Name>): (r: Result<Profile, Error>)
      reads configuration
      ensures name.None? && configuration.defaultProfileName.None? ==> r == Err(NoDefaultProfile(NoDefaultMessage))
      ensures name.Some? || configuration.defaultProfileName.Some? ==>
        var key := if name.Some? then ToSym(name.value) else configuration.defaultProfileName.value;
        && (key in configuration.profiles ==> r == Ok(configuration.profiles[key]))
        && (key !in configuration.profiles ==> r == Err(ProfileNotFound("Profile '" + key + "' is not configured")))
        && (r.Ok? && configuration.Valid() ==> r.value.name == key)
    {
      var key := if name.Some? then Some(ToSym(name.value)) else configuration.defaultProfileName;
      match key
      case None => Err(NoDefaultProfile(NoDefaultMessage))
      case Some(k) =>
        if k in configuration.profiles then Ok(configuration.profiles[k])
        else Err(ProfileNotFound("Profile '" + k + "' is not configured"))
    }

    /** build_provider: the provider's options must be configured, and then
        an adapter class registered for it. */
    function BuildProvider(profile: Profile): (r: Result<Adapter, Error>)
      reads configuration, registry
      ensures r.Ok? <==> profile.provider in configuration.providers && profile.provider in registry.adapters
      ensures r.Ok? ==> r.value == Adapter(registry.adapters[profile.provider], configuration.providers[profile.provider])
      ensures profile.provider !in configuration.providers ==>
        r == Err(ProviderNotConfigured("Provider '" + profile.provider + "' referenced by profile '" + profile.name + "' is not configured"))
      ensures profile.provider in configuration.providers && profile.provider !in registry.adapters ==>
        r == Err(ProviderNotConfigured("No provider adapter registered for '" + profile.provider + "'"))
    {
      var p := profile.provider;
      if p !in configuration.providers then
        Err(ProviderNotConfigured("Provider '" + p + "' referenced by profile '" + profile.name + "' is not configured"))
      else if p !in registry.adapters then
        Err(ProviderNotConfigured("No provider adapter registered for '" + p + "'"))
      else Ok(Adapter(registry.adapters[p], configuration.providers[p]))
    }

    /** complete(profile_name = nil, prompt:, system: nil, **params, &block):
        the model always comes from the profile; a dispatch error is raised
        before any request is sent. */
    method Complete(profileName: Option<Name>, prompt: string, system: Option<string>, params: Params, call: Call, parse: Parser)
      returns (outcome: Outcome)
      ensures ResolveProfile(profileName).Err? ==> outcome == DispatchFailed(ResolveProfile(profileName).error)
      ensures ResolveProfile(profileName).Ok? && BuildProvider(ResolveProfile(profileName).value).Err? ==>
        outcome == DispatchFailed(BuildProvider(ResolveProfile(profileName).value).error)
      ensures ResolveProfile(profileName).Ok? && BuildProvider(ResolveProfile(profileName).value).Ok? ==>
        var profile := ResolveProfile(profileName).value;
        var adapter := BuildProvider(profile).value;
        var req := Request(profile.model, prompt, system, MergeParams(profile.params, params));
        && (call.Blocking? ==>
              && outcome.Completed?
              && IsSentRequest(adapter, req, false, outcome.sent)
              && outcome.result == CompleteResult(adapter, profile.model, call.reply, parse))
        && (call.WithBlock? ==>
              && outcome.Streamed?
              && IsSentRequest(adapter, req, true, outcome.sent)
              && outcome.stream == StreamOutcome(adapter, call.streamReply, parse))
    {
      var resolved := ResolveProfile(profileName);
      if resolved.Err? {
        return DispatchFailed(resolved.error);
      }
      var profile := resolved.value;
      var built := BuildProvider(profile);
      if built.Err? {
        return DispatchFailed(built.error);
      }
      var adapter := built.value;
      var req := Request(profile.model, prompt, system, MergeParams(profile.params, params));
      match call {
        case Blocking(reply) =>
          var sent, result := Providers.Complete(adapter, req, reply, parse);
          outcome := Completed(sent, result);
        case WithBlock(streamReply) =>
          var sent, stream := Providers.Stream(adapter, req, streamReply, parse);
          outcome := Streamed(sent, stream);
      }
    }
  }
}
