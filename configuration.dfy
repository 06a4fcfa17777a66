/**
 * Sage::Configuration: the provider option hashes and the profiles, both
 * keyed by symbol, and the name of the default profile. Names may be given
 * as Strings or Symbols; to_sym makes them the same key.
 */
module SageConfiguration {
  import opened Wrappers
  import opened SageTypes

  /** A name as the caller writes it. */
  datatype Name = Sym(symbol: string) | Str(text: string)

  /** to_sym (and to_s): the characters of the name, whichever way it was
      written. */
  function ToSym(n: Name): (s: string)
    ensures n.Sym? ==> s == n.symbol
    ensures n.Str? ==> s == n.text
  {
    match n
    case Sym(s) => s
    case Str(s) => s
  }

  /** Profile.new(name:, provider:, model:, **params) */
  function NewProfile(name: Name, provider: Name, model: Name, params: Params): (p: Profile)
    ensures p.name == ToSym(name) && p.provider == ToSym(provider) && p.model == ToSym(model)
    ensures p.params == params
  {
    Profile(ToSym(name), ToSym(provider), ToSym(model), params)
  }

  class Configuration {
    var providers: map<string, ProviderConfig>
    var profiles: map<string, Profile>
    var defaultProfileName: Option<string>

    /** Every profile is stored under its own name. */
    ghost predicate Valid()
      reads this
    {
      forall n :: n in profiles ==> profiles[n].name == n
    }

    constructor ()
      ensures Valid()
      ensures providers == map[] && profiles == map[] && defaultProfileName == None
    {
      providers := map[];
      profiles := map[];
      defaultProfileName := None;
    }

    /** provider(name, **options): a second declaration of the same name
        replaces the first. */
    method Provider(name: Name, options: ProviderConfig)
      requires Valid()
      modifies this
      ensures Valid()
      ensures providers == old(providers)[ToSym(name) := options]
      ensures profiles == old(profiles) && defaultProfileName == old(defaultProfileName)
    {
      providers := providers[ToSym(name) := options];
    }

    /** profile(name, provider:, model:, **params) */
    method Profile(name: Name, provider: Name, model: Name, params: Params) returns (p: SageTypes.Profile)
      requires Valid()
      modifies this
      ensures Valid()
      ensures p == NewProfile(name, provider, model, params)
      ensures profiles == old(profiles)[ToSym(name) := p]
      ensures providers == old(providers) && defaultProfileName == old(defaultProfileName)
    {
      p := NewProfile(name, provider, model, params);
      profiles := profiles[ToSym(name) := p];
    }

    /** default_profile(name = nil): with no name a reader, with a name a
        writer that returns the stored symbol. nil cannot be stored back. */
    method DefaultProfile(name: Option<Name>) returns (r: Option<string>)
      requires Valid()
      modifies this
      ensures Valid()
      ensures name.None? ==> defaultProfileName == old(defaultProfileName)
      ensures name.Some? ==> defaultProfileName == Some(ToSym(name.value))
      ensures r == defaultProfileName
      ensures providers == old(providers) && profiles == old(profiles)
    {
      if name.Some? {
        defaultProfileName := Some(ToSym(name.value));
      }
      r := defaultProfileName;
    }
  }
}
