/** provider_factory.go: the registry of AI back-ends, filled from the
    environment at start-up. The environment is a map; the only constructor
    that can fail is Gemini's (its client creation), whose error is an
    input. */
module Registry {
  import opened Wrappers
  import Gemini
  import OpenAI
  import Mistral
  import OpenRouter

  /** A value of the `AIProvider` interface: one of the four back-ends. */
  datatype AIProvider =
    | GeminiBackend(gemini: Gemini.GeminiProvider)
    | OpenAIBackend(openai: OpenAI.OpenAIProvider)
    | MistralBackend(mistral: Mistral.MistralProvider)
    | OpenRouterBackend(openrouter: OpenRouter.OpenRouterProvider)

  /** `GetName` of the back-end. */
  function GetName(p: AIProvider): string {
    match p
    case GeminiBackend(_) => Gemini.Name
    case OpenAIBackend(_) => OpenAI.Name
    case MistralBackend(_) => Mistral.Name
    case OpenRouterBackend(_) => OpenRouter.Name
  }

  /** `GetAvailableModels` of the back-end. */
  function GetAvailableModels(p: AIProvider): seq<string> {
    match p
    case GeminiBackend(_) => Gemini.Models
    case OpenAIBackend(_) => OpenAI.Models
    case MistralBackend(_) => Mistral.Models
    case OpenRouterBackend(_) => OpenRouter.Models
  }

  /** Which constructor a configuration calls. */
  datatype Kind = GeminiKind | OpenAIKind | MistralKind | OpenRouterKind

  function KindOf(p: AIProvider): Kind {
    match p
    case GeminiBackend(_) => GeminiKind
    case OpenAIBackend(_) => OpenAIKind
    case MistralBackend(_) => MistralKind
    case OpenRouterBackend(_) => OpenRouterKind
  }

  function Handle(p: AIProvider): object {
    match p
    case GeminiBackend(g) => g
    case OpenAIBackend(o) => o
    case MistralBackend(m) => m
    case OpenRouterBackend(o) => o
  }

  /** The model a constructor stores: the one given, or its default when the
      given one is empty. */
  function WithDefault(model: string, default: string): string {
    if model == "" then default else model
  }

  /** The back-end holds `apiKey` and, except for Gemini, the defaulted
      model. */
  predicate Holds(p: AIProvider, apiKey: string, model: string)
    reads Handle(p)
  {
    match p
    case GeminiBackend(g) => g.apiKey == apiKey
    case OpenAIBackend(o) => o.apiKey == apiKey && o.model == WithDefault(model, OpenAI.DefaultModel)
    case MistralBackend(m) => m.apiKey == apiKey && m.model == WithDefault(model, Mistral.DefaultModel)
    case OpenRouterBackend(o) => o.apiKey == apiKey && o.model == WithDefault(model, OpenRouter.DefaultModel)
  }

  /** A configuration's constructor; `geminiClientErr` is the client error
      Gemini's would meet. */
  method Construct(kind: Kind, apiKey: string, model: string, geminiClientErr: Option<string>)
    returns (r: Result<AIProvider, string>)
    ensures r.Failure? <==> kind == GeminiKind && geminiClientErr.Some?
    ensures r.Success? ==> KindOf(r.value) == kind && fresh(Handle(r.value)) && Holds(r.value, apiKey, model)
  {
    match kind {
      case GeminiKind =>
        var g := Gemini.NewGeminiProvider(apiKey, geminiClientErr);
        if g.Failure? {
          return Failure(g.error);
        }
        r := Success(GeminiBackend(g.value));
      case OpenAIKind =>
        var o := new OpenAI.OpenAIProvider(apiKey, model);
        r := Success(OpenAIBackend(o));
      case MistralKind =>
        var m := new Mistral.MistralProvider(apiKey, model);
        r := Success(MistralBackend(m));
      case OpenRouterKind =>
        var o := new OpenRouter.OpenRouterProvider(apiKey, model);
        r := Success(OpenRouterBackend(o));
    }
  }

  /** `providerConfig`: the registry key, the variables holding the API key
      and the default model, and the constructor. */
  datatype ProviderConfig = ProviderConfig(name: string, apiKeyEnv: string, modelEnvKey: string, kind: Kind)

  /** The configurations `NewProviderFactory` tries, in order. */
  const Configs: seq<ProviderConfig> := [
    ProviderConfig(GeminiKey, GeminiKeyEnv, "", GeminiKind),
    ProviderConfig(OpenAIKey, OpenAIKeyEnv, "OPENAI_DEFAULT_MODEL", OpenAIKind),
    ProviderConfig(MistralKey, MistralKeyEnv, "MISTRAL_DEFAULT_MODEL", MistralKind),
    ProviderConfig(OpenRouterKey, OpenRouterKeyEnv, "OPENROUTER_DEFAULT_MODEL", OpenRouterKind)
  ]

  /** The registry keys. */
  const GeminiKey: string := "gemini"
  const OpenAIKey: string := "openai"
  const MistralKey: string := "mistral"
  const OpenRouterKey: string := "openrouter"
  /** The variables holding the API keys. */
  const GeminiKeyEnv: string := "GEMINI_API_KEY"
  const OpenAIKeyEnv: string := "OPENAI_API_KEY"
  const MistralKeyEnv: string := "MISTRAL_API_KEY"
  const OpenRouterKeyEnv: string := "OPENROUTER_API_KEY"

  /** The only keys the registry can hold. */
  const ProviderNames: set<string> := {GeminiKey, OpenAIKey, MistralKey, OpenRouterKey}

  /** `os.Getenv`: an unset (or unnamed) variable reads as empty. */
  function Getenv(env: map<string, string>, key: string): string {
    if key != "" && key in env then env[key] else ""
  }

  /** Why a configuration was not registered. */
  datatype RegisterError = MissingKey(apiKeyEnv: string) | InitFailed(detail: string)

  /** Registering `cfg` succeeds: its API key is set and its constructor
      succeeds. */
  predicate Registers(cfg: ProviderConfig, env: map<string, string>, geminiClientErr: Option<string>) {
    Getenv(env, cfg.apiKeyEnv) != "" && !(cfg.kind == GeminiKind && geminiClientErr.Some?)
  }

  /** The keys registered by trying the configurations `cfgs` in turn. */
  function Registered(cfgs: seq<ProviderConfig>, env: map<string, string>, geminiClientErr: Option<string>): set<string>
  {
    if cfgs == [] then {}
    else
      var c := cfgs[|cfgs| - 1];
      Registered(cfgs[..|cfgs| - 1], env, geminiClientErr) + (if Registers(c, env, geminiClientErr) then {c.name} else {})
  }

  /** The registry key each back-end is stored under. */
  function KindFor(name: string): Kind {
    if name == GeminiKey then GeminiKind
    else if name == OpenAIKey then OpenAIKind
    else if name == MistralKey then MistralKind
    else OpenRouterKind
  }

  /** Every back-end is stored under its own key. */
  predicate Wired(providers: map<string, AIProvider>) {
    forall n :: n in providers ==> KindOf(providers[n]) == KindFor(n)
  }

  /** Which back-ends end up registered: each one whose API key is set,
      Gemini only when its client can be created as well. */
  lemma RegisteredFromEnvironment(env: map<string, string>, geminiClientErr: Option<string>)
    ensures Registered(Configs, env, geminiClientErr) <= ProviderNames
    ensures GeminiKey in Registered(Configs, env, geminiClientErr)
      <==> Getenv(env, GeminiKeyEnv) != "" && geminiClientErr.None?
    ensures OpenAIKey in Registered(Configs, env, geminiClientErr) <==> Getenv(env, OpenAIKeyEnv) != ""
    ensures MistralKey in Registered(Configs, env, geminiClientErr) <==> Getenv(env, MistralKeyEnv) != ""
    ensures OpenRouterKey in Registered(Configs, env, geminiClientErr) <==> Getenv(env, OpenRouterKeyEnv) != ""
  {
    var e := geminiClientErr;
    assert Configs[..0] == [];
    ConfigStep(0, env, e);
    ConfigStep(1, env, e);
    ConfigStep(2, env, e);
    ConfigStep(3, env, e);
    assert Configs[..4] == Configs;
  }

  lemma RegisteredSnoc(cfgs: seq<ProviderConfig>, c: ProviderConfig, env: map<string, string>, geminiClientErr: Option<string>)
    ensures Registered(cfgs + [c], env, geminiClientErr)
      == Registered(cfgs, env, geminiClientErr) + (if Registers(c, env, geminiClientErr) then {c.name} else {})
  {
    assert (cfgs + [c])[..|cfgs|] == cfgs;
  }

  /** One step of the registration loop: the i-th configuration's key names
      its constructor, and trying it extends the registered keys. */
  lemma ConfigStep(i: nat, env: map<string, string>, geminiClientErr: Option<string>)
    requires i < |Configs|
    ensures KindFor(Configs[i].name) == Configs[i].kind
    ensures Registered(Configs[..i + 1], env, geminiClientErr) == Registered(Configs[..i], env, geminiClientErr)
      + (if Registers(Configs[i], env, geminiClientErr) then {Configs[i].name} else {})
  {
    assert Configs[..i + 1] == Configs[..i] + [Configs[i]];
    RegisteredSnoc(Configs[..i], Configs[i], env, geminiClientErr);
  }

  class ProviderFactory {
    var providers: map<string, AIProvider>

    constructor ()
      ensures providers == map[]
    {
      providers := map[];
    }

    /** `registerProvider`: reads the API key (an error when it is empty) and
        the default model from the environment, calls the constructor, and on
        success stores the back-end under `cfg.name`. */
    method RegisterProvider(cfg: ProviderConfig, env: map<string, string>, geminiClientErr: Option<string>)
      returns (err: Option<RegisterError>)
      modifies this
      ensures Getenv(env, cfg.apiKeyEnv) == "" ==> err == Some(MissingKey(cfg.apiKeyEnv))
      ensures err.None? <==> Registers(cfg, env, geminiClientErr)
      ensures err.Some? ==> providers == old(providers)
      ensures err.None? ==>
        providers.Keys == old(providers).Keys + {cfg.name}
        && (forall n :: n in old(providers) && n != cfg.name ==> providers[n] == old(providers)[n])
        && KindOf(providers[cfg.name]) == cfg.kind && fresh(Handle(providers[cfg.name]))
        && Holds(providers[cfg.name], Getenv(env, cfg.apiKeyEnv), Getenv(env, cfg.modelEnvKey))
      ensures Wired(old(providers)) && KindFor(cfg.name) == cfg.kind ==> Wired(providers)
    {
      var apiKey := Getenv(env, cfg.apiKeyEnv);
      if apiKey == "" {
        return Some(MissingKey(cfg.apiKeyEnv));
      }
      var defaultModel := Getenv(env, cfg.modelEnvKey);
      var provider := Construct(cfg.kind, apiKey, defaultModel, geminiClientErr);
      if provider.Failure? {
        return Some(InitFailed(provider.error));
      }
      providers := providers[cfg.name := provider.value];
      err := None;
    }

    /** `GetProvider`: exact-key lookup, `None` standing for nil. */
    function GetProvider(name: string): (p: Option<AIProvider>)
      reads this
      ensures p.Some? <==> name in providers
      ensures p.Some? ==> p.value == providers[name]
    {
      if name in providers then Some(providers[name]) else None
    }

    /** `GetAvailableProviders`: every registered key once, in no particular
        order. */
    method GetAvailableProviders() returns (names: seq<string>)
      ensures |names| == |providers.Keys|
      ensures forall n :: n in names <==> n in providers
      ensures forall i, j :: 0 <= i < j < |names| ==> names[i] != names[j]
    {
      names := [];
      var rest := providers.Keys;
      while rest != {}
        invariant rest <= providers.Keys
        invariant forall n :: n in names <==> n in providers.Keys - rest
        invariant forall i, j :: 0 <= i < j < |names| ==> names[i] != names[j]
        invariant |names| + |rest| == |providers.Keys|
        decreases |rest|
      {
        var n :| n in rest;
        assert n !in names;
        names := names + [n];
        rest := rest - {n};
      }
    }
  }

  const NoProvidersError: string := "No AI providers configured. Please set at least ONE API key in .env file: "
    + "GEMINI_API_KEY, OPENAI_API_KEY, MISTRAL_API_KEY, or OPENROUTER_API_KEY"

  /** `NewProviderFactory`: tries every configuration in order, a failure
      only warning, and fails when nothing was registered. */
  method NewProviderFactory(env: map<string, string>, geminiClientErr: Option<string>)
    returns (r: Result<ProviderFactory, string>)
    ensures r.Failure? <==> Registered(Configs, env, geminiClientErr) == {}
    ensures r.Failure? ==> r.error == NoProvidersError
    ensures r.Success? ==> fresh(r.value) && r.value.providers.Keys == Registered(Configs, env, geminiClientErr)
    ensures r.Success? ==> Wired(r.value.providers)
  {
    var factory := new ProviderFactory();
    for i := 0 to |Configs|
      invariant factory.providers.Keys == Registered(Configs[..i], env, geminiClientErr)
      invariant Wired(factory.providers)
    {
      var cfg := Configs[i];
      ConfigStep(i, env, geminiClientErr);
      var err := factory.RegisterProvider(cfg, env, geminiClientErr);
    }
    assert Configs[..|Configs|] == Configs;
    if factory.providers == map[] {
      return Failure(NoProvidersError);
    }
    r := Success(factory);
  }
}
