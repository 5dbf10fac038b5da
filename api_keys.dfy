/** src/controllers/config/api-keys.ts and `ENV_KEY_MAP` of src/const/config.ts. */
module ApiKeys {
  import opened Wrappers
  import opened ConfigTypes

  /** `ProviderName`. */
  datatype Provider = OpenAi | Anthropic | Exa

  /** The key of a provider in `apiKeys`. */
  function ProviderKey(p: Provider): string {
    match p
    case OpenAi => "openai"
    case Anthropic => "anthropic"
    case Exa => "exa"
  }

  /** `ENV_KEY_MAP[provider]`. */
  function EnvVar(p: Provider): string {
    match p
    case OpenAi => "OPENAI_API_KEY"
    case Anthropic => "ANTHROPIC_API_KEY"
    case Exa => "EXA_API_KEY"
  }

  /** The providers of `ENV_KEY_MAP`, in declaration order. */
  const Providers: seq<Provider> := [OpenAi, Anthropic, Exa]

  /** `get(provider, config)`: a non-empty environment variable wins over the saved key. */
  function Get(p: Provider, config: AppConfig, env: Env): (key: Option<string>)
    ensures EnvSet(env, EnvVar(p)) ==> key == Some(env[EnvVar(p)])
    ensures !EnvSet(env, EnvVar(p)) ==> key == SavedKey(config, ProviderKey(p))
  {
    if EnvSet(env, EnvVar(p)) then Some(env[EnvVar(p)]) else SavedKey(config, ProviderKey(p))
  }

  function AnyKey(providers: seq<Provider>, config: AppConfig, env: Env): (r: bool)
    ensures r <==> exists i :: 0 <= i < |providers| && Truthy(Get(providers[i], config, env))
  {
    if providers == [] then false
    else if Truthy(Get(providers[0], config, env)) then true
    else AnyKey(providers[1..], config, env)
  }

  /** `hasAny(config)`: some provider's key is present and non-empty. */
  function HasAny(config: AppConfig, env: Env): (r: bool)
    ensures r <==> Truthy(Get(OpenAi, config, env)) || Truthy(Get(Anthropic, config, env)) || Truthy(Get(Exa, config, env))
  {
    assert Providers[0] == OpenAi && Providers[1] == Anthropic && Providers[2] == Exa;
    AnyKey(Providers, config, env)
  }

  /** An empty saved key with no environment variable counts as absent. */
  lemma EmptyKeyIsAbsent(config: AppConfig, env: Env)
    requires forall p :: p in config.apiKeys ==> config.apiKeys[p] == ""
    requires !EnvSet(env, "OPENAI_API_KEY") && !EnvSet(env, "ANTHROPIC_API_KEY") && !EnvSet(env, "EXA_API_KEY")
    ensures !HasAny(config, env)
  {
  }
}
