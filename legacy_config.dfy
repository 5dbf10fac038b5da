/** src/config.ts: API-key lookup with environment precedence and the merge done by `loadConfig`. */
module LegacyConfig {
  import opened Wrappers
  import opened ConfigTypes

  /** `DEFAULT_CONFIG`. */
  const DefaultConfig: AppConfig := AppConfig("openai:gpt-4.1-nano", map[])

  /** `ENV_KEY_MAP`, in its declaration order. */
  const EnvKeyMap: seq<(string, string)> := [
    ("openai", "OPENAI_API_KEY"),
    ("anthropic", "ANTHROPIC_API_KEY"),
    ("deepseek", "DEEPSEEK_API_KEY"),
    ("deepinfra", "DEEPINFRA_API_KEY"),
    ("kimi", "KIMI_API_KEY"),
    ("exa", "EXA_API_KEY")
  ]

  /** The providers of `ENV_KEY_MAP`, as `Object.keys` lists them. */
  const MappedProviders: seq<string> := ["openai", "anthropic", "deepseek", "deepinfra", "kimi", "exa"]

  /** `ENV_KEY_MAP[provider]`. */
  function EnvVarFor(provider: string): (v: Option<string>)
    ensures v.Some? <==> provider in MappedProviders
    ensures v.Some? ==> (provider, v.value) in EnvKeyMap
  {
    Lookup(EnvKeyMap, provider)
  }

  function Lookup(pairs: seq<(string, string)>, key: string): (v: Option<string>)
    ensures v.Some? <==> exists i :: 0 <= i < |pairs| && pairs[i].0 == key
    ensures v.Some? ==> (key, v.value) in pairs
  {
    if pairs == [] then None
    else if pairs[0].0 == key then Some(pairs[0].1)
    else Lookup(pairs[1..], key)
  }

  /** `getApiKey(provider, config)`. */
  function GetApiKey(provider: string, config: AppConfig, env: Env): (key: Option<string>)
    ensures EnvVarFor(provider).Some? && EnvSet(env, EnvVarFor(provider).value) ==>
      key == Some(env[EnvVarFor(provider).value])
    ensures !(EnvVarFor(provider).Some? && EnvSet(env, EnvVarFor(provider).value)) ==>
      key == SavedKey(config, provider)
  {
    var envVar := EnvVarFor(provider);
    if envVar.Some? && EnvSet(env, envVar.value) then Some(env[envVar.value])
    else SavedKey(config, provider)
  }

  /** A provider without a mapped variable never consults the environment. */
  lemma UnmappedIgnoresEnv(provider: string, config: AppConfig, env1: Env, env2: Env)
    requires provider !in MappedProviders
    ensures GetApiKey(provider, config, env1) == GetApiKey(provider, config, env2) == SavedKey(config, provider)
  {
  }

  /** The early-return loop of `hasAnyApiKey` over some providers. */
  function AnyKey(providers: seq<string>, config: AppConfig, env: Env): (r: bool)
    ensures r <==> exists i :: 0 <= i < |providers| && Truthy(GetApiKey(providers[i], config, env))
  {
    if providers == [] then false
    else if Truthy(GetApiKey(providers[0], config, env)) then true
    else AnyKey(providers[1..], config, env)
  }

  /** `hasAnyApiKey(config)`. */
  function HasAnyApiKey(config: AppConfig, env: Env): (r: bool)
    ensures r <==> exists p :: p in MappedProviders && Truthy(GetApiKey(p, config, env))
  {
    AnyKey(MappedProviders, config, env)
  }

  /** `loadConfig()`: the saved fields overlaid on the defaults, with `apiKeys` merged key by key;
      a missing, unreadable or `null` file gives the defaults. */
  function LoadConfig(file: ConfigFile): (c: AppConfig)
    ensures !(file.Parsed? && file.value.SavedObject?) ==> c == DefaultConfig
    ensures file.Parsed? && file.value.SavedObject? ==>
      c.defaultModel == file.value.defaultModel.GetOr(DefaultConfig.defaultModel) &&
      c.apiKeys == DefaultConfig.apiKeys + file.value.apiKeys.GetOr(map[])
  {
    match file
    case Parsed(SavedObject(model, keys)) =>
      AppConfig(model.GetOr(DefaultConfig.defaultModel), DefaultConfig.apiKeys + keys.GetOr(map[]))
    case Parsed(SavedPrimitive) =>
      // Spreading a number or a boolean adds no field; spreading a string adds one field per
      // character index, none of them `defaultModel` or `apiKeys`; reading `apiKeys` gives `undefined`.
      DefaultConfig
    case _ =>
      // A missing or unreadable file, or `null`, whose `apiKeys` read throws inside the `try`.
      DefaultConfig
  }

  /** Every key saved in the file survives loading. */
  lemma LoadKeepsSavedKeys(file: ConfigFile, provider: string)
    requires file.Parsed? && file.value.SavedObject? && file.value.apiKeys.Some?
    requires provider in file.value.apiKeys.value
    ensures SavedKey(LoadConfig(file), provider) == Some(file.value.apiKeys.value[provider])
  {
  }
}
