/**
 * The configuration record shared by src/config.ts and the files of src/controllers/config,
 * the process environment, and the contents a config file can hold.
 */
module ConfigTypes {
  import opened Wrappers

  /** `AppConfig`: the default model id and the API keys saved per provider. */
  datatype AppConfig = AppConfig(defaultModel: string, apiKeys: map<string, string>)

  /** `process.env`: a variable is either set to a string or not set. */
  type Env = map<string, string>

  /** `!!value` for an optional string: present and non-empty. */
  predicate Truthy(value: Option<string>) {
    value.Some? && value.value != ""
  }

  /** `process.env[name]` is set to a non-empty string. */
  predicate EnvSet(env: Env, name: string) {
    name in env && env[name] != ""
  }

  /** `config.apiKeys[provider]`. */
  function SavedKey(config: AppConfig, provider: string): Option<string> {
    if provider in config.apiKeys then Some(config.apiKeys[provider]) else None
  }

  /** What `JSON.parse` can give for the config file: `null`, an object with the two optional
      fields, or any other primitive. */
  datatype SavedValue =
    | SavedNull
    | SavedObject(defaultModel: Option<string>, apiKeys: Option<map<string, string>>)
    | SavedPrimitive

  /** The config file: missing, unreadable or unparsable, or parsed to a value. */
  datatype ConfigFile = Missing | Unreadable | Parsed(value: SavedValue)
}
