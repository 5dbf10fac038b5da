/** src/controllers/config/index.ts: `ConfigController`, its shallow `load` merge and its updates. */
module ConfigControllerModel {
  import opened Wrappers
  import opened ConfigTypes
  import ApiKeys

  /** `DEFAULT_CONFIG` of src/const/config.ts. */
  const DefaultConfig: AppConfig := AppConfig("openai:gpt-5.2", map[])

  /** `ConfigController.load()`: the saved fields overlaid shallowly on the defaults, so a saved
      `apiKeys` replaces the default one whole; a missing or unreadable file gives the defaults. */
  function Load(file: ConfigFile): (c: AppConfig)
    ensures !(file.Parsed? && file.value.SavedObject?) ==> c == DefaultConfig
    ensures file.Parsed? && file.value.SavedObject? ==>
      c.defaultModel == file.value.defaultModel.GetOr(DefaultConfig.defaultModel) &&
      c.apiKeys == file.value.apiKeys.GetOr(DefaultConfig.apiKeys)
  {
    match file
    case Parsed(SavedObject(model, keys)) =>
      AppConfig(model.GetOr(DefaultConfig.defaultModel), keys.GetOr(DefaultConfig.apiKeys))
    case _ => DefaultConfig
  }

  /** The observable fields of `ConfigController`; `saved` is the last config written to the file. */
  class ConfigController {
    var config: AppConfig
    var modelId: string
    var needsSetup: bool
    var saved: Option<AppConfig>

    /** The field initialisers: load the file, then derive `modelId` and `needsSetup`. */
    constructor (file: ConfigFile, env: Env)
      ensures config == Load(file)
      ensures modelId == config.defaultModel
      ensures needsSetup == !ApiKeys.HasAny(config, env)
      ensures saved == None
    {
      config := Load(file);
      modelId := Load(file).defaultModel;
      needsSetup := !ApiKeys.HasAny(Load(file), env);
      saved := None;
    }

    /** `setModel(modelId)`: only `defaultModel` changes in the config, which is then persisted. */
    method SetModel(newModelId: string, env: Env)
      modifies this
      ensures config == old(config).(defaultModel := newModelId)
      ensures config.apiKeys == old(config).apiKeys
      ensures modelId == newModelId
      ensures needsSetup == !ApiKeys.HasAny(config, env)
      ensures saved == Some(config)
    {
      var updatedConfig := config.(defaultModel := newModelId);
      config := updatedConfig;
      modelId := newModelId;
      needsSetup := !ApiKeys.HasAny(updatedConfig, env);
      saved := Some(updatedConfig);
    }

    /** `saveConfig(newConfig)`. */
    method SaveConfig(newConfig: AppConfig, env: Env)
      modifies this
      ensures config == newConfig
      ensures modelId == newConfig.defaultModel
      ensures needsSetup == !ApiKeys.HasAny(newConfig, env)
      ensures saved == Some(newConfig)
    {
      config := newConfig;
      modelId := newConfig.defaultModel;
      needsSetup := !ApiKeys.HasAny(newConfig, env);
      saved := Some(newConfig);
    }
  }
}
