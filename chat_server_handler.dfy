/**
 * src/services/chat-server/handler.ts: `processChatRequest`. It authorises the request by its
 * `X-Chat-Token` header, checks the body shape, exports the Exa key to the process environment,
 * guards the dangerous tools and starts a 50-step streamed model run.
 *
 * `convertToModelMessages` and the stream itself are oracles; the response is the status and
 * error body sent, or the configuration of the stream piped to it.
 */
module ChatServerHandler {
  import opened Wrappers
  import opened ChatTypes
  import opened ConfigTypes
  import opened ProviderTypes
  import ApiKeys
  import ProviderService
  import ToolGuard

  /** `stepCountIs(50)`. */
  const MaxSteps: nat := 50

  const UnauthorizedError: string := "Unauthorized request."
  const InvalidBodyError: string := "Invalid request body."

  /** The part of a request the handler reads. `messages` is `None` unless the body's
      `messages` field is an array, whose items are UI messages. */
  datatype Request<M> = Request(token: Option<string>, messages: Option<seq<M>>)

  /** The configuration `streamText` is called with. */
  datatype StreamSettings = StreamSettings(
    model: ProviderService.LanguageModel,
    messages: seq<ModelMessage>,
    tools: ToolGuard.ToolSet,
    maxSteps: nat)

  /** What the handler does with the response: an error status, a stream, or a rejected
      promise (the model could not be resolved). */
  datatype Response =
    | ErrorStatus(status: nat, error: string)
    | Streamed(settings: StreamSettings)
    | Rejected(message: string)

  /** `isAuthorized`: the token is present, non-empty and accepted. */
  predicate IsAuthorized<M>(request: Request<M>, validateToken: string -> bool) {
    request.token.Some? && request.token.value != "" && validateToken(request.token.value)
  }

  /** The environment after the Exa key is exported, if there is one. */
  function ExportExaKey(config: AppConfig, env: Env): (r: Env)
    ensures Truthy(ApiKeys.Get(ApiKeys.Exa, config, env)) ==>
      r == env[ApiKeys.EnvVar(ApiKeys.Exa) := ApiKeys.Get(ApiKeys.Exa, config, env).value]
    ensures !Truthy(ApiKeys.Get(ApiKeys.Exa, config, env)) ==> r == env
    ensures forall name :: name in env && name != ApiKeys.EnvVar(ApiKeys.Exa) ==> name in r && r[name] == env[name]
  {
    var exaApiKey := ApiKeys.Get(ApiKeys.Exa, config, env);
    if Truthy(exaApiKey) then env[ApiKeys.EnvVar(ApiKeys.Exa) := exaApiKey.value] else env
  }

  /**
   * `processChatRequest`; `env` is `process.env` before and `newEnv` after the call.
   * `convert` stands for `convertToModelMessages` with the guarded tools.
   */
  method ProcessChatRequest<M>(request: Request<M>, validateToken: string -> bool,
                               config: AppConfig, modelId: string, env: Env,
                               modelList: seq<ModelInfo>, allTools: ToolGuard.ToolSet,
                               isDangerous: string -> bool, convert: seq<M> -> seq<ModelMessage>)
    returns (response: Response, newEnv: Env)
    ensures !IsAuthorized(request, validateToken) ==>
      response == ErrorStatus(401, UnauthorizedError) && newEnv == env
    ensures IsAuthorized(request, validateToken) && request.messages.None? ==>
      response == ErrorStatus(400, InvalidBodyError) && newEnv == env
    ensures IsAuthorized(request, validateToken) && request.messages.Some? ==>
      && newEnv == ExportExaKey(config, env)
      && var model := ProviderService.GetModel(modelList, modelId, config, newEnv);
         && (model.Err? ==> response == Rejected(model.error))
         && (model.Ok? ==>
               && response.Streamed?
               && response.settings.model == model.value
               && response.settings.messages == convert(request.messages.value)
               && response.settings.maxSteps == MaxSteps
               && |response.settings.tools| == |allTools|
               && forall i :: 0 <= i < |allTools| ==>
                    response.settings.tools[i] == (allTools[i].0, ToolGuard.Guard(allTools[i].0, allTools[i].1, isDangerous)))
  {
    newEnv := env;
    if !IsAuthorized(request, validateToken) {
      return ErrorStatus(401, UnauthorizedError), newEnv;
    }
    if request.messages.None? {
      return ErrorStatus(400, InvalidBodyError), newEnv;
    }
    newEnv := ExportExaKey(config, env);
    var tools := ToolGuard.BuildTools(allTools, isDangerous);
    var modelMessages := convert(request.messages.value);
    var model := ProviderService.GetModel(modelList, modelId, config, newEnv);
    if model.Err? {
      return Rejected(model.error), newEnv;
    }
    response := Streamed(StreamSettings(model.value, modelMessages, tools, MaxSteps));
  }

  /** A missing or empty token is refused without consulting the validator. */
  lemma EmptyTokenRefused<M>(request: Request<M>, validateToken: string -> bool)
    requires request.token.None? || request.token == Some("")
    ensures !IsAuthorized(request, validateToken)
  {
  }
}
