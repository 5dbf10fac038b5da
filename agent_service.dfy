/**
 * src/services/agent/index.ts: `AgentService.run`. It resolves the model, wraps the dangerous
 * tools, starts the SDK's tool loop (capped at 50 steps) and forwards the parts of its full
 * stream to the callbacks until the stream ends, fails or the abort signal is seen.
 *
 * The SDK's agent is an oracle: `AgentStream` says whether starting it throws, which parts its
 * stream delivers, before which part the abort flag is first seen set, how reading ends and
 * what its `response` promise settles to.
 */
module AgentService {
  import opened Wrappers
  import opened Json
  import opened ChatTypes
  import opened ConfigTypes
  import opened ProviderTypes
  import ProviderService
  import ToolGuard

  /** `stepCountIs(50)`. */
  const MaxSteps: nat := 50

  /** The parts of `fullStream` that `run` dispatches on; every other kind is `OtherPart`. */
  datatype AgentPart =
    | TextDeltaPart(text: string)
    | ReasoningStartPart
    | ReasoningDeltaPart(text: string)
    | ReasoningEndPart
    | ToolCallPart(toolCallId: string, toolName: string, input: Value)
    | ToolResultPart(toolCallId: string, toolName: string, output: Value)
    | OtherPart

  /** How iterating the stream ends: normally, or by an error, noting whether the abort signal
      was set when it was caught. */
  datatype StreamEnd = Completed | Failed(message: string, abortedThen: bool)

  /** What `agent.stream(...)` yields. */
  datatype AgentStream =
    | StartFailed(message: string)
    | Started(parts: seq<AgentPart>, abortAt: Option<nat>, end: StreamEnd, response: Result<seq<ModelMessage>>)

  /** The `AgentCallbacks` calls other than `requestToolApproval`, in order. */
  datatype Callback =
    | OnTextDelta(delta: string)
    | OnReasoningStart
    | OnReasoningDelta(delta: string)
    | OnReasoningEnd
    | OnToolCall(toolCall: PendingToolCall)
    | OnToolResult(toolCallId: string, toolName: string, result: Value)
    | OnFinish
    | OnError(message: string)

  /** The configuration the `ToolLoopAgent` is built with. */
  datatype AgentSettings = AgentSettings(model: ProviderService.LanguageModel, tools: ToolGuard.ToolSet, maxSteps: nat)

  /** The callback one part triggers, if any. */
  function PartCallback(part: AgentPart, freshRef: nat): Option<Callback> {
    match part
    case TextDeltaPart(text) => Some(OnTextDelta(text))
    case ReasoningStartPart => Some(OnReasoningStart)
    case ReasoningDeltaPart(text) => Some(OnReasoningDelta(text))
    case ReasoningEndPart => Some(OnReasoningEnd)
    case ToolCallPart(id, name, input) => Some(OnToolCall(PendingToolCall(id, name, ArgsOf(input, freshRef))))
    case ToolResultPart(id, name, output) => Some(OnToolResult(id, name, output))
    case OtherPart => None
  }

  /** The callbacks for a run of parts, in part order. */
  function PartCallbacks(parts: seq<AgentPart>, freshRef: nat): seq<Callback> {
    if parts == [] then []
    else
      var last := PartCallback(parts[|parts| - 1], freshRef);
      PartCallbacks(parts[..|parts| - 1], freshRef) + (if last.Some? then [last.value] else [])
  }

  /** The abort flag is seen before some delivered part, which ends the loop by `break`. */
  predicate AbortedInStream(parts: seq<AgentPart>, abortAt: Option<nat>) {
    abortAt.Some? && abortAt.value < |parts|
  }

  /** The parts handled before the loop ends. */
  function Consumed(parts: seq<AgentPart>, abortAt: Option<nat>): (seen: seq<AgentPart>)
    ensures seen <= parts
    ensures AbortedInStream(parts, abortAt) ==> |seen| == abortAt.value
  {
    if AbortedInStream(parts, abortAt) then parts[..abortAt.value] else parts
  }

  /** The `for await` loop: handles each part until the abort flag is seen before one. */
  method Consume(parts: seq<AgentPart>, abortAt: Option<nat>, freshRef: nat)
    returns (callbacks: seq<Callback>, aborted: bool)
    ensures aborted <==> AbortedInStream(parts, abortAt)
    ensures callbacks == PartCallbacks(Consumed(parts, abortAt), freshRef)
  {
    callbacks := [];
    aborted := false;
    var i := 0;
    while i < |parts|
      invariant 0 <= i <= |parts|
      invariant !aborted ==> !(abortAt.Some? && abortAt.value < i)
      invariant aborted ==> abortAt == Some(i) && i < |parts|
      invariant callbacks == PartCallbacks(parts[..i], freshRef)
      decreases |parts| - i, !aborted
    {
      if abortAt == Some(i) {
        aborted := true;
        break;
      }
      var part := parts[i];
      assert parts[..i + 1][..i] == parts[..i];
      match part {
        case TextDeltaPart(text) => callbacks := callbacks + [OnTextDelta(text)];
        case ReasoningStartPart => callbacks := callbacks + [OnReasoningStart];
        case ReasoningDeltaPart(text) => callbacks := callbacks + [OnReasoningDelta(text)];
        case ReasoningEndPart => callbacks := callbacks + [OnReasoningEnd];
        case ToolCallPart(id, name, input) =>
          var args := if input.Obj? then input.obj else EmptyRecord(freshRef);
          callbacks := callbacks + [OnToolCall(PendingToolCall(id, name, args))];
        case ToolResultPart(id, name, output) => callbacks := callbacks + [OnToolResult(id, name, output)];
        case OtherPart =>
      }
      i := i + 1;
    }
    assert !aborted ==> parts[..i] == parts;
  }

  /**
   * `AgentService.run`. `result` is `Err` when `run` rejects (the model cannot be resolved, or
   * the response promise rejects); `agent` is the agent's configuration once it is built.
   */
  method Run(messages: seq<ModelMessage>, modelId: string, config: AppConfig, env: Env,
             modelList: seq<ModelInfo>, allTools: ToolGuard.ToolSet, isDangerous: string -> bool,
             stream: AgentStream, freshRef: nat)
    returns (result: Result<seq<ModelMessage>>, callbacks: seq<Callback>, agent: Option<AgentSettings>)
    ensures ProviderService.GetModel(modelList, modelId, config, env).Err? ==>
      result == Err(ProviderService.GetModel(modelList, modelId, config, env).error) && callbacks == [] && agent.None?
    ensures ProviderService.GetModel(modelList, modelId, config, env).Ok? ==>
      && agent.Some?
      && agent.value.model == ProviderService.GetModel(modelList, modelId, config, env).value
      && agent.value.maxSteps == MaxSteps
      && ToolsGuarded(allTools, agent.value.tools, isDangerous)
      && RunOutcome(messages, stream, freshRef, result, callbacks)
  {
    var model := ProviderService.GetModel(modelList, modelId, config, env);
    if model.Err? {
      return Err(model.error), [], None;
    }
    var tools := ToolGuard.BuildTools(allTools, isDangerous);
    agent := Some(AgentSettings(model.value, tools, MaxSteps));
    match stream {
      case StartFailed(message) =>
        return Ok(messages), [OnError(message)], agent;
      case Started(parts, abortAt, end, response) =>
        var aborted;
        callbacks, aborted := Consume(parts, abortAt, freshRef);
        if !aborted && end.Failed? {
          if !end.abortedThen {
            callbacks := callbacks + [OnError(end.message)];
          }
          return Ok(messages), callbacks, agent;
        }
        callbacks := callbacks + [OnFinish];
        if response.Err? {
          return Err(response.error), callbacks, agent;
        }
        result := Ok(messages + response.value);
    }
  }

  /** The tool set `buildTools` returns for `allTools`. */
  ghost predicate ToolsGuarded(allTools: ToolGuard.ToolSet, tools: ToolGuard.ToolSet, isDangerous: string -> bool) {
    && |tools| == |allTools|
    && forall i :: 0 <= i < |allTools| ==>
         tools[i] == (allTools[i].0, ToolGuard.Guard(allTools[i].0, allTools[i].1, isDangerous))
  }

  /** The result and callbacks of `run` once the agent is built. */
  ghost predicate RunOutcome(messages: seq<ModelMessage>, stream: AgentStream, freshRef: nat,
                             result: Result<seq<ModelMessage>>, callbacks: seq<Callback>) {
    match stream
    case StartFailed(message) =>
      result == Ok(messages) && callbacks == [OnError(message)]
    case Started(parts, abortAt, end, response) =>
      var handled := PartCallbacks(Consumed(parts, abortAt), freshRef);
      if !AbortedInStream(parts, abortAt) && end.Failed? then
        && result == Ok(messages)
        && callbacks == handled + (if end.abortedThen then [] else [OnError(end.message)])
      else
        && callbacks == handled + [OnFinish]
        && result == (if response.Ok? then Ok(messages + response.value) else Err(response.error))
  }

  lemma {:induction false} PartCallbacksAppend(a: seq<AgentPart>, b: seq<AgentPart>, freshRef: nat)
    ensures PartCallbacks(a + b, freshRef) == PartCallbacks(a, freshRef) + PartCallbacks(b, freshRef)
    decreases |b|
  {
    if b == [] {
      assert a + b == a;
    } else {
      var last := PartCallback(b[|b| - 1], freshRef);
      assert (a + b)[..|a + b| - 1] == a + b[..|b| - 1];
      PartCallbacksAppend(a, b[..|b| - 1], freshRef);
    }
  }

  /** The part handlers never report the end of a run; only `run` itself does, once. */
  lemma {:induction false} PartCallbacksAreNotTerminal(parts: seq<AgentPart>, freshRef: nat)
    ensures forall c :: c in PartCallbacks(parts, freshRef) ==> !c.OnFinish? && !c.OnError?
    decreases |parts|
  {
    if parts != [] {
      PartCallbacksAreNotTerminal(parts[..|parts| - 1], freshRef);
    }
  }

  /** `c` announces a tool-call part of `parts`, with its id, name and argument record. */
  ghost predicate AnnouncedBy(c: Callback, parts: seq<AgentPart>, freshRef: nat)
    requires c.OnToolCall?
  {
    exists p :: p in parts && p.ToolCallPart? && c.toolCall.toolCallId == p.toolCallId
      && c.toolCall.toolName == p.toolName && c.toolCall.args == ArgsOf(p.input, freshRef)
  }

  /** Each tool-call callback carries the part's input if it is an object, and `{}` otherwise. */
  lemma {:induction false} ToolCallArgs(parts: seq<AgentPart>, freshRef: nat)
    ensures forall c :: c in PartCallbacks(parts, freshRef) && c.OnToolCall? ==> AnnouncedBy(c, parts, freshRef)
    decreases |parts|
  {
    if parts != [] {
      var init := parts[..|parts| - 1];
      ToolCallArgs(init, freshRef);
      forall c | c in PartCallbacks(parts, freshRef) && c.OnToolCall?
        ensures AnnouncedBy(c, parts, freshRef)
      {
        if c in PartCallbacks(init, freshRef) {
          var p :| p in init && p.ToolCallPart? && c.toolCall.toolCallId == p.toolCallId
            && c.toolCall.toolName == p.toolName && c.toolCall.args == ArgsOf(p.input, freshRef);
          assert p in parts;
        } else {
          assert parts[|parts| - 1] in parts;
        }
      }
    }
  }

  /**
   * An abort cuts the callbacks short and changes none of them: the callbacks of an aborted
   * run are a prefix of those the whole stream would give.
   */
  lemma AbortKeepsPrefix(parts: seq<AgentPart>, abortAt: Option<nat>, freshRef: nat)
    ensures PartCallbacks(Consumed(parts, abortAt), freshRef) <= PartCallbacks(parts, freshRef)
  {
    var seen := Consumed(parts, abortAt);
    assert parts == seen + parts[|seen|..];
    PartCallbacksAppend(seen, parts[|seen|..], freshRef);
  }

  /** Reading the stream failed, without an abort seen in the loop, while the signal was set. */
  predicate ErrorWhileAborted(stream: AgentStream) {
    stream.Started? && !AbortedInStream(stream.parts, stream.abortAt) && stream.end.Failed? && stream.end.abortedThen
  }

  /** Every run that gets as far as the stream ends with at most one terminal callback, as its
      last; an error seen while aborted gives none. */
  lemma AtMostOneTerminal(messages: seq<ModelMessage>, stream: AgentStream, freshRef: nat,
                          result: Result<seq<ModelMessage>>, callbacks: seq<Callback>)
    requires RunOutcome(messages, stream, freshRef, result, callbacks)
    ensures forall k :: 0 <= k < |callbacks| - 1 ==> !callbacks[k].OnFinish? && !callbacks[k].OnError?
    ensures ErrorWhileAborted(stream) ==> forall c :: c in callbacks ==> !c.OnError? && !c.OnFinish?
  {
    if stream.Started? {
      var handled := PartCallbacks(Consumed(stream.parts, stream.abortAt), freshRef);
      PartCallbacksAreNotTerminal(Consumed(stream.parts, stream.abortAt), freshRef);
      assert callbacks[..|handled|] == handled;
      forall k | 0 <= k < |callbacks| - 1
        ensures !callbacks[k].OnFinish? && !callbacks[k].OnError?
      {
        if k < |handled| {
          assert callbacks[k] == handled[k] && handled[k] in handled;
        }
      }
    }
  }
}
