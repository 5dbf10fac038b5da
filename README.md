# taichat core, modelled in Dafny

taichat is a terminal chat client that talks to language models and lets them call local tools:
reading, writing, removing and listing files, and running shell commands. Tools that change
anything run only after the user approves the call. This project models the client's core and
proves properties of it:

- the legacy tool-calling loop `runAgent`, which runs at most ten model turns and rebuilds the
  history from the streamed text and tool calls;
- the newer `AgentService.run` and the chat-server request handler, which guard every dangerous
  tool's `execute` behind an approval request;
- the chat controller and its submodules:
  - a typed publish/subscribe table;
  - the approval gate, which holds one resolver at a time;
  - the streaming text and reasoning buffers;
  - the screen state;
  - the conversion of UI messages to display rows;
  - slash-command dispatch;
- the tool-side rules: the bounded shell-output buffers and the file tools over an abstract
  filesystem;
- the pure helpers: `truncate`, `formatToolArgs`, `hasSameArgs`, `areMessagesEqual` and the
  input-history cursor;
- the model catalogue:
  - the expansion of the models.dev payload into entries with reasoning variants;
  - listing, labelling and resolving models;
  - API-key lookup with environment precedence;
  - configuration loading and updating.

One Dafny module models one source file. Code that updates state in place is modelled as a
class with `modifies` clauses:

- the event table (`ChatEvents.EventBus`);
- the approval gate (`ChatToolApproval.ToolApproval`);
- the screen state (`ChatStateModel.ChatState`);
- the controllers;
- the file system (`FileTools.FileSystem`);
- the input cursor (`InputHistory.HistoryCursor`).

Loops become methods with loop invariants, proved against specification functions:

- `runAgent`'s iteration, stream and tool-call loops;
- `buildTools`;
- `toDisplayMessages`;
- `appendProviderModels`;
- the shell tool's output buffers;
- `readdir`.

Pure code becomes functions and lemmas.

Everything the client does not compute itself is an oracle or a parameter:

- **Turns and streams:**
  - a model turn is the list of parts its stream delivers, the first part before which the abort
    flag is seen, and how reading ends;
  - the SDK agent's stream is modelled the same way, together with what its `response` promise
    settles to.
- **Approvals:** the user's approval answers are a numbered sequence of decisions.
- **Tool executions:**
  - tool executions are numbered results;
  - the set of dangerous tools is a predicate;
  - the tool table is a list of named definitions.
- **Runtime services:**
  - `path.resolve` is a function from strings to paths;
  - `JSON.stringify(…, null, 2)` is a function from values to strings;
  - `generateId()` is an id parameter;
  - the process environment is a map;
  - the clipboard is a boolean oracle;
  - a freshly created empty object (`{}`) is given a reference number.
- **Catalogue:** the model catalogue and the provider list of `AiProviderService` are
  parameters.

## Model

Paths in the source column are relative to the repository root.

| member | source | states |
|---|---|---|
| Agent.PendingOf | src/agent.ts:114-119 | The announced pending call keeps the call's id and tool name. An object input becomes its arguments; any other input becomes the empty record. |
| Agent.CallContents | src/agent.ts:101-108 | One tool-call content part per collected call, in emission order, with its id, name and raw input. |
| Agent.ConsumeStream | src/agent.ts:60-80 | `fullText` is the concatenation of the text deltas delivered before the abort flag is seen. `toolCalls` lists the tool-call parts in order. One `onTextDelta` callback is made per delta. |
| Agent.ExecuteCalls | src/agent.ts:111-152 | The results, the callbacks and the next counters are those of handling the calls one after another, each call from the counters the calls before it left. The number of approval answers used grows by the number of calls to dangerous tools. The next counters are the start counters plus the answers and executions that the callbacks record. |
| Agent.CallStepsFacts | src/agent.ts:121-144 | Handling one call executes a dangerous tool only right after an approving answer for that call and those arguments. An answer is asked only for a dangerous tool, and a denial is followed directly by its result callback. No `onFinish`, `onError` or model call is made. The answer and the execution it uses are the next ones in order, and the counters advance by exactly what it uses. |
| Agent.CallOutcome | src/agent.ts:121-151 | A call's result keeps its id and tool name. It is `execution-denied` if and only if the tool is dangerous and the next answer is a denial; then nothing runs, the reason is "Denied by user", and `onToolResult` reports the denial error. Otherwise exactly one execution runs, and both the result and the last callback carry its value. |
| Agent.StepsOfFacts | src/agent.ts:113-152 | The callbacks of all the calls of a turn, one after another, keep the gating rule and make no terminal callback or model call. They take answers and executions in order, and move the counters exactly as far as the calls do. |
| Agent.ResultsCount | src/agent.ts:113-152 | One result per call. The number of answers used is the number of calls to dangerous tools. |
| Agent.ResultAt | src/agent.ts:113-152 | The j-th result is the result of the j-th call, handled from the counters the calls before it left. |
| Agent.AnswerAt | src/agent.ts:125-139 | The j-th result has the j-th call's id and tool name. It is `execution-denied` if and only if the tool is dangerous and the answer whose index is the start index plus the number of dangerous calls before it is a denial. |
| Agent.AnswersInCallOrder | src/agent.ts:128-154 | The tool message has one result per call, in the same order, with the same ids and tool names. Only a dangerous tool's result can be `execution-denied`. |
| Agent.RecordToolTurn | src/agent.ts:96-154 | A turn with tool calls extends the history by exactly two messages: the assistant message (the text part first if the text is non-empty, then the calls) and the tool message of the calls' results. The earlier history is unchanged. Its callbacks and next counters are those of handling the calls from the counters it was given. |
| Agent.ContinuedStepsFacts | src/agent.ts:63-152 | A continued iteration's text-delta callbacks followed by the handling of its calls keep the gating rule, make no terminal callback or model call, take answers and executions in order, and leave the counters where the calls do. |
| Agent.RunTurn | src/agent.ts:52-154 | One iteration. It ends in exactly one of four outcomes, each with its if-and-only-if condition. It continues when the stream ended normally, unaborted, with calls; its history, callbacks and counters are then those of its text deltas and of its calls handled from the counters it started with. It stops aborted when the abort flag was seen in the stream or in the error handler. It stops with an error on a non-aborted stream failure, calling `onError` with the message. It finishes on a normal end with no calls, appending the text if non-empty and calling `onFinish`. Aborted and errored turns leave the history unchanged. A turn that stops uses no answer and no execution. |
| Agent.AfterTurnsHistory | src/agent.ts:87-154 | After n continued turns the input messages are kept as a prefix. Each turn then added its assistant message and a tool message answering its calls, in turn order. |
| Agent.AfterTurnsTrace | src/agent.ts:49-155 | The callbacks of n continued turns keep the gating rule and make no terminal callback. They contain exactly n model calls. Answers and executions are taken in order from the first, and the counters are where the callbacks leave them. |
| Agent.StoppedTrace | src/agent.ts:63-94 | After n continued turns, a turn that stops gives a run with n + 1 model calls, gated, taking answers and executions in order. An aborted run makes no terminal callback. A finished run ends with its only `onFinish`. An errored run ends with its only `onError`, carrying the stream's error. |
| Agent.CapTrace | src/agent.ts:155-158 | After the last allowed iteration, `onFinish` comes last and is the run's only terminal callback; gating, order and the model-call count are kept. |
| Agent.FirstStop | src/agent.ts:49-94 | The first turn that does not continue, or the cap: every turn before it continues, and, below the cap, that turn does not. |
| Agent.RunAfterTurns | src/agent.ts:49-155 | Up to the first turn that does not continue, the run goes on from the history, the counters and the callbacks that the continued turns so far have produced. |
| Agent.StoppedHistory | src/agent.ts:63-94 | A run that stops in turn n returns the history of its n continued turns. It appends the turn's text only when the turn finished with non-empty text. The ending matches the turn: aborted, errored or finished. |
| Agent.CappedHistory | src/agent.ts:46-158 | A run whose every turn up to the cap continued returns the history after ten continued turns, and ends at the cap. |
| Agent.StoppedRunTrace | src/agent.ts:63-94 | The callbacks of a run that stops in turn n keep the run's callback promises for its ending. |
| Agent.CappedRunTrace | src/agent.ts:155-158 | The callbacks of a run that reaches the cap keep the run's callback promises, with `onFinish` last. |
| Agent.RunOfHistory | src/agent.ts:46-158 | At most ten turns run, and every turn but the last continued. The ending is at the cap if and only if the last turn continued, aborted if and only if the abort flag was seen in the stream or in the error handler, and errored if and only if the stream failed unaborted. The returned history is the input messages plus, per continued turn, an assistant message and a tool message. On finish the last turn's non-empty text is appended; on abort or error nothing is appended. |
| Agent.RunOfTrace | src/agent.ts:46-158 | A run makes one model call per turn and every dangerous execution is gated. Every answer and execution is taken in order from the first. An aborted run makes no terminal callback. A finished or capped run ends with its only `onFinish`. An errored run ends with its only `onError`, carrying the last stream's error. |
| Agent.Iteration | src/agent.ts:49-155 | One pass of the loop body: either the run ends with this turn, with the returned history, callbacks and ending, or it goes on from the returned history, counters and callbacks. |
| Agent.Iterate | src/agent.ts:46-158 | The returned history, callbacks, ending and number of turns are exactly those of the reference run `RunOf`, for which `RunOfHistory` and `RunOfTrace` prove the loop's promises. |
| Agent.RunAgent | src/agent.ts:36-159 | If `resolveModel` fails, its error is the result and no callback is made. Otherwise the returned history, callbacks, ending and number of turns are those of `RunOf`, and the history and callback promises of `RunOfHistory` and `RunOfTrace` hold for them. |
| AgentService.Consumed | src/services/agent/index.ts:64-67 | The parts handled are a prefix of the stream, cut exactly before the part at which the abort flag is seen. |
| AgentService.Consume | src/services/agent/index.ts:63-89 | `aborted` holds if and only if the abort flag is seen. The callbacks are those of the handled parts, in order: text and reasoning deltas and markers, announced tool calls with non-object inputs turned into `{}`, and tool results. |
| AgentService.PartCallbacksAreNotTerminal | src/services/agent/index.ts:69-88 | Forwarding stream parts never calls `onFinish` or `onError`. |
| AgentService.ToolCallArgs | src/services/agent/index.ts:77-85 | Every announced tool call comes from a tool-call part with the same id and name; its arguments are the input if that is an object, else `{}`. |
| AgentService.AbortKeepsPrefix | src/services/agent/index.ts:64-67 | The callbacks of an aborted run are a prefix of those of the unaborted run. |
| AgentService.Run | src/services/agent/index.ts:41-101 | If `getModel` fails, its error is the result and nothing else happens. Otherwise the agent gets the resolved model, the 50-step cap and the guarded tools. If starting it throws, `onError` is called and the input messages are returned unchanged. A non-aborted read error calls `onError` once and returns the input; an error while aborted is not reported. Otherwise, including after an abort, `onFinish` is called. The result is then the input messages followed by the response messages, or the rejection of the `response` promise. |
| AgentService.AtMostOneTerminal | src/services/agent/index.ts:56-100 | At most one terminal callback is made and it comes last. A read error while aborted makes none. |
| ToolGuard.PendingFor | src/services/agent/index.ts:21-25 | The approval request carries `options.toolCallId`, the tool's own name and the unchanged arguments. |
| ToolGuard.Invoke | src/services/agent/index.ts:20-31 | A plain tool runs its `execute` once and asks nothing. A guarded tool first requests approval for that call, and runs the original only if the answer is approved. |
| ToolGuard.Guard | src/services/agent/index.ts:16-35 | A dangerous tool with an `execute` function gets the approval wrapper and keeps its other fields. Any other tool is passed through unchanged. |
| ToolGuard.BuildTools | src/services/agent/index.ts:12-39 | The tool table keeps every tool name in order, and each definition is the guarded form of the original. |
| ToolGuard.SafeToolUnchanged | src/services/agent/index.ts:33-35 | A non-dangerous tool, or one without `execute`, behaves exactly as the original. |
| ToolGuard.DeniedCallNeverRuns | src/services/chat-server/handler.ts:85-95 | On denial the wrapper returns `{ error: 'Tool call was denied by the user.' }` after one approval request, and the original `execute` never runs. |
| ToolGuard.ApprovedCallRunsOriginal | src/services/chat-server/handler.ts:97 | On approval the wrapper runs the original `execute` once with the same arguments and options and returns its result. |
| ChatServerHandler.ExportExaKey | src/services/chat-server/handler.ts:41-44 | A truthy Exa key is written to `EXA_API_KEY`; otherwise the environment is unchanged. No other variable changes. |
| ChatServerHandler.ProcessChatRequest | src/services/chat-server/handler.ts:25-61 | An unauthorised request gets 401 `Unauthorized request.`, and a body whose `messages` is not an array gets 400 `Invalid request body.`; neither changes the environment. Otherwise the Exa key is exported, and a failing `getModel` rejects the request. A resolved model is streamed with the converted messages, the 50-step cap and every tool name kept, each with its guarded definition. |
| ChatServerHandler.EmptyTokenRefused | src/services/chat-server/handler.ts:63-66 | A missing or empty `X-Chat-Token` is never authorised, whatever the validator says. |
| ChatEvents.Remove | src/controllers/chat/events.ts:33 | `Set.delete` on an insertion-ordered set: exactly the other members remain, and no member is added. |
| ChatEvents.EventBus.constructor | src/controllers/chat/events.ts:6 | The table starts empty. |
| ChatEvents.EventBus.Publish | src/controllers/chat/events.ts:8-17 | The handlers invoked are exactly those registered for the event's type, in order; with none registered, nothing is invoked. The table does not change. |
| ChatEvents.EventBus.Subscribe | src/controllers/chat/events.ts:19-26 | The table becomes `Subscribed(old, t, h)`, and stays well formed: no empty set and no duplicate handler. |
| ChatEvents.EventBus.Unsubscribe | src/controllers/chat/events.ts:27-37 | The table becomes `Unsubscribed(old, t, h)`, and stays well formed. |
| ChatEvents.EventBus.Clear | src/controllers/chat/events.ts:40-42 | The table is emptied. |
| ChatEvents.SubscribedWellFormed | src/controllers/chat/events.ts:23-25 | Subscribing keeps the table well formed, puts the handler in its type's set, and leaves every other type alone. |
| ChatEvents.UnsubscribedWellFormed | src/controllers/chat/events.ts:27-37 | Unsubscribing keeps the table well formed: a type whose set empties is deleted. Exactly that handler leaves that type's set, and every other type is untouched. |
| ChatEvents.SubscribeIdempotent | src/controllers/chat/events.ts:23-25 | Subscribing the same handler twice gives the same table as subscribing it once. |
| ChatEvents.UnsubscribeUndoesSubscribe | src/controllers/chat/events.ts:19-37 | The returned unsubscribe function undoes its own subscribe of a new handler, including deleting the type key it created. |
| ChatEvents.ClearedTableIsInert | src/controllers/chat/events.ts:28-31 | After `clear`, publishing invokes nothing and unsubscribing changes nothing. |
| ChatToolApproval.GateStep | src/controllers/chat/tool-approval.ts:13-30 | A request holds its resolver, replacing any earlier one. A tool result leaves the gate alone. A decision calls the held resolver once with the decision, if there is one, and forgets it. |
| ChatToolApproval.ToolApproval.constructor | src/controllers/chat/tool-approval.ts:9-21 | No resolver is held. The two handlers are subscribed in order and the log is unchanged. |
| ChatToolApproval.ToolApproval.OnToolApprovalRequested | src/controllers/chat/tool-approval.ts:13-16 | The call becomes pending and its resolver is held. |
| ChatToolApproval.ToolApproval.OnToolResult | src/controllers/chat/tool-approval.ts:18-20 | The pending call is cleared and the resolver kept. |
| ChatToolApproval.ToolApproval.Apply | src/controllers/chat/tool-approval.ts:23-30 | The gate takes the decision step. The pending call is always cleared, and `chat/tool-approval-decided` is always published with the decision. |
| ChatToolApproval.ResolversRunAtMostOnce | src/controllers/chat/tool-approval.ts:7-30 | Over any sequence of requests, tool results and decisions in which each request brings its own resolver, no resolver is ever called twice. The held resolver has not been called yet, and every call was requested. |
| ChatToolApproval.SecondApplyCallsNothing | src/controllers/chat/tool-approval.ts:23-27 | A second `apply` calls no resolver, and one `apply` calls at most one. |
| ChatUi.Ui.constructor | src/controllers/chat/ui.ts:5-57 | Exactly the nine screen handlers are subscribed, in source order. |
| ChatUi.Ui.OnStreamTextDelta | src/controllers/chat/ui.ts:9-11 | The delta is appended to the streaming text; nothing else changes. |
| ChatUi.Ui.OnReasoningStarted | src/controllers/chat/ui.ts:13-16 | Reasoning is shown with an empty buffer. |
| ChatUi.Ui.OnReasoningDelta | src/controllers/chat/ui.ts:18-22 | The delta is appended to the reasoning buffer while reasoning is shown, and ignored otherwise. |
| ChatUi.Ui.OnReasoningEnded | src/controllers/chat/ui.ts:24-27 | Reasoning is hidden and its buffer emptied. |
| ChatUi.Ui.OnStreamFlushRequested | src/controllers/chat/ui.ts:29-40 | With an empty buffer, nothing is published and nothing changes. Otherwise `chat/stream-flushed` is published with exactly the buffered text, and then the buffer is emptied. |
| ChatUi.Ui.OnOverlaySet | src/controllers/chat/ui.ts:42-44 | The overlay becomes the given mode. |
| ChatUi.Ui.OnOverlayDismissed | src/controllers/chat/ui.ts:46-48 | The overlay becomes `none`. |
| ChatUi.Ui.OnAgentStopped | src/controllers/chat/ui.ts:50-56 | `chat/agent-finished` and `chat/agent-error` both end loading. |
| ChatStateModel.ResultContent | src/controllers/chat/state.ts:50 | A string result is kept verbatim; any other value is serialised. |
| ChatStateModel.ChatState.constructor | src/controllers/chat/state.ts:8-17 | Every field starts at its initialiser. |
| ChatStateModel.ChatState.AddDisplayMessage | src/controllers/chat/state.ts:19-21 | One row is appended at the end; nothing else changes. |
| ChatStateModel.ChatState.AddAssistantText | src/controllers/chat/state.ts:23-29 | One assistant row with the content is appended. |
| ChatStateModel.ChatState.AddUserText | src/controllers/chat/state.ts:31-37 | One user row with the content is appended. |
| ChatStateModel.ChatState.AddToolCallMessage | src/controllers/chat/state.ts:39-47 | One tool-call row with empty content, the tool name and the arguments is appended. |
| ChatStateModel.ChatState.AddToolResultMessage | src/controllers/chat/state.ts:49-57 | One tool-result row is appended, holding a string result verbatim and any other value serialised. |
| ChatStateModel.ChatState.PushInputHistory | src/controllers/chat/state.ts:59-61 | The newest input goes first, ahead of the older entries. |
| ChatStateModel.ChatState.AppendCoreUserMessage | src/controllers/chat/state.ts:63-70 | One user message is appended, and exactly the stored list is returned. |
| ChatStateModel.ChatState.SetCoreMessages | src/controllers/chat/state.ts:72-74 | The core messages are replaced; nothing else changes. |
| ChatStateModel.ChatState.ResetStreamState | src/controllers/chat/state.ts:76-80 | The text and reasoning buffers are emptied and reasoning hidden, so the reasoning invariant holds. |
| ChatStateModel.ChatState.ClearConversation | src/controllers/chat/state.ts:82-86 | The stream state is reset and the display and core messages emptied. Input history, loading, overlay and the pending call are untouched. |
| ChatMessages.PartRows | src/controllers/chat/messages.ts:48-103 | Rows for one part. A text part of a user or assistant message with non-empty text gives one row for its role, with id `<message id>-text-<rows so far>`; other text parts give nothing. A `dynamic-tool` part gives a tool-call row with its name and its input as an object or `{}`. The result row follows only in the output-available, output-error and output-denied states, holding the output, `Error: <text>` or `Tool call denied.` respectively. Other parts give nothing. |
| ChatMessages.ToDisplayMessages | src/controllers/chat/messages.ts:44-108 | The nested loops produce exactly `DisplayRows`: rows in message order, then part order. |
| ChatMessages.DisplayRowsWellShaped | src/controllers/chat/messages.ts:44-108 | Every display list is well shaped. It never starts with a result row, and each result row directly follows a tool-call row of the same tool. The n-th row, if it is a text row, has an id ending in `-text-n`. |
| ChatMessages.DisplayRowsShape | src/controllers/chat/messages.ts:55-77 | In every display list, each result row follows the call row of its tool, and the text row at position n has id `<message id>-text-n`, because `displayMessages.length` counts all rows so far. |
| ChatMessages.LatestAssistant | src/controllers/chat/messages.ts:111-113 | The position of the last assistant message, or none if there is no assistant message. |
| ChatMessages.GetStreamingReasoning | src/controllers/chat/messages.ts:110-122 | The concatenated reasoning parts of the last assistant message, or `''` if there is none. |
| ChatMessages.MessageList.constructor | src/controllers/chat/messages.ts:9-10 | No messages and no bound setter. |
| ChatMessages.MessageList.Clear | src/controllers/chat/messages.ts:12-17 | The list is emptied, and a bound setter is called with the empty list. |
| ChatMessages.MessageList.BindSetMessages | src/controllers/chat/messages.ts:19-21 | The setter is bound; the list is unchanged. |
| ChatMessages.MessageList.Sync | src/controllers/chat/messages.ts:23-25 | The list is replaced. |
| ChatMessages.MessageList.AddAssistant | src/controllers/chat/messages.ts:31-42 | One assistant message with a single text part is appended, and a bound setter gets the same append. |
| ChatMessages.MessageList.GetDisplayMessages | src/controllers/chat/messages.ts:27-29 | The display rows of the current list. |
| ChatMessages.AddedAssistantRows | src/controllers/chat/messages.ts:31-59 | After `addAssistant`, the display rows are those before plus one assistant row when the content is non-empty. |
| ChatMessages.AddedAssistantHidesReasoning | src/controllers/chat/messages.ts:110-122 | After `addAssistant`, the streaming reasoning is `''`. |
| ChatMessages.NonAssistantKeepsReasoning | src/controllers/chat/messages.ts:110-122 | Appending a non-assistant message does not change the streaming reasoning. |
| ChatControllerModel.LastAssistantRow | src/controllers/chat/controller.ts:118-120 | The position of the most recent assistant display row, or none if there is no assistant row. |
| ChatControllerModel.ChatController.constructor | src/controllers/chat/controller.ts:17-32 | Fresh state, an empty gate and an empty log. The table holds exactly the ui and approval handlers. |
| ChatControllerModel.ChatController.Dispatch | src/controllers/chat/ui.ts:9-56 | Running the handler subscribed for an event updates the state and the gate as `AfterEvent` says. The only new publishes are the flush's. |
| ChatControllerModel.ChatController.Publish | src/controllers/chat/events.ts:8-17 | While the table is open, publishing runs the event's handler. After `onClose` it only records the event. |
| ChatControllerModel.ChatController.Announce | src/controllers/chat/events.ts:9-12 | An event without a subscriber (`chat/assistant-text`, `chat/cleared`, …) is only recorded. |
| ChatControllerModel.ChatController.SetExitFn | src/controllers/chat/controller.ts:34-36 | The exit function is stored. |
| ChatControllerModel.ChatController.ApplyToolDecision | src/controllers/chat/controller.ts:82-84 | Delegates to `apply`. The held resolver, if any, is called once and forgotten. The pending call is cleared, and the decision is published. |
| ChatControllerModel.ChatController.DismissOverlay | src/controllers/chat/controller.ts:86-88 | Publishes `chat/overlay-dismissed`, which sets the overlay to `none`. |
| ChatControllerModel.ChatController.ShowOverlay | src/controllers/chat/controller.ts:90-92 | Publishes `chat/overlay-set` with a mode other than `none`. |
| ChatControllerModel.ChatController.SwitchModel | src/controllers/chat/controller.ts:94-98 | Only `defaultModel` of the configuration changes, and `modelId` becomes the new id. `Switched to model: <id>` is published, then `chat/overlay-dismissed`. |
| ChatControllerModel.ChatController.SaveConfig | src/controllers/chat/controller.ts:100-104 | The new configuration is stored and persisted. `chat/overlay-dismissed` is published first, then `Configuration saved.`. |
| ChatControllerModel.ChatController.ClearConversation | src/controllers/chat/controller.ts:113-116 | The conversation state is cleared and `chat/cleared` published. |
| ChatControllerModel.ChatController.CopyLastAssistantMessage | src/controllers/chat/controller.ts:117-134 | The most recent assistant row is copied. With none, `No assistant message to copy.` is published and nothing is copied. A failed copy and a successful copy each publish their own message. |
| ChatControllerModel.ChatController.ProcessSlashCommand | src/controllers/chat/controller.ts:106-145 | Each parsed action has exactly its effect and no other. An overlay command shows the overlay, `/clear` clears and publishes `chat/cleared`, and `/copy` copies the last assistant row. Exit calls the exit function once if one is set and publishes nothing. Anything else publishes `Unknown command: <cmd>. Type /help for available commands.` |
| ChatControllerModel.ChatController.OnClose | src/controllers/chat/controller.ts:147-149 | The table is cleared, so later publishes run no handler. |
| ChatControllerModel.ConstructorTable | src/controllers/chat/controller.ts:20-22 | The subscriptions of ui.ts followed by those of tool-approval.ts give one handler per subscribed type. |
| ChatControllerModel.RouteOf | src/controllers/chat/events.ts:9-16 | In the constructed table, an event reaches exactly its one subscribed handler, or none. In the cleared table it reaches none. |
| ChatControllerModel.AfterEventKeepsReasoningConsistent | src/controllers/chat/ui.ts:13-27 | No event leaves a non-empty reasoning buffer while reasoning is hidden. |
| ChatControllerModel.PendingCallBlocksInput | src/controllers/chat/controller.ts:74-76 | While a tool call awaits approval, input is inactive. A tool result clears the pending call. |
| ChatCommands.Parse | src/services/chat/commands.ts:4-22 | `parse` is total, and an overlay action never asks for `none`. |
| ChatCommands.ParseOverlaysAndExit | src/services/chat/commands.ts:6-18 | Each action comes from exactly its commands: `/model`, `/config`, `/help`, `/clear`, `/copy`, and `/exit` or `/quit`. Both directions are stated. |
| ChatCommands.ParseUnknownExactly | src/services/chat/commands.ts:19-20 | Any other string, and only such a string, is unknown, and is carried unchanged. |
| ChatCommands.ParseIsCaseSensitive | src/services/chat/commands.ts:5 | Matching is exact: an upper-case command is unknown. |
| InputHistory.Classify | src/components/chat-input/hooks.ts:39-49 | Whitespace-only text is ignored, in both directions. Trimmed text starting with `/` is a slash command. Anything else is submitted as the trimmed text. |
| InputHistory.SlashCommandIsFirstToken | src/components/chat-input/hooks.ts:44-46 | The command is the trimmed text up to its first space, lower-cased; it starts with `/` and contains no space and no upper-case letter. |
| InputHistory.HistoryCursor.constructor | src/components/chat-input/hooks.ts:11-12 | The index starts at -1 and the input key at 0. |
| InputHistory.HistoryCursor.OnKey | src/components/chat-input/hooks.ts:14-35 | Keys are ignored while inactive. Up-arrow alone, on a non-empty history, sets the index to min(index+1, len-1). Down-arrow alone, at an index ≤ 0, sets -1, and otherwise decrements. With neither key, or with up-arrow alone on an empty history, the index is kept. With both keys the down step applies to the index the up step left. The index never drops below -1, and an index within the history stays within it. |
| InputHistory.HistoryCursor.HandleSubmit | src/components/chat-input/hooks.ts:37-55 | The action is the classification. Ignored text changes nothing; a real submit resets the index to -1 and increments the input key. |
| InputHistory.HistoryCursor.DefaultValue | src/components/chat-input/hooks.ts:57-60 | `history[index]` exactly when 0 ≤ index < len, otherwise undefined. |
| ShellTool.AppendOutputChunk | src/tools/shell-tool.ts:10-18 | A buffer within the 24,000-character cap stays within it. A buffer at the cap is returned unchanged. The old buffer is a prefix of the result, and the result a prefix of buffer plus chunk; they are equal when that fits. |
| ShellTool.Capped | src/tools/shell-tool.ts:14-17 | The capped form of a text is its prefix of at most 24,000 characters, and is the whole text when it fits. |
| ShellTool.AppendToCapped | src/tools/shell-tool.ts:10-18 | Appending a chunk to a capped buffer is capping the longer text. |
| ShellTool.BufferIsCappedStream | src/tools/shell-tool.ts:48-53 | A buffer fed chunk by chunk holds the capped concatenation of the chunks. It reaches the cap exactly when the concatenation does. |
| ShellTool.FirstSettling | src/tools/shell-tool.ts:55-72 | The first `error` or `close` event, which settles the promise; or none. |
| ShellTool.RunProcess | src/tools/shell-tool.ts:38-73 | The data loop over the events before the settling one yields `Outcome`: the spawn error, or the exit code, the trimmed buffers and the `truncated` flag, or pending. |
| ShellTool.FinishedFacts | src/tools/shell-tool.ts:62-71 | On close, `truncated` holds exactly when either stream's output reached 24,000 characters. A null code is reported as 0. Both reported outputs are at most 24,000 characters. |
| ShellTool.Execute | src/tools/shell-tool.ts:28-73 | A missing cwd gets `Working directory not found: …`, and a cwd that is a file gets `Working directory is not a directory: …`; neither spawns anything. Otherwise the process outcome is returned with the resolved cwd. |
| FileTools.Parent | src/tools/file-tools.ts:35 | `path.dirname` of a path is the path without its last component. |
| FileTools.Utf8Length | src/tools/file-tools.ts:45 | `Buffer.byteLength(content, 'utf-8')`: each character takes 1 to 4 bytes, so the count lies between the length and four times it. |
| FileTools.Utf8LengthAppend | src/tools/file-tools.ts:45 | The byte length of a concatenation is the sum of the byte lengths. |
| FileTools.Utf8LengthAscii | src/tools/file-tools.ts:45 | ASCII text has as many bytes as characters. |
| FileTools.AncestorsAreDirectories | src/tools/file-tools.ts:35-39 | In a valid tree every ancestor of an existing node is a directory. |
| FileTools.WriteFileKeepsValid | src/tools/file-tools.ts:41 | Writing a file whose parent is a directory, over anything but a directory, keeps the tree valid. |
| FileTools.MakeDirectoriesFacts | src/tools/file-tools.ts:37-39 | `mkdir -p` keeps the tree valid, makes the directory exist, changes no existing node, and adds only ancestors of the directory. |
| FileTools.FileSystem.constructor | src/tools/file-tools.ts:6 | The disk the tools act on starts as a valid tree holding only the root directory. |
| FileTools.FileSystem.Children | src/tools/file-tools.ts:84 | The entry names of a directory. |
| FileTools.FileSystem.Read | src/tools/file-tools.ts:13-20 | A missing path gets `File not found: …`, and reading a directory throws. A file yields its path and content. Nothing changes. |
| FileTools.FileSystem.Write | src/tools/file-tools.ts:33-47 | Writing succeeds exactly when the target is neither the root nor a directory and has no file as an ancestor. Then the parent directories exist, the file holds the content, and the byte count is returned. Otherwise it throws and the filesystem is unchanged. |
| FileTools.WriteEffect | src/tools/file-tools.ts:33-47 | After a write, the file holds the content, every ancestor is a directory, no other existing node changed, and the only new nodes are ancestors of the file. |
| FileTools.FileSystem.Remove | src/tools/file-tools.ts:58-69 | A missing path gets `File not found: …`, and a directory gets `Path is a directory, not a file: …`; neither deletes anything. A file is deleted, only that path changes, and `removed: true` is returned. |
| FileTools.FileSystem.List | src/tools/file-tools.ts:79-90 | `dirPath` defaults to `.`. A missing path gets `Directory not found: …`, and a file throws. A directory yields one item per entry, with no entry twice, typed `directory` exactly for directories. |
| FileTools.FileSystem.ListChildren | src/tools/file-tools.ts:84-88 | The `readdir` loop lists every entry once, with its type. |
| ToolUtils.HasSameArgsGuards | src/tools/utils.ts:6-18 | The same reference compares true, so the comparison is reflexive. Both absent compares true, and exactly one absent compares false. Different key counts compare false. |
| ToolUtils.HasSameArgsCharacterization | src/tools/utils.ts:14-20 | For two distinct records whose values are all defined, `hasSameArgs` holds if and only if they have the same keys and `===`-equal values at every key. |
| ToolUtils.MissingKeysReadUndefined | src/tools/utils.ts:20 | `{a: undefined}` and `{b: undefined}` compare equal, because a missing key reads `undefined`. |
| ChatMessageUtils.Truncate | src/components/chat-message/utils.ts:1-7 | Text that fits is unchanged. Otherwise, for maxLength ≥ 3, the result is the first maxLength-3 characters followed by `...`: exactly maxLength characters, and never more. |
| ChatMessageUtils.TruncateBelowThree | src/components/chat-message/utils.ts:6 | Below 3, `slice` counts from the end, so the result can exceed maxLength. |
| ChatMessageUtils.Pairs | src/components/chat-message/utils.ts:19-23 | One `key=value` text per entry, in entry order. |
| ChatMessageUtils.FormatToolArgs | src/components/chat-message/utils.ts:9-17 | Absent or empty arguments give `''`. |
| ChatMessageUtils.FormatToolArgsAppend | src/components/chat-message/utils.ts:19-24 | Pairs are joined by single spaces in entry order: one more entry adds a space and its pair. |
| ChatMessageUtils.FormatToolArgsSingle | src/components/chat-message/utils.ts:21 | A string value is truncated to 60 characters. |
| MessageHistory.AreMessagesEqualMeaning | src/components/message-history/index.tsx:15-28 | Lists of different length are unequal. Otherwise they are equal if and only if each pair of rows at the same position matches on id, role, content, tool name and `hasSameArgs` of the arguments. |
| MessageHistory.AreMessagesEqualReflexive | src/components/message-history/index.tsx:11-28 | A list equals itself. |
| MessageHistory.RowsMatchReflexive | src/components/message-history/index.tsx:19-28 | Each row matches itself. |
| ModelsDev.NameLeIsTotalPreorder | src/services/providers/models-dev.ts:88 | Name comparison is a total preorder, so sorting by it is well defined. |
| ModelsDev.SectionModelsAreSortedByName | src/services/providers/models-dev.ts:88 | A provider's models are emitted sorted by name, as a permutation of its models. |
| ModelsDev.Variants | src/services/providers/models-dev.ts:118-147 | The variants follow the variant table in order, the k-th numbered `start + k`. |
| ModelsDev.ModelEntriesShape | src/services/providers/models-dev.ts:92-113 | The base entry comes first. A reasoning model is followed by exactly 5 OpenAI or 3 Anthropic variants, and other models by none. Each variant's id is `<base id>:<suffix>` and its `baseModelId` is the base id. |
| ModelsDev.ModelEntriesFacts | src/services/providers/models-dev.ts:92-113 | The entries of one model are numbered consecutively and belong to its provider. |
| ModelsDev.ModelEntriesTokenCap | src/services/providers/models-dev.ts:16-25 | Only the OpenAI `minimal` (4000) and `extra-high` (100000) variants carry `maxOutputTokens`. |
| ModelsDev.MaxOutputTokensOnlyOnTwoVariants | src/services/providers/models-dev.ts:91-113 | The same rule holds for a whole provider section. |
| ModelsDev.ProviderEntriesNumbered | src/services/providers/models-dev.ts:89-115 | The provider loop numbers its entries consecutively from the start value. |
| ModelsDev.ProviderEntriesOfProvider | src/services/providers/models-dev.ts:91-99 | Every entry of a section belongs to its provider. |
| ModelsDev.SectionFacts | src/services/providers/models-dev.ts:84-116 | A provider section, including the empty one of a missing provider, is numbered consecutively from its start, and every entry belongs to the provider. |
| ModelsDev.AppendModel | src/services/providers/models-dev.ts:92-112 | One loop body appends a model's entries and advances the counter by their number. |
| ModelsDev.AppendModels | src/services/providers/models-dev.ts:91-115 | The loop appends the section's entries and returns the counter after them. |
| ModelsDev.AppendProviderModels | src/services/providers/models-dev.ts:77-116 | Returns the output followed by the provider's section, and the next counter; a missing provider leaves the counter unchanged. |
| ModelsDev.ToModelList | src/services/providers/models-dev.ts:55-75 | The list built is exactly the catalogue of the payload. |
| ModelsDev.CatalogueSortOrderIsGapFree | src/services/providers/models-dev.ts:57-72 | `sortOrder` runs 1, 2, 3, … across both providers, with no gaps. |
| ModelsDev.CatalogueOpenAiFirst | src/services/providers/models-dev.ts:59-72 | Every entry is OpenAI or Anthropic, and all OpenAI entries precede all Anthropic ones. |
| ModelsDev.CatalogueSections | src/services/providers/models-dev.ts:55-75 | The catalogue is the OpenAI section followed by the Anthropic one, numbered from 1. |
| ProviderService.SortModels | src/services/providers/index.ts:19-21 | A permutation of the models, in ascending `sortOrder`. |
| ProviderService.Filter | src/services/providers/index.ts:30-32 | `Array.prototype.filter`: exactly the kept elements, each as often as in the input, as a subsequence of the input. |
| ProviderService.SameElements | src/services/providers/index.ts:19-21 | A permutation has the same elements. |
| Sorting.Sort | src/services/providers/index.ts:20 | `Array.prototype.sort` with a comparator: a permutation of the input. |
| Sorting.SortSorted | src/services/providers/models-dev.ts:88 | For a total preorder, the sorted list is in order. |
| Sorting.SortSameElements | src/services/providers/index.ts:20 | Sorting keeps exactly the same elements. |
| ProviderService.ListAll | src/services/providers/index.ts:23-25 | The whole catalogue, permuted into ascending `sortOrder`. |
| ProviderService.ListAvailable | src/services/providers/index.ts:27-33 | Exactly the models whose provider has a truthy key, each as often as in the catalogue, in sorted order. |
| ProviderService.ListAvailableProviders | src/services/providers/index.ts:39-41 | Exactly the providers with a key, in their list order. |
| ProviderService.ListByProvider | src/services/providers/index.ts:43-49 | Exactly the models of that provider, if it has a key, each as often as in the catalogue, in sorted order. |
| ProviderService.FindModel | src/services/providers/index.ts:57 | The first entry with the id, or none if no entry has it. |
| ProviderService.Label | src/services/providers/index.ts:51-54 | `<label> (<providerLabel>)` for the first entry with the id, or the id itself. |
| ProviderService.Registered | src/services/providers/index.ts:69-79 | The registry holds OpenAI exactly when its key is present, Anthropic exactly when its key is present, and nothing else. |
| ProviderService.GetModel | src/services/providers/index.ts:56-100 | An unknown id fails with `Unknown model "<id>".`, and a known model whose provider has no key fails with the setup message. Otherwise the registry id is `baseModelId ?? id`. The settings wrapper is applied exactly when the model has provider options or a token cap, and carries exactly those. |
| ProviderService.ResolvableIsAvailable | src/services/providers/index.ts:27-67 | A model that `getModel` resolves is listed by `listAvailable`. |
| LegacyProviders.ModelIdRoundTrip | src/providers.ts:47-48 | The provider is the text before the first `:`, and the model name is the rest re-joined with `:`. Provider, `:` and model name give back the id, so colons in model names survive. An id without `:` is all provider, with an empty model name. |
| LegacyProviders.ResolveModel | src/providers.ts:46-83 | A missing key fails with the message naming the provider, and this is checked before the provider name. A provider other than the five known ones fails with `Unknown provider: <name>`. Otherwise the handle gets the provider, the model name and the key. |
| LegacyProviders.Filter | src/providers.ts:40-43 | Exactly the models with a truthy key, in list order. |
| LegacyProviders.GetAvailableModels | src/providers.ts:39-44 | Exactly the listed models whose provider has a truthy key, as a subsequence of the list. |
| LegacyProviders.FindIndex | src/providers.ts:86 | The first position with the id, or none if no position has it. |
| LegacyProviders.Find | src/providers.ts:86 | The first listed model with the id. |
| LegacyProviders.GetModelLabel | src/providers.ts:85-88 | `<label> (<providerLabel>)` for a listed id, or the id itself. |
| LegacyProviders.GetProviderFromModelId | src/providers.ts:90-92 | The prefix before the first `:`, or the whole string if there is no `:`. |
| LegacyConfig.EnvVarFor | src/config.ts:25-32 | A provider has an environment variable exactly when it is among the six mapped providers. |
| LegacyConfig.Lookup | src/config.ts:67 | The value of the first pair with the key, or none if no pair has it. |
| LegacyConfig.GetApiKey | src/config.ts:66-72 | For a mapped provider whose variable is non-empty, the environment value wins. Otherwise the saved key is used. |
| LegacyConfig.UnmappedIgnoresEnv | src/config.ts:67-68 | An unmapped provider never consults the environment. |
| LegacyConfig.AnyKey | src/config.ts:75-80 | True if and only if some listed provider has a truthy key. |
| LegacyConfig.HasAnyApiKey | src/config.ts:74-81 | True if and only if some mapped provider yields a truthy key. |
| LegacyConfig.LoadConfig | src/config.ts:38-53 | A missing, unreadable or non-object file yields the defaults (`openai:gpt-4.1-nano`, no keys). Otherwise the saved model overrides the default, and the keys are merged key by key over the defaults. |
| LegacyConfig.LoadKeepsSavedKeys | src/config.ts:46 | Every key saved in the file survives loading. |
| ApiKeys.Get | src/controllers/config/api-keys.ts:5-11 | A non-empty environment variable wins over the saved key. |
| ApiKeys.AnyKey | src/controllers/config/api-keys.ts:14-19 | True if and only if some listed provider has a truthy key. |
| ApiKeys.HasAny | src/controllers/config/api-keys.ts:13-20 | True if and only if OpenAI, Anthropic or Exa has a truthy key. |
| ApiKeys.EmptyKeyIsAbsent | src/controllers/config/api-keys.ts:7-15 | Empty saved keys with no environment variables count as no key. |
| ConfigControllerModel.Load | src/controllers/config/index.ts:16-30 | A missing, unreadable or non-object file yields the defaults. Otherwise the saved fields overlay the defaults shallowly, so a saved `apiKeys` replaces the default whole. |
| ConfigControllerModel.ConfigController.constructor | src/controllers/config/index.ts:12-14 | The config is the loaded one, `modelId` is its default model, and `needsSetup` is true exactly when no key is present. |
| ConfigControllerModel.ConfigController.SetModel | src/controllers/config/index.ts:39-48 | Only `defaultModel` changes. `modelId` becomes the new id, `needsSetup` is recomputed, and the updated config is persisted. |
| ConfigControllerModel.ConfigController.SaveConfig | src/controllers/config/index.ts:50-55 | The config is replaced and `modelId` follows it. `needsSetup` is recomputed, and the new config is persisted. |

## Left out

- **Untyped and floating-point values:**
  - JSON values are modelled without floating point or NaN. Numbers are integers, and JS arrays are objects.
  - Strings are sequences of characters, and `length` counts characters rather than UTF-16 code units.
  - `toLowerCase` is ASCII-only, and `localeCompare` is code-unit order.
- **Oracles and parameters:** the model stream, the SDK agent, `convertToModelMessages`, the provider SDKs and `wrapLanguageModel` are oracles or opaque handles. The same goes for `path.resolve`, `JSON.stringify`, `generateId`, `Get.find` and the clipboard. All are foreign library calls.
- **Tool executors:** `executeTool` and `executeSafeTool` of src/agent.ts are numbered oracle results. Their bodies, and the 30-second timeout and `maxBuffer` of `execSync`, are process I/O.
- **The dangerous-tool set:** `isDangerous` / `isDangerousTool` are a parameter, because their definition is not part of this model. `FileTools.NeedsApproval` records which file tools declare `needsApproval`.
- **Catalogue lists:** `FALLBACK_MODEL_LIST`, `PROVIDER_LIST` and the synced-model lookup of `modelList()` are parameters, because they are not part of this model. `listProviders` only returns that parameter, and has no member.
- **Network and persistence:**
  - The `fetch` in `fetchModels`, the Express server with its token generation, and the Exa client are network I/O.
  - Config `save` is recorded as the saved value rather than written to a file.
- **Concurrency:**
  - The Promise-based approval hand-off is a synchronous decision oracle plus the resolver the gate holds.
  - The asynchronous data callbacks of the shell tool are a finite event list in arrival order.
- ChatControllerModel.ChatController: `sendMessage` is left out. It delegates to `messages.sendMessage`, but src/controllers/chat/messages.ts declares neither that method nor the two-argument constructor the controller calls, so its behaviour cannot be recovered. That file's class is modelled on its own, as `ChatMessages.MessageList`.
- ChatServerHandler.ProcessChatRequest: the approval request that the handler's guard sends through `toolApproval.request` is a decision oracle, because that method is not part of this model.
- **Event types and handlers:**
  - The `ChatEvent` union is reconstructed from its publish and subscribe sites, and its types are an enumeration rather than strings.
  - Handlers are named values rather than closures.
  - `chat/assistant-text`, `chat/cleared`, `chat/stream-flushed` and `chat/tool-approval-decided` have no subscriber among the controller's submodules, so publishing them only records them in the event log.
- **Directory order:** `readdir` order is not modelled. `FileTools.FileSystem.ListChildren` lists each entry once, in an order it chooses.
- **Object key order:** `Object.values` order in models-dev is not modelled; the payload's models are a sequence.
- ChatMessageUtils.FormatToolArgs: the argument object's entries are taken as already listed in `Object.entries` order, with array-index keys first in ascending order. How that order arises from the order in which keys were added is not modelled, because no modelled operation adds a key to an object. The same holds for ChatMessageUtils.Pairs and Json.Keys.
- ProviderService.SortModels: the stability of `Array.prototype.sort` among models with equal `sortOrder` is not stated. Only the permutation and the ascending order are proved.
- ShellTool.RunProcess: events after the first `error` or `close` have no effect, since the promise is already settled. Interleaving with the child process is not modelled.
- FileTools.FileSystem.Read: reading a file is assumed not to fail. The only thrown case modelled is reading a directory. Permissions and I/O errors are not modelled.
- Agent.RunAgent: the system prompt and `process.cwd()` text are not modelled, because they only reach the model oracle.
