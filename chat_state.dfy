/**
 * src/controllers/chat/state.ts: `SubmoduleChatControllerState`, the observable fields of the
 * chat screen and the operations that append to, prepend to and reset them.
 *
 * `generateId()` becomes an `id` parameter and `JSON.stringify(result, null, 2)` the
 * `stringify` parameter.
 */
module ChatStateModel {
  import opened Wrappers
  import opened Json
  import opened ChatTypes

  /** The values of the state's fields at one moment. */
  datatype ChatStateValue = ChatStateValue(
    inputHistory: seq<string>,
    coreMessages: seq<ModelMessage>,
    displayMessages: seq<DisplayMessage>,
    loading: bool,
    streamingText: string,
    overlay: OverlayMode,
    streamingReasoning: string,
    reasoningVisible: bool,
    pendingToolCall: Option<PendingToolCall>)

  /** The field initialisers. */
  const InitialState: ChatStateValue :=
    ChatStateValue([], [], [], false, "", NoOverlay, "", false, None)

  /** The reasoning buffer is empty whenever reasoning is hidden. */
  predicate ReasoningConsistent(s: ChatStateValue) {
    !s.reasoningVisible ==> s.streamingReasoning == ""
  }

  /** The content of a tool-result row: a string verbatim, anything else serialised. */
  function ResultContent(result: Value, stringify: Value -> string): (content: string)
    ensures result.Str? ==> content == result.s
    ensures !result.Str? ==> content == stringify(result)
  {
    if result.Str? then result.s else stringify(result)
  }

  class ChatState {
    var inputHistory: seq<string>
    var coreMessages: seq<ModelMessage>
    var displayMessages: seq<DisplayMessage>
    var loading: bool
    var streamingText: string
    var overlay: OverlayMode
    var streamingReasoning: string
    var reasoningVisible: bool
    var pendingToolCall: Option<PendingToolCall>

    function Value(): ChatStateValue
      reads this
    {
      ChatStateValue(inputHistory, coreMessages, displayMessages, loading, streamingText,
                     overlay, streamingReasoning, reasoningVisible, pendingToolCall)
    }

    constructor ()
      ensures Value() == InitialState
    {
      inputHistory := [];
      coreMessages := [];
      displayMessages := [];
      loading := false;
      streamingText := "";
      overlay := NoOverlay;
      streamingReasoning := "";
      reasoningVisible := false;
      pendingToolCall := None;
    }

    /** `addDisplayMessage`: one entry at the end, and nothing else changes. */
    method AddDisplayMessage(message: DisplayMessage)
      modifies this
      ensures Value() == old(Value()).(displayMessages := old(displayMessages) + [message])
    {
      displayMessages := displayMessages + [message];
    }

    method AddAssistantText(id: string, content: string)
      modifies this
      ensures Value() == old(Value()).(displayMessages := old(displayMessages) + [DisplayMessage(id, AssistantRole, content, None, None)])
    {
      AddDisplayMessage(DisplayMessage(id, AssistantRole, content, None, None));
    }

    method AddUserText(id: string, content: string)
      modifies this
      ensures Value() == old(Value()).(displayMessages := old(displayMessages) + [DisplayMessage(id, UserRole, content, None, None)])
    {
      AddDisplayMessage(DisplayMessage(id, UserRole, content, None, None));
    }

    /** A tool-call row has empty content and carries the tool's name and arguments. */
    method AddToolCallMessage(id: string, toolName: string, toolArgs: Record)
      modifies this
      ensures Value() == old(Value()).(displayMessages :=
        old(displayMessages) + [DisplayMessage(id, ToolCallRole, "", Some(toolName), Some(toolArgs))])
    {
      AddDisplayMessage(DisplayMessage(id, ToolCallRole, "", Some(toolName), Some(toolArgs)));
    }

    method AddToolResultMessage(id: string, toolName: string, result: Value, stringify: Value -> string)
      modifies this
      ensures Value() == old(Value()).(displayMessages :=
        old(displayMessages) + [DisplayMessage(id, ToolResultRole, ResultContent(result, stringify), Some(toolName), None)])
    {
      var content := if result.Str? then result.s else stringify(result);
      AddDisplayMessage(DisplayMessage(id, ToolResultRole, content, Some(toolName), None));
    }

    /** `pushInputHistory`: the newest input goes first. */
    method PushInputHistory(input: string)
      modifies this
      ensures Value() == old(Value()).(inputHistory := [input] + old(inputHistory))
    {
      inputHistory := [input] + inputHistory;
    }

    /** `appendCoreUserMessage`: returns exactly the list it stores. */
    method AppendCoreUserMessage(content: string) returns (nextMessages: seq<ModelMessage>)
      modifies this
      ensures nextMessages == old(coreMessages) + [UserMessage(content)]
      ensures Value() == old(Value()).(coreMessages := nextMessages)
    {
      nextMessages := coreMessages + [UserMessage(content)];
      coreMessages := nextMessages;
    }

    method SetCoreMessages(messages: seq<ModelMessage>)
      modifies this
      ensures Value() == old(Value()).(coreMessages := messages)
    {
      coreMessages := messages;
    }

    method ResetStreamState()
      modifies this
      ensures Value() == old(Value()).(streamingText := "", streamingReasoning := "", reasoningVisible := false)
      ensures ReasoningConsistent(Value())
    {
      streamingText := "";
      streamingReasoning := "";
      reasoningVisible := false;
    }

    /** `clearConversation`: input history, loading, overlay and the pending call stay. */
    method ClearConversation()
      modifies this
      ensures Value() == old(Value()).(streamingText := "", streamingReasoning := "", reasoningVisible := false,
                                       displayMessages := [], coreMessages := [])
      ensures ReasoningConsistent(Value())
    {
      ResetStreamState();
      displayMessages := [];
      coreMessages := [];
    }
  }
}
