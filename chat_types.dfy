/**
 * Records shared by the chat controller and its components:
 * src/components/chat-message/types.ts, src/controllers/chat/types.ts,
 * src/services/agent/types.ts and src/components/tool-call-review/types.ts.
 */
module ChatTypes {
  import opened Wrappers
  import opened Json

  datatype MessageRole = UserRole | AssistantRole | ToolCallRole | ToolResultRole

  /** `ChatMessageData`: one row of the display feed. */
  datatype DisplayMessage = DisplayMessage(
    id: string,
    role: MessageRole,
    content: string,
    toolName: Option<string>,
    toolArgs: Option<Record>)

  /** `OverlayMode`. */
  datatype OverlayMode = NoOverlay | ModelSelector | Help | ConfigSetup

  /** `ToolApprovalStatus` / `ReviewDecision`. */
  datatype Decision = Approved | Denied

  /** `PendingToolCall`. */
  datatype PendingToolCall = PendingToolCall(toolCallId: string, toolName: string, args: Record)

  /** A part of an assistant message: text, or a tool call with its raw input. */
  datatype ContentPart = TextContent(text: string) | ToolCallContent(toolCallId: string, toolName: string, input: Value)

  /** The `output` of a tool result: a JSON value, or `execution-denied` with its reason. */
  datatype ToolOutput = JsonOutput(value: Value) | ExecutionDenied(reason: string)

  datatype ToolResultPart = ToolResultPart(toolCallId: string, toolName: string, output: ToolOutput)

  /** `ModelMessage`, in the shapes the client builds: a user message, an assistant message with
      plain text content or with parts, and a tool message with results. */
  datatype ModelMessage =
    | UserMessage(content: string)
    | AssistantText(text: string)
    | AssistantParts(parts: seq<ContentPart>)
    | ToolMessage(results: seq<ToolResultPart>)

  /** The error object reported for a denied call. */
  const DenialMessage: string := "Tool call was denied by the user."
}
