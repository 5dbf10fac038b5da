/**
 * src/controllers/chat/messages.ts: `SubmoduleChatControllerMessages`, the list of UI messages
 * of the chat view, its conversion into display rows and the reasoning text being streamed.
 *
 * `generateId()` becomes an `id` parameter, `JSON.stringify(output, null, 2)` the `stringify`
 * parameter, and the bound `setMessages` function is named by a number; the calls made to it
 * are recorded in `viewUpdates`.
 */
module ChatMessages {
  import opened Wrappers
  import opened Json
  import opened JsString
  import opened ChatTypes
  import opened ChatStateModel

  datatype UiRole = UiSystem | UiUser | UiAssistant

  /** The `state` of a `dynamic-tool` part. */
  datatype ToolPartState =
    | InputStreaming
    | InputAvailable
    | ApprovalRequested
    | ApprovalResponded
    | OutputAvailable
    | OutputError
    | OutputDenied

  /** The part kinds the conversion distinguishes; every other kind is `OtherUiPart`. */
  datatype UiPart =
    | TextPart(text: string)
    | ReasoningPart(reasoning: string)
    | DynamicToolPart(toolCallId: string, toolName: string, input: Value, state: ToolPartState,
                      output: Value, errorText: string)
    | OtherUiPart

  datatype UiMessage = UiMessage(id: string, role: UiRole, parts: seq<UiPart>)

  /** A call of `setMessages`: a new list, or an updater that appends one message. */
  datatype ViewUpdate = ReplaceAll(messages: seq<UiMessage>) | AppendMessage(message: UiMessage)

  const DeniedContent: string := "Tool call denied."

  /** A result row follows the call row only once the tool has an outcome. */
  predicate HasOutcome(s: ToolPartState) {
    s == OutputAvailable || s == OutputError || s == OutputDenied
  }

  /** The rows one part of `m` yields when `before` rows precede it. */
  function PartRows(m: UiMessage, part: UiPart, before: nat, freshRef: nat, stringify: Value -> string)
    : (rows: seq<DisplayMessage>)
    ensures part.TextPart? ==>
      |rows| == (if m.role != UiSystem && part.text != "" then 1 else 0)
    ensures part.TextPart? && rows != [] ==>
      rows[0] == DisplayMessage(m.id + "-text-" + NatToString(before),
                                if m.role == UiUser then UserRole else AssistantRole, part.text, None, None)
    ensures part.DynamicToolPart? ==>
      && |rows| == (if HasOutcome(part.state) then 2 else 1)
      && rows[0] == DisplayMessage(m.id + "-tool-call-" + part.toolCallId, ToolCallRole, "",
                                   Some(part.toolName), Some(ArgsOf(part.input, freshRef)))
    ensures part.DynamicToolPart? && HasOutcome(part.state) ==>
      && rows[1].id == m.id + "-tool-result-" + part.toolCallId
      && rows[1].role == ToolResultRole
      && rows[1].toolName == Some(part.toolName) && rows[1].toolArgs == None
      && rows[1].content == match part.state
                            case OutputError => "Error: " + part.errorText
                            case OutputDenied => DeniedContent
                            case _ => ResultContent(part.output, stringify)
    ensures part.ReasoningPart? || part.OtherUiPart? ==> rows == []
  {
    match part
    case TextPart(text) =>
      if m.role == UiSystem || text == "" then []
      else [DisplayMessage(m.id + "-text-" + NatToString(before),
                           if m.role == UiUser then UserRole else AssistantRole, text, None, None)]
    case DynamicToolPart(callId, toolName, input, state, output, errorText) =>
      var call := DisplayMessage(m.id + "-tool-call-" + callId, ToolCallRole, "", Some(toolName), Some(ArgsOf(input, freshRef)));
      var resultId := m.id + "-tool-result-" + callId;
      if state == OutputAvailable then
        [call, DisplayMessage(resultId, ToolResultRole, ResultContent(output, stringify), Some(toolName), None)]
      else if state == OutputError then
        [call, DisplayMessage(resultId, ToolResultRole, "Error: " + errorText, Some(toolName), None)]
      else if state == OutputDenied then
        [call, DisplayMessage(resultId, ToolResultRole, DeniedContent, Some(toolName), None)]
      else [call]
    case _ => []
  }

  /** The rows of the first `n` parts of `m`, in part order, when `before` rows precede them. */
  function PartsRows(m: UiMessage, n: nat, before: nat, freshRef: nat, stringify: Value -> string)
    : seq<DisplayMessage>
    requires n <= |m.parts|
  {
    if n == 0 then []
    else
      var prev := PartsRows(m, n - 1, before, freshRef, stringify);
      prev + PartRows(m, m.parts[n - 1], before + |prev|, freshRef, stringify)
  }

  /** `toDisplayMessages(messages)`: the rows of each message in turn. */
  function DisplayRows(messages: seq<UiMessage>, freshRef: nat, stringify: Value -> string): seq<DisplayMessage> {
    if messages == [] then []
    else
      var prev := DisplayRows(messages[..|messages| - 1], freshRef, stringify);
      var m := messages[|messages| - 1];
      prev + PartsRows(m, |m.parts|, |prev|, freshRef, stringify)
  }

  /** The index of the last assistant message, if any. */
  function LatestAssistant(messages: seq<UiMessage>): (k: Option<nat>)
    ensures k.Some? ==> k.value < |messages| && messages[k.value].role == UiAssistant
    ensures k.Some? ==> forall j :: k.value < j < |messages| ==> messages[j].role != UiAssistant
    ensures k.None? ==> forall j :: 0 <= j < |messages| ==> messages[j].role != UiAssistant
  {
    if messages == [] then None
    else if messages[|messages| - 1].role == UiAssistant then Some(|messages| - 1)
    else LatestAssistant(messages[..|messages| - 1])
  }

  /** The reasoning parts' texts, joined with no separator. */
  function ReasoningText(parts: seq<UiPart>): string {
    if parts == [] then ""
    else
      var last := parts[|parts| - 1];
      ReasoningText(parts[..|parts| - 1]) + (if last.ReasoningPart? then last.reasoning else "")
  }

  /** `getStreamingReasoning(messages)`. */
  function GetStreamingReasoning(messages: seq<UiMessage>): (r: string)
    ensures LatestAssistant(messages).None? ==> r == ""
    ensures LatestAssistant(messages).Some? ==> r == ReasoningText(messages[LatestAssistant(messages).value].parts)
  {
    match LatestAssistant(messages)
    case None => ""
    case Some(k) => ReasoningText(messages[k].parts)
  }

  class MessageList {
    var messages: seq<UiMessage>
    var setMessages: Option<nat>
    var viewUpdates: seq<(nat, ViewUpdate)>

    constructor ()
      ensures messages == [] && setMessages == None && viewUpdates == []
    {
      messages := [];
      setMessages := None;
      viewUpdates := [];
    }

    /** `clear()`: the list is emptied, and so is the view's when a setter is bound. */
    method Clear()
      modifies this
      ensures messages == [] && setMessages == old(setMessages)
      ensures viewUpdates == old(viewUpdates) + (if setMessages.Some? then [(setMessages.value, ReplaceAll([]))] else [])
    {
      messages := [];
      if setMessages.Some? {
        viewUpdates := viewUpdates + [(setMessages.value, ReplaceAll([]))];
      }
    }

    method BindSetMessages(setter: nat)
      modifies this
      ensures setMessages == Some(setter) && messages == old(messages) && viewUpdates == old(viewUpdates)
    {
      setMessages := Some(setter);
    }

    method Sync(newMessages: seq<UiMessage>)
      modifies this
      ensures messages == newMessages && setMessages == old(setMessages) && viewUpdates == old(viewUpdates)
    {
      messages := newMessages;
    }

    /** `addAssistant(content)`: one assistant message with a single text part. */
    method AddAssistant(id: string, content: string)
      modifies this
      ensures messages == old(messages) + [UiMessage(id, UiAssistant, [TextPart(content)])]
      ensures setMessages == old(setMessages)
      ensures viewUpdates == old(viewUpdates) +
        (if setMessages.Some? then [(setMessages.value, AppendMessage(UiMessage(id, UiAssistant, [TextPart(content)])))] else [])
    {
      var assistantMessage := UiMessage(id, UiAssistant, [TextPart(content)]);
      messages := messages + [assistantMessage];
      if setMessages.Some? {
        viewUpdates := viewUpdates + [(setMessages.value, AppendMessage(assistantMessage))];
      }
    }

    method GetDisplayMessages(freshRef: nat, stringify: Value -> string) returns (rows: seq<DisplayMessage>)
      ensures rows == DisplayRows(messages, freshRef, stringify)
    {
      rows := ToDisplayMessages(messages, freshRef, stringify);
    }
  }

  /** The two nested loops of `toDisplayMessages`. */
  method ToDisplayMessages(messages: seq<UiMessage>, freshRef: nat, stringify: Value -> string)
    returns (rows: seq<DisplayMessage>)
    ensures rows == DisplayRows(messages, freshRef, stringify)
  {
    rows := [];
    for i := 0 to |messages|
      invariant rows == DisplayRows(messages[..i], freshRef, stringify)
    {
      assert messages[..i + 1][..i] == messages[..i];
      rows := AppendMessageRows(rows, messages[i], freshRef, stringify);
    }
    assert messages[..|messages|] == messages;
  }

  /** The inner loop: the rows of each part of one message pushed after `rows`. */
  method AppendMessageRows(rows: seq<DisplayMessage>, message: UiMessage, freshRef: nat, stringify: Value -> string)
    returns (next: seq<DisplayMessage>)
    ensures next == rows + PartsRows(message, |message.parts|, |rows|, freshRef, stringify)
  {
    next := rows;
    for j := 0 to |message.parts|
      invariant next == rows + PartsRows(message, j, |rows|, freshRef, stringify)
    {
      PartsRowsNext(message, j, |rows|, freshRef, stringify);
      ghost var prev := next;
      next := AppendPartRows(next, message, message.parts[j], freshRef, stringify);
      AppendAssoc(rows, PartsRows(message, j, |rows|, freshRef, stringify), next[|prev|..]);
    }
  }

  lemma PartsRowsNext(m: UiMessage, j: nat, before: nat, freshRef: nat, stringify: Value -> string)
    requires j < |m.parts|
    ensures var prev := PartsRows(m, j, before, freshRef, stringify);
      PartsRows(m, j + 1, before, freshRef, stringify) == prev + PartRows(m, m.parts[j], before + |prev|, freshRef, stringify)
  {
  }

  lemma PartsRowsLast(m: UiMessage, n: nat, before: nat, freshRef: nat, stringify: Value -> string)
    requires 0 < n <= |m.parts|
    ensures var prev := PartsRows(m, n - 1, before, freshRef, stringify);
      PartsRows(m, n, before, freshRef, stringify) == prev + PartRows(m, m.parts[n - 1], before + |prev|, freshRef, stringify)
  {
  }

  lemma AppendAssoc<T>(a: seq<T>, b: seq<T>, c: seq<T>)
    ensures (a + b) + c == a + (b + c)
  {
  }

  /** The body of the inner loop: the rows of one part pushed after `rows`. */
  method AppendPartRows(rows: seq<DisplayMessage>, message: UiMessage, part: UiPart, freshRef: nat, stringify: Value -> string)
    returns (next: seq<DisplayMessage>)
    ensures next == rows + PartRows(message, part, |rows|, freshRef, stringify)
  {
    next := rows;
    match part {
      case TextPart(text) =>
        if message.role != UiSystem && text != "" {
          var role := if message.role == UiUser then UserRole else AssistantRole;
          next := next + [DisplayMessage(message.id + "-text-" + NatToString(|next|), role, text, None, None)];
        }
      case DynamicToolPart(callId, toolName, input, state, output, errorText) =>
        var toolArgs := if input.Obj? then input.obj else EmptyRecord(freshRef);
        next := next + [DisplayMessage(message.id + "-tool-call-" + callId, ToolCallRole, "", Some(toolName), Some(toolArgs))];
        var resultId := message.id + "-tool-result-" + callId;
        if state == OutputAvailable {
          var content := if output.Str? then output.s else stringify(output);
          next := next + [DisplayMessage(resultId, ToolResultRole, content, Some(toolName), None)];
        } else if state == OutputError {
          next := next + [DisplayMessage(resultId, ToolResultRole, "Error: " + errorText, Some(toolName), None)];
        } else if state == OutputDenied {
          next := next + [DisplayMessage(resultId, ToolResultRole, DeniedContent, Some(toolName), None)];
        }
      case _ =>
    }
  }

  /** If row `k` is a result row, the row before it is the call row of the same tool. */
  predicate FollowsCallAt(rows: seq<DisplayMessage>, k: nat)
    requires k < |rows|
  {
    rows[k].role == ToolResultRole ==>
      k > 0 && rows[k - 1].role == ToolCallRole && rows[k - 1].toolName == rows[k].toolName
  }

  /** A result row is always directly preceded by the call row of the same tool. */
  ghost predicate ResultsFollowCalls(rows: seq<DisplayMessage>) {
    forall k: nat :: k < |rows| ==> FollowsCallAt(rows, k)
  }

  /** The text row at position `k` of the list, counted from `offset`, ends with `-text-k`. */
  ghost predicate TextIdsCountRows(rows: seq<DisplayMessage>, offset: nat) {
    forall k :: 0 <= k < |rows| && (rows[k].role == UserRole || rows[k].role == AssistantRole) ==>
      IsTextId(rows[k].id, offset + k)
  }

  /** `id` is `<message id>-text-<n>` for some message id. */
  ghost predicate IsTextId(id: string, n: nat) {
    exists owner: string :: id == owner + "-text-" + NatToString(n)
  }

  /** Both properties, and no result row first (so that its call row is never in another list). */
  ghost predicate WellShaped(rows: seq<DisplayMessage>, offset: nat) {
    ResultsFollowCalls(rows) && TextIdsCountRows(rows, offset) && (rows != [] ==> rows[0].role != ToolResultRole)
  }

  lemma RowsAppend(a: seq<DisplayMessage>, b: seq<DisplayMessage>, r: seq<DisplayMessage>, offset: nat)
    requires WellShaped(a, offset)
    requires WellShaped(b, offset + |a|)
    requires r == a + b
    ensures WellShaped(r, offset)
  {
    forall k: nat | k < |r|
      ensures FollowsCallAt(r, k)
    {
      if k >= |a| {
        assert FollowsCallAt(b, k - |a|);
        assert r[k] == b[k - |a|];
        if r[k].role == ToolResultRole {
          assert r[k - 1] == b[k - 1 - |a|];
        }
      } else {
        assert FollowsCallAt(a, k);
        assert r[k] == a[k];
        if r[k].role == ToolResultRole {
          assert r[k - 1] == a[k - 1];
        }
      }
    }
    forall k | 0 <= k < |r| && (r[k].role == UserRole || r[k].role == AssistantRole)
      ensures IsTextId(r[k].id, offset + k)
    {
      if k >= |a| {
        assert r[k] == b[k - |a|];
      } else {
        assert r[k] == a[k];
      }
    }
  }

  lemma PartRowsShape(m: UiMessage, part: UiPart, before: nat, freshRef: nat, stringify: Value -> string)
    ensures WellShaped(PartRows(m, part, before, freshRef, stringify), before)
  {
    var rows := PartRows(m, part, before, freshRef, stringify);
    if part.TextPart? && rows != [] {
      assert rows[0].id == m.id + "-text-" + NatToString(before);
    }
  }

  lemma {:induction false} PartsRowsShape(m: UiMessage, n: nat, before: nat, freshRef: nat, stringify: Value -> string)
    requires n <= |m.parts|
    ensures WellShaped(PartsRows(m, n, before, freshRef, stringify), before)
    decreases n
  {
    if n != 0 {
      PartsRowsShape(m, n - 1, before, freshRef, stringify);
      PartsRowsStep(m, n, before, freshRef, stringify);
    }
  }

  lemma PartsRowsStep(m: UiMessage, n: nat, before: nat, freshRef: nat, stringify: Value -> string)
    requires 0 < n <= |m.parts|
    requires WellShaped(PartsRows(m, n - 1, before, freshRef, stringify), before)
    ensures WellShaped(PartsRows(m, n, before, freshRef, stringify), before)
  {
    var prev := PartsRows(m, n - 1, before, freshRef, stringify);
    var last := PartRows(m, m.parts[n - 1], before + |prev|, freshRef, stringify);
    PartsRowsLast(m, n, before, freshRef, stringify);
    PartRowsShape(m, m.parts[n - 1], before + |prev|, freshRef, stringify);
    RowsAppend(prev, last, PartsRows(m, n, before, freshRef, stringify), before);
  }

  /**
   * Over any list of messages: every result row directly follows the call row of its tool,
   * and the `n` in a text row's id `<message id>-text-<n>` is its position in the rows.
   */
  lemma DisplayRowsShape(messages: seq<UiMessage>, freshRef: nat, stringify: Value -> string)
    ensures ResultsFollowCalls(DisplayRows(messages, freshRef, stringify))
    ensures TextIdsCountRows(DisplayRows(messages, freshRef, stringify), 0)
  {
    DisplayRowsWellShaped(messages, freshRef, stringify);
  }

  lemma {:induction false} DisplayRowsWellShaped(messages: seq<UiMessage>, freshRef: nat, stringify: Value -> string)
    ensures WellShaped(DisplayRows(messages, freshRef, stringify), 0)
    decreases |messages|
  {
    if messages != [] {
      DisplayRowsWellShaped(messages[..|messages| - 1], freshRef, stringify);
      DisplayRowsStep(messages, freshRef, stringify);
    }
  }

  lemma DisplayRowsStep(messages: seq<UiMessage>, freshRef: nat, stringify: Value -> string)
    requires messages != []
    requires WellShaped(DisplayRows(messages[..|messages| - 1], freshRef, stringify), 0)
    ensures WellShaped(DisplayRows(messages, freshRef, stringify), 0)
  {
    var prev := DisplayRows(messages[..|messages| - 1], freshRef, stringify);
    var m := messages[|messages| - 1];
    var last := PartsRows(m, |m.parts|, |prev|, freshRef, stringify);
    PartsRowsShape(m, |m.parts|, |prev|, freshRef, stringify);
    RowsAppend(prev, last, DisplayRows(messages, freshRef, stringify), 0);
  }

  /** `addAssistant` adds exactly one row when its content is non-empty, and none otherwise;
      the rows of the earlier messages are unchanged. */
  lemma AddedAssistantRows(messages: seq<UiMessage>, id: string, content: string, freshRef: nat, stringify: Value -> string)
    ensures var m := UiMessage(id, UiAssistant, [TextPart(content)]);
      var before := DisplayRows(messages, freshRef, stringify);
      DisplayRows(messages + [m], freshRef, stringify) ==
        before + (if content == "" then [] else [DisplayMessage(id + "-text-" + NatToString(|before|), AssistantRole, content, None, None)])
  {
    var m := UiMessage(id, UiAssistant, [TextPart(content)]);
    var all := messages + [m];
    assert all[..|all| - 1] == messages && all[|all| - 1] == m;
    var before := DisplayRows(messages, freshRef, stringify);
    assert PartsRows(m, 1, |before|, freshRef, stringify) == PartRows(m, TextPart(content), |before|, freshRef, stringify);
  }

  /** After `addAssistant`, the streamed reasoning is empty: the newest assistant message is the
      added one, which has no reasoning part. */
  lemma AddedAssistantHidesReasoning(messages: seq<UiMessage>, id: string, content: string)
    ensures GetStreamingReasoning(messages + [UiMessage(id, UiAssistant, [TextPart(content)])]) == ""
  {
    var m := UiMessage(id, UiAssistant, [TextPart(content)]);
    var all := messages + [m];
    assert all[|all| - 1] == m;
    assert LatestAssistant(all) == Some(|messages|);
    assert m.parts[..|m.parts| - 1] == [];
    assert ReasoningText(m.parts) == "";
  }

  /** Messages that are not from the assistant never change the streamed reasoning. */
  lemma NonAssistantKeepsReasoning(messages: seq<UiMessage>, m: UiMessage)
    requires m.role != UiAssistant
    ensures GetStreamingReasoning(messages + [m]) == GetStreamingReasoning(messages)
  {
    assert (messages + [m])[..|messages|] == messages;
  }
}
