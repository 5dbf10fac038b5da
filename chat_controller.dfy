/**
 * src/controllers/chat/controller.ts: `ChatController`, which owns the state, the event table and
 * the submodules, routes published events to the submodules' handlers and carries out slash
 * commands.
 *
 * `Get.find(ConfigController)` is the `config` object given to the constructor, the clipboard is
 * the `copy` parameter (its answer says whether copying worked), and the exit function is named
 * by a number; `copies` and `exitCalls` record the calls made to them.
 */
module ChatControllerModel {
  import opened Wrappers
  import opened ChatTypes
  import opened ConfigTypes
  import opened ChatEvents
  import opened ChatStateModel
  import opened ChatUi
  import opened ChatToolApproval
  import opened ChatCommands
  import ChatMessages
  import ConfigControllerModel

  const NoAssistantMessage: string := "No assistant message to copy."
  const CopyFailed: string := "Failed to copy message to clipboard."
  const Copied: string := "Copied the last assistant message to clipboard."
  const ConfigSaved: string := "Configuration saved."

  function UnknownCommandText(command: string): string {
    "Unknown command: " + command + ". Type /help for available commands."
  }

  function SwitchedText(modelId: string): string {
    "Switched to model: " + modelId
  }

  /** The table the constructor leaves: one handler for each type the submodules listen to. */
  const InitialListeners: Listeners := map[
    StreamTextDeltaType := [UiTextDelta],
    ReasoningStartedType := [UiReasoningStarted],
    ReasoningDeltaType := [UiReasoningDelta],
    ReasoningEndedType := [UiReasoningEnded],
    StreamFlushRequestedType := [UiFlush],
    OverlaySetType := [UiOverlaySet],
    OverlayDismissedType := [UiOverlayDismissed],
    AgentFinishedType := [UiAgentFinished],
    AgentErrorType := [UiAgentError],
    ToolApprovalRequestedType := [ApprovalRequested],
    ToolResultType := [ApprovalToolResult]]

  /** The submodule handler that listens to an event, if any. */
  function HandlerFor(e: ChatEvent): Option<Handler> {
    match e
    case StreamTextDelta(_) => Some(UiTextDelta)
    case ReasoningStarted => Some(UiReasoningStarted)
    case ReasoningDelta(_) => Some(UiReasoningDelta)
    case ReasoningEnded => Some(UiReasoningEnded)
    case StreamFlushRequested => Some(UiFlush)
    case OverlaySet(_) => Some(UiOverlaySet)
    case OverlayDismissed => Some(UiOverlayDismissed)
    case AgentFinished => Some(UiAgentFinished)
    case AgentError(_) => Some(UiAgentError)
    case ToolApprovalRequested(_, _) => Some(ApprovalRequested)
    case ToolResult => Some(ApprovalToolResult)
    case _ => None
  }

  /**
   * What the submodules' handlers do with an event: the new state and gate. Events that no
   * submodule listens to (`chat/stream-flushed`, `chat/tool-approval-decided`,
   * `chat/assistant-text`, `chat/cleared`) change neither.
   */
  function AfterEvent(e: ChatEvent, s: ChatStateValue, g: GateValue): (ChatStateValue, GateValue) {
    match e
    case StreamTextDelta(delta) => (s.(streamingText := s.streamingText + delta), g)
    case ReasoningStarted => (s.(reasoningVisible := true, streamingReasoning := ""), g)
    case ReasoningDelta(delta) =>
      (if s.reasoningVisible then s.(streamingReasoning := s.streamingReasoning + delta) else s, g)
    case ReasoningEnded => (s.(reasoningVisible := false, streamingReasoning := ""), g)
    case StreamFlushRequested => (s.(streamingText := ""), g)
    case OverlaySet(overlay) => (s.(overlay := overlay), g)
    case OverlayDismissed => (s.(overlay := NoOverlay), g)
    case AgentFinished => (s.(loading := false), g)
    case AgentError(_) => (s.(loading := false), g)
    case ToolApprovalRequested(toolCall, resolve) =>
      (s.(pendingToolCall := Some(toolCall)), GateStep(g, Requested(resolve)))
    case ToolResult => (s.(pendingToolCall := None), GateStep(g, ResultArrived))
    case _ => (s, g)
  }

  /** The events a handler publishes in turn: a flush with text publishes it. */
  function Emitted(e: ChatEvent, s: ChatStateValue): seq<ChatEvent> {
    if e.StreamFlushRequested? && s.streamingText != "" then [StreamFlushed(s.streamingText)] else []
  }

  /** `isInputActive`. */
  predicate InputActive(s: ChatStateValue) {
    !s.loading && s.pendingToolCall.None? && s.overlay == NoOverlay
  }

  /** The index of the most recent assistant row, if any. */
  function LastAssistantRow(rows: seq<DisplayMessage>): (k: Option<nat>)
    ensures k.Some? ==> k.value < |rows| && rows[k.value].role == AssistantRole
    ensures k.Some? ==> forall j :: k.value < j < |rows| ==> rows[j].role != AssistantRole
    ensures k.None? ==> forall j :: 0 <= j < |rows| ==> rows[j].role != AssistantRole
  {
    if rows == [] then None
    else if rows[|rows| - 1].role == AssistantRole then Some(|rows| - 1)
    else LastAssistantRow(rows[..|rows| - 1])
  }

  class ChatController {
    const state: ChatState
    const events: EventBus
    const ui: Ui
    const messages: ChatMessages.MessageList
    const approval: ToolApproval
    const config: ConfigControllerModel.ConfigController
    var exitFn: Option<nat>
    var exitCalls: seq<nat>
    var copies: seq<string>

    ghost predicate Valid()
      reads this, state, events, ui, approval
    {
      && ui.state == state && ui.events == events
      && approval.state == state && approval.events == events
      && events.Valid()
      && (events.listeners == InitialListeners || events.listeners == map[])
      && ReasoningConsistent(state.Value())
    }

    /** The submodules are listening: `onClose` has not run. */
    predicate Open()
      reads this, events
    {
      events.listeners == InitialListeners
    }

    /** `isInputActive`. */
    predicate IsInputActive()
      reads this, state
    {
      InputActive(state.Value())
    }

    constructor (config: ConfigControllerModel.ConfigController)
      ensures Valid() && Open()
      ensures state.Value() == InitialState && approval.Gate() == GateValue(None, [])
      ensures events.log == [] && exitFn == None && exitCalls == [] && copies == []
      ensures this.config == config
    {
      var state := new ChatState();
      var events := new EventBus();
      var ui := new Ui(state, events);
      var messages := new ChatMessages.MessageList();
      var approval := new ToolApproval(state, events);
      this.state := state;
      this.events := events;
      this.ui := ui;
      this.messages := messages;
      this.approval := approval;
      this.config := config;
      exitFn := None;
      exitCalls := [];
      copies := [];
      new;
      ConstructorTable();
    }

    /** Runs handler `h` of a submodule on `e`. */
    method Dispatch(h: Handler, e: ChatEvent)
      requires Valid() && HandlerFor(e) == Some(h)
      modifies state, events, approval
      ensures Valid()
      ensures events.listeners == old(events.listeners)
      ensures (state.Value(), approval.Gate()) == AfterEvent(e, old(state.Value()), old(approval.Gate()))
      ensures events.log == old(events.log) + Emitted(e, old(state.Value()))
    {
      match e {
        case StreamTextDelta(delta) => ui.OnStreamTextDelta(delta);
        case ReasoningStarted => ui.OnReasoningStarted();
        case ReasoningDelta(delta) => ui.OnReasoningDelta(delta);
        case ReasoningEnded => ui.OnReasoningEnded();
        case StreamFlushRequested =>
          var nested := ui.OnStreamFlushRequested();
          // No submodule listens to `chat/stream-flushed`.
          assert nested == [];
        case OverlaySet(overlay) => ui.OnOverlaySet(overlay);
        case OverlayDismissed => ui.OnOverlayDismissed();
        case AgentFinished => ui.OnAgentStopped();
        case AgentError(_) => ui.OnAgentStopped();
        case ToolApprovalRequested(toolCall, resolve) => approval.OnToolApprovalRequested(toolCall, resolve);
        case ToolResult => approval.OnToolResult();
      }
    }

    /** `events.publish(e)`, with the handlers it invokes. */
    method Publish(e: ChatEvent)
      requires Valid()
      modifies state, events, approval
      ensures Valid()
      ensures events.listeners == old(events.listeners)
      ensures old(Open()) ==>
        && (state.Value(), approval.Gate()) == AfterEvent(e, old(state.Value()), old(approval.Gate()))
        && events.log == old(events.log) + [e] + Emitted(e, old(state.Value()))
      ensures !old(Open()) ==>
        && state.Value() == old(state.Value()) && approval.Gate() == old(approval.Gate())
        && events.log == old(events.log) + [e]
    {
      var invoked := events.Publish(e);
      RouteOf(e);
      for i := 0 to |invoked|
        invariant Valid()
        invariant events.listeners == old(events.listeners)
        invariant i == 0 ==> state.Value() == old(state.Value()) && approval.Gate() == old(approval.Gate())
                             && events.log == old(events.log) + [e]
        invariant i == 1 ==>
          && (state.Value(), approval.Gate()) == AfterEvent(e, old(state.Value()), old(approval.Gate()))
          && events.log == old(events.log) + [e] + Emitted(e, old(state.Value()))
      {
        Dispatch(invoked[i], e);
      }
    }

    /** `events.publish(e)` for an event no submodule listens to: only the log changes. */
    method Announce(e: ChatEvent)
      requires Valid() && HandlerFor(e).None?
      modifies events
      ensures Valid()
      ensures events.listeners == old(events.listeners) && events.log == old(events.log) + [e]
    {
      var invoked := events.Publish(e);
      RouteOf(e);
      assert invoked == [];
    }

    method SetExitFn(exit: nat)
      modifies this
      ensures exitFn == Some(exit) && exitCalls == old(exitCalls) && copies == old(copies)
    {
      exitFn := Some(exit);
    }

    /** `applyToolDecision`. */
    method ApplyToolDecision(decision: Decision)
      requires Valid()
      modifies state, events, approval
      ensures Valid()
      ensures events.listeners == old(events.listeners)
      ensures approval.Gate() == GateStep(old(approval.Gate()), Decided(decision))
      ensures state.Value() == old(state.Value()).(pendingToolCall := None)
      ensures events.log == old(events.log) + [ToolApprovalDecided(decision)]
    {
      var invoked := approval.Apply(decision);
      // No submodule listens to `chat/tool-approval-decided`.
      assert invoked == [];
    }

    method DismissOverlay()
      requires Valid()
      modifies state, events, approval
      ensures Valid()
      ensures events.listeners == old(events.listeners) && approval.Gate() == old(approval.Gate())
      ensures events.log == old(events.log) + [OverlayDismissed]
      ensures state.Value() == if old(Open()) then old(state.Value()).(overlay := NoOverlay) else old(state.Value())
    {
      Publish(OverlayDismissed);
    }

    /** `showOverlay`: the overlay is never `'none'` here. */
    method ShowOverlay(overlay: OverlayMode)
      requires Valid() && overlay != NoOverlay
      modifies state, events, approval
      ensures Valid()
      ensures events.listeners == old(events.listeners) && approval.Gate() == old(approval.Gate())
      ensures events.log == old(events.log) + [OverlaySet(overlay)]
      ensures state.Value() == if old(Open()) then old(state.Value()).(overlay := overlay) else old(state.Value())
    {
      Publish(OverlaySet(overlay));
    }

    /** `switchModel`: the model is stored, then the switch announced, then the overlay dismissed. */
    method SwitchModel(newModelId: string, env: Env)
      requires Valid()
      modifies state, events, approval, config
      ensures Valid()
      ensures events.listeners == old(events.listeners) && approval.Gate() == old(approval.Gate())
      ensures config.config == old(config.config).(defaultModel := newModelId) && config.modelId == newModelId
      ensures events.log == old(events.log) + [ChatEvent.AssistantText(SwitchedText(newModelId)), OverlayDismissed]
      ensures state.Value() == if old(Open()) then old(state.Value()).(overlay := NoOverlay) else old(state.Value())
    {
      config.SetModel(newModelId, env);
      Announce(ChatEvent.AssistantText(SwitchedText(newModelId)));
      DismissOverlay();
    }

    /** `saveConfig`: the config is stored, the overlay dismissed, then the save announced. */
    method SaveConfig(newConfig: AppConfig, env: Env)
      requires Valid()
      modifies state, events, approval, config
      ensures Valid()
      ensures events.listeners == old(events.listeners) && approval.Gate() == old(approval.Gate())
      ensures config.config == newConfig && config.saved == Some(newConfig)
      ensures events.log == old(events.log) + [OverlayDismissed, ChatEvent.AssistantText(ConfigSaved)]
      ensures state.Value() == if old(Open()) then old(state.Value()).(overlay := NoOverlay) else old(state.Value())
    {
      config.SaveConfig(newConfig, env);
      DismissOverlay();
      Announce(ChatEvent.AssistantText(ConfigSaved));
    }

    /** The `clear-conversation` action. */
    method ClearConversation()
      requires Valid()
      modifies state, events
      ensures Valid()
      ensures events.listeners == old(events.listeners)
      ensures events.log == old(events.log) + [Cleared]
      ensures state.Value() == old(state.Value()).(streamingText := "", streamingReasoning := "",
        reasoningVisible := false, displayMessages := [], coreMessages := [])
    {
      state.ClearConversation();
      Announce(Cleared);
    }

    /** The `copy-last-assistant-message` action: the content of the most recent assistant row
        goes to the clipboard, and the outcome is announced. */
    method CopyLastAssistantMessage(copy: string -> bool)
      requires Valid()
      modifies this, events
      ensures Valid()
      ensures events.listeners == old(events.listeners)
      ensures exitFn == old(exitFn) && exitCalls == old(exitCalls)
      ensures LastAssistantRow(state.displayMessages).None? ==>
        copies == old(copies) && events.log == old(events.log) + [ChatEvent.AssistantText(NoAssistantMessage)]
      ensures LastAssistantRow(state.displayMessages).Some? ==>
        var content := state.displayMessages[LastAssistantRow(state.displayMessages).value].content;
        && copies == old(copies) + [content]
        && events.log == old(events.log) + [ChatEvent.AssistantText(if copy(content) then Copied else CopyFailed)]
    {
      var k := LastAssistantRow(state.displayMessages);
      if k.None? {
        Announce(ChatEvent.AssistantText(NoAssistantMessage));
        return;
      }
      var content := state.displayMessages[k.value].content;
      copies := copies + [content];
      if !copy(content) {
        Announce(ChatEvent.AssistantText(CopyFailed));
        return;
      }
      Announce(ChatEvent.AssistantText(Copied));
    }

    /** `processSlashCommand(command)`. */
    method ProcessSlashCommand(command: string, copy: string -> bool)
      requires Valid()
      modifies this, state, events, approval
      ensures Valid()
      ensures events.listeners == old(events.listeners) && approval.Gate() == old(approval.Gate())
      ensures exitFn == old(exitFn)
      ensures !Parse(command).Exit? ==> exitCalls == old(exitCalls)
      ensures !Parse(command).CopyLastAssistantMessage? ==> copies == old(copies)
      ensures !Parse(command).ClearConversation? && !(Parse(command).ShowOverlay? && old(Open())) ==>
        state.Value() == old(state.Value())
      ensures Parse(command).ShowOverlay? ==>
        && events.log == old(events.log) + [OverlaySet(Parse(command).overlay)]
        && (old(Open()) ==> state.Value() == old(state.Value()).(overlay := Parse(command).overlay))
      ensures Parse(command).ClearConversation? ==>
        && events.log == old(events.log) + [Cleared]
        && state.Value() == old(state.Value()).(streamingText := "", streamingReasoning := "",
             reasoningVisible := false, displayMessages := [], coreMessages := [])
      ensures Parse(command).CopyLastAssistantMessage? ==>
        var k := LastAssistantRow(old(state.displayMessages));
        && (k.None? ==> copies == old(copies) && events.log == old(events.log) + [ChatEvent.AssistantText(NoAssistantMessage)])
        && (k.Some? ==>
              var content := old(state.displayMessages)[k.value].content;
              && copies == old(copies) + [content]
              && events.log == old(events.log) + [ChatEvent.AssistantText(if copy(content) then Copied else CopyFailed)])
      ensures Parse(command).Exit? ==>
        && events.log == old(events.log)
        && exitCalls == old(exitCalls) + (if exitFn.Some? then [exitFn.value] else [])
      ensures Parse(command).Unknown? ==>
        events.log == old(events.log) + [ChatEvent.AssistantText(UnknownCommandText(command))]
    {
      var action := Parse(command);
      match action {
        case ShowOverlay(overlay) =>
          ShowOverlay(overlay);
        case ClearConversation =>
          ClearConversation();
        case CopyLastAssistantMessage =>
          CopyLastAssistantMessage(copy);
        case Exit =>
          if exitFn.Some? {
            exitCalls := exitCalls + [exitFn.value];
          }
        case Unknown(unknown) =>
          Announce(ChatEvent.AssistantText(UnknownCommandText(unknown)));
      }
    }

    /** `onClose`: every listener is removed, so later events reach no handler. */
    method OnClose()
      requires Valid()
      modifies events
      ensures Valid() && !Open() && events.listeners == map[] && events.log == old(events.log)
    {
      events.Clear();
      assert ToolResultType in InitialListeners;
    }
  }

  /** The constructor's subscriptions leave exactly `InitialListeners`. */
  lemma ConstructorTable()
    ensures ApprovalSubscribed(UiSubscribed(map[])) == InitialListeners
  {
    var m0: Listeners := map[];
    SubscribedFresh(m0, StreamTextDeltaType, UiTextDelta);
    var m1 := m0[StreamTextDeltaType := [UiTextDelta]];
    SubscribedFresh(m1, ReasoningStartedType, UiReasoningStarted);
    var m2 := m1[ReasoningStartedType := [UiReasoningStarted]];
    SubscribedFresh(m2, ReasoningDeltaType, UiReasoningDelta);
    var m3 := m2[ReasoningDeltaType := [UiReasoningDelta]];
    SubscribedFresh(m3, ReasoningEndedType, UiReasoningEnded);
    var m4 := m3[ReasoningEndedType := [UiReasoningEnded]];
    SubscribedFresh(m4, StreamFlushRequestedType, UiFlush);
    var m5 := m4[StreamFlushRequestedType := [UiFlush]];
    SubscribedFresh(m5, OverlaySetType, UiOverlaySet);
    var m6 := m5[OverlaySetType := [UiOverlaySet]];
    SubscribedFresh(m6, OverlayDismissedType, UiOverlayDismissed);
    var m7 := m6[OverlayDismissedType := [UiOverlayDismissed]];
    SubscribedFresh(m7, AgentFinishedType, UiAgentFinished);
    var m8 := m7[AgentFinishedType := [UiAgentFinished]];
    SubscribedFresh(m8, AgentErrorType, UiAgentError);
    var m9 := m8[AgentErrorType := [UiAgentError]];
    SubscribedFresh(m9, ToolApprovalRequestedType, ApprovalRequested);
    var m10 := m9[ToolApprovalRequestedType := [ApprovalRequested]];
    SubscribedFresh(m10, ToolResultType, ApprovalToolResult);
  }

  /** Subscribing to a type nobody listens to yet gives it exactly that handler. */
  lemma SubscribedFresh(l: Listeners, t: EventType, h: Handler)
    requires t !in l
    ensures Subscribed(l, t, h) == l[t := [h]]
  {
    assert HandlersOf(l, t) + [h] == [h];
  }
  /** Publishing on the constructor's table invokes exactly the one listening handler, if any;
      on the cleared table it invokes none. */
  lemma RouteOf(e: ChatEvent)
    ensures HandlersOf(InitialListeners, TypeOf(e)) == if HandlerFor(e).Some? then [HandlerFor(e).value] else []
    ensures HandlersOf(map[], TypeOf(e)) == []
  {
  }

  /** The handlers keep the reasoning buffer empty while reasoning is hidden. */
  lemma AfterEventKeepsReasoningConsistent(e: ChatEvent, s: ChatStateValue, g: GateValue)
    requires ReasoningConsistent(s)
    ensures ReasoningConsistent(AfterEvent(e, s, g).0)
  {
  }

  /** While a tool call awaits approval the input is inactive, until a decision or a tool
      result clears it. */
  lemma PendingCallBlocksInput(toolCall: PendingToolCall, resolve: nat, s: ChatStateValue, g: GateValue)
    ensures !InputActive(AfterEvent(ToolApprovalRequested(toolCall, resolve), s, g).0)
    ensures AfterEvent(ToolResult, s, g).0.pendingToolCall.None?
  {
  }
}
