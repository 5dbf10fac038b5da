/**
 * src/controllers/chat/ui.ts: `SubmoduleChatControllerUi`, whose constructor subscribes one
 * handler per screen event; the handlers update the streaming text and reasoning buffers, the
 * overlay and the loading flag.
 */
module ChatUi {
  import opened ChatTypes
  import opened ChatEvents
  import opened ChatStateModel

  /** The table after the constructor's subscriptions, made in this order. */
  function UiSubscribed(l: Listeners): Listeners {
    var l1 := Subscribed(l, StreamTextDeltaType, UiTextDelta);
    var l2 := Subscribed(l1, ReasoningStartedType, UiReasoningStarted);
    var l3 := Subscribed(l2, ReasoningDeltaType, UiReasoningDelta);
    var l4 := Subscribed(l3, ReasoningEndedType, UiReasoningEnded);
    var l5 := Subscribed(l4, StreamFlushRequestedType, UiFlush);
    var l6 := Subscribed(l5, OverlaySetType, UiOverlaySet);
    var l7 := Subscribed(l6, OverlayDismissedType, UiOverlayDismissed);
    var l8 := Subscribed(l7, AgentFinishedType, UiAgentFinished);
    Subscribed(l8, AgentErrorType, UiAgentError)
  }

  class Ui {
    const state: ChatState
    const events: EventBus

    constructor (state: ChatState, events: EventBus)
      requires events.Valid()
      modifies events
      ensures this.state == state && this.events == events
      ensures events.Valid() && events.log == old(events.log)
      ensures events.listeners == UiSubscribed(old(events.listeners))
    {
      this.state := state;
      this.events := events;
      new;
      events.Subscribe(StreamTextDeltaType, UiTextDelta);
      events.Subscribe(ReasoningStartedType, UiReasoningStarted);
      events.Subscribe(ReasoningDeltaType, UiReasoningDelta);
      events.Subscribe(ReasoningEndedType, UiReasoningEnded);
      events.Subscribe(StreamFlushRequestedType, UiFlush);
      events.Subscribe(OverlaySetType, UiOverlaySet);
      events.Subscribe(OverlayDismissedType, UiOverlayDismissed);
      events.Subscribe(AgentFinishedType, UiAgentFinished);
      events.Subscribe(AgentErrorType, UiAgentError);
    }

    /** `chat/stream-text-delta`: the delta is appended to the streaming text. */
    method OnStreamTextDelta(delta: string)
      modifies state
      ensures state.Value() == old(state.Value()).(streamingText := old(state.streamingText) + delta)
    {
      state.streamingText := state.streamingText + delta;
    }

    /** `chat/reasoning-started`: reasoning is shown, with an empty buffer. */
    method OnReasoningStarted()
      modifies state
      ensures state.Value() == old(state.Value()).(reasoningVisible := true, streamingReasoning := "")
    {
      state.reasoningVisible := true;
      state.streamingReasoning := "";
    }

    /** `chat/reasoning-delta`: appended only while reasoning is shown. */
    method OnReasoningDelta(delta: string)
      modifies state
      ensures old(state.reasoningVisible) ==>
        state.Value() == old(state.Value()).(streamingReasoning := old(state.streamingReasoning) + delta)
      ensures !old(state.reasoningVisible) ==> state.Value() == old(state.Value())
    {
      if state.reasoningVisible {
        state.streamingReasoning := state.streamingReasoning + delta;
      }
    }

    /** `chat/reasoning-ended`: reasoning is hidden and its buffer emptied. */
    method OnReasoningEnded()
      modifies state
      ensures state.Value() == old(state.Value()).(reasoningVisible := false, streamingReasoning := "")
    {
      state.reasoningVisible := false;
      state.streamingReasoning := "";
    }

    /**
     * `chat/stream-flush-requested`: an empty buffer publishes nothing and changes nothing;
     * otherwise `chat/stream-flushed` is published with exactly the buffered text, and then the
     * buffer is emptied. `nested` are the handlers that publish invokes.
     */
    method OnStreamFlushRequested() returns (nested: seq<Handler>)
      modifies state, events
      ensures events.listeners == old(events.listeners)
      ensures old(state.streamingText) == "" ==>
        state.Value() == old(state.Value()) && events.log == old(events.log) && nested == []
      ensures old(state.streamingText) != "" ==>
        && state.Value() == old(state.Value()).(streamingText := "")
        && events.log == old(events.log) + [StreamFlushed(old(state.streamingText))]
        && nested == HandlersOf(events.listeners, StreamFlushedType)
    {
      var content := state.streamingText;
      if content == "" {
        return [];
      }
      nested := events.Publish(StreamFlushed(content));
      state.streamingText := "";
    }

    /** `chat/overlay-set`. */
    method OnOverlaySet(overlay: OverlayMode)
      modifies state
      ensures state.Value() == old(state.Value()).(overlay := overlay)
    {
      state.overlay := overlay;
    }

    /** `chat/overlay-dismissed`. */
    method OnOverlayDismissed()
      modifies state
      ensures state.Value() == old(state.Value()).(overlay := NoOverlay)
    {
      state.overlay := NoOverlay;
    }

    /** `chat/agent-finished` and `chat/agent-error` both end loading. */
    method OnAgentStopped()
      modifies state
      ensures state.Value() == old(state.Value()).(loading := false)
    {
      state.loading := false;
    }
  }
}
