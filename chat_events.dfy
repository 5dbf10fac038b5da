/**
 * src/controllers/chat/events.ts: `SubmoduleChatControllerEvents`, the controller's typed
 * publish/subscribe table, and the `ChatEvent` union, reconstructed from the places that
 * subscribe to and publish it (ui.ts, tool-approval.ts, controller.ts).
 *
 * Handlers are closures in the source; here each is named by a `Handler` value, and the table
 * maps an event type to its handlers in `Set` insertion order, without duplicates.
 */
module ChatEvents {
  import opened Json
  import opened ChatTypes

  /**
   * `ChatEvent`. The `resolve` function of a `chat/tool-approval-requested` event is a fresh
   * closure for every request, so it is identified by the number of the request.
   */
  datatype ChatEvent =
    | StreamTextDelta(delta: string)
    | ReasoningStarted
    | ReasoningDelta(delta: string)
    | ReasoningEnded
    | StreamFlushRequested
    | StreamFlushed(content: string)
    | OverlaySet(overlay: OverlayMode)
    | OverlayDismissed
    | AgentFinished
    | AgentError(message: string)
    | ToolApprovalRequested(toolCall: PendingToolCall, resolve: nat)
    | ToolResult
    | ToolApprovalDecided(decision: Decision)
    | AssistantText(content: string)
    | Cleared

  /** `ChatEvent['type']`: the union of the events' type tags. */
  datatype EventType =
    | StreamTextDeltaType
    | ReasoningStartedType
    | ReasoningDeltaType
    | ReasoningEndedType
    | StreamFlushRequestedType
    | StreamFlushedType
    | OverlaySetType
    | OverlayDismissedType
    | AgentFinishedType
    | AgentErrorType
    | ToolApprovalRequestedType
    | ToolResultType
    | ToolApprovalDecidedType
    | AssistantTextType
    | ClearedType

  /** The tag each type stands for. */
  function TypeName(t: EventType): string {
    match t
    case StreamTextDeltaType => "chat/stream-text-delta"
    case ReasoningStartedType => "chat/reasoning-started"
    case ReasoningDeltaType => "chat/reasoning-delta"
    case ReasoningEndedType => "chat/reasoning-ended"
    case StreamFlushRequestedType => "chat/stream-flush-requested"
    case StreamFlushedType => "chat/stream-flushed"
    case OverlaySetType => "chat/overlay-set"
    case OverlayDismissedType => "chat/overlay-dismissed"
    case AgentFinishedType => "chat/agent-finished"
    case AgentErrorType => "chat/agent-error"
    case ToolApprovalRequestedType => "chat/tool-approval-requested"
    case ToolResultType => "chat/tool-result"
    case ToolApprovalDecidedType => "chat/tool-approval-decided"
    case AssistantTextType => "chat/assistant-text"
    case ClearedType => "chat/cleared"
  }

  /** `event.type`. */
  function TypeOf(e: ChatEvent): EventType {
    match e
    case StreamTextDelta(_) => StreamTextDeltaType
    case ReasoningStarted => ReasoningStartedType
    case ReasoningDelta(_) => ReasoningDeltaType
    case ReasoningEnded => ReasoningEndedType
    case StreamFlushRequested => StreamFlushRequestedType
    case StreamFlushed(_) => StreamFlushedType
    case OverlaySet(_) => OverlaySetType
    case OverlayDismissed => OverlayDismissedType
    case AgentFinished => AgentFinishedType
    case AgentError(_) => AgentErrorType
    case ToolApprovalRequested(_, _) => ToolApprovalRequestedType
    case ToolResult => ToolResultType
    case ToolApprovalDecided(_) => ToolApprovalDecidedType
    case AssistantText(_) => AssistantTextType
    case Cleared => ClearedType
  }

  /** The handlers the controller's submodules subscribe: those of ui.ts and of tool-approval.ts. */
  datatype Handler =
    | UiTextDelta
    | UiReasoningStarted
    | UiReasoningDelta
    | UiReasoningEnded
    | UiFlush
    | UiOverlaySet
    | UiOverlayDismissed
    | UiAgentFinished
    | UiAgentError
    | ApprovalRequested
    | ApprovalToolResult

  type Listeners = map<EventType, seq<Handler>>

  predicate Distinct<T(==)>(s: seq<T>) {
    forall i, j :: 0 <= i < j < |s| ==> s[i] != s[j]
  }

  /** The table's invariant: no type maps to an empty set, and a set holds each handler once. */
  ghost predicate TableWellFormed(listeners: Listeners) {
    forall t :: t in listeners ==> listeners[t] != [] && Distinct(listeners[t])
  }

  /** `listeners.get(type) ?? empty`. */
  function HandlersOf(listeners: Listeners, t: EventType): seq<Handler> {
    if t in listeners then listeners[t] else []
  }

  /** `set.delete(handler)` on a set in insertion order. */
  function Remove(s: seq<Handler>, h: Handler): (r: seq<Handler>)
    ensures h !in r
    ensures forall x :: x in r <==> x in s && x != h
    ensures |r| <= |s|
  {
    if s == [] then [] else (if s[0] == h then [] else [s[0]]) + Remove(s[1..], h)
  }

  /** The table after `subscribe(t, h)`. */
  function Subscribed(listeners: Listeners, t: EventType, h: Handler): Listeners {
    var handlers := HandlersOf(listeners, t);
    listeners[t := if h in handlers then handlers else handlers + [h]]
  }

  /** The table after the unsubscribe function returned by `subscribe(t, h)` runs. */
  function Unsubscribed(listeners: Listeners, t: EventType, h: Handler): Listeners {
    if t !in listeners then listeners
    else
      var rest := Remove(listeners[t], h);
      if |rest| == 0 then listeners - {t} else listeners[t := rest]
  }

  /** The table of `SubmoduleChatControllerEvents`, with the events published through it. */
  class EventBus {
    var listeners: Listeners
    /** Every event passed to `publish`, in order. */
    var log: seq<ChatEvent>

    ghost predicate Valid()
      reads this
    {
      TableWellFormed(listeners)
    }

    constructor ()
      ensures Valid() && listeners == map[] && log == []
    {
      listeners := map[];
      log := [];
    }

    /** `publish(event)`: returns the handlers it invokes, in order. */
    method Publish(event: ChatEvent) returns (invoked: seq<Handler>)
      modifies this
      ensures listeners == old(listeners)
      ensures log == old(log) + [event]
      ensures invoked == HandlersOf(listeners, TypeOf(event))
    {
      log := log + [event];
      var t := TypeOf(event);
      if t !in listeners {
        return [];
      }
      invoked := listeners[t];
    }

    /** `subscribe(t, h)`. */
    method Subscribe(t: EventType, h: Handler)
      requires Valid()
      modifies this
      ensures Valid()
      ensures listeners == Subscribed(old(listeners), t, h)
      ensures log == old(log)
    {
      var handlers := if t in listeners then listeners[t] else [];
      if h !in handlers {
        handlers := handlers + [h];
      }
      listeners := listeners[t := handlers];
      SubscribedWellFormed(old(listeners), t, h);
    }

    /** The function `subscribe(t, h)` returns. */
    method Unsubscribe(t: EventType, h: Handler)
      requires Valid()
      modifies this
      ensures Valid()
      ensures listeners == Unsubscribed(old(listeners), t, h)
      ensures log == old(log)
    {
      if t !in listeners {
        return;
      }
      var rest := Remove(listeners[t], h);
      if |rest| == 0 {
        listeners := listeners - {t};
      } else {
        listeners := listeners[t := rest];
      }
      UnsubscribedWellFormed(old(listeners), t, h);
    }

    /** `clear()`. */
    method Clear()
      modifies this
      ensures Valid() && listeners == map[] && log == old(log)
    {
      listeners := map[];
    }
  }

  lemma {:induction false} RemoveDistinct(s: seq<Handler>, h: Handler)
    requires Distinct(s)
    ensures Distinct(Remove(s, h))
    decreases |s|
  {
    if s != [] {
      RemoveDistinct(s[1..], h);
      var head := if s[0] == h then [] else [s[0]];
      var r := Remove(s, h);
      assert r == head + Remove(s[1..], h);
      forall i, j | 0 <= i < j < |r|
        ensures r[i] != r[j]
      {
        if head != [] && i == 0 {
          assert r[j] in Remove(s[1..], h);
          assert s[0] !in s[1..] by {
            forall k | 0 <= k < |s[1..]| ensures s[1..][k] != s[0] {
              assert s[1..][k] == s[k + 1];
            }
          }
        }
      }
    }
  }

  /** Subscribing keeps the table well formed and changes only the subscribed type. */
  lemma SubscribedWellFormed(listeners: Listeners, t: EventType, h: Handler)
    requires TableWellFormed(listeners)
    ensures TableWellFormed(Subscribed(listeners, t, h))
    ensures h in HandlersOf(Subscribed(listeners, t, h), t)
    ensures forall u :: u != t ==> HandlersOf(Subscribed(listeners, t, h), u) == HandlersOf(listeners, u)
  {
    var handlers := HandlersOf(listeners, t);
    if h !in handlers {
      var s := handlers + [h];
      forall i, j | 0 <= i < j < |s| ensures s[i] != s[j] {
        if j == |handlers| {
          assert s[i] == handlers[i];
        } else {
          assert s[i] == handlers[i] && s[j] == handlers[j];
        }
      }
    }
  }

  /** Unsubscribing keeps the table well formed (a type whose set empties is deleted) and
      changes only that handler of that type. */
  lemma UnsubscribedWellFormed(listeners: Listeners, t: EventType, h: Handler)
    requires TableWellFormed(listeners)
    ensures TableWellFormed(Unsubscribed(listeners, t, h))
    ensures h !in HandlersOf(Unsubscribed(listeners, t, h), t)
    ensures forall x :: x in HandlersOf(Unsubscribed(listeners, t, h), t) <==> x in HandlersOf(listeners, t) && x != h
    ensures forall u :: u != t ==> HandlersOf(Unsubscribed(listeners, t, h), u) == HandlersOf(listeners, u)
  {
    if t in listeners {
      RemoveDistinct(listeners[t], h);
    }
  }

  /** Subscribing a handler twice leaves it in its set once. */
  lemma SubscribeIdempotent(listeners: Listeners, t: EventType, h: Handler)
    ensures Subscribed(Subscribed(listeners, t, h), t, h) == Subscribed(listeners, t, h)
  {
    assert h in HandlersOf(Subscribed(listeners, t, h), t);
  }

  lemma {:induction false} RemoveAppended(s: seq<Handler>, h: Handler)
    requires h !in s
    ensures Remove(s + [h], h) == s
    decreases |s|
  {
    if s == [] {
      assert Remove([h], h) == [] + Remove([], h);
    } else {
      assert (s + [h])[1..] == s[1..] + [h];
      RemoveAppended(s[1..], h);
      assert s == [s[0]] + s[1..];
    }
  }

  /** The unsubscribe function undoes its own subscribe: a handler not yet subscribed to a type
      is removed again, and the table is the one before, including a deleted empty type. */
  lemma UnsubscribeUndoesSubscribe(listeners: Listeners, t: EventType, h: Handler)
    requires TableWellFormed(listeners)
    requires h !in HandlersOf(listeners, t)
    ensures Unsubscribed(Subscribed(listeners, t, h), t, h) == listeners
  {
    var handlers := HandlersOf(listeners, t);
    RemoveAppended(handlers, h);
    if t in listeners {
      assert Subscribed(listeners, t, h)[t := handlers] == listeners;
    } else {
      assert Subscribed(listeners, t, h) - {t} == listeners;
    }
  }

  /** After `clear`, publishing invokes no handler and unsubscribing changes nothing. */
  lemma ClearedTableIsInert(t: EventType, h: Handler, e: ChatEvent)
    ensures HandlersOf(map[], TypeOf(e)) == []
    ensures Unsubscribed(map[], t, h) == map[]
  {
  }
}
