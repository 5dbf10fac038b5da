/**
 * src/controllers/chat/tool-approval.ts: `SubmoduleChatControllerToolApproval`, the gate that
 * holds the resolver of the pending approval request and calls it with the user's decision.
 *
 * A resolver is named by the number of the request that carried it; `resolutions` records the
 * resolver calls made, in order.
 */
module ChatToolApproval {
  import opened Wrappers
  import opened ChatTypes
  import opened ChatEvents
  import opened ChatStateModel

  /** The table after the constructor's subscriptions, made in this order. */
  function ApprovalSubscribed(l: Listeners): Listeners {
    Subscribed(Subscribed(l, ToolApprovalRequestedType, ApprovalRequested), ToolResultType, ApprovalToolResult)
  }

  /** The gate's own fields. */
  datatype GateValue = GateValue(resolver: Option<nat>, resolutions: seq<(nat, Decision)>)

  /** What happens to the gate: a request arrives, a tool result arrives, or the user decides. */
  datatype GateEvent = Requested(resolve: nat) | ResultArrived | Decided(decision: Decision)

  /** How one event changes the gate's fields. */
  function GateStep(g: GateValue, e: GateEvent): (r: GateValue)
    ensures e.Requested? ==> r.resolver == Some(e.resolve) && r.resolutions == g.resolutions
    ensures e.ResultArrived? ==> r == g
    ensures e.Decided? ==> r.resolver.None?
    ensures e.Decided? && g.resolver.Some? ==> r.resolutions == g.resolutions + [(g.resolver.value, e.decision)]
    ensures e.Decided? && g.resolver.None? ==> r.resolutions == g.resolutions
  {
    match e
    case Requested(resolve) => g.(resolver := Some(resolve))
    case ResultArrived => g
    case Decided(decision) =>
      if g.resolver.Some? then GateValue(None, g.resolutions + [(g.resolver.value, decision)]) else g
  }

  /** The gate's fields after a run of events, from the end. */
  function GateRun(g: GateValue, es: seq<GateEvent>): GateValue {
    if es == [] then g else GateStep(GateRun(g, es[..|es| - 1]), es[|es| - 1])
  }

  class ToolApproval {
    const state: ChatState
    const events: EventBus
    var resolver: Option<nat>
    var resolutions: seq<(nat, Decision)>

    function Gate(): GateValue
      reads this
    {
      GateValue(resolver, resolutions)
    }

    constructor (state: ChatState, events: EventBus)
      requires events.Valid()
      modifies events
      ensures this.state == state && this.events == events
      ensures Gate() == GateValue(None, [])
      ensures events.Valid() && events.log == old(events.log)
      ensures events.listeners == ApprovalSubscribed(old(events.listeners))
    {
      this.state := state;
      this.events := events;
      resolver := None;
      resolutions := [];
      new;
      events.Subscribe(ToolApprovalRequestedType, ApprovalRequested);
      events.Subscribe(ToolResultType, ApprovalToolResult);
    }

    /** `chat/tool-approval-requested`: the call becomes pending and its resolver is held,
        replacing any earlier one. */
    method OnToolApprovalRequested(toolCall: PendingToolCall, resolve: nat)
      modifies this, state
      ensures Gate() == GateStep(old(Gate()), Requested(resolve))
      ensures state.Value() == old(state.Value()).(pendingToolCall := Some(toolCall))
    {
      state.pendingToolCall := Some(toolCall);
      resolver := Some(resolve);
    }

    /** `chat/tool-result`: the pending call is cleared and the resolver left alone. */
    method OnToolResult()
      modifies state
      ensures Gate() == GateStep(old(Gate()), ResultArrived)
      ensures state.Value() == old(state.Value()).(pendingToolCall := None)
    {
      state.pendingToolCall := None;
    }

    /**
     * `apply(decision)`: the held resolver, if any, is called once and forgotten; the pending
     * call is always cleared and `chat/tool-approval-decided` always published. `invoked` are
     * the handlers that publish invokes.
     */
    method Apply(decision: Decision) returns (invoked: seq<Handler>)
      modifies this, state, events
      ensures Gate() == GateStep(old(Gate()), Decided(decision))
      ensures state.Value() == old(state.Value()).(pendingToolCall := None)
      ensures events.listeners == old(events.listeners)
      ensures events.log == old(events.log) + [ToolApprovalDecided(decision)]
      ensures invoked == HandlersOf(events.listeners, ToolApprovalDecidedType)
    {
      if resolver.Some? {
        resolutions := resolutions + [(resolver.value, decision)];
        resolver := None;
      }
      state.pendingToolCall := None;
      invoked := events.Publish(ToolApprovalDecided(decision));
    }
  }

  /** The resolvers of the requests in a run of events, in order. */
  function RequestIds(es: seq<GateEvent>): seq<nat> {
    if es == [] then []
    else RequestIds(es[..|es| - 1]) + (if es[|es| - 1].Requested? then [es[|es| - 1].resolve] else [])
  }

  function CalledIds(resolutions: seq<(nat, Decision)>): (ids: seq<nat>)
    ensures |ids| == |resolutions|
    ensures forall k :: 0 <= k < |resolutions| ==> ids[k] == resolutions[k].0
  {
    if resolutions == [] then [] else [resolutions[0].0] + CalledIds(resolutions[1..])
  }

  /** What the gate keeps true: each resolver has been called at most once, the held one not
      yet, and every resolver came with a request. */
  ghost predicate GateInvariant(g: GateValue, requested: seq<nat>) {
    && Distinct(CalledIds(g.resolutions))
    && (g.resolver.Some? ==> g.resolver.value !in CalledIds(g.resolutions) && g.resolver.value in requested)
    && (forall id :: id in CalledIds(g.resolutions) ==> id in requested)
  }

  lemma DistinctAppend(s: seq<nat>, x: nat)
    requires Distinct(s) && x !in s
    ensures Distinct(s + [x])
  {
    var t := s + [x];
    forall i, j | 0 <= i < j < |t| ensures t[i] != t[j] {
      assert t[i] == s[i];
      if j < |s| {
        assert t[j] == s[j];
      }
    }
  }

  /**
   * Each resolver runs at most once: starting from the constructor's gate, whatever order
   * requests, tool results and decisions come in, as long as every request carries its own
   * resolver, no resolver is ever called twice.
   */
  lemma {:induction false} ResolversRunAtMostOnce(es: seq<GateEvent>)
    requires Distinct(RequestIds(es))
    ensures GateInvariant(GateRun(GateValue(None, []), es), RequestIds(es))
    ensures Distinct(CalledIds(GateRun(GateValue(None, []), es).resolutions))
    decreases |es|
  {
    if es != [] {
      var init := es[..|es| - 1];
      var last := es[|es| - 1];
      var ids := RequestIds(init);
      assert RequestIds(es) == ids + (if last.Requested? then [last.resolve] else []);
      assert Distinct(ids) by {
        forall i, j | 0 <= i < j < |ids| ensures ids[i] != ids[j] {
          assert ids[i] == RequestIds(es)[i] && ids[j] == RequestIds(es)[j];
        }
      }
      ResolversRunAtMostOnce(init);
      var g := GateRun(GateValue(None, []), init);
      if last.Requested? {
        assert last.resolve !in ids by {
          forall k | 0 <= k < |ids| ensures ids[k] != last.resolve {
            assert RequestIds(es)[k] == ids[k] && RequestIds(es)[|ids|] == last.resolve;
          }
        }
      } else if last.Decided? && g.resolver.Some? {
        var called := CalledIds(g.resolutions);
        DistinctAppend(called, g.resolver.value);
        CalledIdsAppend(g.resolutions, (g.resolver.value, last.decision));
      }
    }
  }

  lemma CalledIdsAppend(rs: seq<(nat, Decision)>, r: (nat, Decision))
    ensures CalledIds(rs + [r]) == CalledIds(rs) + [r.0]
  {
    var a := CalledIds(rs + [r]);
    var b := CalledIds(rs) + [r.0];
    assert |a| == |b|;
    forall k | 0 <= k < |a| ensures a[k] == b[k] {
      assert (rs + [r])[k] == if k < |rs| then rs[k] else r;
    }
  }

  /** A decision with no held resolver calls nothing, so a second `apply` is harmless. */
  lemma SecondApplyCallsNothing(g: GateValue, d1: Decision, d2: Decision)
    ensures GateStep(GateStep(g, Decided(d1)), Decided(d2)).resolutions == GateStep(g, Decided(d1)).resolutions
    ensures |GateStep(g, Decided(d1)).resolutions| <= |g.resolutions| + 1
  {
  }
}
