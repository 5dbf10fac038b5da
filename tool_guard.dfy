// The approval wrapper that AgentService.buildTools and the chat-server
// handler's getTools put around every dangerous tool's `execute`.

module ToolGuard {
  import opened Wrappers
  import opened Json
  import opened ChatTypes

  /** The options the SDK passes to `execute`; only the call id is read. */
  datatype ExecutionOptions = ExecutionOptions(toolCallId: string)

  /**
   * A tool's `execute` member: absent (or not a function), the tool's own
   * function, or the approval wrapper built around an original one.
   */
  datatype Execute =
    | NoExecute
    | Run(run: (Record, ExecutionOptions) -> Value)
    | Guarded(toolName: string, original: Execute)

  /** A tool definition; `description` stands for every field the spread copies. */
  datatype ToolDef = ToolDef(description: string, needsApproval: bool, execute: Execute)

  type ToolSet = seq<(string, ToolDef)>

  predicate HasExecute(def: ToolDef) {
    !def.execute.NoExecute?
  }

  /** The approval request the wrapper sends for one call. */
  function PendingFor(name: string, args: Record, options: ExecutionOptions): (p: PendingToolCall)
    ensures p.toolCallId == options.toolCallId && p.toolName == name && p.args == args
  {
    PendingToolCall(options.toolCallId, name, args)
  }

  /**
   * What one call of an `execute` did: the approval requests it sent, how many
   * times the tool's own function ran, and the value it resolved to.
   */
  datatype Invocation = Invocation(requests: seq<PendingToolCall>, originalRuns: nat, result: Value)

  /**
   * Calls `e` with `args` and `options`; `approve` answers approval requests and
   * `ref` is the reference of a denial object. None: there was nothing to call.
   */
  function Invoke(e: Execute, args: Record, options: ExecutionOptions,
                  approve: PendingToolCall -> Decision, ref: nat): (r: Option<Invocation>)
    ensures e.NoExecute? ==> r.None?
    ensures e.Run? ==> r.Some? && r.value.requests == [] && r.value.originalRuns == 1
    ensures e.Guarded? && r.Some? ==> |r.value.requests| >= 1 && r.value.requests[0] == PendingFor(e.toolName, args, options)
    ensures e.Guarded? && r.Some? && r.value.originalRuns > 0 ==> approve(r.value.requests[0]) == Approved
  {
    match e
    case NoExecute => None
    case Run(run) => Some(Invocation([], 1, run(args, options)))
    case Guarded(name, original) =>
      var pending := PendingFor(name, args, options);
      if approve(pending) == Denied then
        Some(Invocation([pending], 0, ErrorValue(ref, DenialMessage)))
      else
        match Invoke(original, args, options, approve, ref)
        case None => None
        case Some(inner) =>
          var requests := [pending] + inner.requests;
          assert requests[0] == pending && approve(pending) == Approved;
          Some(Invocation(requests, inner.originalRuns, inner.result))
  }

  /** The definition stored under `name`: wrapped iff the tool is dangerous and has an `execute`. */
  function Guard(name: string, def: ToolDef, isDangerous: string -> bool): (g: ToolDef)
    ensures g.description == def.description && g.needsApproval == def.needsApproval
    ensures isDangerous(name) && HasExecute(def) ==> g.execute == Guarded(name, def.execute)
    ensures !(isDangerous(name) && HasExecute(def)) ==> g == def
  {
    if isDangerous(name) && HasExecute(def) then def.(execute := Guarded(name, def.execute)) else def
  }

  /** The loop over `Object.entries(Tools.allTools())` that fills the new tool set in entry order. */
  method BuildTools(allTools: ToolSet, isDangerous: string -> bool) returns (tools: ToolSet)
    ensures |tools| == |allTools|
    ensures forall i :: 0 <= i < |allTools| ==> tools[i].0 == allTools[i].0
    ensures forall i :: 0 <= i < |allTools| ==> tools[i].1 == Guard(allTools[i].0, allTools[i].1, isDangerous)
  {
    tools := [];
    for k := 0 to |allTools|
      invariant |tools| == k
      invariant forall i :: 0 <= i < k ==> tools[i].0 == allTools[i].0
      invariant forall i :: 0 <= i < k ==> tools[i].1 == Guard(allTools[i].0, allTools[i].1, isDangerous)
    {
      var (name, def) := allTools[k];
      if isDangerous(name) && HasExecute(def) {
        tools := tools + [(name, def.(execute := Guarded(name, def.execute)))];
      } else {
        tools := tools + [(name, def)];
      }
    }
  }

  /** A safe tool, or one without `execute`, behaves exactly as before. */
  lemma SafeToolUnchanged(name: string, def: ToolDef, isDangerous: string -> bool,
                          args: Record, options: ExecutionOptions, approve: PendingToolCall -> Decision, ref: nat)
    requires !isDangerous(name) || !HasExecute(def)
    ensures Invoke(Guard(name, def, isDangerous).execute, args, options, approve, ref)
         == Invoke(def.execute, args, options, approve, ref)
  {
  }

  /**
   * On denial a guarded tool sends exactly one request, for this call id, name
   * and unchanged args, never runs the original and resolves to the denial object.
   */
  lemma DeniedCallNeverRuns(name: string, def: ToolDef, isDangerous: string -> bool,
                            args: Record, options: ExecutionOptions, approve: PendingToolCall -> Decision, ref: nat)
    requires isDangerous(name) && HasExecute(def)
    requires approve(PendingToolCall(options.toolCallId, name, args)) == Denied
    ensures var r := Invoke(Guard(name, def, isDangerous).execute, args, options, approve, ref);
      r == Some(Invocation([PendingToolCall(options.toolCallId, name, args)], 0, ErrorValue(ref, DenialMessage)))
  {
  }

  /**
   * On approval a guarded tool resolves to what the original resolves to for the
   * same args and options, after one request for this call.
   */
  lemma ApprovedCallRunsOriginal(name: string, def: ToolDef, isDangerous: string -> bool,
                                 args: Record, options: ExecutionOptions, approve: PendingToolCall -> Decision, ref: nat)
    requires isDangerous(name) && HasExecute(def) && !def.execute.Guarded?
    requires approve(PendingToolCall(options.toolCallId, name, args)) == Approved
    ensures var r := Invoke(Guard(name, def, isDangerous).execute, args, options, approve, ref);
      var o := Invoke(def.execute, args, options, approve, ref);
      r.Some? && o.Some? && r.value.requests == [PendingToolCall(options.toolCallId, name, args)]
      && r.value.originalRuns == o.value.originalRuns == 1 && r.value.result == o.value.result
  {
  }
}
