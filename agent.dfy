/**
 * src/agent.ts: `runAgent`, the legacy tool-calling loop. Each iteration streams one model turn,
 * collects its text and tool calls, and when there are calls appends one assistant message and
 * one tool message; dangerous tools run only after the user approves them.
 *
 * The model stream, the user's approval answers and the tool executors are oracles: turn `j` is
 * `turns(j)`, the `k`-th approval answer is `approvals(k)`, and the `k`-th execution of a tool is
 * `executeTool(k, ...)` or `executeSafeTool(k, ...)`.
 */
module Agent {
  import opened Wrappers
  import opened Json
  import opened ChatTypes
  import opened ConfigTypes
  import LegacyProviders

  /** `maxIterations`. */
  const MaxIterations: nat := 10

  /** The `reason` of an `execution-denied` output. */
  const DeniedReason: string := "Denied by user"

  /** The parts of `fullStream` the loop looks at; every other kind is `OtherPart`. */
  datatype StreamPart =
    | TextDelta(text: string)
    | ToolCallPart(toolCallId: string, toolName: string, input: Value)
    | OtherPart

  /** How reading the stream ends: normally, or by an error, noting whether the abort signal was
      set when the error was caught. */
  datatype StreamEnd = Completed | Failed(message: string, abortedThen: bool)

  /** One model turn: the parts the stream delivers, the first part before which the abort flag is
      seen set (if any), and how the stream ends. */
  datatype Turn = Turn(parts: seq<StreamPart>, abortAt: Option<nat>, end: StreamEnd)

  /** The oracles and parameters of the loop. `freshRef` is the reference given to objects the
      loop creates (`{}` arguments and denial errors). */
  datatype Oracles = Oracles(
    isDangerous: string -> bool,
    approvals: nat -> Decision,
    executeTool: (nat, string, Record) -> Value,
    executeSafeTool: (nat, string, Record) -> Value,
    freshRef: nat)

  /** A collected tool call. */
  datatype ToolCallInfo = ToolCallInfo(toolCallId: string, toolName: string, input: Value)

  /** The callbacks the loop makes and the tool executions it performs, in order. */
  datatype Step =
    | ModelCalled(history: seq<ModelMessage>)
    | TextDeltaNotified(delta: string)
    | ToolCallNotified(pending: PendingToolCall)
    | ApprovalAnswered(index: nat, pending: PendingToolCall, decision: Decision)
    | ToolExecuted(index: nat, toolName: string, args: Record, dangerous: bool, result: Value)
    | ToolResultNotified(toolCallId: string, toolName: string, result: Value)
    | FinishNotified
    | ErrorNotified(message: string)

  /** How `runAgent` ends: `resolveModel` threw, a turn without tool calls finished, the iteration
      cap was reached, the run was aborted, or the stream failed. */
  datatype Ending = Rejected | Finished | CapReached | Aborted | Errored

  /** The abort flag is seen before some delivered part. */
  predicate AbortedInStream(t: Turn) {
    t.abortAt.Some? && t.abortAt.value < |t.parts|
  }

  /** The parts the loop handles before it returns on abort. */
  function Seen(t: Turn): seq<StreamPart> {
    if AbortedInStream(t) then t.parts[..t.abortAt.value] else t.parts
  }

  /** `fullText`: the concatenated text deltas. */
  function TextOf(parts: seq<StreamPart>): string {
    if parts == [] then ""
    else TextOf(parts[..|parts| - 1]) + (if parts[|parts| - 1].TextDelta? then parts[|parts| - 1].text else "")
  }

  /** `toolCalls`: the tool-call parts in emission order. */
  function CallsOf(parts: seq<StreamPart>): seq<ToolCallInfo> {
    if parts == [] then []
    else
      var p := parts[|parts| - 1];
      CallsOf(parts[..|parts| - 1]) +
        (if p.ToolCallPart? then [ToolCallInfo(p.toolCallId, p.toolName, p.input)] else [])
  }

  /** The `onTextDelta` callbacks for the parts. */
  function DeltaSteps(parts: seq<StreamPart>): seq<Step> {
    if parts == [] then []
    else
      var p := parts[|parts| - 1];
      DeltaSteps(parts[..|parts| - 1]) + (if p.TextDelta? then [TextDeltaNotified(p.text)] else [])
  }

  /** A turn after which the loop goes on: read to the end without abort or error, with tool calls. */
  predicate ContinuedTurn(t: Turn) {
    !AbortedInStream(t) && t.end.Completed? && CallsOf(Seen(t)) != []
  }

  /** The pending call announced for a collected call; a non-object input becomes `{}`. */
  function PendingOf(c: ToolCallInfo, freshRef: nat): (p: PendingToolCall)
    ensures p.toolCallId == c.toolCallId && p.toolName == c.toolName
    ensures IsObject(c.input) ==> p.args == c.input.obj
    ensures !IsObject(c.input) ==> p.args.entries == []
  {
    PendingToolCall(c.toolCallId, c.toolName, ArgsOf(c.input, freshRef))
  }

  /** The tool-call parts of the assistant message, with their raw inputs. */
  function CallContents(calls: seq<ToolCallInfo>): (parts: seq<ContentPart>)
    ensures |parts| == |calls|
    ensures forall j {:trigger parts[j]} :: 0 <= j < |calls| ==>
      parts[j] == ToolCallContent(calls[j].toolCallId, calls[j].toolName, calls[j].input)
  {
    if calls == [] then []
    else [ToolCallContent(calls[0].toolCallId, calls[0].toolName, calls[0].input)] + CallContents(calls[1..])
  }


  /** The assistant message of a turn with tool calls: its text first, if any, then the calls. */
  function AssistantMessage(fullText: string, calls: seq<ToolCallInfo>): ModelMessage {
    AssistantParts((if fullText != "" then [TextContent(fullText)] else []) + CallContents(calls))
  }

  function AssistantMessageOf(t: Turn): ModelMessage {
    AssistantMessage(TextOf(Seen(t)), CallsOf(Seen(t)))
  }

  /** A tool message answering `calls`: one result per call, in order, with the same ids and names;
      only a dangerous tool's result can be `execution-denied`. */
  ghost predicate AnswersCalls(m: ModelMessage, calls: seq<ToolCallInfo>, isDangerous: string -> bool) {
    && m.ToolMessage?
    && |m.results| == |calls|
    && forall j {:trigger m.results[j]} :: 0 <= j < |calls| ==>
        && m.results[j].toolCallId == calls[j].toolCallId
        && m.results[j].toolName == calls[j].toolName
        && (m.results[j].output.ExecutionDenied? ==> isDangerous(calls[j].toolName))
  }

  /** How many approval answers and tool executions the run has used: the next answer is
      `approvals(approvals)`, the next execution has index `executions`. */
  datatype Counters = Counters(approvals: nat, executions: nat)

  /** A call whose tool runs: a safe tool, or a dangerous one whose answer `a` is not a denial. */
  predicate Runs(c: ToolCallInfo, o: Oracles, a: nat) {
    !o.isDangerous(c.toolName) || o.approvals(a) != Denied
  }

  /** The counters after one call: a dangerous call takes one answer, a call that runs one execution. */
  function Advance(c: ToolCallInfo, o: Oracles, s: Counters): Counters {
    Counters(s.approvals + (if o.isDangerous(c.toolName) then 1 else 0),
             s.executions + (if Runs(c, o, s.approvals) then 1 else 0))
  }

  /** The callbacks and executions of handling one call from counters `s`: announce it; for a
      dangerous tool take the next answer and, on a denial, report the denial error without running
      anything; otherwise run the tool as the next execution and report its result. */
  function CallSteps(c: ToolCallInfo, o: Oracles, s: Counters): seq<Step> {
    var p := PendingOf(c, o.freshRef);
    if !o.isDangerous(c.toolName) then
      var v := o.executeSafeTool(s.executions, c.toolName, p.args);
      [ToolCallNotified(p), ToolExecuted(s.executions, c.toolName, p.args, false, v),
       ToolResultNotified(c.toolCallId, c.toolName, v)]
    else if o.approvals(s.approvals) == Denied then
      [ToolCallNotified(p), ApprovalAnswered(s.approvals, p, Denied),
       ToolResultNotified(c.toolCallId, c.toolName, ErrorValue(o.freshRef, DenialMessage))]
    else
      var v := o.executeTool(s.executions, c.toolName, p.args);
      [ToolCallNotified(p), ApprovalAnswered(s.approvals, p, o.approvals(s.approvals)),
       ToolExecuted(s.executions, c.toolName, p.args, true, v), ToolResultNotified(c.toolCallId, c.toolName, v)]
  }

  /** The tool result recorded for one call from counters `s`. */
  function CallResult(c: ToolCallInfo, o: Oracles, s: Counters): ToolResultPart {
    var args := PendingOf(c, o.freshRef).args;
    ToolResultPart(c.toolCallId, c.toolName,
      if !o.isDangerous(c.toolName) then JsonOutput(o.executeSafeTool(s.executions, c.toolName, args))
      else if o.approvals(s.approvals) == Denied then ExecutionDenied(DeniedReason)
      else JsonOutput(o.executeTool(s.executions, c.toolName, args)))
  }

  /** The counters after handling `calls` from `s`. */
  function AfterCalls(calls: seq<ToolCallInfo>, o: Oracles, s: Counters): Counters
    decreases |calls|
  {
    if calls == [] then s
    else Advance(calls[|calls| - 1], o, AfterCalls(calls[..|calls| - 1], o, s))
  }

  /** The tool results of the `for (const tc of toolCalls)` loop from counters `s`: each call is
      handled from the counters the calls before it left. */
  function ResultsOf(calls: seq<ToolCallInfo>, o: Oracles, s: Counters): seq<ToolResultPart>
    decreases |calls|
  {
    if calls == [] then []
    else
      var init := calls[..|calls| - 1];
      ResultsOf(init, o, s) + [CallResult(calls[|calls| - 1], o, AfterCalls(init, o, s))]
  }

  /** The callbacks and executions of that loop from counters `s`. */
  function StepsOf(calls: seq<ToolCallInfo>, o: Oracles, s: Counters): seq<Step>
    decreases |calls|
  {
    if calls == [] then []
    else
      var init := calls[..|calls| - 1];
      StepsOf(init, o, s) + CallSteps(calls[|calls| - 1], o, AfterCalls(init, o, s))
  }

  /** The number of calls to dangerous tools. */
  function DangerousCount(calls: seq<ToolCallInfo>, isDangerous: string -> bool): nat {
    if calls == [] then 0
    else DangerousCount(calls[..|calls| - 1], isDangerous) + (if isDangerous(calls[|calls| - 1].toolName) then 1 else 0)
  }

  /** The gating rule at one step of a trace: an execution of a dangerous tool comes right after an
      approval of that tool with those arguments, every approval is for a dangerous tool, and a denial
      is followed directly by the denial result. */
  ghost predicate StepGated(tr: seq<Step>, i: nat, isDangerous: string -> bool)
    requires i < |tr|
  {
    match tr[i]
    case ToolExecuted(_, name, args, dangerous, _) =>
      && dangerous == isDangerous(name)
      && (dangerous ==> i > 0 && tr[i - 1].ApprovalAnswered? && tr[i - 1].decision == Approved
                        && tr[i - 1].pending.toolName == name && tr[i - 1].pending.args == args)
    case ApprovalAnswered(_, p, d) =>
      && isDangerous(p.toolName)
      && (d == Denied ==>
            i + 1 < |tr| && tr[i + 1].ToolResultNotified? &&
            tr[i + 1].toolCallId == p.toolCallId && tr[i + 1].toolName == p.toolName)
    case _ => true
  }

  ghost predicate Gated(tr: seq<Step>, isDangerous: string -> bool) {
    forall i {:trigger StepGated(tr, i, isDangerous)} :: 0 <= i < |tr| ==> StepGated(tr, i, isDangerous)
  }

  /** No `onFinish`, no `onError` and no model call. */
  ghost predicate Quiet(tr: seq<Step>) {
    forall i :: 0 <= i < |tr| ==> !tr[i].FinishNotified? && !tr[i].ErrorNotified? && !tr[i].ModelCalled?
  }

  /** No `onFinish` and no `onError`. */
  ghost predicate NoTerminal(tr: seq<Step>) {
    forall i :: 0 <= i < |tr| ==> !tr[i].FinishNotified? && !tr[i].ErrorNotified?
  }

  /** The number of model calls in a trace. */
  function ModelCalls(tr: seq<Step>): nat {
    if tr == [] then 0 else ModelCalls(tr[..|tr| - 1]) + (if tr[|tr| - 1].ModelCalled? then 1 else 0)
  }

  /** The number of approval answers in a trace. */
  function AnswerCount(tr: seq<Step>): nat {
    if tr == [] then 0 else AnswerCount(tr[..|tr| - 1]) + (if tr[|tr| - 1].ApprovalAnswered? then 1 else 0)
  }

  /** The number of tool executions in a trace. */
  function ExecutionCount(tr: seq<Step>): nat {
    if tr == [] then 0 else ExecutionCount(tr[..|tr| - 1]) + (if tr[|tr| - 1].ToolExecuted? then 1 else 0)
  }

  /** The counters after the answers and executions of `tr`, starting from `s`. */
  function After(s: Counters, tr: seq<Step>): Counters {
    Counters(s.approvals + AnswerCount(tr), s.executions + ExecutionCount(tr))
  }

  /** The step at `i` takes the next answer or the next execution, counting from `s`: its index is
      the number of its kind taken before it, and its decision or result is that oracle's. */
  ghost predicate StepConsumed(tr: seq<Step>, i: nat, s: Counters, o: Oracles)
    requires i < |tr|
  {
    match tr[i]
    case ApprovalAnswered(k, _, d) => k == s.approvals + AnswerCount(tr[..i]) && d == o.approvals(k)
    case ToolExecuted(k, name, args, dangerous, v) =>
      && k == s.executions + ExecutionCount(tr[..i])
      && v == (if dangerous then o.executeTool(k, name, args) else o.executeSafeTool(k, name, args))
    case _ => true
  }

  /** The answers and executions of `tr` are taken in order, each once, from counters `s`. */
  ghost predicate ConsumedInOrder(tr: seq<Step>, s: Counters, o: Oracles) {
    forall i {:trigger StepConsumed(tr, i, s, o)} :: 0 <= i < |tr| ==> StepConsumed(tr, i, s, o)
  }

  lemma {:induction false} ModelCallsAppend(a: seq<Step>, b: seq<Step>)
    ensures ModelCalls(a + b) == ModelCalls(a) + ModelCalls(b)
    decreases |b|
  {
    if b == [] {
      assert a + b == a;
    } else {
      assert (a + b)[..|a + b| - 1] == a + b[..|b| - 1];
      ModelCallsAppend(a, b[..|b| - 1]);
    }
  }

  lemma {:induction false} StepCountsAppend(a: seq<Step>, b: seq<Step>)
    ensures AnswerCount(a + b) == AnswerCount(a) + AnswerCount(b)
    ensures ExecutionCount(a + b) == ExecutionCount(a) + ExecutionCount(b)
    decreases |b|
  {
    if b == [] {
      assert a + b == a;
    } else {
      assert (a + b)[..|a + b| - 1] == a + b[..|b| - 1];
      StepCountsAppend(a, b[..|b| - 1]);
    }
  }

  lemma {:induction false} QuietHasNoModelCalls(tr: seq<Step>)
    requires Quiet(tr)
    ensures ModelCalls(tr) == 0
    decreases |tr|
  {
    if tr != [] {
      QuietHasNoModelCalls(tr[..|tr| - 1]);
    }
  }

  /** Gated traces stay gated when put one after another. */
  lemma GatedAppend(a: seq<Step>, b: seq<Step>, isDangerous: string -> bool)
    requires Gated(a, isDangerous) && Gated(b, isDangerous)
    ensures Gated(a + b, isDangerous)
  {
    var tr := a + b;
    forall i | 0 <= i < |tr| ensures StepGated(tr, i, isDangerous) {
      if i < |a| {
        assert StepGated(a, i, isDangerous);
        assert tr[i] == a[i];
        if i > 0 { assert tr[i - 1] == a[i - 1]; }
        if i + 1 < |a| { assert tr[i + 1] == a[i + 1]; }
      } else {
        var k := i - |a|;
        assert StepGated(b, k, isDangerous);
        assert tr[i] == b[k];
        if k > 0 { assert tr[i - 1] == b[k - 1]; }
        if k + 1 < |b| { assert tr[i + 1] == b[k + 1]; }
      }
    }
  }

  /** A trace taken in order from `s`, followed by one taken in order from where it left the
      counters, is taken in order from `s`. */
  lemma ConsumedAppend(a: seq<Step>, b: seq<Step>, s: Counters, o: Oracles)
    requires ConsumedInOrder(a, s, o) && ConsumedInOrder(b, After(s, a), o)
    ensures ConsumedInOrder(a + b, s, o)
    ensures After(s, a + b) == After(After(s, a), b)
  {
    var tr := a + b;
    forall i | 0 <= i < |tr| ensures StepConsumed(tr, i, s, o) {
      if i < |a| {
        assert StepConsumed(a, i, s, o);
        assert tr[i] == a[i] && tr[..i] == a[..i];
      } else {
        var k := i - |a|;
        assert StepConsumed(b, k, After(s, a), o);
        assert tr[i] == b[k] && tr[..i] == a + b[..k];
        StepCountsAppend(a, b[..k]);
      }
    }
    StepCountsAppend(a, b);
  }

  /** A trace without approvals and executions is gated. */
  lemma UngatedStepsAreGated(tr: seq<Step>, isDangerous: string -> bool)
    requires forall i :: 0 <= i < |tr| ==> !tr[i].ToolExecuted? && !tr[i].ApprovalAnswered?
    ensures Gated(tr, isDangerous)
  {
    forall i | 0 <= i < |tr| ensures StepGated(tr, i, isDangerous) {
      match tr[i]
      case _ =>
    }
  }

  /** A trace without approvals and executions takes nothing and leaves the counters as they were. */
  lemma {:induction false} PassiveStepsTakeNothing(tr: seq<Step>, s: Counters, o: Oracles)
    requires forall i :: 0 <= i < |tr| ==> !tr[i].ToolExecuted? && !tr[i].ApprovalAnswered?
    ensures ConsumedInOrder(tr, s, o) && After(s, tr) == s
    decreases |tr|
  {
    forall i | 0 <= i < |tr| ensures StepConsumed(tr, i, s, o) {
      match tr[i]
      case _ =>
    }
    if tr != [] {
      PassiveStepsTakeNothing(tr[..|tr| - 1], s, o);
    }
  }

  lemma PrefixCounts(tr: seq<Step>, i: nat)
    requires 0 < i <= |tr|
    ensures AnswerCount(tr[..i]) == AnswerCount(tr[..i - 1]) + (if tr[i - 1].ApprovalAnswered? then 1 else 0)
    ensures ExecutionCount(tr[..i]) == ExecutionCount(tr[..i - 1]) + (if tr[i - 1].ToolExecuted? then 1 else 0)
  {
    assert tr[..i][..i - 1] == tr[..i - 1];
  }

  /** Handling one call is gated, makes no `onFinish`, `onError` or model call, takes its answer and
      execution in order, and leaves the counters where `Advance` says. */
  lemma CallStepsFacts(c: ToolCallInfo, o: Oracles, s: Counters)
    ensures Gated(CallSteps(c, o, s), o.isDangerous) && Quiet(CallSteps(c, o, s))
    ensures ConsumedInOrder(CallSteps(c, o, s), s, o)
    ensures After(s, CallSteps(c, o, s)) == Advance(c, o, s)
  {
    var steps := CallSteps(c, o, s);
    assert steps[..0] == [];
    PrefixCounts(steps, 1);
    PrefixCounts(steps, 2);
    PrefixCounts(steps, 3);
    if |steps| == 4 {
      PrefixCounts(steps, 4);
      assert steps[..4] == steps;
    } else {
      assert steps[..3] == steps;
    }
    forall i | 0 <= i < |steps| ensures StepGated(steps, i, o.isDangerous) && StepConsumed(steps, i, s, o) {
    }
  }

  /** The denial rule: a call's result is `execution-denied` exactly when its tool is dangerous and
      its answer is a denial; then nothing runs and `onToolResult` gets the denial error. Otherwise
      the tool runs once and both the result and `onToolResult` carry what it returned. */
  lemma CallOutcome(c: ToolCallInfo, o: Oracles, s: Counters)
    ensures var steps := CallSteps(c, o, s); var r := CallResult(c, o, s);
      && r.toolCallId == c.toolCallId && r.toolName == c.toolName
      && (r.output.ExecutionDenied? <==> o.isDangerous(c.toolName) && o.approvals(s.approvals) == Denied)
      && (r.output.ExecutionDenied? ==>
            && r.output == ExecutionDenied(DeniedReason) && ExecutionCount(steps) == 0
            && steps[|steps| - 1] == ToolResultNotified(c.toolCallId, c.toolName, ErrorValue(o.freshRef, DenialMessage)))
      && (!r.output.ExecutionDenied? ==>
            && ExecutionCount(steps) == 1 && steps[|steps| - 2].ToolExecuted?
            && r.output == JsonOutput(steps[|steps| - 2].result)
            && steps[|steps| - 1] == ToolResultNotified(c.toolCallId, c.toolName, steps[|steps| - 2].result))
  {
    CallStepsFacts(c, o, s);
  }

  /** The calls of a turn together: gated and quiet steps, answers and executions taken in order,
      leaving the counters where `AfterCalls` says. */
  lemma {:induction false} StepsOfFacts(calls: seq<ToolCallInfo>, o: Oracles, s: Counters)
    ensures Gated(StepsOf(calls, o, s), o.isDangerous) && Quiet(StepsOf(calls, o, s))
    ensures ConsumedInOrder(StepsOf(calls, o, s), s, o) && AfterCalls(calls, o, s) == After(s, StepsOf(calls, o, s))
    decreases |calls|
  {
    if calls != [] {
      var init := calls[..|calls| - 1];
      var c := calls[|calls| - 1];
      var t := AfterCalls(init, o, s);
      StepsOfFacts(init, o, s);
      CallStepsFacts(c, o, t);
      GatedAppend(StepsOf(init, o, s), CallSteps(c, o, t), o.isDangerous);
      ConsumedAppend(StepsOf(init, o, s), CallSteps(c, o, t), s, o);
    }
  }

  /** One result per call and one answer per dangerous call. */
  lemma {:induction false} ResultsCount(calls: seq<ToolCallInfo>, o: Oracles, s: Counters)
    ensures |ResultsOf(calls, o, s)| == |calls|
    ensures AfterCalls(calls, o, s).approvals == s.approvals + DangerousCount(calls, o.isDangerous)
    decreases |calls|
  {
    if calls != [] {
      ResultsCount(calls[..|calls| - 1], o, s);
    }
  }

  /** The result of one call, from counters whose answer count is `k`. */
  lemma CallAnswer(c: ToolCallInfo, o: Oracles, t: Counters, r: ToolResultPart, k: nat)
    requires r == CallResult(c, o, t) && t.approvals == k
    ensures r.toolCallId == c.toolCallId && r.toolName == c.toolName
    ensures r.output.ExecutionDenied? ==> o.isDangerous(c.toolName)
    ensures r.output == ExecutionDenied(DeniedReason) <==> o.isDangerous(c.toolName) && o.approvals(k) == Denied
  {
  }

  /** Call `j` is handled from the counters the calls before it left. */
  lemma {:induction false} ResultAt(calls: seq<ToolCallInfo>, o: Oracles, s: Counters, j: nat)
    requires j < |calls|
    ensures j < |ResultsOf(calls, o, s)|
    ensures ResultsOf(calls, o, s)[j] == CallResult(calls[j], o, AfterCalls(calls[..j], o, s))
    decreases |calls|
  {
    var n := |calls| - 1;
    var init := calls[..n];
    ResultsCount(init, o, s);
    if j < n {
      ResultAt(init, o, s, j);
      assert init[..j] == calls[..j] && init[j] == calls[j];
    } else {
      assert calls[..j] == init;
    }
  }

  /** Call `j`, the `k`-th dangerous call when `k` dangerous calls come before it, gets answer
      `approvals(s.approvals + k)`: its result is the denial exactly when that answer is a denial. */
  lemma AnswerAt(calls: seq<ToolCallInfo>, o: Oracles, s: Counters, j: nat)
    requires j < |calls|
    ensures j < |ResultsOf(calls, o, s)|
    ensures var r := ResultsOf(calls, o, s)[j];
      && r.toolCallId == calls[j].toolCallId && r.toolName == calls[j].toolName
      && (r.output.ExecutionDenied? ==> o.isDangerous(calls[j].toolName))
      && (r.output == ExecutionDenied(DeniedReason) <==>
            o.isDangerous(calls[j].toolName) &&
            o.approvals(s.approvals + DangerousCount(calls[..j], o.isDangerous)) == Denied)
  {
    ResultAt(calls, o, s, j);
    ResultsCount(calls[..j], o, s);
    CallAnswer(calls[j], o, AfterCalls(calls[..j], o, s), ResultsOf(calls, o, s)[j],
               s.approvals + DangerousCount(calls[..j], o.isDangerous));
  }

  /** The tool message of a turn answers its calls. */
  lemma AnswersInCallOrder(calls: seq<ToolCallInfo>, o: Oracles, s: Counters)
    ensures AnswersCalls(ToolMessage(ResultsOf(calls, o, s)), calls, o.isDangerous)
  {
    ResultsCount(calls, o, s);
    forall j | 0 <= j < |calls|
      ensures ResultsOf(calls, o, s)[j].toolCallId == calls[j].toolCallId
      ensures ResultsOf(calls, o, s)[j].toolName == calls[j].toolName
      ensures ResultsOf(calls, o, s)[j].output.ExecutionDenied? ==> o.isDangerous(calls[j].toolName)
    {
      AnswerAt(calls, o, s, j);
    }
  }

  /** Steps that are all `onTextDelta` callbacks. */
  ghost predicate TextDeltas(tr: seq<Step>) {
    forall i :: 0 <= i < |tr| ==> tr[i].TextDeltaNotified?
  }

  /** The `onTextDelta` callbacks, one per text part. */
  lemma DeltaStepsAreTextDeltas(parts: seq<StreamPart>)
    ensures TextDeltas(DeltaSteps(parts))
    decreases |parts|
  {
    if parts != [] {
      DeltaStepsAreTextDeltas(parts[..|parts| - 1]);
    }
  }

  /** Reading the stream of one turn until its end or until the abort flag is seen. */
  method ConsumeStream(turn: Turn) returns (fullText: string, toolCalls: seq<ToolCallInfo>, steps: seq<Step>)
    ensures fullText == TextOf(Seen(turn))
    ensures toolCalls == CallsOf(Seen(turn))
    ensures steps == DeltaSteps(Seen(turn))
  {
    fullText := "";
    toolCalls := [];
    steps := [];
    var i := 0;
    while i < |turn.parts|
      invariant 0 <= i <= |turn.parts|
      invariant turn.abortAt.Some? ==> i <= turn.abortAt.value
      invariant fullText == TextOf(turn.parts[..i])
      invariant toolCalls == CallsOf(turn.parts[..i])
      invariant steps == DeltaSteps(turn.parts[..i])
    {
      if turn.abortAt.Some? && turn.abortAt.value <= i {
        return;
      }
      assert turn.parts[..i + 1][..i] == turn.parts[..i];
      match turn.parts[i] {
        case TextDelta(text) =>
          fullText := fullText + text;
          steps := steps + [TextDeltaNotified(text)];
        case ToolCallPart(id, name, input) =>
          toolCalls := toolCalls + [ToolCallInfo(id, name, input)];
        case OtherPart =>
      }
      i := i + 1;
    }
    assert turn.parts[..i] == turn.parts;
  }

  /** The loop over the collected calls, from counters `s`. */
  method ExecuteCalls(calls: seq<ToolCallInfo>, o: Oracles, s: Counters)
    returns (results: seq<ToolResultPart>, steps: seq<Step>, next: Counters)
    ensures results == ResultsOf(calls, o, s) && steps == StepsOf(calls, o, s) && next == AfterCalls(calls, o, s)
    ensures next.approvals == s.approvals + DangerousCount(calls, o.isDangerous)
    ensures next == After(s, steps)
  {
    results := [];
    steps := [];
    next := s;
    for j := 0 to |calls|
      invariant results == ResultsOf(calls[..j], o, s) && steps == StepsOf(calls[..j], o, s)
      invariant next == AfterCalls(calls[..j], o, s)
    {
      var c := calls[j];
      var approvals, executions := next.approvals, next.executions;
      var pending := PendingOf(c, o.freshRef);
      var args := pending.args;
      var seg := [ToolCallNotified(pending)];
      var result: ToolResultPart;
      if o.isDangerous(c.toolName) {
        var approval := o.approvals(approvals);
        seg := seg + [ApprovalAnswered(approvals, pending, approval)];
        approvals := approvals + 1;
        if approval == Denied {
          result := ToolResultPart(c.toolCallId, c.toolName, ExecutionDenied(DeniedReason));
          seg := seg + [ToolResultNotified(c.toolCallId, c.toolName, ErrorValue(o.freshRef, DenialMessage))];
        } else {
          var toolResult := o.executeTool(executions, c.toolName, args);
          seg := seg + [ToolExecuted(executions, c.toolName, args, true, toolResult)];
          executions := executions + 1;
          seg := seg + [ToolResultNotified(c.toolCallId, c.toolName, toolResult)];
          result := ToolResultPart(c.toolCallId, c.toolName, JsonOutput(toolResult));
        }
      } else {
        var toolResult := o.executeSafeTool(executions, c.toolName, args);
        seg := seg + [ToolExecuted(executions, c.toolName, args, false, toolResult)];
        executions := executions + 1;
        seg := seg + [ToolResultNotified(c.toolCallId, c.toolName, toolResult)];
        result := ToolResultPart(c.toolCallId, c.toolName, JsonOutput(toolResult));
      }
      assert calls[..j + 1][..j] == calls[..j];
      results := results + [result];
      steps := steps + seg;
      next := Counters(approvals, executions);
    }
    assert calls[..|calls|] == calls;
    ResultsCount(calls, o, s);
    StepsOfFacts(calls, o, s);
  }

  /** The second half of an iteration with tool calls: the assistant message replaces the text
      entry, the calls are handled, and the tool message is appended. */
  method RecordToolTurn(history: seq<ModelMessage>, fullText: string, toolCalls: seq<ToolCallInfo>,
                        o: Oracles, s: Counters)
    returns (updated: seq<ModelMessage>, steps: seq<Step>, next: Counters)
    ensures updated == history + [AssistantMessage(fullText, toolCalls), ToolMessage(ResultsOf(toolCalls, o, s))]
    ensures steps == StepsOf(toolCalls, o, s) && next == AfterCalls(toolCalls, o, s)
  {
    updated := history;
    if fullText != "" {
      updated := updated + [AssistantText(fullText)];
    }
    var assistantContent: seq<ContentPart> := [];
    if fullText != "" {
      // The text entry just pushed becomes the first part of the assistant message instead.
      updated := updated[..|updated| - 1];
      assistantContent := assistantContent + [TextContent(fullText)];
    }
    assert updated == history;
    assistantContent := assistantContent + CallContents(toolCalls);
    assert AssistantParts(assistantContent) == AssistantMessage(fullText, toolCalls);
    updated := updated + [AssistantParts(assistantContent)];
    var results;
    results, steps, next := ExecuteCalls(toolCalls, o, s);
    updated := updated + [ToolMessage(results)];
  }

  /** What one iteration can lead to. */
  datatype TurnOutcome = Continue | StopFinished | StopAborted | StopErrored

  /** The abort flag is seen in the stream or when its error is caught. */
  predicate AbortedTurn(t: Turn) {
    AbortedInStream(t) || (t.end.Failed? && t.end.abortedThen)
  }

  /** The callbacks that end an iteration which does not continue: none on abort, `onError` on a
      stream failure, `onFinish` when there are no tool calls. */
  function StopSteps(turn: Turn): seq<Step> {
    if AbortedTurn(turn) then []
    else if turn.end.Failed? then [ErrorNotified(turn.end.message)]
    else [FinishNotified]
  }

  /** A continued iteration's steps, its text deltas and then its calls, are gated and quiet, take
      their answers and executions in order, and leave the counters where the calls do. */
  lemma ContinuedStepsFacts(deltas: seq<Step>, calls: seq<ToolCallInfo>, o: Oracles, s: Counters)
    requires TextDeltas(deltas)
    ensures var steps := deltas + StepsOf(calls, o, s);
      && Gated(steps, o.isDangerous) && Quiet(steps) && ConsumedInOrder(steps, s, o)
      && After(s, steps) == AfterCalls(calls, o, s)
  {
    var callSteps := StepsOf(calls, o, s);
    UngatedStepsAreGated(deltas, o.isDangerous);
    PassiveStepsTakeNothing(deltas, s, o);
    StepsOfFacts(calls, o, s);
    GatedAppend(deltas, callSteps, o.isDangerous);
    ConsumedAppend(deltas, callSteps, s, o);
  }

  /** One iteration of the loop, from the stream to the tool message, from counters `s`. */
  method RunTurn(history: seq<ModelMessage>, turn: Turn, o: Oracles, s: Counters)
    returns (outcome: TurnOutcome, updated: seq<ModelMessage>, steps: seq<Step>, next: Counters)
    ensures outcome == Continue <==> ContinuedTurn(turn)
    ensures outcome == StopAborted <==> AbortedTurn(turn)
    ensures outcome == StopErrored <==> !AbortedInStream(turn) && turn.end.Failed? && !turn.end.abortedThen
    ensures outcome == Continue ==>
      var calls := CallsOf(Seen(turn));
      && updated == history + [AssistantMessageOf(turn), ToolMessage(ResultsOf(calls, o, s))]
      && steps == DeltaSteps(Seen(turn)) + StepsOf(calls, o, s) && next == AfterCalls(calls, o, s)
    ensures outcome != Continue ==> steps == DeltaSteps(Seen(turn)) + StopSteps(turn)
    ensures outcome == StopFinished ==>
      updated == history + (if TextOf(Seen(turn)) != "" then [AssistantText(TextOf(Seen(turn)))] else [])
    ensures outcome == StopAborted || outcome == StopErrored ==> updated == history
    ensures outcome != Continue ==> next == s
  {
    next := s;
    var fullText, toolCalls, deltas := ConsumeStream(turn);
    steps := deltas;
    updated := history;
    if AbortedInStream(turn) {
      // The abort check inside the stream loop returns the messages so far.
      assert steps == deltas + [];
      outcome := StopAborted;
      return;
    }
    if turn.end.Failed? {
      if turn.end.abortedThen {
        assert steps == deltas + [];
        outcome := StopAborted;
        return;
      }
      steps := deltas + [ErrorNotified(turn.end.message)];
      outcome := StopErrored;
      return;
    }
    if |toolCalls| == 0 {
      if fullText != "" {
        updated := updated + [AssistantText(fullText)];
      }
      steps := deltas + [FinishNotified];
      outcome := StopFinished;
      return;
    }
    var callSteps;
    updated, callSteps, next := RecordToolTurn(history, fullText, toolCalls, o, s);
    steps := deltas + callSteps;
    outcome := Continue;
  }

  /** What a turn leaves for the rest of the run: whether the loop goes on after it, its assistant
      message, its `onTextDelta` callbacks, its tool calls and its text; and, for a turn that does
      not continue, how the run ends and its closing callbacks. */
  datatype Exchange = Exchange(continued: bool, assistant: ModelMessage, deltas: seq<Step>, calls: seq<ToolCallInfo>,
                               text: string, ending: Ending, stopSteps: seq<Step>)

  function ExchangeOf(t: Turn): Exchange {
    Exchange(ContinuedTurn(t), AssistantMessageOf(t), DeltaSteps(Seen(t)), CallsOf(Seen(t)), TextOf(Seen(t)),
             EndingOf(t), StopSteps(t))
  }

  /** The exchange of every turn of a run. */
  function Exchanges(turns: nat -> Turn): nat -> Exchange {
    (k: nat) => ExchangeOf(turns(k))
  }

  /** The counters at the start of turn `n`, after `n` continued turns. */
  function TurnCounters(ex: nat -> Exchange, o: Oracles, n: nat): Counters
    decreases n
  {
    if n == 0 then Counters(0, 0)
    else AfterCalls(ex(n - 1).calls, o, TurnCounters(ex, o, n - 1))
  }

  /** The history after `n` continued turns: each appends its assistant message and its tool message. */
  function HistoryAfter(messages: seq<ModelMessage>, ex: nat -> Exchange, o: Oracles, n: nat): seq<ModelMessage>
    decreases n
  {
    if n == 0 then messages
    else
      HistoryAfter(messages, ex, o, n - 1) +
        [ex(n - 1).assistant, ToolMessage(ResultsOf(ex(n - 1).calls, o, TurnCounters(ex, o, n - 1)))]
  }

  /** The callbacks of `n` continued turns: each calls the model on the history so far, then makes
      its text-delta callbacks and handles its calls. */
  function TraceAfter(messages: seq<ModelMessage>, ex: nat -> Exchange, o: Oracles, n: nat): seq<Step>
    decreases n
  {
    if n == 0 then []
    else
      TraceAfter(messages, ex, o, n - 1) + [ModelCalled(HistoryAfter(messages, ex, o, n - 1))] +
        ex(n - 1).deltas + StepsOf(ex(n - 1).calls, o, TurnCounters(ex, o, n - 1))
  }

  /** `hist` keeps `messages` and then holds, for each of the first `n` turns, its assistant message
      and a tool message answering its calls. */
  ghost predicate HistoryShape(messages: seq<ModelMessage>, hist: seq<ModelMessage>, ex: nat -> Exchange, n: nat,
                               isDangerous: string -> bool) {
    && |hist| == |messages| + 2 * n && messages <= hist
    && forall j :: 0 <= j < n ==>
         && hist[|messages| + 2 * j] == ex(j).assistant
         && AnswersCalls(hist[|messages| + 2 * j + 1], ex(j).calls, isDangerous)
  }

  lemma HistoryShapeStep(messages: seq<ModelMessage>, hist: seq<ModelMessage>, ex: nat -> Exchange, n: nat,
                         t: ModelMessage, isDangerous: string -> bool)
    requires HistoryShape(messages, hist, ex, n, isDangerous)
    requires AnswersCalls(t, ex(n).calls, isDangerous)
    ensures HistoryShape(messages, hist + [ex(n).assistant, t], ex, n + 1, isDangerous)
  {
    var hist' := hist + [ex(n).assistant, t];
    forall j | 0 <= j < n + 1
      ensures hist'[|messages| + 2 * j] == ex(j).assistant
      ensures AnswersCalls(hist'[|messages| + 2 * j + 1], ex(j).calls, isDangerous)
    {
      if j < n {
        assert hist'[|messages| + 2 * j] == hist[|messages| + 2 * j];
        assert hist'[|messages| + 2 * j + 1] == hist[|messages| + 2 * j + 1];
      }
    }
    assert hist'[..|messages|] == hist[..|messages|];
  }

  /** After `n` continued turns the input messages are kept and each turn appended its assistant
      message and a tool message answering its calls. */
  lemma {:induction false} AfterTurnsHistory(messages: seq<ModelMessage>, ex: nat -> Exchange, o: Oracles, n: nat)
    ensures HistoryShape(messages, HistoryAfter(messages, ex, o, n), ex, n, o.isDangerous)
    decreases n
  {
    if n > 0 {
      AfterTurnsHistory(messages, ex, o, n - 1);
      var t := TurnCounters(ex, o, n - 1);
      AnswersInCallOrder(ex(n - 1).calls, o, t);
      HistoryShapeStep(messages, HistoryAfter(messages, ex, o, n - 1), ex, n - 1,
                       ToolMessage(ResultsOf(ex(n - 1).calls, o, t)), o.isDangerous);
    }
  }

  /** A model call followed by a quiet iteration keeps the trace gated and without terminal
      callbacks, and counts one more model call. */
  lemma ExtendTrace(trace: seq<Step>, history: seq<ModelMessage>, steps: seq<Step>, isDangerous: string -> bool)
    requires Gated(trace, isDangerous) && NoTerminal(trace)
    requires Gated(steps, isDangerous) && Quiet(steps)
    ensures Gated(trace + [ModelCalled(history)] + steps, isDangerous)
    ensures NoTerminal(trace + [ModelCalled(history)] + steps)
    ensures ModelCalls(trace + [ModelCalled(history)] + steps) == ModelCalls(trace) + 1
  {
    var call := [ModelCalled(history)];
    UngatedStepsAreGated(call, isDangerous);
    GatedAppend(trace, call, isDangerous);
    GatedAppend(trace + call, steps, isDangerous);
    ModelCallsAppend(trace, call);
    assert ModelCalls(call) == 1 by {
      assert call[..0] == [];
    }
    QuietHasNoModelCalls(steps);
    ModelCallsAppend(trace + call, steps);
  }

  /** A model call takes nothing: the trace after it stays in order. */
  lemma ExtendConsumed(trace: seq<Step>, history: seq<ModelMessage>, steps: seq<Step>, s: Counters, o: Oracles)
    requires ConsumedInOrder(trace, s, o) && ConsumedInOrder(steps, After(s, trace), o)
    ensures ConsumedInOrder(trace + [ModelCalled(history)] + steps, s, o)
    ensures After(s, trace + [ModelCalled(history)] + steps) == After(After(s, trace), steps)
  {
    var call := [ModelCalled(history)];
    PassiveStepsTakeNothing(call, After(s, trace), o);
    ConsumedAppend(trace, call, s, o);
    ConsumedAppend(trace + call, steps, s, o);
  }

  /** A trace of `n` continued turns: gated, without terminal callbacks, with `n` model calls, its
      answers and executions taken in order from the first, leaving the counters at `s`. */
  ghost predicate TraceSoFar(trace: seq<Step>, s: Counters, o: Oracles, n: nat) {
    && Gated(trace, o.isDangerous) && NoTerminal(trace) && ModelCalls(trace) == n
    && ConsumedInOrder(trace, Counters(0, 0), o) && s == After(Counters(0, 0), trace)
  }

  lemma TraceStep(trace: seq<Step>, s: Counters, o: Oracles, n: nat, history: seq<ModelMessage>, steps: seq<Step>)
    requires TraceSoFar(trace, s, o, n)
    requires Gated(steps, o.isDangerous) && Quiet(steps) && ConsumedInOrder(steps, s, o)
    ensures TraceSoFar(trace + [ModelCalled(history)] + steps, After(s, steps), o, n + 1)
  {
    ExtendTrace(trace, history, steps, o.isDangerous);
    ExtendConsumed(trace, history, steps, Counters(0, 0), o);
  }

  /** One more continued turn, from counters `s`, extends a trace of `n` continued turns to one of
      `n + 1`, leaving the counters where its calls do. */
  lemma ContinuedTraceStep(trace: seq<Step>, s: Counters, o: Oracles, n: nat, history: seq<ModelMessage>,
                           e: Exchange, next: seq<Step>)
    requires TraceSoFar(trace, s, o, n) && TextDeltas(e.deltas)
    requires next == trace + [ModelCalled(history)] + e.deltas + StepsOf(e.calls, o, s)
    ensures TraceSoFar(next, AfterCalls(e.calls, o, s), o, n + 1)
  {
    var steps := e.deltas + StepsOf(e.calls, o, s);
    ContinuedStepsFacts(e.deltas, e.calls, o, s);
    TraceStep(trace, s, o, n, history, steps);
    assert next == trace + [ModelCalled(history)] + steps;
  }

  /** The trace after `n` continued turns: gated, without terminal callbacks, one model call per
      turn, every answer and execution taken in order from the first, and the counters match it. */
  lemma {:induction false} AfterTurnsTrace(messages: seq<ModelMessage>, ex: nat -> Exchange, o: Oracles, n: nat)
    requires forall j :: 0 <= j < n ==> TextDeltas(ex(j).deltas)
    ensures TraceSoFar(TraceAfter(messages, ex, o, n), TurnCounters(ex, o, n), o, n)
    decreases n
  {
    if n > 0 {
      AfterTurnsTrace(messages, ex, o, n - 1);
      ContinuedTraceStep(TraceAfter(messages, ex, o, n - 1), TurnCounters(ex, o, n - 1), o, n - 1,
                         HistoryAfter(messages, ex, o, n - 1), ex(n - 1), TraceAfter(messages, ex, o, n));
    }
  }

  /** The history `runAgent` returns: every turn but the last continued; the history after the
      last of them is returned as it is on abort and error, with the text on finish, and after
      `maxIterations` continued turns when the cap is reached. */
  ghost predicate HistoryOutcome(messages: seq<ModelMessage>, turns: nat -> Turn, o: Oracles,
                                 finalMessages: seq<ModelMessage>, ending: Ending, turnsRun: nat) {
    && ending != Rejected
    && 1 <= turnsRun <= MaxIterations
    && (forall j :: 0 <= j < turnsRun - 1 ==> ContinuedTurn(turns(j)))
    && var before := HistoryAfter(messages, Exchanges(turns), o, turnsRun - 1);
       var last := turns(turnsRun - 1);
       && (ending == CapReached <==> ContinuedTurn(last))
       && (ending == Aborted <==> AbortedTurn(last))
       && (ending == Errored <==> !AbortedInStream(last) && last.end.Failed? && !last.end.abortedThen)
       && (ending == CapReached ==>
             turnsRun == MaxIterations && finalMessages == HistoryAfter(messages, Exchanges(turns), o, turnsRun))
       && (ending == Aborted || ending == Errored ==> finalMessages == before)
       && (ending == Finished ==>
             finalMessages == before + (if TextOf(Seen(last)) != "" then [AssistantText(TextOf(Seen(last)))] else []))
  }

  /** What the callbacks of a run promise: one model call per turn, every dangerous execution gated,
      every answer and execution taken in order from the first, and exactly one terminal callback,
      last, unless the run was aborted. */
  ghost predicate TraceFacts(turns: nat -> Turn, o: Oracles, trace: seq<Step>, ending: Ending, turnsRun: nat) {
    && ModelCalls(trace) == turnsRun
    && Gated(trace, o.isDangerous)
    && ConsumedInOrder(trace, Counters(0, 0), o)
    && (ending == Aborted ==> NoTerminal(trace))
    && (ending == Finished || ending == CapReached ==>
          |trace| > 0 && trace[|trace| - 1] == FinishNotified && NoTerminal(trace[..|trace| - 1]))
    && (ending == Errored ==>
          && turnsRun >= 1 && turns(turnsRun - 1).end.Failed?
          && |trace| > 0 && trace[|trace| - 1] == ErrorNotified(turns(turnsRun - 1).end.message)
          && NoTerminal(trace[..|trace| - 1]))
  }

  /** The same for a last iteration that ends with one terminal callback. */
  lemma EndTrace(trace: seq<Step>, history: seq<ModelMessage>, steps: seq<Step>, isDangerous: string -> bool)
    requires Gated(trace, isDangerous) && NoTerminal(trace)
    requires |steps| > 0 && forall i :: 0 <= i < |steps| - 1 ==> steps[i].TextDeltaNotified?
    requires steps[|steps| - 1].FinishNotified? || steps[|steps| - 1].ErrorNotified?
    ensures var full := trace + [ModelCalled(history)] + steps;
      && Gated(full, isDangerous)
      && full[|full| - 1] == steps[|steps| - 1]
      && NoTerminal(full[..|full| - 1])
      && ModelCalls(full) == ModelCalls(trace) + 1
  {
    var body := steps[..|steps| - 1];
    var last := [steps[|steps| - 1]];
    assert steps == body + last;
    UngatedStepsAreGated(body, isDangerous);
    ExtendTrace(trace, history, body, isDangerous);
    var full := trace + [ModelCalled(history)] + steps;
    assert full == trace + [ModelCalled(history)] + body + last;
    assert full[..|full| - 1] == trace + [ModelCalled(history)] + body;
    UngatedStepsAreGated(last, isDangerous);
    GatedAppend(trace + [ModelCalled(history)] + body, last, isDangerous);
    ModelCallsAppend(trace + [ModelCalled(history)] + body, last);
    assert ModelCalls(last) == 0 by {
      assert last[..0] == [];
    }
  }

  /** The trace of a run that stops in turn `n`, after a trace of `n` continued turns. */
  lemma StoppedTrace(trace: seq<Step>, s: Counters, o: Oracles, n: nat, history: seq<ModelMessage>,
                     turns: nat -> Turn, ending: Ending)
    requires TraceSoFar(trace, s, o, n)
    requires ending == Aborted <==> AbortedTurn(turns(n))
    requires ending == Errored <==> !AbortedInStream(turns(n)) && turns(n).end.Failed? && !turns(n).end.abortedThen
    requires ending == Finished <==> !AbortedInStream(turns(n)) && turns(n).end.Completed? && CallsOf(Seen(turns(n))) == []
    ensures TraceFacts(turns, o, trace + [ModelCalled(history)] + DeltaSteps(Seen(turns(n))) + StopSteps(turns(n)), ending, n + 1)
  {
    var steps := DeltaSteps(Seen(turns(n))) + StopSteps(turns(n));
    DeltaStepsAreTextDeltas(Seen(turns(n)));
    PassiveStepsTakeNothing(steps, s, o);
    ExtendConsumed(trace, history, steps, Counters(0, 0), o);
    assert trace + [ModelCalled(history)] + steps == trace + [ModelCalled(history)] + DeltaSteps(Seen(turns(n))) + StopSteps(turns(n));
    if ending == Aborted {
      assert steps == DeltaSteps(Seen(turns(n)));
      UngatedStepsAreGated(steps, o.isDangerous);
      ExtendTrace(trace, history, steps, o.isDangerous);
    } else {
      EndTrace(trace, history, steps, o.isDangerous);
    }
  }

  /** The trace of a run that used all its iterations: the finish callback comes last. */
  lemma CapTrace(trace: seq<Step>, s: Counters, o: Oracles, turns: nat -> Turn)
    requires TraceSoFar(trace, s, o, MaxIterations)
    ensures TraceFacts(turns, o, trace + [FinishNotified], CapReached, MaxIterations)
  {
    var finish := [FinishNotified];
    UngatedStepsAreGated(finish, o.isDangerous);
    GatedAppend(trace, finish, o.isDangerous);
    PassiveStepsTakeNothing(finish, After(Counters(0, 0), trace), o);
    ConsumedAppend(trace, finish, Counters(0, 0), o);
    ModelCallsAppend(trace, finish);
    assert ModelCalls(finish) == 0 by {
      assert finish[..0] == [];
    }
    assert (trace + finish)[..|trace + finish| - 1] == trace;
  }

  /** The first turn from `n` on that does not continue, or `maxIterations` when every turn up to
      the cap continues. */
  function FirstStop(ex: nat -> Exchange, n: nat): (k: nat)
    requires n <= MaxIterations
    ensures n <= k <= MaxIterations
    ensures forall j :: n <= j < k ==> ex(j).continued
    ensures k < MaxIterations ==> !ex(k).continued
    decreases MaxIterations - n
  {
    if n == MaxIterations || !ex(n).continued then n else FirstStop(ex, n + 1)
  }

  /** How a turn that does not continue ends the run. */
  function EndingOf(t: Turn): Ending {
    if AbortedTurn(t) then Aborted else if t.end.Failed? then Errored else Finished
  }

  /** The history a turn that does not continue returns: its text is appended when it finishes. */
  function StopHistory(history: seq<ModelMessage>, e: Exchange): seq<ModelMessage> {
    if e.ending == Finished && e.text != "" then history + [AssistantText(e.text)] else history
  }

  /** What a run of the loop returns and which callbacks it makes. */
  datatype Run = Run(finalMessages: seq<ModelMessage>, trace: seq<Step>, ending: Ending, turnsRun: nat)

  /** The rest of a run from turn `n`, with the history, the counters and the trace reached so
      far: a continued turn appends its messages and callbacks and goes on to the next turn, a turn
      that does not continue ends the run, and at the cap the final `onFinish` ends it. */
  function RunFrom(ex: nat -> Exchange, o: Oracles, n: nat, history: seq<ModelMessage>, counters: Counters,
                   trace: seq<Step>): Run
    decreases MaxIterations - n
  {
    if n >= MaxIterations then Run(history, trace + [FinishNotified], CapReached, n)
    else
      var e := ex(n);
      if e.continued then
        RunFrom(ex, o, n + 1, history + [e.assistant, ToolMessage(ResultsOf(e.calls, o, counters))],
                AfterCalls(e.calls, o, counters), trace + [ModelCalled(history)] + (e.deltas + StepsOf(e.calls, o, counters)))
      else
        Run(StopHistory(history, e), trace + [ModelCalled(history)] + (e.deltas + e.stopSteps), e.ending, n + 1)
  }

  /** The run of the loop on `messages`. */
  function RunOf(messages: seq<ModelMessage>, turns: nat -> Turn, o: Oracles): Run {
    RunFrom(Exchanges(turns), o, 0, messages, Counters(0, 0), [])
  }

  /** A continued turn `n - 1` extends the history, the counters and the trace of the turns
      before it to those of the first `n` turns. */
  lemma ContinuedState(messages: seq<ModelMessage>, ex: nat -> Exchange, o: Oracles, n: nat)
    requires 0 < n <= MaxIterations && ex(n - 1).continued
    ensures
      RunFrom(ex, o, n - 1, HistoryAfter(messages, ex, o, n - 1), TurnCounters(ex, o, n - 1), TraceAfter(messages, ex, o, n - 1)) ==
      RunFrom(ex, o, n, HistoryAfter(messages, ex, o, n), TurnCounters(ex, o, n), TraceAfter(messages, ex, o, n))
  {
    var e := ex(n - 1);
    var trace := TraceAfter(messages, ex, o, n - 1);
    var history := HistoryAfter(messages, ex, o, n - 1);
    var steps := StepsOf(e.calls, o, TurnCounters(ex, o, n - 1));
    assert trace + [ModelCalled(history)] + (e.deltas + steps) == trace + [ModelCalled(history)] + e.deltas + steps;
  }

  /** Before the first turn that does not continue, the run goes on from the history, the counters
      and the trace of the turns so far. */
  lemma {:induction false} RunAfterTurns(messages: seq<ModelMessage>, ex: nat -> Exchange, o: Oracles, n: nat)
    requires n <= FirstStop(ex, 0)
    ensures RunFrom(ex, o, 0, messages, Counters(0, 0), []) ==
      RunFrom(ex, o, n, HistoryAfter(messages, ex, o, n), TurnCounters(ex, o, n), TraceAfter(messages, ex, o, n))
    decreases n
  {
    if n > 0 {
      RunAfterTurns(messages, ex, o, n - 1);
      ContinuedState(messages, ex, o, n);
    }
  }

  /** Every continued turn's text-delta callbacks are text deltas. */
  lemma DeltasAreTextDeltas(turns: nat -> Turn, n: nat)
    ensures forall j :: 0 <= j < n ==> TextDeltas(Exchanges(turns)(j).deltas)
  {
    forall j | 0 <= j < n
      ensures TextDeltas(Exchanges(turns)(j).deltas)
    {
      DeltaStepsAreTextDeltas(Seen(turns(j)));
    }
  }

  /** The turns before the first that does not continue are continued turns. */
  lemma ContinuedBefore(turns: nat -> Turn, n: nat)
    requires n <= FirstStop(Exchanges(turns), 0)
    ensures forall j :: 0 <= j < n ==> ContinuedTurn(turns(j))
  {
    forall j | 0 <= j < n
      ensures ContinuedTurn(turns(j))
    {
      assert Exchanges(turns)(j).continued;
    }
  }

  /** The history of a run that stops in turn `n`. */
  lemma StoppedHistory(messages: seq<ModelMessage>, turns: nat -> Turn, o: Oracles, n: nat, r: Run)
    requires n < MaxIterations && FirstStop(Exchanges(turns), 0) == n
    requires r.finalMessages == StopHistory(HistoryAfter(messages, Exchanges(turns), o, n), ExchangeOf(turns(n)))
    requires r.ending == EndingOf(turns(n)) && r.turnsRun == n + 1
    ensures HistoryOutcome(messages, turns, o, r.finalMessages, r.ending, r.turnsRun)
  {
    ContinuedBefore(turns, n);
    assert !Exchanges(turns)(n).continued;
  }

  /** The history of a run that reaches the cap. */
  lemma CappedHistory(messages: seq<ModelMessage>, turns: nat -> Turn, o: Oracles, r: Run)
    requires FirstStop(Exchanges(turns), 0) == MaxIterations
    requires r.finalMessages == HistoryAfter(messages, Exchanges(turns), o, MaxIterations)
    requires r.ending == CapReached && r.turnsRun == MaxIterations
    ensures HistoryOutcome(messages, turns, o, r.finalMessages, r.ending, r.turnsRun)
  {
    ContinuedBefore(turns, MaxIterations);
  }

  /** The callbacks of a run that stops in turn `n`. */
  lemma StoppedRunTrace(messages: seq<ModelMessage>, turns: nat -> Turn, o: Oracles, n: nat, r: Run)
    requires n < MaxIterations && FirstStop(Exchanges(turns), 0) == n
    requires r.trace == TraceAfter(messages, Exchanges(turns), o, n) +
      [ModelCalled(HistoryAfter(messages, Exchanges(turns), o, n))] + (DeltaSteps(Seen(turns(n))) + StopSteps(turns(n)))
    requires r.ending == EndingOf(turns(n)) && r.turnsRun == n + 1
    ensures TraceFacts(turns, o, r.trace, r.ending, r.turnsRun)
  {
    var trace, ending := r.trace, r.ending;
    var ex := Exchanges(turns);
    var history := HistoryAfter(messages, ex, o, n);
    var before := TraceAfter(messages, ex, o, n);
    DeltasAreTextDeltas(turns, n);
    AfterTurnsTrace(messages, ex, o, n);
    StoppedTrace(before, TurnCounters(ex, o, n), o, n, history, turns, ending);
    assert trace == before + [ModelCalled(history)] + DeltaSteps(Seen(turns(n))) + StopSteps(turns(n));
  }

  /** The callbacks of a run that reaches the cap. */
  lemma CappedRunTrace(messages: seq<ModelMessage>, turns: nat -> Turn, o: Oracles, r: Run)
    requires FirstStop(Exchanges(turns), 0) == MaxIterations
    requires r.trace == TraceAfter(messages, Exchanges(turns), o, MaxIterations) + [FinishNotified]
    requires r.ending == CapReached && r.turnsRun == MaxIterations
    ensures TraceFacts(turns, o, r.trace, r.ending, r.turnsRun)
  {
    var ex := Exchanges(turns);
    DeltasAreTextDeltas(turns, MaxIterations);
    AfterTurnsTrace(messages, ex, o, MaxIterations);
    CapTrace(TraceAfter(messages, ex, o, MaxIterations), TurnCounters(ex, o, MaxIterations), o, turns);
  }

  /** The history a run returns is the one the loop promises. */
  lemma RunOfHistory(messages: seq<ModelMessage>, turns: nat -> Turn, o: Oracles)
    ensures var r := RunOf(messages, turns, o);
      HistoryOutcome(messages, turns, o, r.finalMessages, r.ending, r.turnsRun)
  {
    var r := RunOf(messages, turns, o);
    var n := FirstStop(Exchanges(turns), 0);
    RunAfterTurns(messages, Exchanges(turns), o, n);
    if n == MaxIterations {
      CappedHistory(messages, turns, o, r);
    } else {
      StoppedHistory(messages, turns, o, n, r);
    }
  }

  /** The callbacks a run makes are the ones the loop promises. */
  lemma RunOfTrace(messages: seq<ModelMessage>, turns: nat -> Turn, o: Oracles)
    ensures var r := RunOf(messages, turns, o);
      TraceFacts(turns, o, r.trace, r.ending, r.turnsRun)
  {
    var r := RunOf(messages, turns, o);
    var n := FirstStop(Exchanges(turns), 0);
    RunAfterTurns(messages, Exchanges(turns), o, n);
    if n == MaxIterations {
      CappedRunTrace(messages, turns, o, r);
    } else {
      StoppedRunTrace(messages, turns, o, n, r);
    }
  }

  /** One pass of the loop body at iteration `n`: the turn is run, and either the run ends with
      this turn or it goes on from the returned history, counters and trace. */
  method Iteration(turns: nat -> Turn, o: Oracles, n: nat, history: seq<ModelMessage>, counters: Counters,
                   trace: seq<Step>)
    returns (done: bool, next: seq<ModelMessage>, nextCounters: Counters, nextTrace: seq<Step>, ending: Ending)
    requires n < MaxIterations
    ensures RunFrom(Exchanges(turns), o, n, history, counters, trace) ==
      if done then Run(next, nextTrace, ending, n + 1) else RunFrom(Exchanges(turns), o, n + 1, next, nextCounters, nextTrace)
  {
    var turn := turns(n);
    var outcome, steps;
    outcome, next, steps, nextCounters := RunTurn(history, turn, o, counters);
    nextTrace := trace + [ModelCalled(history)] + steps;
    done := outcome != Continue;
    ending := match outcome
      case StopAborted => Aborted
      case StopErrored => Errored
      case _ => Finished;
  }

  /** The `while (iteration < maxIterations)` loop, after the model is resolved. */
  method Iterate(messages: seq<ModelMessage>, turns: nat -> Turn, o: Oracles)
    returns (finalMessages: seq<ModelMessage>, trace: seq<Step>, ending: Ending, turnsRun: nat)
    ensures Run(finalMessages, trace, ending, turnsRun) == RunOf(messages, turns, o)
  {
    var updated := messages;
    var counters := Counters(0, 0);
    trace := [];
    turnsRun := 0;
    while turnsRun < MaxIterations
      invariant turnsRun <= MaxIterations
      invariant RunFrom(Exchanges(turns), o, turnsRun, updated, counters, trace) == RunOf(messages, turns, o)
    {
      var done, next, nextCounters, nextTrace, last := Iteration(turns, o, turnsRun, updated, counters, trace);
      if done {
        return next, nextTrace, last, turnsRun + 1;
      }
      updated, counters, trace, turnsRun := next, nextCounters, nextTrace, turnsRun + 1;
    }
    trace := trace + [FinishNotified];
    finalMessages := updated;
    ending := CapReached;
  }

  /** `runAgent(messages, modelId, config, callbacks, abortSignal)`: resolving the model throws
      before any callback; otherwise the loop runs. */
  method RunAgent(messages: seq<ModelMessage>, modelId: string, config: AppConfig, env: Env,
                  turns: nat -> Turn, o: Oracles)
    returns (result: Result<seq<ModelMessage>>, trace: seq<Step>, ending: Ending, turnsRun: nat)
    ensures LegacyProviders.ResolveModel(modelId, config, env).Err? ==>
      result == Err(LegacyProviders.ResolveModel(modelId, config, env).error) && trace == [] && ending == Rejected
    ensures LegacyProviders.ResolveModel(modelId, config, env).Ok? ==>
      && result.Ok?
      && Run(result.value, trace, ending, turnsRun) == RunOf(messages, turns, o)
      && HistoryOutcome(messages, turns, o, result.value, ending, turnsRun)
      && TraceFacts(turns, o, trace, ending, turnsRun)
  {
    var model := LegacyProviders.ResolveModel(modelId, config, env);
    if model.Err? {
      return Err(model.error), [], Rejected, 0;
    }
    var finalMessages;
    finalMessages, trace, ending, turnsRun := Iterate(messages, turns, o);
    RunOfHistory(messages, turns, o);
    RunOfTrace(messages, turns, o);
    result := Ok(finalMessages);
  }
}
