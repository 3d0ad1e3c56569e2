/**
 * The mock trace list, the fixed five-step shape of every trace, and the trace
 * lookups. Random draws, the current time and the hour field the date setter
 * reads are parameters; durations (floating point) are not modelled.
 */
module MockTraces {
  import opened Collections
  import opened Text
  import opened Draws
  import opened Types

  const AgentNames: seq<string> := [
    "CustomerSupport-v2", "SalesAssistant-prod", "DocumentQA-main", "CodeReview-beta", "DataAnalyst-v1"]

  const ModelVersions: seq<string> := ["gpt-4-turbo", "claude-3-opus", "gemini-pro", "llama-3-70b"]

  /** The step types of a trace, in order. */
  const StepTypes: seq<StepType> := [UserInput, RagRetrieval, LlmCall, ToolCall, Output]

  const StepNames: seq<string> := [
    "User Query Received", "Document Retrieval", "LLM Inference", "Order Lookup API", "Final Response"]

  const StepInputs: seq<Option<string>> := [
    Some("What are the return policies for my recent order?"),
    Some("Query embedding generated"),
    Some("Context + Query prompt constructed"),
    Some("order_id: ORD-12345"),
    None]

  const StepOutputs: seq<Option<string>> := [
    None,
    Some("Retrieved 5 relevant documents from knowledge base"),
    Some("Response generated successfully"),
    Some("Order details retrieved"),
    Some("Based on your order from 3 days ago, you have 30 days to initiate a return...")]

  /** The milliseconds `currentTime` advances by before steps 2, 3, 4 and 5. */
  const StepGaps: seq<nat> := [5, 150, 1200, 300]

  /** How far after the start step `k` is stamped: the sum of the gaps before it. */
  function StepOffset(k: nat): nat
    requires k <= |StepGaps|
  {
    if k == 0 then 0 else StepOffset(k - 1) + StepGaps[k - 1]
  }

  /** The five steps are stamped 0, 5, 155, 1355 and 1655 ms after the start. */
  lemma StepOffsetValues()
    ensures [StepOffset(0), StepOffset(1), StepOffset(2), StepOffset(3), StepOffset(4)] == [0, 5, 155, 1355, 1655]
  {
  }

  /** The offsets strictly increase. */
  lemma {:induction false} StepOffsetsIncrease(j: nat, k: nat)
    requires j < k <= |StepGaps|
    ensures StepOffset(j) < StepOffset(k)
    decreases k
  {
    if j < k - 1 {
      StepOffsetsIncrease(j, k - 1);
    }
  }

  function StepId(k: nat): string
  {
    "step-" + Decimal(k + 1)
  }

  /** Step 2 is a success unless its draw is at most 0.1; step 3 unless at most 0.05; the rest always succeed. */
  function StepStatus(k: nat, retrievalR: real, inferenceR: real): RunStatus
  {
    if k == 1 then (if retrievalR > 0.1 then Success else Warning)
    else if k == 2 then (if inferenceR > 0.05 then Success else Error)
    else Success
  }

  /** The steps of a trace that starts at `start`, described step by step from the tables above. */
  function TraceSteps(start: int, retrievalR: real, inferenceR: real): (steps: seq<TraceStep>)
    ensures |steps| == 5
  {
    seq(5, k requires 0 <= k < 5 =>
      TraceStep(StepId(k), StepTypes[k], StepNames[k], StepStatus(k, retrievalR, inferenceR),
                StepInputs[k], StepOutputs[k], start + StepOffset(k)))
  }

  /**
   * `generateTraceSteps`: builds the five steps in order while advancing
   * `currentTime` in place between them.
   */
  method GenerateTraceSteps(startTime: int, retrievalR: real, inferenceR: real) returns (steps: seq<TraceStep>)
    ensures steps == TraceSteps(startTime, retrievalR, inferenceR)
  {
    var currentTime := startTime;
    var first := TraceStep("step-1", UserInput, "User Query Received", Success,
      Some("What are the return policies for my recent order?"), None, currentTime);
    currentTime := currentTime + 5;
    var retrieval := TraceStep("step-2", RagRetrieval, "Document Retrieval",
      if retrievalR > 0.1 then Success else Warning,
      Some("Query embedding generated"), Some("Retrieved 5 relevant documents from knowledge base"), currentTime);
    currentTime := currentTime + 150;
    var inference := TraceStep("step-3", LlmCall, "LLM Inference",
      if inferenceR > 0.05 then Success else Error,
      Some("Context + Query prompt constructed"), Some("Response generated successfully"), currentTime);
    currentTime := currentTime + 1200;
    var tool := TraceStep("step-4", ToolCall, "Order Lookup API", Success,
      Some("order_id: ORD-12345"), Some("Order details retrieved"), currentTime);
    currentTime := currentTime + 300;
    var last := TraceStep("step-5", Output, "Final Response", Success,
      None, Some("Based on your order from 3 days ago, you have 30 days to initiate a return..."), currentTime);
    steps := [first, retrieval, inference, tool, last];
    StepOffsetValues();
    var spec := TraceSteps(startTime, retrievalR, inferenceR);
    assert steps[0] == spec[0] by { assert Decimal(1) == "1"; }
    assert steps[1] == spec[1] by { assert Decimal(2) == "2"; }
    assert steps[2] == spec[2] by { assert Decimal(3) == "3"; }
    assert steps[3] == spec[3] by { assert Decimal(4) == "4"; }
    assert steps[4] == spec[4] by { assert Decimal(5) == "5"; }
  }

  /**
   * Every trace has five steps with ids step-1 to step-5, the step types in
   * pipeline order, strictly increasing timestamps from the start time on, and
   * only the retrieval step can warn and only the inference step can fail.
   */
  lemma TraceStepsShape(start: int, retrievalR: real, inferenceR: real)
    ensures var steps := TraceSteps(start, retrievalR, inferenceR);
      && (forall k :: 0 <= k < 5 ==> steps[k].id == "step-" + Decimal(k + 1) && steps[k].stepType == StepTypes[k])
      && steps[0].timestamp == start
      && (forall j, k :: 0 <= j < k < 5 ==> steps[j].timestamp < steps[k].timestamp)
      && (forall k :: 0 <= k < 5 && steps[k].status == Warning ==> k == 1)
      && (forall k :: 0 <= k < 5 && steps[k].status == Error ==> k == 2)
  {
    var steps := TraceSteps(start, retrievalR, inferenceR);
    forall j, k | 0 <= j < k < 5
      ensures steps[j].timestamp < steps[k].timestamp
    {
      StepOffsetsIncrease(j, k);
    }
  }

  /** The overall status: error if the error draw fired, else warning if the warning draw fired, else success. */
  function TraceStatus(hasError: bool, hasWarning: bool): RunStatus
  {
    if hasError then Error else if hasWarning then Warning else Success
  }

  /**
   * With `hasWarning` computed as `!hasError && ...`, a trace is an error exactly
   * when `hasError`, a warning exactly when the warning draw fired without an
   * error, and never both.
   */
  lemma TraceStatusSpec(errorR: real, warningR: real)
    ensures var hasError := errorR > 0.85;
      var hasWarning := !hasError && warningR > 0.8;
      && (TraceStatus(hasError, hasWarning) == Error <==> hasError)
      && (TraceStatus(hasError, hasWarning) == Warning <==> !hasError && warningR > 0.8)
      && (TraceStatus(hasError, hasWarning) == Success <==> errorR <= 0.85 && warningR <= 0.8)
  {
  }

  /**
   * The random inputs of one trace, each in [0, 1) (the duration draws are not
   * modelled), and the hour that `getHours()` reads on the current date.
   */
  datatype TraceDraw = TraceDraw(
    startR: real, errorR: real, warningR: real, agentIdR: real, agentNameR: real,
    modelR: real, retrievalR: real, inferenceR: real, userR: real, nowHour: nat)

  predicate ValidDraw(d: TraceDraw)
  {
    && IsDraw(d.startR) && IsDraw(d.errorR) && IsDraw(d.warningR) && IsDraw(d.agentIdR)
    && IsDraw(d.agentNameR) && IsDraw(d.modelR) && IsDraw(d.userR)
  }

  /** The id of the trace at index `i`: `trace-` and `i + 1` zero-padded to six digits. */
  function TraceId(i: nat): string
  {
    "trace-" + ZeroPadded(i + 1, 6)
  }

  /** The trace the generator builds at index `i`. */
  function MakeTrace(i: nat, now: int, d: TraceDraw): Trace
    requires ValidDraw(d)
  {
    var startedAt := RandomDate(now, d.nowHour, d.startR, 48, HourMs);
    var hasError := d.errorR > 0.85;
    var hasWarning := !hasError && d.warningR > 0.8;
    Trace(
      TraceId(i),
      "agent-" + Decimal(RandomIndex(d.agentIdR, 5) + 1),
      RandomItem(AgentNames, d.agentNameR),
      RandomItem(ModelVersions, d.modelR),
      TraceStatus(hasError, hasWarning),
      startedAt,
      TraceSteps(startedAt, d.retrievalR, d.inferenceR),
      Some("user-" + Decimal(RandomIndex(d.userR, 1000))))
  }

  /** `mockTraces`: one trace per draw (the source makes 50). */
  function MockTraceList(now: int, draws: seq<TraceDraw>): (traces: seq<Trace>)
    requires forall k :: 0 <= k < |draws| ==> ValidDraw(draws[k])
    ensures |traces| == |draws|
  {
    seq(|draws|, i requires 0 <= i < |draws| => MakeTrace(i, now, draws[i]))
  }

  /** Trace ids are "trace-" plus six digits for the first 999999 indices. */
  lemma TraceIdFormat(i: nat)
    ensures |TraceId(i)| >= 12 && TraceId(i)[..6] == "trace-"
    ensures i < 999999 ==> |TraceId(i)| == 12
  {
    if i < 999999 {
      ZeroPaddedLength(i + 1, 6);
    }
  }

  /** Different indices never get the same trace id. */
  lemma TraceIdInjective(i: nat, j: nat)
    requires TraceId(i) == TraceId(j)
    ensures i == j
  {
    PrefixedZeroPaddedInjective("trace-", i + 1, j + 1, 6);
  }

  /** Every generated trace starts within the last 48 hours, and its agent, model and user come from the fixed ranges. */
  lemma MakeTraceFields(i: nat, now: int, d: TraceDraw)
    requires ValidDraw(d)
    ensures var t := MakeTrace(i, now, d);
      && t.id == TraceId(i)
      && now - 48 * HourMs <= t.startedAt <= now
      && t.agentName in AgentNames
      && t.modelVersion in ModelVersions
      && (exists n :: 1 <= n <= 5 && t.agentId == "agent-" + Decimal(n))
      && (exists n :: 0 <= n < 1000 && t.userId == Some("user-" + Decimal(n)))
      && |t.steps| == 5 && t.steps[0].timestamp == t.startedAt
  {
    var t := MakeTrace(i, now, d);
    var n := RandomIndex(d.agentIdR, 5) + 1;
    assert t.agentId == "agent-" + Decimal(n);
    var u := RandomIndex(d.userR, 1000);
    assert t.userId == Some("user-" + Decimal(u));
  }

  /** In a generated list the trace at index `i` has id `TraceId(i)`, so ids never repeat. */
  lemma MockTraceIdsDistinct(now: int, draws: seq<TraceDraw>)
    requires forall k :: 0 <= k < |draws| ==> ValidDraw(draws[k])
    ensures forall i :: 0 <= i < |draws| ==> MockTraceList(now, draws)[i].id == TraceId(i)
    ensures forall i, j :: 0 <= i < j < |draws| ==> MockTraceList(now, draws)[i].id != MockTraceList(now, draws)[j].id
  {
    forall i, j | 0 <= i < j < |draws|
      ensures MockTraceList(now, draws)[i].id != MockTraceList(now, draws)[j].id
    {
      if MockTraceList(now, draws)[i].id == MockTraceList(now, draws)[j].id {
        TraceIdInjective(i, j);
      }
    }
  }

  /** `getTraceById`: the first trace with that id, or none. */
  function GetTraceById(traces: seq<Trace>, id: string): (r: Option<Trace>)
    ensures r.Some? ==> r.value in traces && r.value.id == id
    ensures r.None? <==> forall x :: x in traces ==> x.id != id
    ensures r.Some? ==> exists i :: 0 <= i < |traces| && traces[i] == r.value
                                    && forall k :: 0 <= k < i ==> traces[k].id != id
  {
    Find((t: Trace) => t.id == id, traces)
  }

  /** `getTracesByAgent`: exactly the traces of that agent name, in list order. */
  function GetTracesByAgent(traces: seq<Trace>, agentName: string): seq<Trace>
  {
    Filter((t: Trace) => t.agentName == agentName, traces)
  }

  lemma GetTracesByAgentSpec(traces: seq<Trace>, agentName: string)
    ensures forall x :: x in GetTracesByAgent(traces, agentName) ==> x in traces && x.agentName == agentName
    ensures forall x :: x in traces && x.agentName == agentName ==> x in GetTracesByAgent(traces, agentName)
    ensures forall x :: multiset(GetTracesByAgent(traces, agentName))[x] ==
              (if x.agentName == agentName then multiset(traces)[x] else 0)
    ensures IsSubsequence(GetTracesByAgent(traces, agentName), traces)
  {
    FilterSpec((t: Trace) => t.agentName == agentName, traces);
  }

  /** When only trace `i` has its id, looking that id up finds trace `i`. */
  lemma LookupUniqueId(traces: seq<Trace>, i: nat)
    requires i < |traces|
    requires forall k :: 0 <= k < |traces| && traces[k].id == traces[i].id ==> k == i
    ensures GetTraceById(traces, traces[i].id) == Some(traces[i])
  {
    assert traces[i] in traces;
    var r := GetTraceById(traces, traces[i].id);
    var j :| 0 <= j < |traces| && traces[j] == r.value
             && forall k :: 0 <= k < j ==> traces[k].id != traces[i].id;
  }

  /** Looking up the id formatted for index `i` of a generated list finds trace `i`. */
  lemma LookupGeneratedId(now: int, draws: seq<TraceDraw>, i: nat)
    requires forall k :: 0 <= k < |draws| ==> ValidDraw(draws[k])
    requires i < |draws|
    ensures GetTraceById(MockTraceList(now, draws), TraceId(i)) == Some(MockTraceList(now, draws)[i])
  {
    var traces := MockTraceList(now, draws);
    assert traces[i].id == TraceId(i);
    forall k | 0 <= k < |traces| && traces[k].id == traces[i].id
      ensures k == i
    {
      assert traces[k].id == TraceId(k);
      TraceIdInjective(k, i);
    }
    LookupUniqueId(traces, i);
  }
}
