/** Reference agent B (examples/agent_b.py): summarise a text, assign a
    reviewer, record the (simulated) human approval; the three-step chain
    sum -> assign -> approve. */
module AgentB {

  import opened Values
  import opened FlowData
  import opened Graph
  import Text
  import Scheduler
  import Flow
  import Executors

  // ---- the tools ----

  /** How many words a summary keeps. */
  const SummaryLength: nat := 10

  /** `ws[:10]`. */
  function FirstWords(ws: seq<string>): (r: seq<string>)
    ensures |r| == if |ws| <= SummaryLength then |ws| else SummaryLength
    ensures r == ws[..|r|]
  {
    if |ws| <= SummaryLength then ws else ws[..SummaryLength]
  }

  /** `summarizer(text)`: `" ".join(text.split()[:10])`. */
  function Summarize(text: string): string {
    Text.Join(" ", FirstWords(Text.Words(text)))
  }

  /** A summary consists of the first ten words of the text (all of them
      when there are fewer), in order. */
  lemma SummaryIsLeadingWords(text: string)
    ensures Text.Words(Summarize(text)) == FirstWords(Text.Words(text))
    ensures |Text.Words(Summarize(text))| <= SummaryLength
  {
    var ws := Text.Words(text);
    var first := FirstWords(ws);
    assert forall i :: 0 <= i < |first| ==> first[i] == ws[i];
    Text.WordsOfJoin(first);
  }

  /** Summarising a summary changes nothing. */
  lemma SummarizeIdempotent(text: string)
    ensures Summarize(Summarize(text)) == Summarize(text)
  {
    SummaryIsLeadingWords(text);
    var first := FirstWords(Text.Words(text));
    assert FirstWords(first) == first;
  }

  /** The reviewer `assign_reviewer` always picks. */
  const Reviewer: string := "alice"

  /** `assign_reviewer(summary)`. */
  function AssignReviewer(summary: Value): (r: Value)
    ensures r.VDict? && r.fields.Keys == {"reviewer", "summary"}
    ensures r.fields["reviewer"] == VStr(Reviewer) && r.fields["summary"] == summary
  {
    VDict(map["reviewer" := VStr(Reviewer), "summary" := summary])
  }

  /** `approve_step(payload, approved)`: the dict display reads
      `payload["reviewer"]` before `payload["summary"]`; subscripting
      anything but a dict with a string raises TypeError. */
  function ApproveStep(payload: Value, approved: Value): (r: Result<Value>)
    ensures !payload.VDict? ==> r == Err(TypeError)
    ensures payload.VDict? && "reviewer" !in payload.fields ==> r == Err(KeyError("reviewer"))
    ensures payload.VDict? && "reviewer" in payload.fields && "summary" !in payload.fields ==>
      r == Err(KeyError("summary"))
    ensures r.Ok? <==> payload.VDict? && "reviewer" in payload.fields && "summary" in payload.fields
  {
    if !payload.VDict? then Err(TypeError)
    else if "reviewer" !in payload.fields then Err(KeyError("reviewer"))
    else if "summary" !in payload.fields then Err(KeyError("summary"))
    else Ok(VDict(map["approved" := approved, "by" := payload.fields["reviewer"],
                      "summary" := payload.fields["summary"]]))
  }

  /** An approval of an assignment names the assigned reviewer and carries
      the summary through unchanged. */
  lemma ApprovalOfAssignment(summary: Value, approved: Value)
    ensures ApproveStep(AssignReviewer(summary), approved) ==
      Ok(VDict(map["approved" := approved, "by" := VStr(Reviewer), "summary" := summary]))
  {
  }

  // ---- the tools as the executor calls them: `fn(**kwargs)` ----

  function SummarizerAction(args: map<string, Value>, attempt: nat): (r: Result<Value>)
    ensures r.Ok? <==> args.Keys == {"text"} && args["text"].VStr?
    ensures r.Ok? ==> r.value == VStr(Summarize(args["text"].s))
  {
    if args.Keys != {"text"} then Err(TypeError)
    else if !args["text"].VStr? then Err(AttributeError)
    else Ok(VStr(Summarize(args["text"].s)))
  }

  function AssignReviewerAction(args: map<string, Value>, attempt: nat): (r: Result<Value>)
    ensures args.Keys == {"summary"} ==> r == Ok(AssignReviewer(args["summary"]))
    ensures args.Keys != {"summary"} ==> r == Err(TypeError)
  {
    if args.Keys != {"summary"} then Err(TypeError) else Ok(AssignReviewer(args["summary"]))
  }

  /** `approved` defaults to True. */
  function ApproveStepAction(args: map<string, Value>, attempt: nat): (r: Result<Value>)
    ensures "payload" !in args || !(args.Keys <= {"payload", "approved"}) ==> r == Err(TypeError)
    ensures "payload" in args && args.Keys <= {"payload", "approved"} ==>
      r == ApproveStep(args["payload"], if "approved" in args then args["approved"] else VBool(true))
  {
    if "payload" !in args || !(args.Keys <= {"payload", "approved"}) then Err(TypeError)
    else ApproveStep(args["payload"], if "approved" in args then args["approved"] else VBool(true))
  }

  /** The three tools, as the default registry hands them to the executor. */
  const AgentBRegistry: map<string, ActionFn> :=
    map["summarizer" := SummarizerAction, "assign_reviewer" := AssignReviewerAction,
        "approve_step" := ApproveStepAction]

  // ---- the flow ----

  function SumStep(text: string): Step {
    Step("sum", "summarizer", map["text" := VStr(text)])
  }

  const AssignStep: Step := Step("assign", "assign_reviewer", map["summary" := VStr("$result.sum")])
  const ApprovalStep: Step :=
    Step("approve", "approve_step", map["payload" := VStr("$result.assign"), "approved" := VBool(true)])

  function AgentBSteps(text: string): seq<Step> {
    [SumStep(text), AssignStep, ApprovalStep]
  }

  const AgentBEdges: seq<Edge> := [("sum", "assign"), ("assign", "approve")]

  function AgentBFlowData(text: string): DagData {
    DagData("agent-b", DefaultVersion, AgentBSteps(text), AgentBEdges)
  }

  /** The three `.step(...)` calls of `build_flow`. */
  method AddAgentBSteps(b: Flow.FlowBuilder, text: string)
    requires b.flow.steps == []
    modifies b.flow
    ensures b.flow.Data() == old(b.flow.Data()).(steps := AgentBSteps(text))
  {
    var built := b.Step("sum", "summarizer", map["text" := VStr(text)]);
    assert b.flow.steps == [SumStep(text)];
    built := b.Step("assign", "assign_reviewer", map["summary" := VStr("$result.sum")]);
    assert b.flow.steps == [SumStep(text), AssignStep];
    built := b.Step("approve", "approve_step", map["payload" := VStr("$result.assign"), "approved" := VBool(true)]);
  }

  /** `build_flow(text)`: three steps and the two edges of the chain. */
  method BuildFlow(text: string) returns (f: Flow.DagFlow)
    ensures f.Data() == AgentBFlowData(text)
  {
    var b := Flow.Dag("agent-b", None);
    AddAgentBSteps(b, text);
    var steps := b.flow.steps;
    assert HasStep(steps, "sum") && HasStep(steps, "assign") && HasStep(steps, "approve") by {
      assert steps[0].id == "sum" && steps[1].id == "assign" && steps[2].id == "approve";
    }
    var built := b.Edge("sum", "assign");
    built := b.Edge("assign", "approve");
    f := b.Build();
  }

  lemma AgentBIds(text: string)
    ensures IdSet(AgentBSteps(text)) == {"sum", "assign", "approve"}
    ensures UniqueIds(AgentBSteps(text))
  {
    var steps := AgentBSteps(text);
    assert steps[0] in steps && steps[1] in steps && steps[2] in steps;
  }

  /** The only dependency order of the flow is sum, assign, approve. */
  lemma AgentBOrder(text: string, order: seq<string>)
    requires IsTopoOrder(order, IdSet(AgentBSteps(text)), AgentBEdges)
    ensures order == ["sum", "assign", "approve"]
  {
    AgentBIds(text);
    var e := AgentBEdges;
    assert |order| == 3 by {
      DistinctSetCard(order);
      assert SetOf(order) == {"sum", "assign", "approve"};
    }
    assert PredsIn(order[0], order[..0], e);
    assert PredsIn(order[1], order[..1], e);
    assert PredsIn(order[2], order[..2], e);
    assert order[0] in order && order[1] in order && order[2] in order;
    assert order[0] == "sum" by {
      assert e[0].1 == "assign" && e[1].1 == "approve";
    }
    assert order[1] == "assign" by {
      assert order[1] != order[0];
      assert e[1].1 == "approve" && e[1].0 !in order[..1];
    }
    assert order[2] == "approve" by {
      assert order[2] != order[0] && order[2] != order[1];
    }
  }

  /** What the three steps compute for `text`. */
  function AgentBResults(text: string): map<string, Value> {
    var summary := VStr(Summarize(text));
    map["sum" := summary, "assign" := AssignReviewer(summary),
        "approve" := VDict(map["approved" := VBool(true), "by" := VStr(Reviewer), "summary" := summary])]
  }

  /** Agent B's outcome: approved, by the assigned reviewer, of a summary
      made of the text's first ten words. */
  lemma AgentBApproval(text: string)
    ensures var approval := AgentBResults(text)["approve"];
      approval.fields["approved"] == VBool(true) && approval.fields["by"] == VStr(Reviewer) &&
      approval.fields["summary"].VStr? &&
      Text.Words(approval.fields["summary"].s) == FirstWords(Text.Words(text))
  {
    SummaryIsLeadingWords(text);
  }

  // ---- running it ----

  /** The step semantics of a fresh `LocalExecutor` without guards. */
  function AgentBVariant(): Scheduler.Variant {
    Scheduler.Local(AgentBRegistry, None, Executors.LocalDefaultRetry)
  }

  lemma SumComputed(text: string, snapshot: map<string, Value>, result: Value)
    requires !IsReference(VStr(text))
    requires Scheduler.StepSpec(AgentBVariant(), SumStep(text), snapshot) == Ok(result)
    ensures result == VStr(Summarize(text))
  {
    Executors.RanOnce(AgentBRegistry, SumStep(text), snapshot, result);
    assert ResolveArgs(SumStep(text).args, snapshot) == map["text" := VStr(text)];
  }

  lemma AssignComputed(summary: Value, snapshot: map<string, Value>, result: Value)
    requires "sum" in snapshot && snapshot["sum"] == summary
    requires Scheduler.StepSpec(AgentBVariant(), AssignStep, snapshot) == Ok(result)
    ensures result == AssignReviewer(summary)
  {
    Executors.RanOnce(AgentBRegistry, AssignStep, snapshot, result);
    assert ResolveArgs(AssignStep.args, snapshot) == map["summary" := summary];
  }

  lemma ApproveComputed(summary: Value, snapshot: map<string, Value>, result: Value)
    requires "assign" in snapshot && snapshot["assign"] == AssignReviewer(summary)
    requires Scheduler.StepSpec(AgentBVariant(), ApprovalStep, snapshot) == Ok(result)
    ensures result == VDict(map["approved" := VBool(true), "by" := VStr(Reviewer), "summary" := summary])
  {
    Executors.RanOnce(AgentBRegistry, ApprovalStep, snapshot, result);
    assert ResolveArgs(ApprovalStep.args, snapshot) ==
      map["payload" := AssignReviewer(summary), "approved" := VBool(true)];
    ApprovalOfAssignment(summary, VBool(true));
  }

  lemma SumRecorded(text: string, results: map<string, Value>, snapshots: map<string, map<string, Value>>)
    requires !IsReference(VStr(text))
    requires Executors.Recorded(AgentBVariant(), AgentBSteps(text), AgentBEdges, results, snapshots)
    ensures "sum" in results && results["sum"] == VStr(Summarize(text))
  {
    AgentBIds(text);
    Executors.StepSnapshot(AgentBVariant(), AgentBSteps(text), AgentBEdges, results, snapshots, 0);
    SumComputed(text, snapshots["sum"], results["sum"]);
  }

  lemma AssignRecorded(text: string, results: map<string, Value>, snapshots: map<string, map<string, Value>>,
                       summary: Value)
    requires Executors.Recorded(AgentBVariant(), AgentBSteps(text), AgentBEdges, results, snapshots)
    requires "sum" in results && results["sum"] == summary
    ensures "assign" in results && results["assign"] == AssignReviewer(summary)
  {
    AgentBIds(text);
    Executors.StepSnapshot(AgentBVariant(), AgentBSteps(text), AgentBEdges, results, snapshots, 1);
    assert AgentBEdges[0].1 == "assign";
    AssignComputed(summary, snapshots["assign"], results["assign"]);
  }

  lemma ApproveRecorded(text: string, results: map<string, Value>, snapshots: map<string, map<string, Value>>,
                        summary: Value)
    requires Executors.Recorded(AgentBVariant(), AgentBSteps(text), AgentBEdges, results, snapshots)
    requires "assign" in results && results["assign"] == AssignReviewer(summary)
    ensures "approve" in results &&
      results["approve"] == VDict(map["approved" := VBool(true), "by" := VStr(Reviewer), "summary" := summary])
  {
    AgentBIds(text);
    Executors.StepSnapshot(AgentBVariant(), AgentBSteps(text), AgentBEdges, results, snapshots, 2);
    assert AgentBEdges[1].1 == "approve";
    ApproveComputed(summary, snapshots["approve"], results["approve"]);
  }

  /** Two result tables of the agent's three steps agree when each step does. */
  lemma SameThreeResults(m: map<string, Value>, sum: Value, assign: Value, approve: Value)
    requires m.Keys == {"sum", "assign", "approve"}
    requires m["sum"] == sum && m["assign"] == assign && m["approve"] == approve
    ensures m == map["sum" := sum, "assign" := assign, "approve" := approve]
  {
  }

  /** Each step saw its predecessor's recorded result, so the three results
      are the chain of tool calls. */
  lemma RecordedIsComputed(text: string, results: map<string, Value>, snapshots: map<string, map<string, Value>>)
    requires !IsReference(VStr(text))
    requires Executors.Recorded(AgentBVariant(), AgentBSteps(text), AgentBEdges, results, snapshots)
    ensures results == AgentBResults(text)
  {
    var summary := VStr(Summarize(text));
    AgentBIds(text);
    SumRecorded(text, results, snapshots);
    AssignRecorded(text, results, snapshots, summary);
    ApproveRecorded(text, results, snapshots, summary);
    SameThreeResults(results, summary, AssignReviewer(summary),
                     VDict(map["approved" := VBool(true), "by" := VStr(Reviewer), "summary" := summary]));
  }

  /** `main()`: build the flow for a text and run it on a fresh
      `LocalExecutor` with the default registry and no guards. A run that
      succeeds records the summary, the assignment to the reviewer and the
      approval of that summary. */
  method RunAgentB(text: string) returns (r: Result<map<string, Value>>)
    ensures r.Ok? && !IsReference(VStr(text)) ==> r.value == AgentBResults(text)
  {
    var flow := BuildFlow(text);
    var ex := new Executors.LocalExecutor();
    ghost var schedule, snapshots, blame;
    r, schedule, snapshots, blame := ex.RunDagflow(flow, AgentBRegistry, null);
    if r.Ok? && !IsReference(VStr(text)) {
      Executors.RunRecorded(AgentBVariant(), AgentBSteps(text), AgentBEdges, r.value, schedule, snapshots, blame);
      RecordedIsComputed(text, r.value, snapshots);
    }
  }
}
