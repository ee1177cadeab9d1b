/**
  workflow.py: `WorkflowOrchestrator`, which builds the seven agents, runs the five
  steps in order while filling `workflow_context` key by key and appending to
  `workflow_history`, decides from the review text whether refinement runs, and
  returns either the completed results or, on any exception, the failed results with
  the context and history as they stood.
 */
module Workflow {
  import opened Wrappers
  import opened Text
  import opened JsonValue
  import opened PyRuntime
  import opened Configuration
  import opened BaseAgents
  import opened Agents

  /** One record of `workflow_history`; its timestamp is left out. */
  datatype HistoryEntry = HistoryEntry(step: string, agent: Json, result: Json)

  /** The record `_add_to_history(step_name, result)` appends: the agent is the
      result's `agent`, or "Unknown". */
  function EntryFor(step: string, result: Json): HistoryEntry {
    match Lookup(result, "agent")
    case Some(a) => HistoryEntry(step, a, result)
    case None => HistoryEntry(step, JStr("Unknown"), result)
  }

  function EntryJson(e: HistoryEntry): Json {
    JObj([("step", JStr(e.step)), ("agent", e.agent), ("result", e.result)])
  }

  function HistoryJson(history: seq<HistoryEntry>): Json {
    JArr(EntriesJson(history))
  }

  function EntriesJson(history: seq<HistoryEntry>): seq<Json> {
    if history == [] then [] else EntriesJson(history[..|history| - 1]) + [EntryJson(history[|history| - 1])]
  }

  function Keys(fields: seq<(string, Json)>): seq<string> {
    seq(|fields|, i requires 0 <= i < |fields| => fields[i].0)
  }

  /** `self.workflow_context.get(key, {})`. */
  function Fetched(context: seq<(string, Json)>, key: string): Json {
    match Lookup(JObj(context), key)
    case Some(v) => v
    case None => JObj([])
  }

  // ----- context assembly of the steps (workflow.py:132-203) -----

  /** The context `_step2_gather` hands the research agent: the plan, the task, and the
      plan text as the information needs (or `str` of the plan when it has none). */
  function ResearchContext(pyRepr: Json -> string, context: seq<(string, Json)>, task: string): Json {
    var plan := Fetched(context, "plan");
    var needs := if plan.JObj? && Lookup(plan, "plan").Some? then Lookup(plan, "plan").value
                 else JStr(PyStr(pyRepr, plan));
    JObj([("plan", plan), ("task", JStr(task)), ("information_needs", needs)])
  }

  /** The context `_step3_execute` hands the execution agent. */
  function ExecutionContext(context: seq<(string, Json)>): Json {
    JObj([("plan", Fetched(context, "plan")), ("research", Fetched(context, "research"))])
  }

  /** The context `_step4_review` hands the reviewer: refined deliverables, when truthy,
      take the place of the deliverables; the plan text becomes the success criteria. */
  function ReviewContext(pyRepr: Json -> string, context: seq<(string, Json)>): Json {
    var plan := Fetched(context, "plan");
    var refined := Fetched(context, "refined_deliverables");
    var deliverables := if PyTruthy(refined) then refined else Fetched(context, "deliverables");
    var criteria := if plan.JObj? then (match Lookup(plan, "plan") case Some(p) => p case None => JStr(""))
                    else JStr(PyStr(pyRepr, plan));
    JObj([("plan", plan), ("deliverables", deliverables), ("refined_deliverables", refined), ("success_criteria", criteria)])
  }

  /** The context `_step5_refine` hands the refinement agent: the review text becomes the
      issues to address (or `str` of the review when it has none). */
  function RefineContext(pyRepr: Json -> string, context: seq<(string, Json)>): Json {
    var review := Fetched(context, "review");
    var issues := if review.JObj? && Lookup(review, "review").Some? then Lookup(review, "review").value
                  else JStr(PyStr(pyRepr, review));
    JObj([("deliverables", Fetched(context, "deliverables")), ("review", review), ("issues", issues)])
  }

  /** The reviewer sees the refined deliverables whenever they are truthy, and the
      original ones otherwise. */
  lemma ReviewUsesRefined(pyRepr: Json -> string, context: seq<(string, Json)>)
    ensures PyTruthy(Fetched(context, "refined_deliverables")) ==>
              Lookup(ReviewContext(pyRepr, context), "deliverables") == Some(Fetched(context, "refined_deliverables"))
    ensures !PyTruthy(Fetched(context, "refined_deliverables")) ==>
              Lookup(ReviewContext(pyRepr, context), "deliverables") == Some(Fetched(context, "deliverables"))
  {
    LookupFirst(ReviewContext(pyRepr, context).fields, 1);
  }

  // ----- _check_for_issues (workflow.py:205-228) -----

  const Indicators := ["issue", "problem", "error", "missing", "incorrect", "needs improvement", "should be", "recommend"]

  /** `str(review_result.get("result", {})).lower()`. */
  function ReviewText(pyRepr: Json -> string, reviewResult: Json): string {
    var result := match Lookup(reviewResult, "result") case Some(v) => v case None => JObj([]);
    PyLower(PyStr(pyRepr, result))
  }

  predicate HasIssues(text: string) {
    exists i :: 0 <= i < |Indicators| && Contains(text, Indicators[i])
  }

  /** `_check_for_issues`: the indicator loop with its early return. */
  method CheckForIssues(pyRepr: Json -> string, reviewResult: Json) returns (found: bool)
    ensures found <==> HasIssues(ReviewText(pyRepr, reviewResult))
  {
    var text := ReviewText(pyRepr, reviewResult);
    var i := 0;
    while i < |Indicators|
      invariant 0 <= i <= |Indicators|
      invariant forall j :: 0 <= j < i ==> !Contains(text, Indicators[j])
    {
      if Contains(text, Indicators[i]) {
        return true;
      }
      i := i + 1;
    }
    return false;
  }

  /** An indicator written in any letter case in the review counts, because the text is
      lower-cased before the search. */
  lemma IssueInAnyCase(pyRepr: Json -> string, reviewResult: Json, word: string, k: nat)
    requires k < |Indicators| && PyLower(word) == Indicators[k]
    requires var result := match Lookup(reviewResult, "result") case Some(v) => v case None => JObj([]);
             Contains(PyStr(pyRepr, result), word)
    ensures HasIssues(ReviewText(pyRepr, reviewResult))
  {
    var result := match Lookup(reviewResult, "result") case Some(v) => v case None => JObj([]);
    var raw := PyStr(pyRepr, result);
    var p := IndexOf(raw, word).value;
    var text := PyLower(raw);
    assert text[p..p + |word|] == PyLower(word);
    ContainsAt(text, Indicators[k], p);
  }

  // ----- execute_workflow (workflow.py:35-130) -----

  /** What `execute_workflow` leaves behind: the context, the whole history and the
      returned results. */
  datatype Outcome = Outcome(context: seq<(string, Json)>, history: seq<HistoryEntry>, results: Json)

  /** The context `execute_workflow` starts from. */
  function InitialContext(task: string, initial: Json): seq<(string, Json)> {
    [("task", JStr(task)), ("initial_context", if PyTruthy(initial) then initial else JObj([])),
     ("step", JNum(0)), ("iteration", JNum(0))]
  }

  /** The step 5 record when the review found no issues. */
  const NoRefinement := JObj([("result", JStr("No refinement needed")), ("status", JStr("complete"))])

  function FailedResults(task: string, context: seq<(string, Json)>, history: seq<HistoryEntry>, e: PyError): Json {
    JObj([("task", JStr(task)), ("status", JStr("failed")), ("error", JStr(ErrorText(e))),
          ("workflow_context", JObj(context)), ("history", HistoryJson(history))])
  }

  function StepsJson(steps: seq<Json>): Json
    requires |steps| == 5
  {
    JObj([("step1_plan", steps[0]), ("step2_research", steps[1]), ("step3_execution", steps[2]),
          ("step4_review", steps[3]), ("step5_refinement", steps[4])])
  }

  function CompletedResults(task: string, summary: Json, steps: seq<Json>, context: seq<(string, Json)>,
                            history: seq<HistoryEntry>): Json
    requires |steps| == 5
  {
    JObj([("task", JStr(task)), ("status", JStr("completed")), ("summary", summary), ("steps", StepsJson(steps)),
          ("workflow_context", JObj(context)), ("history", HistoryJson(history))])
  }

  /** The seven agents an orchestrator holds, each given as the step it performs: from
      the task and the context the orchestrator hands it, the agent's output or the
      exception it raises.  The communicator is its `create_summary`. */
  datatype Crew = Crew(planner: (string, Json) -> Result<Json, PyError>,
                       researcher: (string, Json) -> Result<Json, PyError>,
                       executor: (string, Json) -> Result<Json, PyError>,
                       reviewer: (string, Json) -> Result<Json, PyError>,
                       refiner: (string, Json) -> Result<Json, PyError>,
                       communicator: Json -> Result<Json, PyError>)

  /** The agents `WorkflowOrchestrator()` builds, answering through the model `llm`. */
  function StandardCrew(pyRepr: Json -> string, llm: Llm): Crew {
    Crew((task, context) => PlanProcess(pyRepr, llm, task, context),
         (task, context) => ResearchProcess(llm, task, context),
         (task, context) => ExecutionProcess(llm, task, context),
         (task, context) => ReviewProcess(llm, task, context),
         (task, context) => RefineProcess(llm, task, context),
         results => CreateSummary(llm, results))
  }

  /** `workflow_context` and `workflow_history` between two statements of
      `execute_workflow`. */
  datatype State = State(context: seq<(string, Json)>, history: seq<HistoryEntry>)

  /** A step whose agent answered `reply`: `workflow_context[key] = output["result"]`,
      then `_add_to_history(name, output)`.  Whatever raises leaves the state as it was. */
  function Ran(s: State, key: string, name: string, reply: Result<Json, PyError>): (r: Result<State, PyError>)
    ensures r.Ok? <==> reply.Ok? && Lookup(reply.value, "result").Some?
    ensures reply.Err? ==> r == Err(reply.error)
    ensures r.Ok? ==> r.value.context == DictSet(s.context, key, Get(reply.value, "result"))
    ensures r.Ok? ==> r.value.history == s.history + [EntryFor(name, reply.value)]
  {
    match reply
    case Err(e) => Err(e)
    case Ok(output) =>
      match PyGetItem(output, "result")
      case Err(e) => Err(e)
      case Ok(v) => Ok(State(DictSet(s.context, key, v), s.history + [EntryFor(name, output)]))
  }

  /** `_add_to_history(name, output)` alone: `output.get` needs a dict. */
  function Recorded(s: State, name: string, output: Json): (r: Result<State, PyError>)
    ensures r.Ok? <==> output.JObj?
  {
    if output.JObj? then Ok(State(s.context, s.history + [EntryFor(name, output)]))
    else Err(NoAttribute(output, "get"))
  }

  /** The `except` clause: the failed results, with the state as it stands. */
  function Failed(task: string, s: State, e: PyError): Outcome {
    Outcome(s.context, s.history, FailedResults(task, s.context, s.history, e))
  }

  /** `execute_workflow(task, initial_context)` on an orchestrator whose agents are
      `crew` and whose history is `past`. */
  function Execute(crew: Crew, pyRepr: Json -> string, task: string, initial: Json, past: seq<HistoryEntry>): Outcome {
    var s0 := State(InitialContext(task, initial), past);
    var o1 := crew.planner(task, Fetched(s0.context, "initial_context"));
    match Ran(s0, "plan", "Step 1", o1)
    case Err(e) => Failed(task, s0, e)
    case Ok(s1) => AfterPlan(crew, pyRepr, task, s1, [o1.value])
  }

  /** Step 2, then the rest. */
  function AfterPlan(crew: Crew, pyRepr: Json -> string, task: string, s1: State, steps: seq<Json>): Outcome
    requires |steps| == 1
  {
    var o2 := crew.researcher(task, ResearchContext(pyRepr, s1.context, task));
    match Ran(s1, "research", "Step 2", o2)
    case Err(e) => Failed(task, s1, e)
    case Ok(s2) => AfterResearch(crew, pyRepr, task, s2, steps + [o2.value])
  }

  /** Step 3, then the rest. */
  function AfterResearch(crew: Crew, pyRepr: Json -> string, task: string, s2: State, steps: seq<Json>): Outcome
    requires |steps| == 2
  {
    var o3 := crew.executor(task, ExecutionContext(s2.context));
    match Ran(s2, "deliverables", "Step 3", o3)
    case Err(e) => Failed(task, s2, e)
    case Ok(s3) => AfterExecution(crew, pyRepr, task, s3, steps + [o3.value])
  }

  /** Step 4, then the rest. */
  function AfterExecution(crew: Crew, pyRepr: Json -> string, task: string, s3: State, steps: seq<Json>): Outcome
    requires |steps| == 3
  {
    var o4 := crew.reviewer(task, ReviewContext(pyRepr, s3.context));
    match Ran(s3, "review", "Step 4", o4)
    case Err(e) => Failed(task, s3, e)
    case Ok(s4) => AfterReview(crew, pyRepr, task, s4, steps + [o4.value])
  }

  /** From the issue check on: refinement and the second review when the review reads
      as finding issues, the fixed step 5 record otherwise; then the summary. */
  function AfterReview(crew: Crew, pyRepr: Json -> string, task: string, s4: State, steps: seq<Json>): Outcome
    requires |steps| == 4
  {
    if HasIssues(ReviewText(pyRepr, steps[3])) then Refinement(crew, pyRepr, task, s4, steps)
    else
      Summarize(crew, task, State(s4.context, s4.history + [EntryFor("Step 5", NoRefinement)]), steps + [NoRefinement])
  }

  /** Step 5, then the second review. */
  function Refinement(crew: Crew, pyRepr: Json -> string, task: string, s4: State, steps: seq<Json>): Outcome
    requires |steps| == 4
  {
    var o5 := crew.refiner(task, RefineContext(pyRepr, s4.context));
    match Ran(s4, "refined_deliverables", "Step 5", o5)
    case Err(e) => Failed(task, s4, e)
    case Ok(s5) => FinalReview(crew, pyRepr, task, s5, steps + [o5.value])
  }

  /** The second review, recorded as "Final Review", then the summary. */
  function FinalReview(crew: Crew, pyRepr: Json -> string, task: string, s5: State, steps: seq<Json>): Outcome
    requires |steps| == 5
  {
    match crew.reviewer(task, ReviewContext(pyRepr, s5.context))
    case Err(e) => Failed(task, s5, e)
    case Ok(fr) =>
      match Recorded(s5, "Final Review", fr)
      case Err(e) => Failed(task, s5, e)
      case Ok(s6) => Summarize(crew, task, s6, steps)
  }

  /** The summary over the final context, and the compiled results. */
  function Summarize(crew: Crew, task: string, s: State, steps: seq<Json>): Outcome
    requires |steps| == 5
  {
    match crew.communicator(JObj(s.context))
    case Err(e) => Failed(task, s, e)
    case Ok(summary) => Outcome(s.context, s.history, CompletedResults(task, summary, steps, s.context, s.history))
  }

  class Orchestrator {
    /** The agents built by the constructor. */
    const crew: Crew
    /** `workflow_context`, in insertion order. */
    var context: seq<(string, Json)>
    /** `workflow_history`. */
    var history: seq<HistoryEntry>

    constructor(crew: Crew)
      ensures this.crew == crew && context == [] && history == []
    {
      this.crew := crew;
      context := [];
      history := [];
    }

    /** `_add_to_history(name, output)`. */
    method AddToHistory(name: string, output: Json) returns (err: Option<PyError>)
      modifies this
      ensures match Recorded(State(old(context), old(history)), name, output)
              case Ok(s) => err.None? && context == s.context && history == s.history
              case Err(e) => err == Some(e) && context == old(context) && history == old(history)
    {
      if !output.JObj? {
        return Some(NoAttribute(output, "get"));
      }
      history := history + [EntryFor(name, output)];
      return None;
    }

    /** One step of `execute_workflow`: store the output's `result` under `key`, then
        record the output. */
    method Store(key: string, name: string, reply: Result<Json, PyError>) returns (err: Option<PyError>)
      modifies this
      ensures match Ran(State(old(context), old(history)), key, name, reply)
              case Ok(s) => err.None? && context == s.context && history == s.history
              case Err(e) => err == Some(e) && context == old(context) && history == old(history)
    {
      if reply.Err? {
        return Some(reply.error);
      }
      var v := PyGetItem(reply.value, "result");
      if v.Err? {
        return Some(v.error);
      }
      context := DictSet(context, key, v.value);
      err := AddToHistory(name, reply.value);
    }

    /** `execute_workflow(task, initial_context)`: the context is reset, the history is
        not. */
    method ExecuteWorkflow(pyRepr: Json -> string, task: string, initial: Json) returns (results: Json)
      modifies this
      ensures Outcome(context, history, results) == Execute(crew, pyRepr, task, initial, old(history))
    {
      context := InitialContext(task, initial);
      var o1 := crew.planner(task, Fetched(context, "initial_context"));
      var err := Store("plan", "Step 1", o1);
      if err.Some? {
        return FailedResults(task, context, history, err.value);
      }
      results := FromResearch(pyRepr, task, [o1.value]);
    }

    /** Step 2 of `execute_workflow`, and the rest. */
    method FromResearch(pyRepr: Json -> string, task: string, steps: seq<Json>) returns (results: Json)
      requires |steps| == 1
      modifies this
      ensures Outcome(context, history, results) == AfterPlan(crew, pyRepr, task, State(old(context), old(history)), steps)
    {
      var o2 := crew.researcher(task, ResearchContext(pyRepr, context, task));
      var err := Store("research", "Step 2", o2);
      if err.Some? {
        return FailedResults(task, context, history, err.value);
      }
      results := FromExecution(pyRepr, task, steps + [o2.value]);
    }

    /** Step 3 of `execute_workflow`, and the rest. */
    method FromExecution(pyRepr: Json -> string, task: string, steps: seq<Json>) returns (results: Json)
      requires |steps| == 2
      modifies this
      ensures Outcome(context, history, results) == AfterResearch(crew, pyRepr, task, State(old(context), old(history)), steps)
    {
      var o3 := crew.executor(task, ExecutionContext(context));
      var err := Store("deliverables", "Step 3", o3);
      if err.Some? {
        return FailedResults(task, context, history, err.value);
      }
      results := FromReview(pyRepr, task, steps + [o3.value]);
    }

    /** Step 4 of `execute_workflow`, and the rest. */
    method FromReview(pyRepr: Json -> string, task: string, steps: seq<Json>) returns (results: Json)
      requires |steps| == 3
      modifies this
      ensures Outcome(context, history, results) == AfterExecution(crew, pyRepr, task, State(old(context), old(history)), steps)
    {
      var o4 := crew.reviewer(task, ReviewContext(pyRepr, context));
      var err := Store("review", "Step 4", o4);
      if err.Some? {
        return FailedResults(task, context, history, err.value);
      }
      results := Conclude(pyRepr, task, steps + [o4.value]);
    }

    /** The rest of `execute_workflow` once step 4 is recorded. */
    method Conclude(pyRepr: Json -> string, task: string, steps: seq<Json>) returns (results: Json)
      requires |steps| == 4
      modifies this
      ensures Outcome(context, history, results) == AfterReview(crew, pyRepr, task, State(old(context), old(history)), steps)
    {
      var issues := CheckForIssues(pyRepr, steps[3]);
      if issues {
        results := Refine(pyRepr, task, steps);
      } else {
        var _ := AddToHistory("Step 5", NoRefinement);
        results := Finish(task, steps + [NoRefinement]);
      }
    }

    /** Step 5, when the review found issues. */
    method Refine(pyRepr: Json -> string, task: string, steps: seq<Json>) returns (results: Json)
      requires |steps| == 4
      modifies this
      ensures Outcome(context, history, results) == Refinement(crew, pyRepr, task, State(old(context), old(history)), steps)
    {
      var o5 := crew.refiner(task, RefineContext(pyRepr, context));
      var err := Store("refined_deliverables", "Step 5", o5);
      if err.Some? {
        return FailedResults(task, context, history, err.value);
      }
      results := ReviewAgain(pyRepr, task, steps + [o5.value]);
    }

    /** The review after refinement. */
    method ReviewAgain(pyRepr: Json -> string, task: string, steps: seq<Json>) returns (results: Json)
      requires |steps| == 5
      modifies this
      ensures Outcome(context, history, results) == FinalReview(crew, pyRepr, task, State(old(context), old(history)), steps)
    {
      var fr := crew.reviewer(task, ReviewContext(pyRepr, context));
      if fr.Err? {
        return FailedResults(task, context, history, fr.error);
      }
      var err := AddToHistory("Final Review", fr.value);
      if err.Some? {
        return FailedResults(task, context, history, err.value);
      }
      results := Finish(task, steps);
    }

    /** The summary and the compiled results. */
    method Finish(task: string, steps: seq<Json>) returns (results: Json)
      requires |steps| == 5
      modifies this
      ensures Outcome(context, history, results) == Summarize(crew, task, State(old(context), old(history)), steps)
    {
      var summary := crew.communicator(JObj(context));
      if summary.Err? {
        return FailedResults(task, context, history, summary.error);
      }
      results := CompletedResults(task, summary.value, steps, context, history);
    }
  }

  /** Stripping the stored key a second time changes nothing, and the second check
      rejects exactly the keys that strip to "". */
  lemma KeyStripStable(key: Option<string>)
    ensures KeyAfterValidate(KeyAfterValidate(key)) == KeyAfterValidate(key)
    ensures !Blank(key) ==> (Blank(KeyAfterValidate(key)) <==> PyStrip(key.value) == [])
  {
    if !Blank(key) {
      TrimShape(Py, key.value);
      TrimIdempotent(Py, PyStrip(key.value));
    }
  }

  /** `WorkflowOrchestrator()`: each of the seven agents checks the shared key; the first
      one strips it, so a key of only whitespace fails at the second. */
  method NewOrchestrator(config: Config, pyRepr: Json -> string, llm: Llm) returns (r: Result<Orchestrator, PyError>)
    modifies config
    ensures r.Ok? <==> old(config.apiKey).Some? && PyStrip(old(config.apiKey).value) != []
    ensures r.Err? ==> r.error == ValueError(KeyNotSetMessage)
    ensures r.Ok? ==> fresh(r.value) && r.value.crew == StandardCrew(pyRepr, llm) && r.value.context == [] && r.value.history == []
    ensures config.apiKey == KeyAfterValidate(old(config.apiKey))
  {
    KeyStripStable(config.apiKey);
    var a := InitAgent(config, "Orchestrator", "Master Controller");
    if a.Err? {
      return Err(a.error);
    }
    a := InitAgent(config, "Planning Agent", "Step 1 Specialist");
    if a.Err? {
      return Err(a.error);
    }
    // Once the second agent accepts the stripped key, the other five cannot fail.
    a := InitAgent(config, "Research Agent", "Step 2 Specialist");
    assert a.Ok?;
    a := InitAgent(config, "Execution Agent", "Step 3 Specialist");
    assert a.Ok?;
    a := InitAgent(config, "Quality Assurance Agent", "Step 4 Specialist");
    assert a.Ok?;
    a := InitAgent(config, "Refinement Agent", "Step 5 Specialist");
    assert a.Ok?;
    a := InitAgent(config, "Communication Agent", "Documentation Specialist");
    assert a.Ok?;
    var o := new Orchestrator(StandardCrew(pyRepr, llm));
    r := Ok(o);
  }

  // ----- what a run leaves behind -----

  /** The keys of the `steps` dict of the completed results, in order. */
  const StepKeys := ["step1_plan", "step2_research", "step3_execution", "step4_review", "step5_refinement"]
  /** The history records `execute_workflow` adds, in order. */
  const StepNames := ["Step 1", "Step 2", "Step 3", "Step 4", "Step 5", "Final Review"]
  /** The keys of the context after each step, in insertion order. */
  const ContextKeys := ["task", "initial_context", "step", "iteration", "plan", "research", "deliverables", "review",
                        "refined_deliverables"]

  lemma ContextKeysDistinct(i: nat, j: nat)
    requires i < j < |ContextKeys|
    ensures ContextKeys[i] != ContextKeys[j]
  {
  }

  function Names(history: seq<HistoryEntry>): seq<string> {
    seq(|history|, i requires 0 <= i < |history| => history[i].step)
  }

  /** The records a run added and the values it stored agree: each record names the
      agent its output names (or "Unknown"), and the value stored for a step is the
      `result` of the output recorded for that step. */
  predicate Faithful(added: seq<HistoryEntry>, stored: seq<(string, Json)>) {
    && |stored| <= |added|
    && (forall i :: 0 <= i < |added| ==> added[i] == EntryFor(added[i].step, added[i].result))
    && (forall i :: 0 <= i < |stored| ==> stored[i].1 == Get(added[i].result, "result"))
  }

  /** After `n` recorded steps and `m` stored results: the history is `past` followed by
      the first `n` step records, the context is the initial one followed by the first
      `m` step keys, each holding the `result` of its step's recorded output. */
  predicate Progress(task: string, initial: Json, past: seq<HistoryEntry>, s: State, n: nat, m: nat) {
    && n <= |StepNames| && 4 + m <= |ContextKeys|
    && |s.history| == |past| + n && s.history[..|past|] == past && Names(s.history[|past|..]) == StepNames[..n]
    && |s.context| == 4 + m && s.context[..4] == InitialContext(task, initial) && Keys(s.context) == ContextKeys[..4 + m]
    && Faithful(s.history[|past|..], s.context[4..])
  }

  /** The step outputs `steps` the results will report are those the first records the
      run added hold. */
  predicate Outputs(past: seq<HistoryEntry>, history: seq<HistoryEntry>, steps: seq<Json>) {
    |past| + |steps| <= |history| && forall i :: 0 <= i < |steps| ==> history[|past|..][i].result == steps[i]
  }

  /** Appending a record keeps the outputs recorded so far. */
  lemma OutputsKept(past: seq<HistoryEntry>, history: seq<HistoryEntry>, steps: seq<Json>, e: HistoryEntry)
    requires Outputs(past, history, steps)
    ensures Outputs(past, history + [e], steps)
  {
    assert (history + [e])[|past|..] == history[|past|..] + [e];
  }

  /** Appending the record of the next step adds its output. */
  lemma OutputsStep(past: seq<HistoryEntry>, history: seq<HistoryEntry>, steps: seq<Json>, e: HistoryEntry)
    requires Outputs(past, history, steps) && |history| == |past| + |steps|
    ensures Outputs(past, history + [e], steps + [e.result])
  {
    assert (history + [e])[|past|..] == history[|past|..] + [e];
  }

  /** The key of the next step is not yet in the context. */
  lemma FreshKey(c: seq<(string, Json)>, n: nat)
    requires 4 + n < |ContextKeys| && Keys(c) == ContextKeys[..4 + n]
    ensures FieldIndex(c, ContextKeys[4 + n]).None?
  {
    forall i | 0 <= i < |c| ensures c[i].0 != ContextKeys[4 + n] {
      assert c[i].0 == Keys(c)[i] == ContextKeys[i];
      ContextKeysDistinct(i, 4 + n);
    }
  }

  /** A step that does not raise stores its result under a new key, after those of the
      earlier steps, and appends its record. */
  lemma RanProgress(task: string, initial: Json, past: seq<HistoryEntry>, s: State, n: nat, reply: Result<Json, PyError>)
    requires 4 + n < |ContextKeys| && Progress(task, initial, past, s, n, n)
    ensures Ran(s, ContextKeys[4 + n], StepNames[n], reply).Ok? ==>
              Progress(task, initial, past, Ran(s, ContextKeys[4 + n], StepNames[n], reply).value, n + 1, n + 1)
  {
    var key := ContextKeys[4 + n];
    FreshKey(s.context, n);
    if Ran(s, key, StepNames[n], reply).Ok? {
      ProgressStep(task, initial, past, s, n, EntryFor(StepNames[n], reply.value));
    }
  }

  /** Storing the next key's value and appending the next step's record advance the
      progress by one step. */
  lemma ProgressStep(task: string, initial: Json, past: seq<HistoryEntry>, s: State, n: nat, entry: HistoryEntry)
    requires 4 + n < |ContextKeys| && Progress(task, initial, past, s, n, n)
    requires entry == EntryFor(StepNames[n], entry.result)
    ensures var v := Get(entry.result, "result");
            Progress(task, initial, past, State(s.context + [(ContextKeys[4 + n], v)], s.history + [entry]), n + 1, n + 1)
  {
    var c := s.context;
    var key := ContextKeys[4 + n];
    var v := Get(entry.result, "result");
    var c' := c + [(key, v)];
    var h' := s.history + [entry];
    assert c'[4..] == c[4..] + [(key, v)];
    assert c'[..4] == c[..4];
    assert Keys(c') == Keys(c) + [key];
    assert h'[..|past|] == s.history[..|past|];
    assert h'[|past|..] == s.history[|past|..] + [entry];
    assert Names(h'[|past|..]) == Names(s.history[|past|..]) + [entry.step];
    assert ContextKeys[..4 + n + 1] == ContextKeys[..4 + n] + [key];
    assert StepNames[..n + 1] == StepNames[..n] + [StepNames[n]];
  }

  /** The returned results say the run completed. */
  predicate Completed(o: Outcome) {
    Lookup(o.results, "status") == Some(JStr("completed"))
  }

  /** The returned results carry the context and the history as they stand. */
  predicate Reports(o: Outcome) {
    && (Completed(o) || Lookup(o.results, "status") == Some(JStr("failed")))
    && Lookup(o.results, "workflow_context") == Some(JObj(o.context)) && Lookup(o.results, "history") == Some(HistoryJson(o.history))
  }

  /** The output the `steps` of the results hold under `key`. */
  function Reported(o: Outcome, key: string): Json {
    Get(Get(o.results, "steps"), key)
  }

  /** The state a run leaves: `past` and then some of the step records, the initial
      context and then some of the step keys. */
  predicate Trace(task: string, initial: Json, past: seq<HistoryEntry>, o: Outcome) {
    |past| <= |o.history| && 4 <= |o.context|
    && Progress(task, initial, past, State(o.context, o.history), |o.history| - |past|, |o.context| - 4)
  }

  /** What a completed run adds: the first five records hold the five step outputs the
      results report; refinement and the final review happened exactly when
      the reported review reads as finding issues (one more context key and two more
      records, the context holding the reported step 5 result under
      `refined_deliverables`), and otherwise step 5 is the fixed record naming no agent
      and `refined_deliverables` is never set. */
  /** A completed run's `summary` is the communicator's answer over the context the run
      reports. */
  predicate Summarized(crew: Crew, o: Outcome) {
    Completed(o) ==>
      crew.communicator(JObj(o.context)).Ok? && Lookup(o.results, "summary") == Some(crew.communicator(JObj(o.context)).value)
  }

  predicate Concluded(pyRepr: Json -> string, past: seq<HistoryEntry>, o: Outcome) {
    Completed(o) ==>
      var refined := HasIssues(ReviewText(pyRepr, Reported(o, "step4_review")));
      && (refined <==> |o.context| == 9)
      && |o.history| == |past| + |o.context| - 3
      && |past| + 5 <= |o.history|
      && (forall i :: 0 <= i < 5 ==> o.history[|past|..][i].result == Reported(o, StepKeys[i]))
      && (refined ==> Lookup(JObj(o.context), "refined_deliverables") == Some(Get(Reported(o, "step5_refinement"), "result")))
      && (!refined ==> Lookup(JObj(o.context), "refined_deliverables").None?)
      && (!refined ==> |o.history| > 0 && o.history[|o.history| - 1] == HistoryEntry("Step 5", JStr("Unknown"), NoRefinement)
                       && Reported(o, "step5_refinement") == NoRefinement)
  }

  /** A reply that `execute_workflow` can store: a dict with a `result`. */
  predicate Answers(reply: Result<Json, PyError>) {
    reply.Ok? && Lookup(reply.value, "result").Some?
  }

  /** Agents that answer every context they can read with a storable reply, and a
      communicator that always answers. */
  ghost predicate Cooperative(crew: Crew) {
    && (forall task, c :: Readable(c) ==> Answers(crew.planner(task, c)))
    && (forall task, c :: Readable(c) ==> Answers(crew.researcher(task, c)))
    && (forall task, c :: Readable(c) ==> Answers(crew.executor(task, c)))
    && (forall task, c :: Readable(c) ==> Answers(crew.reviewer(task, c)))
    && (forall task, c :: Readable(c) ==> Answers(crew.refiner(task, c)))
    && (forall results :: crew.communicator(results).Ok?)
  }

  /** A raised exception ends the run as failed, with its message and the state as it
      stands. */
  lemma FailedReports(task: string, s: State, e: PyError)
    ensures var o := Failed(task, s, e);
            Reports(o) && !Completed(o) && Lookup(o.results, "status") == Some(JStr("failed"))
            && Lookup(o.results, "error") == Some(JStr(ErrorText(e)))
            && o.context == s.context && o.history == s.history
  {
    var f := FailedResults(task, s.context, s.history, e).fields;
    LookupFirst(f, 1);
    LookupFirst(f, 2);
    LookupFirst(f, 3);
    LookupFirst(f, 4);
  }

  /** The summary step changes no state; the run completes exactly when the
      communicator answers, and the results then hold the five step outputs. */
  lemma SummarizeReports(crew: Crew, task: string, s: State, steps: seq<Json>)
    requires |steps| == 5
    ensures var o := Summarize(crew, task, s, steps);
            Reports(o) && o.context == s.context && o.history == s.history
            && (Completed(o) <==> crew.communicator(JObj(s.context)).Ok?)
            && (Completed(o) ==> Reported(o, "step4_review") == steps[3] && Reported(o, "step5_refinement") == steps[4])
            && (Completed(o) ==> forall i :: 0 <= i < 5 ==> Reported(o, StepKeys[i]) == steps[i])
            && Summarized(crew, o)
  {
    match crew.communicator(JObj(s.context)) {
      case Err(e) => FailedReports(task, s, e);
      case Ok(summary) => CompletedReports(task, summary, steps, s);
    }
  }

  lemma CompletedReports(task: string, summary: Json, steps: seq<Json>, s: State)
    requires |steps| == 5
    ensures var o := Outcome(s.context, s.history, CompletedResults(task, summary, steps, s.context, s.history));
            Reports(o) && Completed(o) && Reported(o, "step4_review") == steps[3] && Reported(o, "step5_refinement") == steps[4]
            && Lookup(o.results, "summary") == Some(summary)
            && forall i :: 0 <= i < 5 ==> Reported(o, StepKeys[i]) == steps[i]
  {
    var f := CompletedResults(task, summary, steps, s.context, s.history).fields;
    LookupFirst(f, 1);
    LookupFirst(f, 2);
    LookupFirst(f, 4);
    LookupFirst(f, 5);
    CompletedSteps(task, summary, steps, s);
    StepsReported(steps);
  }

  lemma CompletedSteps(task: string, summary: Json, steps: seq<Json>, s: State)
    requires |steps| == 5
    ensures Get(CompletedResults(task, summary, steps, s.context, s.history), "steps") == StepsJson(steps)
  {
    LookupFirst(CompletedResults(task, summary, steps, s.context, s.history).fields, 3);
  }

  lemma StepsReported(steps: seq<Json>)
    requires |steps| == 5
    ensures Get(StepsJson(steps), "step4_review") == steps[3] && Get(StepsJson(steps), "step5_refinement") == steps[4]
    ensures forall i :: 0 <= i < 5 ==> Get(StepsJson(steps), StepKeys[i]) == steps[i]
  {
    var f := StepsJson(steps).fields;
    forall i | 0 <= i < 5 ensures Get(StepsJson(steps), StepKeys[i]) == steps[i] {
      assert f[i] == (StepKeys[i], steps[i]);
      LookupFirst(f, i);
    }
  }

  /** A run that raises after `n` records and `m` stored results reports that state. */
  lemma FailedTrace(task: string, initial: Json, past: seq<HistoryEntry>, s: State, n: nat, m: nat, e: PyError)
    requires Progress(task, initial, past, s, n, m)
    ensures var o := Failed(task, s, e);
            Reports(o) && Trace(task, initial, past, o) && !Completed(o)
  {
    FailedReports(task, s, e);
  }

  /** The summary, after `n` records and `m` stored results. */
  lemma SummarizeTrace(crew: Crew, task: string, initial: Json, past: seq<HistoryEntry>, s: State, n: nat, m: nat,
                       steps: seq<Json>)
    requires |steps| == 5 && Progress(task, initial, past, s, n, m) && Outputs(past, s.history, steps)
    ensures var o := Summarize(crew, task, s, steps);
            Reports(o) && Trace(task, initial, past, o) && o.context == s.context && Summarized(crew, o)
            && (Completed(o) ==> |o.context| == 4 + m && |o.history| == |past| + n
                                 && Reported(o, "step4_review") == steps[3] && Reported(o, "step5_refinement") == steps[4]
                                 && forall i :: 0 <= i < 5 ==> o.history[|past|..][i].result == Reported(o, StepKeys[i]))
  {
    SummarizeReports(crew, task, s, steps);
  }

  /** Recording an output alone appends the next step record and leaves the context. */
  lemma RecordProgress(task: string, initial: Json, past: seq<HistoryEntry>, s: State, n: nat, m: nat, output: Json)
    requires n < |StepNames| && Progress(task, initial, past, s, n, m)
    ensures Progress(task, initial, past, State(s.context, s.history + [EntryFor(StepNames[n], output)]), n + 1, m)
  {
    var h := s.history + [EntryFor(StepNames[n], output)];
    assert h[..|past|] == s.history[..|past|];
    assert h[|past|..] == s.history[|past|..] + [EntryFor(StepNames[n], output)];
    assert EntryFor(StepNames[n], output).step == StepNames[n];
    assert StepNames[..n + 1] == StepNames[..n] + [StepNames[n]];
  }

  /** Without issues, step 5 is the fixed record, which names no agent. */
  lemma NoRefinementUnknown()
    ensures EntryFor("Step 5", NoRefinement) == HistoryEntry("Step 5", JStr("Unknown"), NoRefinement)
  {
  }

  /** Refinement stores its result as the last context key and, with the final review,
      adds the last two records. */
  lemma RefinementOutcome(crew: Crew, pyRepr: Json -> string, task: string, initial: Json, past: seq<HistoryEntry>,
                          s4: State, steps: seq<Json>)
    requires |steps| == 4 && Progress(task, initial, past, s4, 4, 4) && Outputs(past, s4.history, steps)
    ensures var o := Refinement(crew, pyRepr, task, s4, steps);
            Reports(o) && Trace(task, initial, past, o) && Summarized(crew, o)
            && (Completed(o) ==> Reported(o, "step4_review") == steps[3] && |o.context| == 9 && |o.history| == |past| + 6
                                 && Lookup(JObj(o.context), "refined_deliverables")
                                    == Some(Get(Reported(o, "step5_refinement"), "result"))
                                 && forall i :: 0 <= i < 5 ==> o.history[|past|..][i].result == Reported(o, StepKeys[i]))
  {
    var o5 := crew.refiner(task, RefineContext(pyRepr, s4.context));
    RanProgress(task, initial, past, s4, 4, o5);
    match Ran(s4, "refined_deliverables", "Step 5", o5) {
      case Err(e) => FailedTrace(task, initial, past, s4, 4, 4, e);
      case Ok(s5) =>
        OutputsStep(past, s4.history, steps, EntryFor("Step 5", o5.value));
        FinalReviewOutcome(crew, pyRepr, task, initial, past, s5, steps + [o5.value]);
        StoredLast(s4, o5.value);
    }
  }

  /** The refined result goes in under a key the context does not have yet, so a lookup
      of that key finds it. */
  lemma StoredLast(s4: State, output: Json)
    requires Keys(s4.context) == ContextKeys[..8]
    requires Ran(s4, "refined_deliverables", "Step 5", Ok(output)).Ok?
    ensures Lookup(JObj(Ran(s4, "refined_deliverables", "Step 5", Ok(output)).value.context), "refined_deliverables")
            == Some(Get(output, "result"))
  {
    FreshKey(s4.context, 4);
    var v := Lookup(output, "result").value;
    var c := s4.context + [("refined_deliverables", v)];
    assert Ran(s4, "refined_deliverables", "Step 5", Ok(output)).value.context == c;
    LookupFirst(c, |s4.context|);
  }

  lemma FinalReviewOutcome(crew: Crew, pyRepr: Json -> string, task: string, initial: Json, past: seq<HistoryEntry>,
                           s5: State, steps: seq<Json>)
    requires |steps| == 5 && Progress(task, initial, past, s5, 5, 5) && Outputs(past, s5.history, steps)
    ensures var o := FinalReview(crew, pyRepr, task, s5, steps);
            Reports(o) && Trace(task, initial, past, o) && Summarized(crew, o)
            && (Completed(o) ==> Reported(o, "step4_review") == steps[3] && |o.context| == 9 && |o.history| == |past| + 6
                                 && o.context == s5.context && Reported(o, "step5_refinement") == steps[4]
                                 && forall i :: 0 <= i < 5 ==> o.history[|past|..][i].result == Reported(o, StepKeys[i]))
  {
    match crew.reviewer(task, ReviewContext(pyRepr, s5.context)) {
      case Err(e) => FailedTrace(task, initial, past, s5, 5, 5, e);
      case Ok(fr) =>
        match Recorded(s5, "Final Review", fr) {
          case Err(e) => FailedTrace(task, initial, past, s5, 5, 5, e);
          case Ok(s6) =>
            RecordProgress(task, initial, past, s5, 5, 5, fr);
            OutputsKept(past, s5.history, steps, EntryFor("Final Review", fr));
            SummarizeTrace(crew, task, initial, past, s6, 6, 5, steps);
        }
    }
  }

  /** From the issue check on: refinement and the final review run exactly when the
      review reads as finding issues; without them step 5 is the fixed record. */
  lemma AfterReviewOutcome(crew: Crew, pyRepr: Json -> string, task: string, initial: Json, past: seq<HistoryEntry>,
                           s4: State, steps: seq<Json>)
    requires |steps| == 4 && Progress(task, initial, past, s4, 4, 4) && Outputs(past, s4.history, steps)
    ensures var o := AfterReview(crew, pyRepr, task, s4, steps);
            Reports(o) && Trace(task, initial, past, o) && Concluded(pyRepr, past, o) && Summarized(crew, o)
            && (Completed(o) ==> Reported(o, "step4_review") == steps[3])
  {
    if HasIssues(ReviewText(pyRepr, steps[3])) {
      RefinementOutcome(crew, pyRepr, task, initial, past, s4, steps);
    } else {
      var s5 := State(s4.context, s4.history + [EntryFor("Step 5", NoRefinement)]);
      FreshKey(s4.context, 4);
      RecordProgress(task, initial, past, s4, 4, 4, NoRefinement);
      OutputsStep(past, s4.history, steps, EntryFor("Step 5", NoRefinement));
      NoRefinementUnknown();
      SummarizeTrace(crew, task, initial, past, s5, 5, 4, steps + [NoRefinement]);
    }
  }

  /** Step 3, and the rest. */
  lemma AfterResearchOutcome(crew: Crew, pyRepr: Json -> string, task: string, initial: Json, past: seq<HistoryEntry>,
                             s2: State, steps: seq<Json>)
    requires |steps| == 2 && Progress(task, initial, past, s2, 2, 2) && Outputs(past, s2.history, steps)
    ensures var o := AfterResearch(crew, pyRepr, task, s2, steps);
            Reports(o) && Trace(task, initial, past, o) && Concluded(pyRepr, past, o) && Summarized(crew, o)
  {
    var o3 := crew.executor(task, ExecutionContext(s2.context));
    RanProgress(task, initial, past, s2, 2, o3);
    match Ran(s2, "deliverables", "Step 3", o3) {
      case Err(e) => FailedTrace(task, initial, past, s2, 2, 2, e);
      case Ok(s3) =>
        OutputsStep(past, s2.history, steps, EntryFor("Step 3", o3.value));
        AfterExecutionOutcome(crew, pyRepr, task, initial, past, s3, steps + [o3.value]);
    }
  }

  /** Step 4, and the rest. */
  lemma AfterExecutionOutcome(crew: Crew, pyRepr: Json -> string, task: string, initial: Json, past: seq<HistoryEntry>,
                              s3: State, steps: seq<Json>)
    requires |steps| == 3 && Progress(task, initial, past, s3, 3, 3) && Outputs(past, s3.history, steps)
    ensures var o := AfterExecution(crew, pyRepr, task, s3, steps);
            Reports(o) && Trace(task, initial, past, o) && Concluded(pyRepr, past, o) && Summarized(crew, o)
  {
    var o4 := crew.reviewer(task, ReviewContext(pyRepr, s3.context));
    RanProgress(task, initial, past, s3, 3, o4);
    match Ran(s3, "review", "Step 4", o4) {
      case Err(e) => FailedTrace(task, initial, past, s3, 3, 3, e);
      case Ok(s4) =>
        OutputsStep(past, s3.history, steps, EntryFor("Step 4", o4.value));
        AfterReviewOutcome(crew, pyRepr, task, initial, past, s4, steps + [o4.value]);
    }
  }

  /** Every run of `execute_workflow` reports the context and history it leaves.  The
      history is the one it started with plus one record per step that ran, in order,
      each naming the agent its output names; the context is the reset one plus, per
      step that stored a result, the `result` of that step's recorded output, in order.
      A completed run went through all the steps, its first five new records hold the
      five outputs it reports, and refinement ran exactly when the review found issues. */
  lemma ExecuteOutcome(crew: Crew, pyRepr: Json -> string, task: string, initial: Json, past: seq<HistoryEntry>)
    ensures var o := Execute(crew, pyRepr, task, initial, past);
            Reports(o) && Trace(task, initial, past, o) && Concluded(pyRepr, past, o) && Summarized(crew, o)
  {
    var s0 := State(InitialContext(task, initial), past);
    assert Progress(task, initial, past, s0, 0, 0) by {
      assert s0.history[|past|..] == [];
      assert s0.context[..4] == s0.context;
    }
    var o1 := crew.planner(task, Fetched(s0.context, "initial_context"));
    RanProgress(task, initial, past, s0, 0, o1);
    match Ran(s0, "plan", "Step 1", o1) {
      case Err(e) => FailedTrace(task, initial, past, s0, 0, 0, e);
      case Ok(s1) =>
        OutputsStep(past, s0.history, [], EntryFor("Step 1", o1.value));
        AfterPlanOutcome(crew, pyRepr, task, initial, past, s1, [o1.value]);
    }
  }

  /** Step 2, and the rest. */
  lemma AfterPlanOutcome(crew: Crew, pyRepr: Json -> string, task: string, initial: Json, past: seq<HistoryEntry>,
                         s1: State, steps: seq<Json>)
    requires |steps| == 1 && Progress(task, initial, past, s1, 1, 1) && Outputs(past, s1.history, steps)
    ensures var o := AfterPlan(crew, pyRepr, task, s1, steps);
            Reports(o) && Trace(task, initial, past, o) && Concluded(pyRepr, past, o) && Summarized(crew, o)
  {
    var o2 := crew.researcher(task, ResearchContext(pyRepr, s1.context, task));
    RanProgress(task, initial, past, s1, 1, o2);
    match Ran(s1, "research", "Step 2", o2) {
      case Err(e) => FailedTrace(task, initial, past, s1, 1, 1, e);
      case Ok(s2) =>
        OutputsStep(past, s1.history, steps, EntryFor("Step 2", o2.value));
        AfterResearchOutcome(crew, pyRepr, task, initial, past, s2, steps + [o2.value]);
    }
  }

  // ----- agents that always answer -----

  /** With agents that always answer, a run from the summary on completes. */
  lemma SummarizeCompletes(crew: Crew, task: string, s: State, steps: seq<Json>)
    requires |steps| == 5 && Cooperative(crew)
    ensures Completed(Summarize(crew, task, s, steps))
  {
    SummarizeReports(crew, task, s, steps);
  }

  lemma FinalReviewCompletes(crew: Crew, pyRepr: Json -> string, task: string, s5: State, steps: seq<Json>)
    requires |steps| == 5 && Cooperative(crew)
    ensures Completed(FinalReview(crew, pyRepr, task, s5, steps))
  {
    var fr := crew.reviewer(task, ReviewContext(pyRepr, s5.context));
    assert Answers(fr);
    SummarizeCompletes(crew, task, Recorded(s5, "Final Review", fr.value).value, steps);
  }

  lemma RefinementCompletes(crew: Crew, pyRepr: Json -> string, task: string, s4: State, steps: seq<Json>)
    requires |steps| == 4 && Cooperative(crew)
    ensures Completed(Refinement(crew, pyRepr, task, s4, steps))
  {
    var o5 := crew.refiner(task, RefineContext(pyRepr, s4.context));
    assert Answers(o5);
    FinalReviewCompletes(crew, pyRepr, task, Ran(s4, "refined_deliverables", "Step 5", o5).value, steps + [o5.value]);
  }

  lemma AfterReviewCompletes(crew: Crew, pyRepr: Json -> string, task: string, s4: State, steps: seq<Json>)
    requires |steps| == 4 && Cooperative(crew)
    ensures Completed(AfterReview(crew, pyRepr, task, s4, steps))
  {
    if HasIssues(ReviewText(pyRepr, steps[3])) {
      RefinementCompletes(crew, pyRepr, task, s4, steps);
    } else {
      SummarizeCompletes(crew, task, State(s4.context, s4.history + [EntryFor("Step 5", NoRefinement)]), steps + [NoRefinement]);
    }
  }

  lemma AfterExecutionCompletes(crew: Crew, pyRepr: Json -> string, task: string, s3: State, steps: seq<Json>)
    requires |steps| == 3 && Cooperative(crew)
    ensures Completed(AfterExecution(crew, pyRepr, task, s3, steps))
  {
    var o4 := crew.reviewer(task, ReviewContext(pyRepr, s3.context));
    assert Answers(o4);
    AfterReviewCompletes(crew, pyRepr, task, Ran(s3, "review", "Step 4", o4).value, steps + [o4.value]);
  }

  lemma AfterResearchCompletes(crew: Crew, pyRepr: Json -> string, task: string, s2: State, steps: seq<Json>)
    requires |steps| == 2 && Cooperative(crew)
    ensures Completed(AfterResearch(crew, pyRepr, task, s2, steps))
  {
    var o3 := crew.executor(task, ExecutionContext(s2.context));
    assert Answers(o3);
    AfterExecutionCompletes(crew, pyRepr, task, Ran(s2, "deliverables", "Step 3", o3).value, steps + [o3.value]);
  }

  lemma AfterPlanCompletes(crew: Crew, pyRepr: Json -> string, task: string, s1: State, steps: seq<Json>)
    requires |steps| == 1 && Cooperative(crew)
    ensures Completed(AfterPlan(crew, pyRepr, task, s1, steps))
  {
    var o2 := crew.researcher(task, ResearchContext(pyRepr, s1.context, task));
    assert Answers(o2);
    AfterResearchCompletes(crew, pyRepr, task, Ran(s1, "research", "Step 2", o2).value, steps + [o2.value]);
  }

  /** With agents that always answer, a run on an initial context the planner can read
      completes. */
  lemma ExecuteCompletes(crew: Crew, pyRepr: Json -> string, task: string, initial: Json, past: seq<HistoryEntry>)
    requires Cooperative(crew) && Readable(initial)
    ensures Completed(Execute(crew, pyRepr, task, initial, past))
  {
    var s0 := State(InitialContext(task, initial), past);
    LookupFirst(s0.context, 1);
    var o1 := crew.planner(task, Fetched(s0.context, "initial_context"));
    assert Answers(o1);
    AfterPlanCompletes(crew, pyRepr, task, Ran(s0, "plan", "Step 1", o1).value, [o1.value]);
  }

  /** The agents `WorkflowOrchestrator()` builds answer every readable context with a
      storable reply as long as the model always answers. */
  lemma StandardCrewCooperative(pyRepr: Json -> string, llm: Llm)
    requires forall p :: llm(p).Ok?
    ensures Cooperative(StandardCrew(pyRepr, llm))
  {
    var crew := StandardCrew(pyRepr, llm);
    forall task, c | Readable(c) ensures Answers(crew.planner(task, c)) {
      AnswerShape(Planner, llm(PlanPrompt(task, ContextText(pyRepr, c).value)), "plan", 1);
    }
    forall task, c | Readable(c) ensures Answers(crew.researcher(task, c)) {
      AnswerShape(Researcher, llm(ResearchPrompt(Fetch(c, "plan", NoPlan), Fetch(c, "information_needs", GeneralResearch), task)),
                  "research", 2);
    }
    forall task, c | Readable(c) ensures Answers(crew.executor(task, c)) {
      AnswerShape(Executor, llm(ExecutionPrompt(task, Fetch(c, "plan", NoPlan), Fetch(c, "research", NoResearch))),
                  "deliverables", 3);
    }
    forall task, c | Readable(c) ensures Answers(crew.reviewer(task, c)) {
      AnswerShape(Reviewer, llm(ReviewPrompt(task, Fetch(c, "plan", NoPlan), Fetch(c, "success_criteria", PlanObjectives),
                                             Fetch(c, "deliverables", NoDeliverables))), "review", 4);
    }
  }

  /** End to end: an orchestrator with its own agents, asked to run on a context the
      planner can read, completes whenever the model always answers. */
  lemma StandardRunCompletes(pyRepr: Json -> string, llm: Llm, task: string, initial: Json, past: seq<HistoryEntry>)
    requires forall p :: llm(p).Ok?
    requires Readable(initial)
    ensures Completed(Execute(StandardCrew(pyRepr, llm), pyRepr, task, initial, past))
  {
    StandardCrewCooperative(pyRepr, llm);
    ExecuteCompletes(StandardCrew(pyRepr, llm), pyRepr, task, initial, past);
  }

  /** With the orchestrator's own agents, a completed run's `summary` is the model's
      answer to the summary prompt over the context the run reports; so a run whose
      summary call raises does not complete. */
  lemma StandardSummary(pyRepr: Json -> string, llm: Llm, task: string, initial: Json, past: seq<HistoryEntry>)
    ensures var o := Execute(StandardCrew(pyRepr, llm), pyRepr, task, initial, past);
            Completed(o) ==> llm(SummaryPrompt(JObj(o.context))).Ok?
                             && Lookup(o.results, "summary") == Some(llm(SummaryPrompt(JObj(o.context))).value)
  {
    ExecuteOutcome(StandardCrew(pyRepr, llm), pyRepr, task, initial, past);
  }

  /** What `execute_workflow(task, initial_context)` returns on a freshly built
      orchestrator with agents `crew`: the callers that build one per request see a
      run only through this. */
  function FreshRun(crew: Crew, pyRepr: Json -> string): (string, Json) -> Json {
    (task: string, initial: Json) => Execute(crew, pyRepr, task, initial, []).results
  }

  /** What building an orchestrator and running the workflow on it gives while the
      stored key is `key`: the agents reject a missing or blank key, and otherwise the
      run returns `run(task, initial)`. */
  function Launched(key: Option<string>, run: (string, Json) -> Json, task: string, initial: Json)
    : (r: Result<Json, PyError>)
    ensures r.Ok? <==> key.Some? && PyStrip(key.value) != []
    ensures r.Err? ==> r.error == ValueError(KeyNotSetMessage)
  {
    if key.Some? && PyStrip(key.value) != [] then Ok(run(task, initial)) else Err(ValueError(KeyNotSetMessage))
  }

  /** `WorkflowOrchestrator().execute_workflow(task, initial)`, as both entry points do it. */
  method RunFresh(config: Config, pyRepr: Json -> string, llm: Llm, task: string, initial: Json)
    returns (r: Result<Json, PyError>)
    modifies config
    ensures r == Launched(old(config.apiKey), FreshRun(StandardCrew(pyRepr, llm), pyRepr), task, initial)
    ensures config.apiKey == KeyAfterValidate(old(config.apiKey))
  {
    var o := NewOrchestrator(config, pyRepr, llm);
    if o.Err? {
      return Err(o.error);
    }
    var results := o.value.ExecuteWorkflow(pyRepr, task, initial);
    r := Ok(results);
  }

  /** A fresh run with agents that always answer, on a readable initial context, completes. */
  lemma FreshRunCompletes(crew: Crew, pyRepr: Json -> string, task: string, initial: Json)
    requires Cooperative(crew) && Readable(initial)
    ensures Lookup(FreshRun(crew, pyRepr)(task, initial), "status") == Some(JStr("completed"))
  {
    ExecuteCompletes(crew, pyRepr, task, initial, []);
  }

  /** The review after refinement is handed the refined result as the deliverables
      whenever it is truthy, and the step 3 deliverables otherwise. */
  lemma RefinedReviewed(task: string, initial: Json, past: seq<HistoryEntry>, pyRepr: Json -> string, s4: State,
                        o5: Result<Json, PyError>)
    requires Progress(task, initial, past, s4, 4, 4) && Ran(s4, "refined_deliverables", "Step 5", o5).Ok?
    ensures var refined := Lookup(o5.value, "result").value;
            var brief := ReviewContext(pyRepr, Ran(s4, "refined_deliverables", "Step 5", o5).value.context);
            Lookup(brief, "deliverables") == Some(if PyTruthy(refined) then refined else Fetched(s4.context, "deliverables"))
  {
    var c := s4.context;
    var c5 := Ran(s4, "refined_deliverables", "Step 5", o5).value.context;
    FreshKey(c, 4);
    assert c5 == c + [("refined_deliverables", Lookup(o5.value, "result").value)];
    LookupFirst(c5, 8);
    assert Keys(c)[6] == "deliverables";
    forall j | 0 <= j < 6 ensures c[j].0 != c[6].0 {
      assert c[j].0 == Keys(c)[j];
      ContextKeysDistinct(j, 6);
    }
    LookupFirst(c, 6);
    LookupFirst(c5, 6);
    ReviewUsesRefined(pyRepr, c5);
  }
}
