/**
  agents.py: the seven agents of the workflow, what each one asks the model and how it
  packs the answer.  The text of every prompt is left out; a `Prompt` holds the values
  the prompt interpolates, so the model states which values reach the model and where
  they come from.  The model itself is a parameter `llm`: the agent's `call_llm` with
  its instructions, including every exception `call_llm` raises.
 */
module Agents {
  import opened Wrappers
  import opened Text
  import opened JsonValue
  import opened PyRuntime
  import opened BaseAgents

  datatype Role = Orchestrator | Planner | Researcher | Executor | Reviewer | Refiner | Communicator

  /** The name and role each agent class passes to `BaseAgent.__init__`. */
  function Identity(role: Role): (a: Agent) {
    match role
    case Orchestrator => Agent("Orchestrator", "Master Controller")
    case Planner => Agent("Planning Agent", "Step 1 Specialist")
    case Researcher => Agent("Research Agent", "Step 2 Specialist")
    case Executor => Agent("Execution Agent", "Step 3 Specialist")
    case Reviewer => Agent("Quality Assurance Agent", "Step 4 Specialist")
    case Refiner => Agent("Refinement Agent", "Step 5 Specialist")
    case Communicator => Agent("Communication Agent", "Documentation Specialist")
  }

  /** Output of different agents can be told apart by its `agent` field. */
  lemma IdentityNamesDistinct(a: Role, b: Role)
    requires a != b
    ensures Identity(a).name != Identity(b).name
  {
  }

  /** The values each prompt interpolates. */
  datatype Prompt =
    | InitPrompt(task: string, context: Json)
    | PlanPrompt(task: string, contextText: string)
    | ResearchPrompt(plan: Json, informationNeeds: Json, task: string)
    | ExecutionPrompt(task: string, plan: Json, research: Json)
    | ReviewPrompt(task: string, plan: Json, successCriteria: Json, deliverables: Json)
    | RefinePrompt(task: string, deliverables: Json, review: Json, issues: Json)
    | SummaryPrompt(results: Json)

  /** `call_llm(prompt)` of the agent that builds the prompt. */
  type Llm = Prompt -> Result<Json, PyError>

  // ----- OrchestratorAgent.initialize_task (agents.py:27-68) -----

  /** `s.split("```")[0]`: the text before the first fence. */
  function UpToFence(s: string): (r: string)
    ensures |r| <= |s| && r == s[..|r|]
    ensures !Contains(r, Fence)
  {
    match IndexOf(s, Fence)
    case None => s
    case Some(k) => NoEarlierOccurrence(s, Fence, k); s[..k]
  }

  /** The text `initialize_task` hands to `json.loads`: the inside of the first
      "```json" block, else of the first "```" block, else the whole answer, stripped. */
  function JsonSlice(response: string): (r: string)
    ensures Trimmed(Py, r)
    ensures Contains(response, Fence) ==> !Contains(r, Fence)
  {
    TrimShape(Py, response);
    match IndexOf(response, JsonFence)
    case Some(k) =>
      var inner := UpToFence(response[k + |JsonFence|..]);
      TrimShape(Py, inner);
      TrimKeepsAbsence(Py, inner, Fence);
      PyStrip(inner)
    case None =>
      match IndexOf(response, Fence)
      case Some(k) =>
        var inner := UpToFence(response[k + |Fence|..]);
        TrimShape(Py, inner);
        TrimKeepsAbsence(Py, inner, Fence);
        PyStrip(inner)
      case None => PyStrip(response)
  }

  /** A "```json" block after plain text yields exactly its stripped contents. */
  lemma JsonSliceFenced(pre: string, body: string, post: string)
    requires NoBacktick(pre) && NoBacktick(body)
    ensures JsonSlice(pre + JsonFence + body + Fence + post) == PyStrip(body)
  {
    var s := pre + JsonFence + body + Fence + post;
    assert s == pre + JsonFence + (body + Fence + post);
    FoundAfterPlainText(pre, JsonFence, body + Fence + post);
    assert s[|pre| + |JsonFence|..] == body + Fence + post;
    FoundAfterPlainText(body, Fence, post);
    assert (body + Fence + post)[..|body|] == body;
  }

  /** An answer without any fence is parsed whole, stripped. */
  lemma JsonSliceUnfenced(response: string)
    requires !Contains(response, Fence)
    ensures JsonSlice(response) == PyStrip(response)
  {
    if Contains(response, JsonFence) {
      var k := IndexOf(response, JsonFence).value;
      assert response[k..k + 3] == response[k..k + |JsonFence|][..3];
      ContainsAt(response, Fence, k);
    }
  }

  /** The plan `initialize_task` keeps: the parsed JSON, or the raw answer wrapped as
      `{"raw_response": ...}` when the answer is not text or does not parse. */
  function PlanFrom(parse: string -> Option<Json>, response: Json): (plan: Json)
    ensures response.JStr? && parse(JsonSlice(response.s)).Some? ==> plan == parse(JsonSlice(response.s)).value
    ensures !(response.JStr? && parse(JsonSlice(response.s)).Some?) ==> plan == JObj([("raw_response", response)])
  {
    match response
    case JStr(s) =>
      (match parse(JsonSlice(s))
       case Some(p) => p
       case None => JObj([("raw_response", response)]))
    case _ => JObj([("raw_response", response)])
  }

  /** `initialize_task(task_description, context)`. */
  function InitializeTask(parse: string -> Option<Json>, llm: Llm, task: string, context: Json): (r: Result<Json, PyError>)
    ensures var reply := llm(InitPrompt(task, if PyTruthy(context) then context else JStr("None provided")));
            (reply.Err? ==> r == Err(reply.error))
            && (reply.Ok? ==> r.Ok? && Lookup(r.value, "result") == Some(PlanFrom(parse, reply.value))
                              && Lookup(r.value, "agent") == Some(JStr("Orchestrator")))
  {
    match llm(InitPrompt(task, if PyTruthy(context) then context else JStr("None provided")))
    case Err(e) => Err(e)
    case Ok(response) => Ok(FormatOutput(Identity(Orchestrator), PlanFrom(parse, response)))
  }

  /** A fenced JSON plan in the answer is the plan the orchestrator reports. */
  lemma InitializeTaskFenced(parse: string -> Option<Json>, llm: Llm, task: string, context: Json,
                             pre: string, body: string, post: string)
    requires llm(InitPrompt(task, if PyTruthy(context) then context else JStr("None provided")))
             == Ok(JStr(pre + JsonFence + body + Fence + post))
    requires NoBacktick(pre) && NoBacktick(body) && parse(PyStrip(body)).Some?
    ensures InitializeTask(parse, llm, task, context).Ok?
    ensures Lookup(InitializeTask(parse, llm, task, context).value, "result") == parse(PyStrip(body))
  {
    JsonSliceFenced(pre, body, post);
  }

  // ----- PlanningAgent._format_context (agents.py:126-134) -----

  /** One line `- {key}: {value}` of the context block. */
  function ContextLine(pyRepr: Json -> string, entry: (string, Json)): string {
    "- " + entry.0 + ": " + PyStr(pyRepr, entry.1) + "\n"
  }

  /** The lines of `entries`, in order. */
  function ContextLines(pyRepr: Json -> string, entries: seq<(string, Json)>): string
    decreases |entries|
  {
    if entries == [] then ""
    else ContextLines(pyRepr, entries[..|entries| - 1]) + ContextLine(pyRepr, entries[|entries| - 1])
  }

  const NoContextText := "No additional context provided."
  const ContextHeader := "Additional Context:\n"

  /** What `_format_context(context)` returns or raises. */
  function ContextText(pyRepr: Json -> string, context: Json): Result<string, PyError> {
    if !PyTruthy(context) then Ok(NoContextText)
    else if context.JObj? then Ok(ContextHeader + ContextLines(pyRepr, context.fields))
    else Err(NoAttribute(context, "items"))
  }

  /** `_format_context`: the loop over `context.items()`. */
  method FormatContext(pyRepr: Json -> string, context: Json) returns (r: Result<string, PyError>)
    ensures r == ContextText(pyRepr, context)
  {
    if !PyTruthy(context) {
      return Ok(NoContextText);
    }
    if !context.JObj? {
      return Err(NoAttribute(context, "items"));
    }
    var entries := context.fields;
    var text := ContextHeader;
    var i := 0;
    while i < |entries|
      invariant 0 <= i <= |entries|
      invariant text == ContextHeader + ContextLines(pyRepr, entries[..i])
    {
      ContextBlockStep(pyRepr, entries, i, text);
      text := text + ContextLine(pyRepr, entries[i]);
      i := i + 1;
    }
    assert entries[..i] == entries;
    r := Ok(text);
  }

  lemma ContextLinesStep(pyRepr: Json -> string, entries: seq<(string, Json)>, i: nat)
    requires i < |entries|
    ensures ContextLines(pyRepr, entries[..i + 1]) == ContextLines(pyRepr, entries[..i]) + ContextLine(pyRepr, entries[i])
  {
    assert entries[..i + 1][..i] == entries[..i];
  }

  /** One more line of the block built by `FormatContext`. */
  lemma ContextBlockStep(pyRepr: Json -> string, entries: seq<(string, Json)>, i: nat, text: string)
    requires i < |entries| && text == ContextHeader + ContextLines(pyRepr, entries[..i])
    ensures text + ContextLine(pyRepr, entries[i]) == ContextHeader + ContextLines(pyRepr, entries[..i + 1])
  {
    ContextLinesStep(pyRepr, entries, i);
    AppendAssoc(ContextHeader, ContextLines(pyRepr, entries[..i]), ContextLine(pyRepr, entries[i]));
  }

  /** The lines of a prefix of the entries begin the lines of all of them. */
  lemma {:induction false} ContextLinesPrefix(pyRepr: Json -> string, entries: seq<(string, Json)>, j: nat)
    requires j <= |entries|
    ensures StartsWith(ContextLines(pyRepr, entries), ContextLines(pyRepr, entries[..j]))
    decreases |entries| - j
  {
    if j == |entries| {
      assert entries[..j] == entries;
    } else {
      ContextLinesPrefix(pyRepr, entries, j + 1);
      ContextLinesStep(pyRepr, entries, j);
      var head := ContextLines(pyRepr, entries[..j]);
      var all := ContextLines(pyRepr, entries);
      assert all[..|head|] == (head + ContextLine(pyRepr, entries[j]))[..|head|];
    }
  }

  /** Every entry of a non-empty context dict has its line in the context block. */
  lemma ContextShowsEveryEntry(pyRepr: Json -> string, context: Json, i: nat)
    requires context.JObj? && i < |context.fields|
    ensures ContextText(pyRepr, context).Ok?
    ensures Contains(ContextText(pyRepr, context).value, ContextLine(pyRepr, context.fields[i]))
  {
    var entries := context.fields;
    var all := ContextLines(pyRepr, entries);
    ContextLinesPrefix(pyRepr, entries, i + 1);
    ContextLinesStep(pyRepr, entries, i);
    assert ContextText(pyRepr, context) == Ok(ContextHeader + all);
    ContainsAfterPrefix(ContextHeader, all, ContextLines(pyRepr, entries[..i]), ContextLine(pyRepr, entries[i]));
  }

  // ----- the step agents' `process` (agents.py:87-382) -----

  /** `context.get(key, default) if context else default`, when it does not raise. */
  function Fetch(context: Json, key: string, default: string): Json {
    match Lookup(context, key)
    case Some(v) => if PyTruthy(context) then v else JStr(default)
    case None => JStr(default)
  }

  /** `context.get(key, default) if context else default`. */
  function ContextGet(context: Json, key: string, default: string): (r: Result<Json, PyError>)
    ensures r.Err? <==> PyTruthy(context) && !context.JObj?
    ensures r.Err? ==> r.error == NoAttribute(context, "get")
    ensures r.Ok? ==> r.value == Fetch(context, key, default)
  {
    if PyTruthy(context) then PyGet(context, key, JStr(default)) else Ok(JStr(default))
  }

  /** A context the step agents can read: empty, or a dict. */
  predicate Readable(context: Json) {
    !PyTruthy(context) || context.JObj?
  }

  /** The `result` dict a step agent formats: the answer under the step's key and the
      step number. */
  function StepFields(key: string, response: Json, step: int): seq<(string, Json)> {
    [(key, response), ("step", JNum(step))]
  }

  /** What a step agent returns for a model reply. */
  function Answer(role: Role, reply: Result<Json, PyError>, key: string, step: int): Result<Json, PyError> {
    match reply
    case Err(e) => Err(e)
    case Ok(response) => Ok(FormatOutput(Identity(role), JObj(StepFields(key, response, step))))
  }

  /** A successful step output names its agent and holds the answer under its key. */
  lemma AnswerShape(role: Role, reply: Result<Json, PyError>, key: string, step: int)
    requires key != "step"
    ensures Answer(role, reply, key, step).Ok? <==> reply.Ok?
    ensures reply.Err? ==> Answer(role, reply, key, step) == Err(reply.error)
    ensures reply.Ok? ==>
              var out := Answer(role, reply, key, step).value;
              Lookup(out, "agent") == Some(JStr(Identity(role).name))
              && Lookup(out, "status") == Some(JStr("completed"))
              && Lookup(Lookup(out, "result").value, key) == Some(reply.value)
              && Lookup(Lookup(out, "result").value, "step") == Some(JNum(step))
  {
    if reply.Ok? {
      LookupFirst(StepFields(key, reply.value, step), 0);
      LookupFirst(StepFields(key, reply.value, step), 1);
    }
  }

  /** `PlanningAgent.process(task, context)`. */
  function PlanProcess(pyRepr: Json -> string, llm: Llm, task: string, context: Json): (r: Result<Json, PyError>)
    ensures Readable(context) ==>
              r == Answer(Planner, llm(PlanPrompt(task, ContextText(pyRepr, context).value)), "plan", 1)
    ensures !Readable(context) ==> r == Err(NoAttribute(context, "items"))
  {
    match ContextText(pyRepr, context)
    case Err(e) => Err(e)
    case Ok(text) => Answer(Planner, llm(PlanPrompt(task, text)), "plan", 1)
  }

  const NoPlan := "No plan provided"
  const GeneralResearch := "General research needed"
  const NoResearch := "No research provided"
  const NoDeliverables := "No deliverables provided"
  const PlanObjectives := "Check against plan objectives"
  const NoReview := "No review provided"
  const NoIssues := "No specific issues identified"

  /** `ResearchAgent.process(task, context)`. */
  function ResearchProcess(llm: Llm, task: string, context: Json): (r: Result<Json, PyError>)
    ensures Readable(context) ==>
              r == Answer(Researcher, llm(ResearchPrompt(Fetch(context, "plan", NoPlan),
                                                         Fetch(context, "information_needs", GeneralResearch), task)),
                          "research", 2)
    ensures !Readable(context) ==> r == Err(NoAttribute(context, "get"))
  {
    match ContextGet(context, "plan", NoPlan)
    case Err(e) => Err(e)
    case Ok(plan) =>
      match ContextGet(context, "information_needs", GeneralResearch)
      case Err(e) => Err(e)
      case Ok(needs) => Answer(Researcher, llm(ResearchPrompt(plan, needs, task)), "research", 2)
  }

  /** `ExecutionAgent.process(task, context)`. */
  function ExecutionProcess(llm: Llm, task: string, context: Json): (r: Result<Json, PyError>)
    ensures Readable(context) ==>
              r == Answer(Executor, llm(ExecutionPrompt(task, Fetch(context, "plan", NoPlan),
                                                        Fetch(context, "research", NoResearch))),
                          "deliverables", 3)
    ensures !Readable(context) ==> r == Err(NoAttribute(context, "get"))
  {
    match ContextGet(context, "plan", NoPlan)
    case Err(e) => Err(e)
    case Ok(plan) =>
      match ContextGet(context, "research", NoResearch)
      case Err(e) => Err(e)
      case Ok(research) => Answer(Executor, llm(ExecutionPrompt(task, plan, research)), "deliverables", 3)
  }

  /** `QualityAssuranceAgent.process(task, context)`. */
  function ReviewProcess(llm: Llm, task: string, context: Json): (r: Result<Json, PyError>)
    ensures Readable(context) ==>
              r == Answer(Reviewer, llm(ReviewPrompt(task, Fetch(context, "plan", NoPlan),
                                                     Fetch(context, "success_criteria", PlanObjectives),
                                                     Fetch(context, "deliverables", NoDeliverables))),
                          "review", 4)
    ensures !Readable(context) ==> r == Err(NoAttribute(context, "get"))
  {
    match ContextGet(context, "plan", NoPlan)
    case Err(e) => Err(e)
    case Ok(plan) =>
      match ContextGet(context, "deliverables", NoDeliverables)
      case Err(e) => Err(e)
      case Ok(deliverables) =>
        match ContextGet(context, "success_criteria", PlanObjectives)
        case Err(e) => Err(e)
        case Ok(criteria) => Answer(Reviewer, llm(ReviewPrompt(task, plan, criteria, deliverables)), "review", 4)
  }

  /** The `result` dict of the refinement agent also says the work is complete. */
  function RefineFields(response: Json): seq<(string, Json)> {
    [("refined_deliverables", response), ("step", JNum(5)), ("status", JStr("complete"))]
  }

  /** `RefinementAgent.process(task, context)`. */
  function RefineProcess(llm: Llm, task: string, context: Json): (r: Result<Json, PyError>)
    ensures var reply := llm(RefinePrompt(task, Fetch(context, "deliverables", NoDeliverables),
                                          Fetch(context, "review", NoReview), Fetch(context, "issues", NoIssues)));
            Readable(context) ==>
              (reply.Err? ==> r == Err(reply.error))
              && (reply.Ok? ==> r.Ok? && Lookup(r.value, "agent") == Some(JStr("Refinement Agent"))
                                && Lookup(r.value, "result") == Some(JObj(RefineFields(reply.value))))
    ensures !Readable(context) ==> r == Err(NoAttribute(context, "get"))
  {
    match ContextGet(context, "deliverables", NoDeliverables)
    case Err(e) => Err(e)
    case Ok(deliverables) =>
      match ContextGet(context, "review", NoReview)
      case Err(e) => Err(e)
      case Ok(review) =>
        match ContextGet(context, "issues", NoIssues)
        case Err(e) => Err(e)
        case Ok(issues) =>
          match llm(RefinePrompt(task, deliverables, review, issues))
          case Err(e) => Err(e)
          case Ok(response) => Ok(FormatOutput(Identity(Refiner), JObj(RefineFields(response))))
  }

  /** The refined text and the completion mark are in the refinement result. */
  lemma RefineFieldsShape(response: Json)
    ensures Lookup(JObj(RefineFields(response)), "refined_deliverables") == Some(response)
    ensures Lookup(JObj(RefineFields(response)), "step") == Some(JNum(5))
    ensures Lookup(JObj(RefineFields(response)), "status") == Some(JStr("complete"))
    ensures PyTruthy(JObj(RefineFields(response)))
  {
    LookupFirst(RefineFields(response), 0);
    LookupFirst(RefineFields(response), 1);
    LookupFirst(RefineFields(response), 2);
  }

  /** With no context at all every step agent falls back to its documented defaults. */
  lemma DefaultsWithoutContext(llm: Llm, task: string)
    ensures ResearchProcess(llm, task, JNull)
            == Answer(Researcher, llm(ResearchPrompt(JStr(NoPlan), JStr(GeneralResearch), task)), "research", 2)
    ensures ExecutionProcess(llm, task, JNull)
            == Answer(Executor, llm(ExecutionPrompt(task, JStr(NoPlan), JStr(NoResearch))), "deliverables", 3)
    ensures ReviewProcess(llm, task, JObj([]))
            == Answer(Reviewer, llm(ReviewPrompt(task, JStr(NoPlan), JStr(PlanObjectives), JStr(NoDeliverables))), "review", 4)
  {
  }

  // ----- CommunicationAgent.create_summary (agents.py:410-424) -----

  /** `create_summary(workflow_results)`: the model's answer as it is. */
  function CreateSummary(llm: Llm, results: Json): (r: Result<Json, PyError>)
    ensures r == llm(SummaryPrompt(results))
  {
    llm(SummaryPrompt(results))
  }
}
