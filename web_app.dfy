/**
  app.py: the JSON endpoints of the Flask back end.  `/api/status` reports three flags
  computed from the stored key, which the browser turns into its status badge;
  `/api/execute` checks the request body and the key, then runs a fresh orchestrator
  and wraps what it returns.  A response is an HTTP status and a JSON body.
 */
module WebApp {
  import opened Wrappers
  import opened Text
  import opened JsonValue
  import opened PyRuntime
  import opened Configuration
  import opened BaseAgents
  import opened Agents
  import opened Workflow
  import opened DocumentExtractor

  /** The key the sample environment file ships with. */
  const PlaceholderKey := "your-api-key-here"
  const TaskRequired := "Task is required"

  // ----- /api/status -----

  /** `api_configured`, `api_key_valid` and `api_key_format_valid`. */
  datatype Flags = Flags(configured: bool, valid: bool, formatValid: bool)

  /** The flags for stored key `key`.  The prefix test looks at the key as stored,
      which `validate` has normally stripped already. */
  function StatusFlags(key: Option<string>): (f: Flags)
    ensures f.configured <==> key.Some? && PyStrip(key.value) != []
    ensures f.valid ==> f.configured
    ensures f.valid <==> f.configured && PyStrip(key.value) != PlaceholderKey
    ensures f.formatValid ==> f.valid
    ensures f.formatValid <==> f.valid && StartsWith(key.value, KeyPrefix)
  {
    var keySet := key.Some? && key.value != [] && PyStrip(key.value) != [];
    var valid := keySet && PyStrip(key.value) != PlaceholderKey;
    Flags(keySet, valid, if valid then valid && StartsWith(key.value, KeyPrefix) else false)
  }

  /** The body `get_status` sends. */
  function StatusJson(key: Option<string>): Json {
    var f := StatusFlags(key);
    JObj([("success", JBool(true)), ("api_configured", JBool(f.configured)), ("api_key_valid", JBool(f.valid)),
          ("model", JStr(ModelName)), ("api_key_format_valid", JBool(f.formatValid))])
  }

  /** The badge the browser shows for the status of a stored key: configured for a
      non-placeholder key with the OpenRouter prefix, invalid for any other non-blank
      key, not configured for a missing or blank one. */
  lemma StatusBadgeOfKey(key: Option<string>)
    ensures var k := key.Some? && PyStrip(key.value) != [];
            var b := StatusBadge(Some(StatusJson(key)));
            (b == ApiConfigured <==> k && PyStrip(key.value) != PlaceholderKey && StartsWith(key.value, KeyPrefix)) &&
            (b == InvalidApiKey <==> k && !(PyStrip(key.value) != PlaceholderKey && StartsWith(key.value, KeyPrefix))) &&
            (b == NotConfigured <==> !k)
  {
    StatusFields(key);
    var f := StatusFlags(key);
    assert StatusBadge(Some(StatusJson(key))) ==
           if f.valid && f.formatValid then ApiConfigured else if f.configured then InvalidApiKey else NotConfigured;
  }

  /** The status body carries the three flags under their keys. */
  lemma StatusFields(key: Option<string>)
    ensures var j := StatusJson(key);
            var f := StatusFlags(key);
            Get(j, "success") == JBool(true) && Get(j, "api_configured") == JBool(f.configured)
            && Get(j, "api_key_valid") == JBool(f.valid) && Get(j, "api_key_format_valid") == JBool(f.formatValid)
  {
    var j := StatusJson(key);
    LookupFirst(j.fields, 0);
    LookupFirst(j.fields, 1);
    LookupFirst(j.fields, 2);
    LookupFirst(j.fields, 4);
  }

  /** After a successful `validate` the key is stored stripped, so the format flag is
      set exactly when `validate` printed no prefix warning and the key is not the
      placeholder. */
  lemma StatusAfterValidate(key: Option<string>)
    requires ValidateOutcome(key).Valid?
    ensures var f := StatusFlags(KeyAfterValidate(key));
            f.configured &&
            (f.formatValid <==> !ValidateOutcome(key).prefixWarning && PyStrip(key.value) != PlaceholderKey)
  {
    ValidateIdempotent(key);
  }

  // ----- /api/execute -----

  datatype Response = Response(status: nat, body: Json)

  function ErrorResponse(status: nat, message: string): Response {
    Response(status, JObj([("success", JBool(false)), ("error", JStr(message))]))
  }

  /** `data.get('task', '').strip()`: only a dict has `.get`, only a string `.strip`. */
  function RequestTask(data: Json): (r: Result<string, PyError>)
    ensures r.Ok? <==> data.JObj? && (Lookup(data, "task").None? || Lookup(data, "task").value.JStr?)
    ensures r.Ok? ==> Trimmed(Py, r.value)
    ensures r.Ok? && Lookup(data, "task").Some? ==> r.value == PyStrip(Lookup(data, "task").value.s)
    ensures r.Ok? && Lookup(data, "task").None? ==> r.value == ""
    ensures !data.JObj? ==> r == Err(NoAttribute(data, "get"))
  {
    match PyGet(data, "task", JStr(""))
    case Err(e) => Err(e)
    case Ok(t) =>
      if t.JStr? then
        TrimShape(Py, t.s);
        Ok(PyStrip(t.s))
      else Err(NoAttribute(t, "strip"))
  }

  /** `data.get('context', {})`. */
  function RequestContext(data: Json): Json
    requires data.JObj?
  {
    PyGet(data, "context", JObj([])).value
  }

  /** The response to body `data` while the stored key is `key`; `run` is what a
      freshly built orchestrator's `execute_workflow` returns for a task and an initial
      context. */
  function ExecuteResponse(data: Json, key: Option<string>, run: (string, Json) -> Json): (r: Response)
    ensures r.status == 500 <==> RequestTask(data).Err?
    ensures r.status == 500 ==> r == ErrorResponse(500, ErrorText(RequestTask(data).error))
    ensures RequestTask(data) == Ok("") ==> r == ErrorResponse(400, TaskRequired)
    ensures r.status == 400 <==> RequestTask(data) == Ok("") || (RequestTask(data).Ok? && ValidateOutcome(key).Invalid?)
    ensures r.status == 400 && RequestTask(data) != Ok("") ==> r == ErrorResponse(400, ValidateOutcome(key).message)
    ensures r.status == 200 <==> RequestTask(data).Ok? && RequestTask(data).value != "" && ValidateOutcome(key).Valid?
    ensures r.status == 200 ==>
              r.body == JObj([("success", JBool(true)), ("results", run(RequestTask(data).value, RequestContext(data)))])
  {
    match RequestTask(data)
    case Err(e) => ErrorResponse(500, ErrorText(e))
    case Ok(task) =>
      if task == [] then ErrorResponse(400, TaskRequired)
      else
        match ValidateOutcome(key)
        case Invalid(m) => ErrorResponse(400, m)
        case Valid(_) => Response(200, JObj([("success", JBool(true)), ("results", run(task, RequestContext(data)))]))
  }

  /** A request with a task and a usable key, served by agents that always answer on a
      readable context, gets a completed run. */
  lemma ExecuteResponseCompletes(data: Json, key: Option<string>, crew: Crew, pyRepr: Json -> string)
    requires RequestTask(data).Ok? && RequestTask(data).value != "" && ValidateOutcome(key).Valid?
    requires Cooperative(crew) && Readable(RequestContext(data))
    ensures var r := ExecuteResponse(data, key, FreshRun(crew, pyRepr));
            r.status == 200 && Lookup(Get(r.body, "results"), "status") == Some(JStr("completed"))
  {
    ExecuteResponseResults(data, key, FreshRun(crew, pyRepr));
    FreshRunCompletes(crew, pyRepr, RequestTask(data).value, RequestContext(data));
  }

  lemma ExecuteResponseResults(data: Json, key: Option<string>, run: (string, Json) -> Json)
    requires RequestTask(data).Ok? && RequestTask(data).value != "" && ValidateOutcome(key).Valid?
    ensures var r := ExecuteResponse(data, key, run);
            r.status == 200 && Get(r.body, "results") == run(RequestTask(data).value, RequestContext(data))
  {
    LookupFirst(ExecuteResponse(data, key, run).body.fields, 1);
  }

  /** The same for the agents the handler builds, over a model that always answers. */
  lemma StandardResponseCompletes(data: Json, key: Option<string>, pyRepr: Json -> string, llm: Llm)
    requires RequestTask(data).Ok? && RequestTask(data).value != "" && ValidateOutcome(key).Valid?
    requires forall p :: llm(p).Ok?
    requires Readable(RequestContext(data))
    ensures var r := ExecuteResponse(data, key, FreshRun(StandardCrew(pyRepr, llm), pyRepr));
            r.status == 200 && Lookup(Get(r.body, "results"), "status") == Some(JStr("completed"))
  {
    StandardCrewCooperative(pyRepr, llm);
    ExecuteResponseCompletes(data, key, StandardCrew(pyRepr, llm), pyRepr);
  }

  /** The results a completed run returns feed the browser's first final-document
      source exactly when the run went through refinement: the text under
      `refined_deliverables` in the reported step 5 result is tried first, and it is the
      document whenever it yields any text.  Without refinement that source is absent. */
  lemma RefinedRunFeedsFinalDocument(crew: Crew, pyRepr: Json -> string, task: string, initial: Json,
                                     past: seq<HistoryEntry>, parse: Parser)
    ensures var o := Execute(crew, pyRepr, task, initial, past);
            var result := Get(Reported(o, "step5_refinement"), "result");
            var refined := Get(result, "refined_deliverables");
            var issues := HasIssues(ReviewText(pyRepr, Reported(o, "step4_review")));
            (Completed(o) && issues && IsObject(result) && JsTruthy(refined) ==>
               Source1(o.results) == Some(refined)
               && (DocumentFromString(parse, refined) != "" ==>
                     FinalDocumentText(parse, o.results) == DocumentFromString(parse, refined)))
            && (Completed(o) && !issues ==> Source1(o.results).None?)
  {
    ExecuteOutcome(crew, pyRepr, task, initial, past);
  }

  /** `execute_workflow` of app.py on the shared configuration `config`. */
  method HandleExecute(config: Config, data: Json, pyRepr: Json -> string, llm: Llm) returns (r: Response)
    modifies config
    ensures r == ExecuteResponse(data, old(config.apiKey), FreshRun(StandardCrew(pyRepr, llm), pyRepr))
    ensures config.apiKey == if r.status == 500 || RequestTask(data) == Ok("") then old(config.apiKey)
                             else KeyAfterValidate(old(config.apiKey))
  {
    var task := RequestTask(data);
    if task.Err? {
      return ErrorResponse(500, ErrorText(task.error));
    }
    var context := RequestContext(data);
    if task.value == [] {
      return ErrorResponse(400, TaskRequired);
    }
    ghost var key := config.apiKey;
    var v := config.Validate();
    if v.Invalid? {
      return ErrorResponse(400, v.message);
    }
    ValidateIdempotent(key);
    // `validate` has just stored the stripped, non-blank key, which every agent accepts.
    var results := RunFresh(config, pyRepr, llm, task.value, context);
    assert results.Ok?;
    r := Response(200, JObj([("success", JBool(true)), ("results", results.value)]));
  }
}
