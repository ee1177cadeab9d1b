/**
  github_workflow_runner.py: the script a GitHub Actions job runs for a dispatched
  request.  It reads the event file, picks `task` and `request_id` from the event,
  and records its progress in two files under `results/`: a status file that goes
  from `running` to `completed` or `failed`, and a result file with the run's results
  or its error.  The file system is a map from path to the JSON document stored
  there; every write is also logged, in order.  Timestamps are not modelled.
 */
module WorkflowRunner {
  import opened Wrappers
  import opened Text
  import opened JsonValue
  import opened PyRuntime
  import opened Configuration
  import opened BaseAgents
  import opened Agents
  import opened Workflow

  class FileStore {
    var files: map<string, Json>
    /** Every `json.dump` into a file, oldest first. */
    var log: seq<(string, Json)>

    constructor(files: map<string, Json>)
      ensures this.files == files && log == []
    {
      this.files := files;
      log := [];
    }

    /** `open(path, 'w')` followed by `json.dump(content, f)`. */
    method Write(path: string, content: Json)
      modifies this
      ensures files == old(files)[path := content]
      ensures log == old(log) + [(path, content)]
    {
      files := files[path := content];
      log := log + [(path, content)];
    }
  }

  /** The store after a sequence of writes. */
  function Written(files: map<string, Json>, writes: seq<(string, Json)>): map<string, Json>
    decreases |writes|
  {
    if writes == [] then files else Written(files[writes[0].0 := writes[0].1], writes[1..])
  }

  function StatusPath(id: string): string {
    "results/" + id + ".status.json"
  }

  function ResultPath(id: string): string {
    "results/" + id + ".json"
  }

  /** `d.get('task', '')` and `d.get('request_id', '')` of one event section. */
  function Fields(d: Json): (r: Result<(Json, Json), PyError>)
    ensures r.Ok? <==> d.JObj?
    ensures r.Ok? ==> r.value == (PyGet(d, "task", JStr("")).value, PyGet(d, "request_id", JStr("")).value)
  {
    match PyGet(d, "task", JStr(""))
    case Err(e) => Err(e)
    case Ok(task) => Ok((task, PyGet(d, "request_id", JStr("")).value))
  }

  /** `task` and `request_id` after the selection on a dict event (`None` is `JNull`):
      the `inputs` section if there is one, and the `client_payload` section, both
      fields from it, while the task is still falsy. */
  function Selected(event: Json): (r: Result<(Json, Json), PyError>)
    requires event.JObj?
    ensures Lookup(event, "inputs").Some? && Fields(Lookup(event, "inputs").value).Ok? &&
            PyTruthy(Fields(Lookup(event, "inputs").value).value.0) ==>
              r == Fields(Lookup(event, "inputs").value)
    ensures Lookup(event, "inputs").None? && Lookup(event, "client_payload").Some? ==>
              r == Fields(Lookup(event, "client_payload").value)
    ensures Lookup(event, "inputs").None? && Lookup(event, "client_payload").None? ==> r == Ok((JNull, JNull))
    ensures Lookup(event, "inputs").Some? && !Lookup(event, "inputs").value.JObj? ==> r.Err?
  {
    var first :=
      match Lookup(event, "inputs")
      case None => Ok((JNull, JNull))
      case Some(inputs) => Fields(inputs);
    match first
    case Err(e) => Err(e)
    case Ok(fields) =>
      if !PyTruthy(fields.0) && Lookup(event, "client_payload").Some? then Fields(Lookup(event, "client_payload").value)
      else Ok(fields)
  }

  /** The event's task and request id, when both are non-empty strings.  An event that
      is not a dict, or a section that is not one, ends the script like a missing field:
      exit code 1 and nothing written. */
  function Request(event: Json): (r: Option<(string, string)>)
    ensures r.Some? ==> r.value.0 != "" && r.value.1 != ""
    ensures r.Some? <==> event.JObj? && Selected(event).Ok? &&
                         Selected(event).value.0.JStr? && Selected(event).value.0.s != "" &&
                         Selected(event).value.1.JStr? && Selected(event).value.1.s != ""
  {
    if !event.JObj? then None
    else
      match Selected(event)
      case Err(_) => None
      case Ok((task, id)) =>
        if PyTruthy(task) && PyTruthy(id) && task.JStr? && id.JStr? then Some((task.s, id.s)) else None
  }

  function RunningRecord(id: string, task: string): Json {
    JObj([("status", JStr("running")), ("request_id", JStr(id)), ("task", JStr(task))])
  }

  function SuccessRecord(id: string, results: Json): Json {
    JObj([("success", JBool(true)), ("request_id", JStr(id)), ("results", results)])
  }

  function CompletedRecord(id: string): Json {
    JObj([("status", JStr("completed")), ("request_id", JStr(id))])
  }

  function ErrorRecord(id: string, message: string): Json {
    JObj([("success", JBool(false)), ("request_id", JStr(id)), ("error", JStr(message))])
  }

  function FailedRecord(id: string, message: string): Json {
    JObj([("status", JStr("failed")), ("request_id", JStr(id)), ("error", JStr(message))])
  }

  /** The exit code and the writes, in order, of one run of the script. */
  datatype RunOutcome = RunOutcome(exitCode: nat, writes: seq<(string, Json)>)

  /** The result record and the final status record for request `id` (lines 65-106). */
  function Closing(id: string, outcome: Result<Json, PyError>): (r: seq<(string, Json)>)
    ensures |r| == 2 && r[0].0 == ResultPath(id) && r[1].0 == StatusPath(id)
    ensures outcome.Ok? <==> r[1].1 == CompletedRecord(id)
    ensures outcome.Ok? <==> Lookup(r[0].1, "success") == Some(JBool(true))
  {
    match outcome
    case Ok(results) => [(ResultPath(id), SuccessRecord(id, results)), (StatusPath(id), CompletedRecord(id))]
    case Err(e) =>
      var message := ErrorText(e);
      [(ResultPath(id), ErrorRecord(id, message)), (StatusPath(id), FailedRecord(id, message))]
  }

  /** The writes once the event has supplied task `task` and id `id`: the `running`
      status, then the result file, then the final status, `completed` with exit code
      0 when the agents accept the stored key `key`, `failed` with exit code 1
      otherwise. */
  function Attempt(task: string, id: string, key: Option<string>, run: (string, Json) -> Json): (r: RunOutcome)
    ensures |r.writes| == 3
    ensures r.writes[0] == (StatusPath(id), RunningRecord(id, task))
    ensures r.writes[1].0 == ResultPath(id) && r.writes[2].0 == StatusPath(id)
    ensures r.exitCode == 0 <==> r.writes[2].1 == CompletedRecord(id)
    ensures r.exitCode == 0 <==> Lookup(r.writes[1].1, "success") == Some(JBool(true))
    ensures r.exitCode == 0 <==> key.Some? && PyStrip(key.value) != []
    ensures r.exitCode != 0 ==> r.exitCode == 1
  {
    var outcome := Launched(key, run, task, JObj([]));
    RunOutcome(if outcome.Ok? then 0 else 1, [(StatusPath(id), RunningRecord(id, task))] + Closing(id, outcome))
  }

  /** A run with event path `eventPath` ("" when unset), stored files `files` and
      stored key `key`: nothing is written and the exit code is 1 unless the event file
      exists and names a task and a request id. */
  function Run(eventPath: string, files: map<string, Json>, key: Option<string>, run: (string, Json) -> Json)
    : (r: RunOutcome)
    ensures r.writes == [] <==> eventPath == "" || eventPath !in files || Request(files[eventPath]).None?
    ensures r.writes == [] ==> r.exitCode == 1
    ensures r.writes != [] ==> r == Attempt(Request(files[eventPath]).value.0, Request(files[eventPath]).value.1, key, run)
  {
    if eventPath == "" || eventPath !in files then RunOutcome(1, [])
    else
      match Request(files[eventPath])
      case None => RunOutcome(1, [])
      case Some((task, id)) => Attempt(task, id, key, run)
  }

  /** `main()`.  The stored key changes only when the orchestrator is built, which
      strips it. */
  method RunScript(store: FileStore, config: Config, eventPath: string, pyRepr: Json -> string, llm: Llm)
    returns (exitCode: nat)
    modifies store, config
    ensures var o := Run(eventPath, old(store.files), old(config.apiKey), FreshRun(StandardCrew(pyRepr, llm), pyRepr));
            exitCode == o.exitCode && store.log == old(store.log) + o.writes &&
            store.files == Written(old(store.files), o.writes) &&
            config.apiKey == if o.writes == [] then old(config.apiKey) else KeyAfterValidate(old(config.apiKey))
  {
    if eventPath == "" || eventPath !in store.files {
      return 1;
    }
    var request := Request(store.files[eventPath]);
    if request.None? {
      return 1;
    }
    exitCode := Attend(store, config, request.value.0, request.value.1, pyRepr, llm);
  }

  /** Lines 47-109 of the script, for the request with task `task` and id `id`. */
  method Attend(store: FileStore, config: Config, task: string, id: string, pyRepr: Json -> string, llm: Llm)
    returns (exitCode: nat)
    modifies store, config
    ensures var o := Attempt(task, id, old(config.apiKey), FreshRun(StandardCrew(pyRepr, llm), pyRepr));
            exitCode == o.exitCode && store.log == old(store.log) + o.writes &&
            store.files == Written(old(store.files), o.writes) &&
            config.apiKey == KeyAfterValidate(old(config.apiKey))
  {
    store.Write(StatusPath(id), RunningRecord(id, task));
    var outcome := RunFresh(config, pyRepr, llm, task, JObj([]));
    Close(store, id, outcome);
    exitCode := if outcome.Ok? then 0 else 1;
    WrittenThree(old(store.files), [(StatusPath(id), RunningRecord(id, task))] + Closing(id, outcome));
  }

  /** Writes the result file and then the final status of request `id`. */
  method Close(store: FileStore, id: string, outcome: Result<Json, PyError>)
    modifies store
    ensures store.log == old(store.log) + Closing(id, outcome)
    ensures store.files == old(store.files)[ResultPath(id) := Closing(id, outcome)[0].1][StatusPath(id) := Closing(id, outcome)[1].1]
  {
    if outcome.Err? {
      var message := ErrorText(outcome.error);
      store.Write(ResultPath(id), ErrorRecord(id, message));
      store.Write(StatusPath(id), FailedRecord(id, message));
    } else {
      store.Write(ResultPath(id), SuccessRecord(id, outcome.value));
      store.Write(StatusPath(id), CompletedRecord(id));
    }
  }

  lemma WrittenThree(files: map<string, Json>, writes: seq<(string, Json)>)
    requires |writes| == 3
    ensures Written(files, writes) == files[writes[0].0 := writes[0].1][writes[1].0 := writes[1].1][writes[2].0 := writes[2].1]
  {
    var f1 := files[writes[0].0 := writes[0].1];
    var f2 := f1[writes[1].0 := writes[1].1];
    var f3 := f2[writes[2].0 := writes[2].1];
    assert writes[1..][1..][1..] == [];
    assert Written(f3, []) == f3;
    assert Written(f2, writes[1..][1..]) == f3;
    assert Written(f1, writes[1..]) == f3;
  }

  // ----- what a run leaves in the store -----

  lemma {:induction false} WrittenLast(files: map<string, Json>, writes: seq<(string, Json)>, i: nat)
    requires i < |writes| && forall j :: i < j < |writes| ==> writes[j].0 != writes[i].0
    ensures writes[i].0 in Written(files, writes) && Written(files, writes)[writes[i].0] == writes[i].1
    decreases |writes|
  {
    if i > 0 {
      WrittenLast(files[writes[0].0 := writes[0].1], writes[1..], i - 1);
    } else {
      WrittenUntouched(files[writes[0].0 := writes[0].1], writes[1..], writes[0].0);
    }
  }

  lemma {:induction false} WrittenUntouched(files: map<string, Json>, writes: seq<(string, Json)>, path: string)
    requires path in files && forall j :: 0 <= j < |writes| ==> writes[j].0 != path
    ensures path in Written(files, writes) && Written(files, writes)[path] == files[path]
    decreases |writes|
  {
    if writes != [] {
      WrittenUntouched(files[writes[0].0 := writes[0].1], writes[1..], path);
    }
  }

  lemma PathsDiffer(id: string)
    ensures StatusPath(id) != ResultPath(id)
  {
    assert |StatusPath(id)| != |ResultPath(id)|;
  }

  /** After a run that got past the event checks, the status file holds the final
      status and the result file the run's record: the results with `success` true
      when the orchestrator could be built, the error with `success` false otherwise. */
  lemma FinalFiles(eventPath: string, files: map<string, Json>, key: Option<string>, run: (string, Json) -> Json)
    requires Run(eventPath, files, key, run).writes != []
    ensures var (task, id) := Request(files[eventPath]).value;
            var o := Run(eventPath, files, key, run);
            var after := Written(files, o.writes);
            StatusPath(id) in after && ResultPath(id) in after &&
            (o.exitCode == 0 ==>
               after[StatusPath(id)] == CompletedRecord(id) &&
               after[ResultPath(id)] ==
                 SuccessRecord(id, run(task, JObj([])))) &&
            (o.exitCode != 0 ==>
               after[StatusPath(id)] == FailedRecord(id, KeyNotSetMessage) &&
               after[ResultPath(id)] == ErrorRecord(id, KeyNotSetMessage))
  {
    var (task, id) := Request(files[eventPath]).value;
    var o := Run(eventPath, files, key, run);
    PathsDiffer(id);
    WrittenLast(files, o.writes, 1);
    WrittenLast(files, o.writes, 2);
  }

  /** A run with a usable key records what the workflow returned for the task, run on
      an empty initial context, under `results`, and exits with 0. */
  lemma RunRecordsResults(eventPath: string, files: map<string, Json>, key: Option<string>, run: (string, Json) -> Json)
    requires Run(eventPath, files, key, run).writes != [] && key.Some? && PyStrip(key.value) != []
    ensures var o := Run(eventPath, files, key, run);
            o.exitCode == 0 && Get(o.writes[1].1, "results") == run(Request(files[eventPath]).value.0, JObj([]))
  {
    LookupFirst(Run(eventPath, files, key, run).writes[1].1.fields, 2);
  }

  /** With agents that always answer, the results file of a run with a usable key
      holds a completed run. */
  lemma RunnerCompletes(eventPath: string, files: map<string, Json>, key: Option<string>, crew: Crew, pyRepr: Json -> string)
    requires Run(eventPath, files, key, FreshRun(crew, pyRepr)).writes != [] && key.Some? && PyStrip(key.value) != []
    requires Cooperative(crew)
    ensures var o := Run(eventPath, files, key, FreshRun(crew, pyRepr));
            o.exitCode == 0 && Lookup(Get(o.writes[1].1, "results"), "status") == Some(JStr("completed"))
  {
    RunRecordsResults(eventPath, files, key, FreshRun(crew, pyRepr));
    FreshRunCompletes(crew, pyRepr, Request(files[eventPath]).value.0, JObj([]));
  }

  /** The same for the agents `main` builds, over a model that always answers. */
  lemma StandardRunnerCompletes(eventPath: string, files: map<string, Json>, key: Option<string>, pyRepr: Json -> string, llm: Llm)
    requires Run(eventPath, files, key, FreshRun(StandardCrew(pyRepr, llm), pyRepr)).writes != [] && key.Some? && PyStrip(key.value) != []
    requires forall p :: llm(p).Ok?
    ensures var o := Run(eventPath, files, key, FreshRun(StandardCrew(pyRepr, llm), pyRepr));
            o.exitCode == 0 && Lookup(Get(o.writes[1].1, "results"), "status") == Some(JStr("completed"))
  {
    StandardCrewCooperative(pyRepr, llm);
    RunnerCompletes(eventPath, files, key, StandardCrew(pyRepr, llm), pyRepr);
  }

  /** A `workflow_dispatch` event whose inputs carry a task takes both fields from its
      inputs, whatever its `client_payload` says, so an empty `request_id` there stops
      the run. */
  lemma InputsWin(event: Json)
    requires event.JObj? && Lookup(event, "inputs").Some? && Lookup(event, "inputs").value.JObj?
    requires PyTruthy(PyGet(Lookup(event, "inputs").value, "task", JStr("")).value)
    ensures Selected(event) == Ok((PyGet(Lookup(event, "inputs").value, "task", JStr("")).value,
                                   PyGet(Lookup(event, "inputs").value, "request_id", JStr("")).value))
    ensures !PyTruthy(PyGet(Lookup(event, "inputs").value, "request_id", JStr("")).value) ==> Request(event).None?
  {
  }

  /** A `repository_dispatch` event carrying task `task` and id `id` in its
      `client_payload` only is accepted with exactly those fields. */
  lemma ClientPayloadRequest(event: Json, task: string, id: string)
    requires task != "" && id != ""
    requires event.JObj? && Lookup(event, "inputs").None?
    requires Lookup(event, "client_payload") == Some(JObj([("task", JStr(task)), ("request_id", JStr(id))]))
    ensures Request(event) == Some((task, id))
  {
    var payload := JObj([("task", JStr(task)), ("request_id", JStr(id))]);
    LookupFirst(payload.fields, 0);
    LookupFirst(payload.fields, 1);
  }
}
