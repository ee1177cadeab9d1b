# Multi-agent workflow viewer, modelled in Dafny

The system runs a task through a five-step workflow of language-model agents and
shows the result in the browser.

- **Python back end.** Each agent is built around a shared OpenRouter key:
  - the orchestrator's task intake, which slices a JSON plan out of a fenced answer;
  - planning, research, execution, review and refinement agents;
  - a communication agent that writes the summary.

  `WorkflowOrchestrator.execute_workflow` runs the five steps in order. It fills
  `workflow_context` key by key, appends to `workflow_history`, and lets the review text
  decide whether refinement and a second review run. It returns the completed results,
  or the failed results with the state as it stood.
- **Flask app (`app.py`).** Validates the key, reports three status flags and runs a
  fresh orchestrator per request.
- **GitHub Actions script (`github_workflow_runner.py`).** Does the same for a
  dispatched event and records `running`, then `completed` or `failed`, in two files
  under `results/`.
- **Browser, two front ends.**
  - `app-base.js` picks the "final document" out of the result JSON, trying four
    sources in a fixed order. It unwraps ```json fences and renders known object
    shapes as markdown.
  - `github-pages-app.js` sends the task as a `repository_dispatch` event and polls the
    repository, at most 60 times, for the result file the script writes.

The model has one Dafny module per source file plus shared foundations:
- `Json` is the value both halves exchange, with object fields in enumeration order.
- `Completion` models JavaScript code that may throw.
- `PyError` models a Python exception.
- Python and JavaScript whitespace, UTF-16 length and first-occurrence search are modelled separately.

Outside influences are parameters:
- the language model (`Llm`, one reply per prompt);
- HTTP replies;
- `JSON.parse` (`Parser`), `JSON.stringify` and Python's `repr` of containers;
- the request id drawn by `generateRequestId`.

Code that works step by step is imperative Dafny, proved equal to specification functions. This covers:
- the orchestrator with its `context` and `history` fields, and the configuration class with its key;
- the runner's file store and the browser session with its `currentResults` and `currentRequestId`;
- the accumulator loops of the converters, the poll loop, `_format_context` and `_check_for_issues`.

The lemmas then state what the source promises of those functions.

Notes on the code as modelled:
- `convertJsonToReadableDocument` is declared twice in `app-base.js`. The second
  declaration (line 959) replaces the first in a classic script, so only it is
  modelled. It reads lower-case keys (`execution_summary`, `key_decisions`,
  `progress_notes`). The shadowed first declaration (lines 238-566) reads
  `EXECUTION_SUMMARY`, `KEY_DECISIONS` and `DELIVERABLES` and prettifies keys; it
  never runs. The model follows the live code.
- `extractFinalDocument` is not total: reading `.workflow_context` of a `null` result
  throws. `extractDocumentContent` lets a throw of `extractContentFromObject` escape.
  Both are modelled as throwing (`Completion.Throw`), not as returning "".
- The fallback of `extractContentFromObject` does not pick the longest string
  anywhere in the tree. It does three things in order:
  - scans eleven content keys;
  - then takes entry values longer than 100 units;
  - then calls `formatObjectAsDocument`.

  `buildDocumentFromObject` is the walk that does pick the longest string anywhere in
  the tree, but nothing calls it. The model follows the code.
- The priority-1 source is any truthy `refined_deliverables` of the wrapper object, not only a string.
- `extractReadableContentFromJsonString` calls `extractFinalDocumentFromJson`, which
  is defined nowhere. Its caller (lines 217-224) reaches it when the fenced text fails
  to parse, and also when it parses but `convertJsonToReadableDocument` throws (for
  instance on `{"key_decisions": [null]}`). Either way the result is the cleaned text:
  when the text parses, the `ReferenceError` for the missing function is caught by
  the helper's own `catch`.

## Model

| member | source | states |
|---|---|---|
| Configuration.ValidateOutcome | config.py:26-46 | `validate` succeeds exactly when the key is present and non-blank after stripping. A None or empty key fails with the "environment variable is required" message; a present key that strips to nothing fails with the "empty or whitespace" message. On success the prefix warning is printed exactly when the stripped key does not start with `sk-or-`. |
| Configuration.KeyAfterValidate | config.py:28-35 | A None or empty key is left as it is. Any other key is replaced by its stripped text, so it is then free of surrounding whitespace. |
| Configuration.Config.constructor | config.py:11 | The class attribute holds the environment value, None when unset. |
| Configuration.Config.Validate | config.py:26-46 | Returns the outcome for the old key and leaves the key stored stripped. |
| Configuration.ValidateIdempotent | config.py:35-46 | A second `validate` after a success keeps the stored key and returns the same outcome, warning included. |
| Configuration.BlankKeyStoredEmpty | config.py:35-40 | A whitespace-only key raises the blank-key error but is still stored as "". |
| BaseAgents.InitAgent | base_agent.py:17-36 | Raises the "not set" ValueError exactly when the shared key is None or empty. Otherwise yields the agent's name and role. The shared key is left stripped, so a whitespace-only key passes and becomes "". |
| BaseAgents.Messages | base_agent.py:56-73 | The message list is:<br>- a system message only for non-empty instructions;<br>- then the context messages, unchanged and in order;<br>- then exactly one user message with the prompt, last.<br>No other user message is introduced. |
| BaseAgents.MessageContent | base_agent.py:115 | `choice["message"]["content"]` succeeds exactly when both keys exist. |
| BaseAgents.SliceForLog | base_agent.py:116 | `content[:100]` succeeds exactly on a string or a list and leaves the content unchanged. On anything else it raises a TypeError. |
| BaseAgents.BodyContent | base_agent.py:113-119 | Yields text exactly for a body with a non-empty `choices` list whose first entry holds `message.content`, when that content is a string or a list, and the text is that content. Content of any other kind raises the TypeError of `content[:100]`. A dict without `choices` raises "Unexpected response format". |
| BaseAgents.ReplyResult | base_agent.py:89-140 | A reply yields text exactly when it is not a 4xx/5xx status and its body decodes to the documented shape.<br>- 401 raises the authentication ValueError naming the key's prefix and the model.<br>- Other error statuses raise a bare `Exception`.<br>- A transport failure raises a bare `Exception` "Failed to call OpenRouter API: ...". |
| BaseAgents.CallLlm | base_agent.py:38-143 | A missing or blank key raises before anything is sent. Otherwise the result is that of the reply to the request built from the key, instructions, prompt and context, and so raises the TypeError when the reply's content is neither a string nor a list. |
| BaseAgents.CallLlmSucceeds | base_agent.py:84-119 | Both directions: a call returns text if and only if the key is usable, the reply is neither an HTTP error nor undecodable, and the body has the documented shape with string or list content. |
| BaseAgents.FormatOutput | base_agent.py:158-165 | The output has exactly four fields: the agent's name and role, the result unchanged, and status "completed". |
| BaseAgents.Process | base_agent.py:145-156 | The base `process` always raises NotImplementedError. |
| Agents.IdentityNamesDistinct | agents.py:25-398 | The seven agents pass pairwise distinct names to the base constructor, so outputs can be told apart by `agent`. |
| Agents.UpToFence | agents.py:56-58 | `split("```")[0]` is a prefix of the text and contains no fence. |
| Agents.JsonSlice | agents.py:55-60 | The text handed to `json.loads` is stripped, and contains no fence whenever the answer has one. |
| Agents.JsonSliceFenced | agents.py:55-56 | A ```json block after plain text yields exactly its stripped contents. |
| Agents.JsonSliceUnfenced | agents.py:59-60 | An answer without any fence is parsed whole, stripped. |
| Agents.PlanFrom | agents.py:53-66 | The plan is the parsed slice when it parses. Otherwise it is `{"raw_response": response}` with the original, unstripped answer. |
| Agents.InitializeTask | agents.py:27-68 | A model error propagates. Otherwise the output names the orchestrator and carries the plan as its result. A falsy context is sent as "None provided". |
| Agents.InitializeTaskFenced | agents.py:51-68 | A fenced JSON plan in the answer is exactly the plan reported. |
| Agents.FormatContext | agents.py:126-134 | The loop computes the context block:<br>- "No additional context provided." for a falsy context;<br>- otherwise the header followed by one `- key: value` line per entry, in order;<br>- an AttributeError for a truthy non-dict. |
| Agents.ContextLinesPrefix | agents.py:131-133 | The lines of the first entries begin the lines of all entries, so the order of entries is kept. |
| Agents.ContextShowsEveryEntry | agents.py:126-134 | Every entry of a non-empty context dict has its line in the block. |
| Agents.ContextGet | agents.py:156-157 | `context.get(key, default) if context else default`:<br>- the default for a falsy context;<br>- the stored value or the default for a dict;<br>- an AttributeError for a truthy non-dict. |
| Agents.AnswerShape | agents.py:121-124 | A step agent's output exists exactly when the model answered. It names the agent, says "completed", and holds the answer under the step's key with the step number. |
| Agents.PlanProcess | agents.py:87-124 | The planning prompt carries the task and the context block, and the output holds `plan` with step 1. A truthy non-dict context raises. |
| Agents.ResearchProcess | agents.py:153-193 | The research prompt carries the plan and the information needs, each with its default, and the output holds `research` with step 2. |
| Agents.ExecutionProcess | agents.py:212-255 | The execution prompt carries the plan and the research, each with its default, and the output holds `deliverables` with step 3. |
| Agents.ReviewProcess | agents.py:273-319 | The review prompt carries the plan, the success criteria and the deliverables, each with its default, and the output holds `review` with step 4. |
| Agents.RefineProcess | agents.py:337-382 | The refinement prompt carries the deliverables, the review and the issues, each with its default. The output names the refinement agent and holds `refined_deliverables`, step 5 and status "complete". |
| Agents.RefineFieldsShape | agents.py:378-382 | The refinement result holds the answer under `refined_deliverables`, step 5 and status "complete", and is truthy. |
| Agents.DefaultsWithoutContext | agents.py:156-157 | With no context the step agents fall back to "No plan provided", "General research needed" and the other fixed defaults instead of failing. |
| Workflow.ReviewUsesRefined | workflow.py:166-186 | The reviewer is given the refined deliverables whenever they are truthy, and the step 3 deliverables otherwise. |
| Workflow.CheckForIssues | workflow.py:205-228 | The indicator loop with early return answers true exactly when the lower-cased review text contains one of the eight indicators. |
| Workflow.IssueInAnyCase | workflow.py:213-226 | An indicator written in any letter case in the review counts. |
| Workflow.Ran | workflow.py:59-61 | A step is stored exactly when the agent answered with a value that has `result`. An agent's exception propagates unchanged. |
| Workflow.Recorded | workflow.py:230-237 | `_add_to_history` succeeds exactly on a dict output. |
| Workflow.Orchestrator.constructor | workflow.py:22-33 | The new orchestrator holds its agents, an empty context and an empty history. |
| Workflow.Orchestrator.AddToHistory | workflow.py:230-237 | Appends the record for the output (agent or "Unknown") to the history, leaving the context. It raises, with nothing changed, on a non-dict output. |
| Workflow.Orchestrator.Store | workflow.py:59-61 | Stores the output's `result` under the step key and appends its record, or raises with nothing changed. |
| Workflow.Orchestrator.ExecuteWorkflow | workflow.py:35-130 | The new context, history and returned results are those of the specification of a run from the reset context and the old history. |
| Workflow.Orchestrator.FromResearch | workflow.py:64-67 | The state after step 2 and the rest of the run is as specified. |
| Workflow.Orchestrator.FromExecution | workflow.py:70-73 | The state after step 3 and the rest of the run is as specified. |
| Workflow.Orchestrator.FromReview | workflow.py:76-79 | The state after step 4 and the rest of the run is as specified. |
| Workflow.Orchestrator.Conclude | workflow.py:82-98 | The state after the issue check, refinement or the fixed step 5 record, and the summary is as specified. |
| Workflow.Orchestrator.Refine | workflow.py:86-89 | The state after step 5 and the rest of the run is as specified. |
| Workflow.Orchestrator.ReviewAgain | workflow.py:92-94 | The state after the second review, recorded as "Final Review", is as specified. |
| Workflow.Orchestrator.Finish | workflow.py:101-120 | The summary changes no state, and the results compile the five step outputs. |
| Workflow.KeyStripStable | config.py:35-40 | Stripping the stored key again changes nothing. A key that passed the first check fails the second exactly when it strips to "". |
| Workflow.NewOrchestrator | workflow.py:22-33 | Building the seven agents succeeds exactly when the key is present and non-blank after stripping. Otherwise the "not set" ValueError is raised, because the first agent strips a whitespace-only key and the second rejects it. On success the orchestrator is fresh, with the standard agents and empty state. |
| Workflow.ContextKeysDistinct | workflow.py:49-88 | The context keys written by a run are pairwise distinct. |
| Workflow.FreshKey | workflow.py:60-88 | Each step writes a key the context does not have yet. |
| Workflow.RanProgress | workflow.py:57-79 | A step that does not raise stores its result under the next key, after those of the earlier steps, and appends the next record. |
| Workflow.ProgressStep | workflow.py:57-79 | Storing the next key and appending the next step's record advance the progress by one step. |
| Workflow.FailedReports | workflow.py:122-130 | An exception ends the run as "failed" with `str(e)`, and with the context and history as they stood. |
| Workflow.SummarizeReports | workflow.py:101-117 | The summary changes no state. The run completes exactly when the communicator answers, and the results then hold the step outputs. |
| Workflow.CompletedReports | workflow.py:104-117 | The completed results say "completed" and carry the context, the history and the reported review and step 5 outputs. |
| Workflow.StepsReported | workflow.py:108-114 | The `steps` dict reports the review under `step4_review` and step 5 under `step5_refinement`. |
| Workflow.FailedTrace | workflow.py:122-130 | A failure after some steps reports exactly the state those steps left. |
| Workflow.SummarizeTrace | workflow.py:101-117 | A completed summary reports the state unchanged, with the counted records and keys. |
| Workflow.RecordProgress | workflow.py:94-98 | Recording an output alone appends the next step record and leaves the context. |
| Workflow.NoRefinementUnknown | workflow.py:97-98 | Without issues the step 5 record is the fixed one and names agent "Unknown". |
| Workflow.RefinementOutcome | workflow.py:84-94 | A completed refinement run has nine context keys and six new records. The refined result is stored under `refined_deliverables`. |
| Workflow.StoredLast | workflow.py:88 | The refined result is stored under a key the context lacks, so looking the key up finds it. |
| Workflow.FinalReviewOutcome | workflow.py:92-94 | The second review only appends its record, and the reported step 5 output is the refinement's. |
| Workflow.AfterReviewOutcome | workflow.py:82-98 | Refinement and the final review run exactly when the review reads as finding issues. Otherwise step 5 is the fixed record and `refined_deliverables` is never set. |
| Workflow.AfterResearchOutcome | workflow.py:70-130 | From step 3 on, the run reports its state and keeps the step order. |
| Workflow.AfterExecutionOutcome | workflow.py:76-130 | From step 4 on, the run reports its state and keeps the step order. |
| Workflow.AfterPlanOutcome | workflow.py:64-130 | From step 2 on, the run reports its state and keeps the step order. |
| Workflow.ExecuteOutcome | workflow.py:35-130 | Every run reports the context and history it leaves.<br>- The history is the old history plus one record per step that ran, in order; it is never cleared. Each record names its output's agent and holds that output.<br>- The context is the reset context plus, under each step key in order, the `result` of that step's recorded output.<br>- A completed run went through every step, refinement exactly when the review found issues, and its first five new records hold the five reported step outputs. |
| Workflow.SummarizeCompletes | workflow.py:101-120 | With a communicator that answers, the summary completes. |
| Workflow.FinalReviewCompletes | workflow.py:92-120 | With agents that always answer, the second review and the summary complete. |
| Workflow.RefinementCompletes | workflow.py:86-120 | With agents that always answer, refinement and the rest complete. |
| Workflow.AfterReviewCompletes | workflow.py:82-120 | With agents that always answer, the run from the issue check on completes. |
| Workflow.AfterExecutionCompletes | workflow.py:76-120 | With agents that always answer, the run from step 4 on completes. |
| Workflow.AfterResearchCompletes | workflow.py:70-120 | With agents that always answer, the run from step 3 on completes. |
| Workflow.AfterPlanCompletes | workflow.py:64-120 | With agents that always answer, the run from step 2 on completes. |
| Workflow.ExecuteCompletes | workflow.py:35-120 | With agents that always answer and a readable initial context, a run completes. |
| Workflow.StandardCrewCooperative | agents.py:87-382 | The agents the orchestrator builds answer every readable context with a storable output, as long as the model answers. |
| Workflow.StandardRunCompletes | workflow.py:35-120 | End to end: the orchestrator's own agents over a model that always answers complete every run on a readable context. |
| Workflow.StandardSummary | workflow.py:100-107 | With the orchestrator's own agents, the `summary` of a completed run is the model's answer to the summary prompt (agents.py:410-424) over the context the run reports. A summary call that raises leaves the run not completed. |
| Workflow.Launched | workflow.py:22-33 | Building an orchestrator and running it yields the run's results exactly when the key is usable, and the "not set" ValueError otherwise. |
| Workflow.RunFresh | app.py:60-61 | `WorkflowOrchestrator().execute_workflow(task, initial)` behaves as `Launched`, and leaves the stored key stripped. |
| Workflow.FreshRunCompletes | workflow.py:35-120 | A fresh run with agents that always answer completes. |
| Workflow.RefinedReviewed | workflow.py:170-177 | The review after refinement is given the refined result whenever it is truthy, and the step 3 deliverables otherwise. |
| WebApp.StatusFlags | app.py:80-88 | The three flags:<br>- `api_configured` exactly for a set, non-blank key;<br>- `api_key_valid` exactly when configured and the stripped key is not the placeholder;<br>- `api_key_format_valid` exactly when valid and the stored key starts with `sk-or-`.<br>Each flag implies the one before it. |
| WebApp.StatusFields | app.py:83-89 | The status body carries `success` and the three flags under their keys. |
| WebApp.StatusBadgeOfKey | docs/js/app-base.js:23-37 | Across both halves, for a stored key the badge is:<br>- "API Configured" exactly for a non-blank, non-placeholder key with the `sk-or-` prefix;<br>- "Invalid API Key" for any other non-blank key;<br>- "Not Configured" for a missing or blank one. |
| WebApp.StatusAfterValidate | app.py:80-88 | After a successful `validate`, the format flag is set exactly when no prefix warning was printed and the key is not the placeholder. |
| WebApp.RequestTask | app.py:40-41 | `data.get('task', '').strip()` gives the stripped task, or "" when absent. A non-dict body, or a non-string task, raises an AttributeError. |
| WebApp.ExecuteResponse | app.py:36-73 | The response is one of:<br>- 500 exactly when reading the task raises;<br>- 400 "Task is required" for an empty task, before the key is checked;<br>- 400 with the ValueError message for a bad key;<br>- 200 with `success` and the run's results otherwise. |
| WebApp.ExecuteResponseResults | app.py:59-66 | A request with a task and a usable key gets 200, with the run's results under `results`. |
| WebApp.ExecuteResponseCompletes | app.py:59-66 | The run returned for such a request completes when the agents always answer. |
| WebApp.StandardResponseCompletes | app.py:59-66 | The same, for the agents the handler builds over a model that always answers. |
| WebApp.RefinedRunFeedsFinalDocument | workflow.py:84-117 | Across both halves, in a completed run the text under `refined_deliverables` in the reported step 5 result is the browser's first final-document source exactly when the run went through refinement. That text becomes the document whenever it yields any text. Without refinement the source is absent. |
| WebApp.HandleExecute | app.py:36-73 | The response is `ExecuteResponse` of the old key and a fresh standard run. The key is validated, which leaves it stripped, exactly when the task is non-empty. |
| WorkflowRunner.FileStore.constructor | github_workflow_runner.py:46-47 | The store starts from the given files with an empty write log. |
| WorkflowRunner.FileStore.Write | github_workflow_runner.py:52-58 | A write replaces the file's content and is appended to the log. |
| WorkflowRunner.Fields | github_workflow_runner.py:30-31 | `task` and `request_id` are read with "" defaults. A non-dict section raises. |
| WorkflowRunner.Selected | github_workflow_runner.py:24-36 | The fields come from `inputs` while its task is truthy. Otherwise both come from `client_payload`. Without either section both are None. A non-dict `inputs` fails. |
| WorkflowRunner.Request | github_workflow_runner.py:24-41 | A request is accepted exactly when both selected fields are non-empty strings. |
| WorkflowRunner.Closing | github_workflow_runner.py:64-106 | The result file is written, then the status file. The status says "completed" exactly when the result says `success` true. |
| WorkflowRunner.Attempt | github_workflow_runner.py:47-109 | Three writes happen: "running" to the status file first, then the result file, then the final status. The exit code is 0 exactly when the status says "completed", the result says `success`, and the key is usable. Otherwise the exit code is 1. |
| WorkflowRunner.Run | github_workflow_runner.py:12-109 | Nothing is written, and the exit code is 1, exactly when the event path is unset or missing or the event lacks a task or request id. Otherwise the run is the attempt for the selected fields. |
| WorkflowRunner.RunScript | github_workflow_runner.py:12-109 | The exit code and the writes, in order, are those of `Run`. The files are the old files with those writes applied. The key is stripped only when the orchestrator is built. |
| WorkflowRunner.Attend | github_workflow_runner.py:47-109 | The writes and the exit code for an accepted request are those of `Attempt`. |
| WorkflowRunner.Close | github_workflow_runner.py:64-106 | Appends the two closing writes to the log and applies them to the files. |
| WorkflowRunner.WrittenThree | github_workflow_runner.py:47-106 | Three writes apply in order. |
| WorkflowRunner.WrittenLast | github_workflow_runner.py:75-80 | The last write to a path is what the path holds. |
| WorkflowRunner.WrittenUntouched | github_workflow_runner.py:47-106 | Paths no write names keep their contents. |
| WorkflowRunner.PathsDiffer | github_workflow_runner.py:51-65 | The status file and the result file are different paths. |
| WorkflowRunner.FinalFiles | github_workflow_runner.py:64-106 | After an accepted request the files hold one of two pairs:<br>- status "completed" with `success` true and the results of the run on `{}`;<br>- status "failed" with the error record. |
| WorkflowRunner.RunRecordsResults | github_workflow_runner.py:61-72 | With a usable key the exit code is 0, and the result file holds what the workflow returned for the task on an empty context. |
| WorkflowRunner.RunnerCompletes | github_workflow_runner.py:61-72 | With agents that always answer, the recorded results are those of a completed run. |
| WorkflowRunner.StandardRunnerCompletes | github_workflow_runner.py:61-72 | The same for the agents the script builds, over a model that always answers. |
| WorkflowRunner.InputsWin | github_workflow_runner.py:29-36 | When `inputs` carries a task, both fields come from it whatever `client_payload` holds. An empty `request_id` there then stops the run. |
| WorkflowRunner.ClientPayloadRequest | github_workflow_runner.py:34-41 | A `client_payload` carrying a task and an id is accepted with exactly those fields. |
| PagesApp.RepoSegments | docs/js/github-pages-app.js:105 | `split('/')` gives the owner (text before the first slash) and, when there is a slash, the repository name up to the next slash. Neither contains a slash. |
| PagesApp.RepoSegmentsOf | docs/js/github-pages-app.js:105 | An `owner/name` setting splits back into its owner and name. |
| PagesApp.RepoSegmentsOfLonger | docs/js/github-pages-app.js:105 | Segments after a second slash are ignored. |
| PagesApp.DispatchRequest | docs/js/github-pages-app.js:98-127 | The checks and the request:<br>- a missing token throws "GitHub token is required" before any request;<br>- otherwise the request is sent exactly when both segments are non-empty, else "Invalid GitHub repository" is thrown;<br>- the request goes to the repository's `dispatches` URL with `token ...` authorization and the `execute-workflow` body. |
| PagesApp.DispatchResult | docs/js/github-pages-app.js:129-134 | The request id is returned exactly on an ok reply. A non-ok reply throws "Failed to trigger workflow: " followed by the body's truthy `message`, or else the status text; a body that does not decode gives the status text. A non-ok reply whose body is `null`, or a failed fetch, throws a browser TypeError instead. |
| PagesApp.DispatchReachesRunner | docs/js/github-pages-app.js:119-125 | Across both halves, the runner accepts the event a dispatch of a non-empty task produces, with the same task and request id. |
| PagesApp.PollUrls | docs/js/github-pages-app.js:139-141 | The polled URLs are the raw `main` branch copies of the runner's status and result paths. |
| PagesApp.TickOf | docs/js/github-pages-app.js:147-183 | A tick finds data only from an ok result reply, and that data is the reply's. When the status step does not throw (a non-ok status, a decoded status, or a `null` status on a page without a `workflow-status` element), the tick resolves exactly on an ok, decoded result. A failed or undecodable status fetch, and a `null` status on a page with that element, are caught and leave the tick pending. A failed, non-ok or undecodable result leaves it pending. |
| PagesApp.PollSettles | docs/js/github-pages-app.js:143-172 | The poll resolves on the first tick that finds data, counting that tick, even on tick 60. With no data it rejects after exactly 60 ticks, all pending. |
| PagesApp.PollForResults | docs/js/github-pages-app.js:138-175 | The tick loop agrees with the specification: it resolves on the first tick that finds data, at most the 60th, or rejects after 60 pending ticks. |
| PagesApp.Settled | docs/js/github-pages-app.js:231-242 | The notice once the poll settles:<br>- a timeout shows the error;<br>- `currentResults` is assigned exactly when the data has a truthy `success`, with the "completed" message;<br>- a `null` result document shows the browser TypeError and assigns nothing;<br>- otherwise the data's `error`, or "Workflow execution failed", is shown. |
| PagesApp.Submission | docs/js/github-pages-app.js:187-242 | A submission:<br>- an empty trimmed task or a missing token shows an error and sends nothing;<br>- a dispatch is sent exactly when the task is non-empty, the token is set and the repository is valid, with the trimmed task;<br>- the request id is recorded exactly on an ok reply, and only then can results be assigned. |
| PagesApp.PagesSession.constructor | docs/js/github-pages-app.js:5-14 | The session keeps its token, repository setting and whether the page has a `workflow-status` element, and starts with no results, no request id and no dispatch sent. |
| PagesApp.PagesSession.HandleFormSubmit | docs/js/github-pages-app.js:187-257 | The notice, the dispatches sent, and the new `currentRequestId` and `currentResults` are those of `Submission`. Nothing else changes. |
| PagesApp.PagesSession.SubmitTask | docs/js/github-pages-app.js:223-242 | Dispatch, then the wait, as the specification of lines 223-242 says. |
| PagesApp.PagesSession.AwaitResults | docs/js/github-pages-app.js:231-242 | Only `currentResults` changes, as `Settled` says. |
| PagesApp.PagesSession.TriggerWorkflow | docs/js/github-pages-app.js:98-135 | The dispatch is logged exactly when the checks pass. The result is the reply's outcome or the check's error. The request id and results are unchanged. |
| DocumentExtractor.SpaceRunSpec | docs/js/app-base.js:215 | The `\s*` after "```json" consumes exactly the leading whitespace: everything it skips is whitespace, and it stops at the end or at a non-space. |
| DocumentExtractor.FenceInterior | docs/js/app-base.js:215 | The capture of the ```json pattern never contains a fence. |
| DocumentExtractor.FenceRoundTrip | docs/js/app-base.js:215 | For a well-formed block, the capture is exactly the interior: the text after "```json" and its following whitespace, up to the next "```". |
| DocumentExtractor.StripJsonPunctuation | docs/js/app-base.js:664 | The result contains no `{ } [ ] "`. Every other character is kept as often as it occurs. |
| DocumentExtractor.ReadableFromJsonString | docs/js/app-base.js:658-666 | The result is always the cleaned text: trimmed, without JSON punctuation. |
| DocumentExtractor.DocumentFromString | docs/js/app-base.js:211-235 | A non-string or empty input gives "". Plain text without a fence that does not parse is returned unchanged. |
| DocumentExtractor.FencedUnparsable | docs/js/app-base.js:215-224 | An unparsable fenced interior yields that interior without JSON punctuation, trimmed. |
| DocumentExtractor.FencedParsable | docs/js/app-base.js:216-220 | A parsable fenced interior yields the converted document, or the cleaned interior when the converter throws. |
| DocumentExtractor.ExtractFinalDocument | docs/js/app-base.js:157-208 | Throws exactly for a `null` result. Otherwise the document is the trimmed text of the first priority source that extracts to non-empty text, and it is produced exactly when that trimmed text is longer than 50 units. |
| DocumentExtractor.Substantial | docs/js/app-base.js:205-207 | A document is produced exactly when the trimmed text is longer than 50 units, and it is that trimmed text. |
| DocumentExtractor.FinalDocumentPriority | docs/js/app-base.js:160-202 | The sources are tried in their fixed order, and a later one is consulted only while the text so far is empty: the result is the first non-empty extraction. |
| DocumentExtractor.NoSourceNoDocument | docs/js/app-base.js:157-208 | Results offering none of the four sources produce no document. |
| DocumentExtractor.RemoveFencesComplete | docs/js/app-base.js:886 | Removing every "```" together with the whitespace after it leaves no "```". |
| DocumentExtractor.StripFences | docs/js/app-base.js:886 | The text without its fence markers contains no fence. |
| DocumentExtractor.ReadableContent | docs/js/app-base.js:882-896 | An empty input gives "". Unparsable text is returned with its fences removed. |
| DocumentExtractor.DocumentContent | docs/js/app-base.js:842-879 | A falsy value gives "". A string never throws: a fenced block that parses and converts gives `ContentFromObject` of the parsed value, and any other string gives the readable text. An object is converted through `ContentFromObject`, of its truthy object `result` or, without a truthy `result`, of itself. Other kinds give "". |
| DocumentExtractor.LongStrings | docs/js/app-base.js:1154 | The filter keeps only strings longer than 50 units, and never more of them than there are values. |
| DocumentExtractor.StepContent | docs/js/app-base.js:1129-1165 | A step without a truthy result shows no content. |
| DocumentExtractor.StepContentPrefersExtracted | docs/js/app-base.js:1134-1137 | Extracted text of at least 50 units is what the step shows. |
| DocumentExtractor.DownloadText | docs/js/app-base.js:784-800 | The file holds the content itself or the readable document (possibly empty) of what its JSON part parses to. Content that does not look like JSON is kept. JSON-looking content that parses and converts is always replaced by the conversion. |
| DocumentExtractor.StatusBadge | docs/js/app-base.js:17-44 | The badge for any status reply, each in both directions:<br>- "Connection Error" exactly for a failed request or a `null` body;<br>- "API Configured" exactly for a truthy `success` with both validity flags;<br>- "Invalid API Key" exactly for a truthy `success`, not both flags, and `api_configured`;<br>- "API Not Configured" exactly for a truthy `success`, not both flags, and no `api_configured`;<br>- "Error" exactly for a falsy `success`. |
| DocumentConverter.AddOverview | docs/js/app-base.js:1012-1014 | The overview ends up in the document when truthy, and is never written twice. |
| DocumentConverter.ImprovedSectionStep | docs/js/app-base.js:985-1001 | One section only appends. |
| DocumentConverter.ImprovedDeliverableStep | docs/js/app-base.js:975-1003 | One deliverable, when it does not throw, only appends. |
| DocumentConverter.SummaryDeliverableStep | docs/js/app-base.js:1017-1024 | One deliverable only appends. |
| DocumentConverter.DecisionStep | docs/js/app-base.js:1031-1041 | One decision only appends. |
| DocumentConverter.ActionStep | docs/js/app-base.js:1054-1062 | One action only appends. |
| DocumentConverter.LoopThrowsOnNull | docs/js/app-base.js:1031-1033 | A loop whose body reads a property of its item throws when any item is `null`. |
| DocumentConverter.LoopExtends | docs/js/app-base.js:975-1062 | A loop of appending steps keeps its starting text as a prefix. |
| DocumentConverter.ReadableDocument | docs/js/app-base.js:959-1068 | A falsy or non-object argument gives "". Any produced document is trimmed. |
| DocumentConverter.AppendSections | docs/js/app-base.js:985-1002 | The loop over an improved deliverable's sections computes the specified text. |
| DocumentConverter.AppendImprovedDeliverables | docs/js/app-base.js:975-1004 | The loop over the improved deliverables computes the specified text or throw. |
| DocumentConverter.AppendImproved | docs/js/app-base.js:965-1007 | The improved or refined block is as specified. |
| DocumentConverter.AppendSummary | docs/js/app-base.js:1010-1026 | The execution-summary block is as specified. |
| DocumentConverter.AppendDecisions | docs/js/app-base.js:1029-1042 | The key-decisions block is as specified. |
| DocumentConverter.AppendProgress | docs/js/app-base.js:1045-1065 | The progress-notes block is as specified. |
| DocumentConverter.ConvertJsonToReadableDocument | docs/js/app-base.js:959-1068 | The appending code computes `ReadableDocument`. |
| DocumentConverter.SummaryExtends | docs/js/app-base.js:1010-1026 | The execution-summary block only appends. |
| DocumentConverter.DecisionsExtend | docs/js/app-base.js:1029-1042 | The key-decisions block appends the heading and then only appends. Without an array it adds nothing. |
| DocumentConverter.ProgressExtends | docs/js/app-base.js:1045-1065 | The progress-notes block only appends. |
| DocumentConverter.BlocksInOrder | docs/js/app-base.js:959-1068 | The document is four blocks in fixed order, each only extending the text before it, then trimmed: improved summary, execution summary, key decisions, progress notes. |
| DocumentConverter.BlocksExtend | docs/js/app-base.js:1010-1065 | The last three blocks each extend the text before them. |
| DocumentConverter.HeadingSurvivesTrim | docs/js/app-base.js:1067 | The final trim keeps the "## Key Decisions" heading. |
| DocumentConverter.KeyDecisionsHeadingShown | docs/js/app-base.js:1029-1030 | An array of key decisions always puts "## Key Decisions" in the document. |
| DocumentConverter.NullDecisionThrows | docs/js/app-base.js:1031-1033 | A `null` key decision makes the conversion throw. |
| DocumentConverter.GuidedSectionStep | docs/js/app-base.js:1286-1297 | One section keeps the text ending in a blank line. |
| DocumentConverter.OutlineDeliverableStep | docs/js/app-base.js:1281-1300 | One improved deliverable keeps the text ending in a blank line. |
| DocumentConverter.ListedDeliverableStep | docs/js/app-base.js:1311-1318 | One listed deliverable keeps the text ending in a blank line. |
| DocumentConverter.JsonAsDocument | docs/js/app-base.js:1272-1323 | A falsy or non-object argument gives "". |
| DocumentConverter.JsonAsDocumentParagraphed | docs/js/app-base.js:1272-1323 | The text is empty or ends with a blank line. |
| DocumentConverter.AppendGuidedSections | docs/js/app-base.js:1286-1297 | The section loop computes the specified text or throw. |
| DocumentConverter.AppendOutline | docs/js/app-base.js:1281-1300 | The improved-deliverables loop computes the specified text or throw. |
| DocumentConverter.AppendListed | docs/js/app-base.js:1311-1318 | The listed-deliverables loop computes the specified text or throw. |
| DocumentConverter.FormatJsonAsDocument | docs/js/app-base.js:1272-1323 | The appending code computes `JsonAsDocument`. |
| DocumentSearch.FirstLongestBound | docs/js/app-base.js:643-651 | The choice is at least as long as every text scanned and as the start, and is one of them. |
| DocumentSearch.FirstLongestEarliest | docs/js/app-base.js:644 | Ties go to the earliest text, because replacing needs strictly greater length. |
| DocumentSearch.FirstLongestAppend | docs/js/app-base.js:643-652 | Scanning two runs of texts is scanning the second from the first's choice. |
| DocumentSearch.FirstLongestRestart | docs/js/app-base.js:647-650 | A nested walk that starts from "" and is then compared gives the same choice. |
| DocumentSearch.LongestFromLeaves | docs/js/app-base.js:643-652 | The entry loop chooses the first longest of the string leaves below it. |
| DocumentSearch.LongestTextLeaves | docs/js/app-base.js:637-655 | `buildDocumentFromObject` picks the first longest string value of the tree, in walk order. |
| DocumentSearch.LongestTextBound | docs/js/app-base.js:637-655 | The result is at least as long as every string value anywhere in the tree, and is one of them or "". |
| DocumentSearch.BuildDocumentFromObject | docs/js/app-base.js:637-655 | The recursive walk computes `LongestText`. |
| DocumentSearch.FormatObject | docs/js/app-base.js:1071-1126 | A string is returned unchanged. Any other falsy or non-object value gives "". |
| DocumentSearch.FormatObjectDefers | docs/js/app-base.js:1115-1122 | Own text under 50 units defers to `improved_deliverables`, and to `refined_deliverables` only when there is no truthy `improved_deliverables`. |
| DocumentSearch.FormatObjectOwn | docs/js/app-base.js:1075-1125 | Without a deferral the result is the object's own rendering, trimmed. |
| DocumentSearch.AppendSectionHeadings | docs/js/app-base.js:1087-1102 | The section loop computes the specified text. |
| DocumentSearch.AppendNamedDeliverables | docs/js/app-base.js:1082-1104 | The deliverable loop computes the specified text or throw. |
| DocumentSearch.FormatObjectAsDocument | docs/js/app-base.js:1071-1126 | The appending code computes `FormatObject`. |
| DocumentSearch.KeyPassBound | docs/js/app-base.js:918-931 | The key pass never shortens the content. It ends at least as long as every string under a probed key. |
| DocumentSearch.ContentKeyBound | docs/js/app-base.js:899-956 | A string of 50 or more units under a content key bounds the result from below, unless a conversion longer than 100 units was returned first. |
| DocumentSearch.LongConversionWins | docs/js/app-base.js:905-909 | A conversion longer than 100 units is returned as it is. |
| DocumentSearch.ExtractContentFromObject | docs/js/app-base.js:899-956 | The accumulating code computes `ContentFromObject`. |
| DocumentSearch.ScanForContent | docs/js/app-base.js:912-955 | The key scan, entry scan and fallback compute the specified content. |
| DocumentSearch.FinishScan | docs/js/app-base.js:933-955 | The entry scan and fallback compute the specified content. |
| DocumentSearch.ScanContentKeys | docs/js/app-base.js:918-931 | The content-key loop computes the specified content. |
| DocumentSearch.ScanEntries | docs/js/app-base.js:934-948 | The entry loop computes the specified content. |

## Left out

- DOM and UI work is not modelled: tab and step rendering, `displayResults`,
  `displayFinalDocumentTab`, the token prompt and `localStorage`, buttons, clipboard
  and Blob download. `checkAPIStatus` is reduced to the badge it chooses. The
  `api-status` element is assumed present. Whether the `workflow-status` element is
  present is a flag of the session (`PagesSession.statusShown`), because it decides
  whether a `null` status throws during a poll.
- `formatMarkdown` is an opaque rendering step. A step view ends with the value handed to it.
- `handleFormSubmit` and `displayResults` of `app-base.js` (the local-API front end)
  are DOM code around one `fetch`. The back-end side of that exchange is `WebApp.ExecuteResponse`.
- The JSON grammar is left out. `JSON.parse`, `JSON.stringify`, `json.loads` and
  Python's `repr` of lists and dicts are parameters, and the model does not relate
  them to each other.
- The network and the language model are parameters: `fetch`, `requests.post`, and
  the OpenRouter and GitHub endpoints. Prompt texts are not modelled, only the values
  each prompt interpolates.
- The time and random source are left out:
  - `generateRequestId` is a parameter;
  - `datetime.now` timestamps are not written to the modelled records;
  - the 3-second interval and the 200 ms delay are not modelled.
- The `setInterval` callbacks of the poll are async and could overlap. The model runs the ticks one after another.
- Floating-point values (`TEMPERATURE`, non-integer JSON numbers) are not modelled. Numbers are integers.
- Text details left out:
  - The message texts of the browser's own `TypeError`s and of CPython's `KeyError` / `TypeError` are not reproduced (`BrowserTypeError`, `TypeName`).
  - JavaScript `undefined` and `null` are merged: every live reader only tests truthiness or object-ness.
- `main.py`, `example.py` and `test_connection.py` are console scripts around the same calls and are not part of this model.
- Dead code is not modelled: the shadowed first `convertJsonToReadableDocument`
  (`app-base.js` lines 238-566) and the never-called helpers at lines 569-703.
  `buildDocumentFromObject` has no caller either. It is modelled on its own and not wired into the pipeline.
  `CommunicationAgent.format_for_presentation` (`agents.py` lines 400-408) has no caller and is not modelled.
- Python object identity is left out. `results["workflow_context"]` and `results["history"]` alias the orchestrator's fields, and the model copies them.
- Duplicate keys in a decoded object are not modelled: object keys are assumed distinct.
- I/O failures are left out: failures of `open`/`json.dump`, `os.makedirs` and a
  malformed event file (a `json.load` error) are not modelled. Logging and prints are left out.
- The `/api/validate` and index routes of `app.py` are left out. So is the exception branch of `get_status`, which cannot be reached for a string or missing key.
- WorkflowRunner.Request: a non-dict event or section ends the run with exit code 1
  and no writes, as a missing field does. The traceback Python prints instead of the
  "Missing task" message is not modelled.
- WorkflowRunner.Request: a truthy task or request id that is not a string is treated as missing. The script would go on with it.
- DocumentExtractor.StepContent: the contract states only the no-result case. The choice for short extracted text is left to `StepContentPrefersExtracted` and the body.
- BaseAgents.SliceForLog: a dict content fails with the TypeError of CPython before 3.12. From 3.12 slices are hashable and the same line raises a KeyError instead; either way the call fails.
- DocumentExtractor.DocumentContent: a truthy string `result` inside an object is only stated not to throw; its text is that of the string case.
