/**
  docs/js/github-pages-app.js: the browser front end that runs without the Flask
  back end.  A submitted task is sent to GitHub as a `repository_dispatch` event; the
  page then polls the repository's raw files for the result file the workflow runner
  writes, at most 60 times.  Network replies are inputs: the reply to the dispatch,
  and for each poll tick the replies for the status file and the result file.
 */
module PagesApp {
  import opened Wrappers
  import opened Text
  import opened JsonValue
  import WorkflowRunner

  const MaxPollAttempts := 60
  const TokenRequired := "GitHub token is required. Please provide a token."
  const InvalidRepo := "Invalid GitHub repository. Please set GITHUB_REPO."
  const TimeoutMessage := "Timeout waiting for results. The workflow may still be running."
  const EnterTask := "Please enter a task"
  const ExecutionFailed := "Workflow execution failed"
  const CompletedMessage := "Workflow completed successfully!"
  const EventType := "execute-workflow"

  // ----- the repository setting -----

  predicate NoSlash(s: string) {
    forall i :: 0 <= i < |s| ==> s[i] != '/'
  }

  /** Before the first slash, `IndexOf` has seen none. */
  lemma NoSlashBefore(s: string, n: nat)
    requires n <= |s| && (IndexOf(s, "/") == Some(n) || (IndexOf(s, "/").None? && n == |s|))
    ensures NoSlash(s[..n])
  {
    forall i | 0 <= i < n ensures s[..n][i] != '/' {
      assert NotAt(s, i, "/");
      assert s[i..][..1] == [s[i]];
    }
  }

  /** `const [owner, repo] = GITHUB_REPO.split('/')`: the text before the first slash,
      and the text after it up to the next slash, `undefined` (None) without a slash. */
  function RepoSegments(setting: string): (r: (string, Option<string>))
    ensures NoSlash(r.0) && (r.1.Some? ==> NoSlash(r.1.value))
    ensures r.1.None? ==> r.0 == setting
    ensures r.1.Some? ==> |r.0| < |setting| && setting[|r.0|] == '/' && setting[..|r.0|] == r.0
  {
    match IndexOf(setting, "/")
    case None =>
      NoSlashBefore(setting, |setting|);
      assert setting[..|setting|] == setting;
      (setting, None)
    case Some(i) =>
      NoSlashBefore(setting, i);
      assert setting[i..i + 1] == "/";
      var rest := setting[i + 1..];
      match IndexOf(rest, "/")
      case None =>
        NoSlashBefore(rest, |rest|);
        assert rest[..|rest|] == rest;
        (setting[..i], Some(rest))
      case Some(j) =>
        NoSlashBefore(rest, j);
        (setting[..i], Some(rest[..j]))
  }

  /** The check at lines 105-108: both segments present and non-empty. */
  predicate ValidRepo(setting: string) {
    var (owner, name) := RepoSegments(setting);
    owner != "" && name.Some? && name.value != ""
  }

  /** An `owner/name` setting splits back into its owner and name. */
  lemma RepoSegmentsOf(owner: string, name: string)
    requires NoSlash(owner) && NoSlash(name)
    ensures RepoSegments(owner + "/" + name) == (owner, Some(name))
  {
    SlashAfter(owner, name);
    var s := owner + "/" + name;
    assert s[|owner| + 1..] == name;
    assert s[..|owner|] == owner;
    NoSlashFound(name);
  }

  /** Segments after the second slash are ignored. */
  lemma RepoSegmentsOfLonger(owner: string, name: string, rest: string)
    requires NoSlash(owner) && NoSlash(name)
    ensures RepoSegments(owner + "/" + name + "/" + rest) == (owner, Some(name))
  {
    var t := owner + "/" + (name + "/" + rest);
    assert t == owner + "/" + name + "/" + rest;
    SlashAfter(owner, name + "/" + rest);
    assert t[|owner| + 1..] == name + "/" + rest;
    assert t[..|owner|] == owner;
    SlashAfter(name, rest);
    assert (name + "/" + rest)[..|name|] == name;
  }

  lemma SlashAfter(x: string, y: string)
    requires NoSlash(x)
    ensures IndexOf(x + "/" + y, "/") == Some(|x|)
  {
    var s := x + "/" + y;
    assert s[|x|..][..1] == "/";
    forall i | 0 <= i < |x| ensures NotAt(s, i, "/") {
      assert s[i..][0] == x[i];
    }
    IndexOfAt(s, "/", |x|);
  }

  lemma NoSlashFound(x: string)
    requires NoSlash(x)
    ensures IndexOf(x, "/").None?
  {
    forall i | 0 <= i <= |x| ensures NotAt(x, i, "/") {
      if i < |x| {
        assert x[i..][..1] == [x[i]];
      }
    }
    NoOccurrence(x, "/");
  }

  /** `${owner}` of a segment: a missing one prints as "undefined". */
  function SegmentText(segment: Option<string>): string {
    if segment.Some? then segment.value else "undefined"
  }

  // ----- triggerWorkflow (lines 98-135) -----

  /** A request the page sends: URL, `Authorization` header and JSON body. */
  datatype Dispatch = Dispatch(url: string, authorization: string, body: Json)

  /** A reply to `fetch`: the request failed, or a response with its `ok` flag, its
      status text and what `response.json()` resolves to (None when the body is not JSON). */
  datatype HttpReply = NetworkFailure | Reply(ok: bool, statusText: string, json: Option<Json>)

  /** An exception the page catches: an `Error` with a message, or a `TypeError` raised
      by the browser (a failed fetch, a property read on `null`) whose message is the
      browser's own text. */
  datatype JsError = Raised(message: string) | BrowserTypeError

  function DispatchBody(task: string, requestId: string): Json {
    JObj([("event_type", JStr(EventType)),
          ("client_payload", JObj([("task", JStr(task)), ("request_id", JStr(requestId))]))])
  }

  /** The dispatch request `triggerWorkflow(task)` sends with token `token` and
      repository setting `setting`, or the error it throws before sending. */
  function DispatchRequest(token: string, setting: string, task: string, requestId: string): (r: Result<Dispatch, JsError>)
    ensures token == "" ==> r == Err(Raised(TokenRequired))
    ensures token != "" ==> (r.Ok? <==> ValidRepo(setting))
    ensures token != "" && !ValidRepo(setting) ==> r == Err(Raised(InvalidRepo))
    ensures r.Ok? ==> r.value.body == DispatchBody(task, requestId) && r.value.authorization == "token " + token
    ensures r.Ok? ==> r.value.url == "https://api.github.com/repos/" + setting[..|RepoSegments(setting).0| + 1 +
                                                                        |RepoSegments(setting).1.value|] + "/dispatches"
  {
    if token == "" then Err(Raised(TokenRequired))
    else
      var (owner, name) := RepoSegments(setting);
      if owner == "" || name.None? || name.value == "" then Err(Raised(InvalidRepo))
      else
        assert setting[..|owner| + 1 + |name.value|] == owner + "/" + name.value by {
          assert setting[|owner| + 1..][..|name.value|] == name.value;
        }
        Ok(Dispatch("https://api.github.com/repos/" + owner + "/" + name.value + "/dispatches", "token " + token,
                    DispatchBody(task, requestId)))
  }

  /** What `triggerWorkflow` does with the reply to its dispatch (lines 129-134). */
  function DispatchResult(reply: HttpReply, requestId: string): (r: Result<string, JsError>)
    ensures r.Ok? <==> reply.Reply? && reply.ok
    ensures r.Ok? ==> r.value == requestId
    ensures reply.Reply? && !reply.ok && reply.json.None? ==>
              r == Err(Raised("Failed to trigger workflow: " + reply.statusText))
    ensures reply.Reply? && !reply.ok && reply.json.Some? && reply.json.value != JNull ==>
              r == Err(Raised("Failed to trigger workflow: "
                              + (if JsTruthy(Get(reply.json.value, "message")) then JsString(Get(reply.json.value, "message"))
                                 else reply.statusText)))
    // `error.message` of a `null` error body is a browser TypeError.
    ensures reply.Reply? && !reply.ok && reply.json == Some(JNull) ==> r == Err(BrowserTypeError)
    ensures reply.NetworkFailure? ==> r == Err(BrowserTypeError)
    ensures r.Err? && r.error.Raised? ==> StartsWith(r.error.message, "Failed to trigger workflow: ")
  {
    match reply
    case NetworkFailure => Err(BrowserTypeError)
    case Reply(ok, statusText, json) =>
      if ok then Ok(requestId)
      else
        var error := if json.Some? then json.value else JObj([("message", JStr(statusText))]);
        if error == JNull then Err(BrowserTypeError)
        else
          var message := Get(error, "message");
          var text := if JsTruthy(message) then JsString(message) else statusText;
          var m := "Failed to trigger workflow: " + text;
          assert m[..|"Failed to trigger workflow: "|] == "Failed to trigger workflow: ";
          Err(Raised(m))
  }

  /** The event GitHub delivers to the runner for a dispatch with body `body`. */
  function DispatchedEvent(body: Json): Json {
    JObj([("action", Get(body, "event_type")), ("client_payload", Get(body, "client_payload"))])
  }

  /** The runner accepts the event a dispatch of a non-empty task produces and takes
      the task and request id from it unchanged. */
  lemma DispatchReachesRunner(task: string, requestId: string)
    requires task != "" && requestId != ""
    ensures WorkflowRunner.Request(DispatchedEvent(DispatchBody(task, requestId))) == Some((task, requestId))
  {
    var body := DispatchBody(task, requestId);
    LookupFirst(body.fields, 0);
    LookupFirst(body.fields, 1);
    var event := DispatchedEvent(body);
    LookupFirst(event.fields, 1);
    WorkflowRunner.ClientPayloadRequest(event, task, requestId);
  }

  // ----- pollForResults (lines 138-175) -----

  const RawBase := "https://raw.githubusercontent.com/"

  /** The status and result URLs polled for request `requestId`. */
  function PollUrls(setting: string, requestId: string): (r: (string, string))
    ensures var prefix := RawBase + RepoSegments(setting).0 + "/" + SegmentText(RepoSegments(setting).1) + "/main/";
            r.0 == prefix + WorkflowRunner.StatusPath(requestId) && r.1 == prefix + WorkflowRunner.ResultPath(requestId)
  {
    var (owner, name) := RepoSegments(setting);
    var branch := RawBase + owner + "/" + SegmentText(name) + "/main/";
    (branch + "results/" + requestId + ".status.json", branch + "results/" + requestId + ".json")
  }

  /** One poll tick: the result, or nothing yet. */
  datatype Tick = Found(data: Json) | Pending

  /** Lines 149-167 of a tick with replies `status` and `result`, on a page that has a
      `workflow-status` element exactly when `statusShown`.  `updateWorkflowStatus`
      (lines 178-184) reads `status.status` only when that element exists, so a `null`
      status document throws only then; an undecodable one always throws; and any throw
      ends the tick without a result. */
  function TickOf(statusShown: bool, status: HttpReply, result: HttpReply): (t: Tick)
    ensures t.Found? ==> result.Reply? && result.ok && result.json == Some(t.data)
    ensures result.NetworkFailure? || (result.Reply? && !result.ok) ==> t == Pending
    ensures status.Reply? && !status.ok && result.Reply? && result.ok && result.json.Some? ==> t == Found(result.json.value)
    ensures status.Reply? && status.ok && status.json == Some(JNull) ==>
              (t.Found? <==> !statusShown && result.Reply? && result.ok && result.json.Some?)
    // A status document that is shown without throwing, or skipped as not ok, leaves
    // the tick to the result: it resolves exactly on an ok, decoded result.
    ensures status.Reply? && (!status.ok || (status.json.Some? && (status.json.value != JNull || !statusShown))) ==>
              (t.Found? <==> result.Reply? && result.ok && result.json.Some?)
    // A failed status fetch or an undecodable ok status is caught and ends the tick.
    ensures status.NetworkFailure? || (status.Reply? && status.ok && status.json.None?) ==> t == Pending
  {
    var statusThrows := status.NetworkFailure? || (status.ok && (status.json.None? || (statusShown && status.json.value == JNull)));
    if statusThrows then Pending
    else if result.Reply? && result.ok && result.json.Some? then Found(result.json.value)
    else Pending
  }

  /** How the poll's promise settles: resolved with the result on a tick, or rejected
      with the timeout error after the last tick. */
  datatype PollOutcome = Resolved(data: Json, attempts: nat) | Rejected(attempts: nat)

  /** The poll after `attempts` ticks without a result; `replies(k)` are the replies of
      tick k + 1. */
  function Poll(statusShown: bool, replies: nat -> (HttpReply, HttpReply), attempts: nat): PollOutcome
    requires attempts < MaxPollAttempts
    decreases MaxPollAttempts - attempts
  {
    var tick := TickOf(statusShown, replies(attempts).0, replies(attempts).1);
    if tick.Found? then Resolved(tick.data, attempts + 1)
    else if attempts + 1 >= MaxPollAttempts then Rejected(attempts + 1)
    else Poll(statusShown, replies, attempts + 1)
  }

  /** The poll resolves with the first tick's result among the remaining ticks, counting
      that tick; with no result within the limit it rejects after exactly the limit. */
  lemma {:induction false} PollSettles(statusShown: bool, replies: nat -> (HttpReply, HttpReply), attempts: nat)
    requires attempts < MaxPollAttempts
    ensures var r := Poll(statusShown, replies, attempts);
            (r.Resolved? ==> attempts < r.attempts <= MaxPollAttempts &&
                             TickOf(statusShown, replies(r.attempts - 1).0, replies(r.attempts - 1).1) == Found(r.data) &&
                             forall k :: attempts <= k < r.attempts - 1 ==> TickOf(statusShown, replies(k).0, replies(k).1).Pending?) &&
            (r.Rejected? ==> r.attempts == MaxPollAttempts &&
                             forall k :: attempts <= k < MaxPollAttempts ==> TickOf(statusShown, replies(k).0, replies(k).1).Pending?)
    decreases MaxPollAttempts - attempts
  {
    if TickOf(statusShown, replies(attempts).0, replies(attempts).1).Pending? && attempts + 1 < MaxPollAttempts {
      PollSettles(statusShown, replies, attempts + 1);
    }
  }

  /** `pollForResults`: one `setInterval` tick per iteration, in order. */
  method PollForResults(statusShown: bool, replies: nat -> (HttpReply, HttpReply)) returns (r: PollOutcome)
    ensures r == Poll(statusShown, replies, 0)
    ensures r.Resolved? ==> 1 <= r.attempts <= MaxPollAttempts &&
                            TickOf(statusShown, replies(r.attempts - 1).0, replies(r.attempts - 1).1) == Found(r.data) &&
                            forall k :: 0 <= k < r.attempts - 1 ==> TickOf(statusShown, replies(k).0, replies(k).1).Pending?
    ensures r.Rejected? ==> r.attempts == MaxPollAttempts &&
                            forall k :: 0 <= k < MaxPollAttempts ==> TickOf(statusShown, replies(k).0, replies(k).1).Pending?
  {
    PollSettles(statusShown, replies, 0);
    var attempts := 0;
    while true
      invariant attempts < MaxPollAttempts
      invariant Poll(statusShown, replies, attempts) == Poll(statusShown, replies, 0)
      decreases MaxPollAttempts - attempts
    {
      attempts := attempts + 1;
      var (status, result) := replies(attempts - 1);
      var tick := TickOf(statusShown, status, result);
      if tick.Found? {
        return Resolved(tick.data, attempts);
      }
      if attempts >= MaxPollAttempts {
        return Rejected(attempts);
      }
    }
  }

  // ----- handleFormSubmit (lines 187-257) -----

  /** What the page shows at the end: an error (with the token prompt when the token is
      missing), the error text of a browser `TypeError`, or a status message. */
  datatype Notice = ShowError(text: string, tokenPrompt: bool) | ShowBrowserError | ShowMessage(text: string)

  /** The error line the catch block shows for an exception. */
  function Caught(e: JsError): Notice {
    match e
    case Raised(m) => ShowError("Error: " + m, false)
    case BrowserTypeError => ShowBrowserError
  }

  /** Lines 233-242 once the poll has settled: the notice, and the new
      `currentResults` when it is assigned. */
  function Settled(outcome: PollOutcome): (r: (Notice, Option<Json>))
    ensures outcome.Rejected? ==> r == (ShowError("Error: " + TimeoutMessage, false), None)
    ensures r.1.Some? <==> outcome.Resolved? && outcome.data != JNull && JsTruthy(Get(outcome.data, "success"))
    ensures r.1.Some? ==> r.1.value == Get(outcome.data, "results") && r.0 == ShowMessage(CompletedMessage)
    ensures outcome.Resolved? && outcome.data != JNull && !JsTruthy(Get(outcome.data, "success")) ==>
              r.0.ShowError? && !r.0.tokenPrompt &&
              (JsTruthy(Get(outcome.data, "error")) ==> r.0.text == JsString(Get(outcome.data, "error"))) &&
              (!JsTruthy(Get(outcome.data, "error")) ==> r.0.text == ExecutionFailed)
    // Reading `data.success` of a `null` result document is a browser TypeError.
    ensures outcome.Resolved? && outcome.data == JNull ==> r == (ShowBrowserError, None)
  {
    match outcome
    case Rejected(_) => (Caught(Raised(TimeoutMessage)), None)
    case Resolved(data, _) =>
      if data == JNull then (ShowBrowserError, None)
      else if JsTruthy(Get(data, "success")) then (ShowMessage(CompletedMessage), Some(Get(data, "results")))
      else
        var error := Get(data, "error");
        (ShowError(if JsTruthy(error) then JsString(error) else ExecutionFailed, false), None)
  }

  /** The effect of one submission: the notice shown, the dispatch sent if any, and the
      new `currentRequestId` and `currentResults` when they are assigned. */
  datatype Submitted = Submitted(notice: Notice, sent: Option<Dispatch>, requestId: Option<string>, results: Option<Json>)

  /** A submission of input `input` with token `token` and repository setting
      `setting`, on a page with a `workflow-status` element exactly when `statusShown`; `requestId` is the id `generateRequestId` draws, `reply` the reply to
      the dispatch and `replies` those of the poll ticks. */
  function Submission(token: string, setting: string, statusShown: bool, input: string, requestId: string,
                      reply: HttpReply, replies: nat -> (HttpReply, HttpReply)): (s: Submitted)
    ensures JsTrim(input) == "" ==> s == Submitted(ShowError(EnterTask, false), None, None, None)
    ensures JsTrim(input) != "" && token == "" ==> s == Submitted(ShowError(TokenRequired, true), None, None, None)
    ensures s.sent.Some? <==> JsTrim(input) != "" && token != "" && ValidRepo(setting)
    ensures s.sent.Some? ==> s.sent.value.body == DispatchBody(JsTrim(input), requestId)
    ensures s.requestId.Some? <==> s.sent.Some? && reply.Reply? && reply.ok
    ensures s.requestId.Some? ==> s.requestId.value == requestId
    ensures s.requestId.Some? ==> (s.notice, s.results) == Settled(Poll(statusShown, replies, 0))
    ensures s.requestId.None? ==> s.results.None?
  {
    var task := JsTrim(input);
    if task == "" then Submitted(ShowError(EnterTask, false), None, None, None)
    else if token == "" then Submitted(ShowError(TokenRequired, true), None, None, None)
    else Dispatched(token, setting, statusShown, task, requestId, reply, replies)
  }

  /** Lines 223-242: the part of a submission after the input checks, for the trimmed
      task `task`. */
  function Dispatched(token: string, setting: string, statusShown: bool, task: string, requestId: string,
                      reply: HttpReply, replies: nat -> (HttpReply, HttpReply)): Submitted
  {
    match DispatchRequest(token, setting, task, requestId)
    case Err(e) => Submitted(Caught(e), None, None, None)
    case Ok(d) =>
      match DispatchResult(reply, requestId)
      case Err(e) => Submitted(Caught(e), Some(d), None, None)
      case Ok(id) =>
        var (notice, results) := Settled(Poll(statusShown, replies, 0));
        Submitted(notice, Some(d), Some(id), results)
  }

  /** The page's module state, with the token and repository setting it loaded with. */
  class PagesSession {
    const token: string
    const setting: string
    /** Whether the page has a `workflow-status` element. */
    const statusShown: bool
    var currentResults: Json
    var currentRequestId: Option<string>
    /** Every dispatch request sent, oldest first. */
    var dispatches: seq<Dispatch>

    constructor(token: string, setting: string, statusShown: bool)
      ensures this.token == token && this.setting == setting && this.statusShown == statusShown
      ensures currentResults == JNull && currentRequestId.None? && dispatches == []
    {
      this.token := token;
      this.setting := setting;
      this.statusShown := statusShown;
      currentResults := JNull;
      currentRequestId := None;
      dispatches := [];
    }

    /** `handleFormSubmit` for task input text `input`. */
    method HandleFormSubmit(input: string, requestId: string, reply: HttpReply, replies: nat -> (HttpReply, HttpReply))
      returns (notice: Notice)
      modifies this
      ensures var s := Submission(token, setting, statusShown, input, requestId, reply, replies);
              notice == s.notice &&
              dispatches == old(dispatches) + (if s.sent.Some? then [s.sent.value] else []) &&
              currentRequestId == (if s.requestId.Some? then s.requestId else old(currentRequestId)) &&
              currentResults == (if s.results.Some? then s.results.value else old(currentResults))
    {
      var task := JsTrim(input);
      if task == "" {
        return ShowError(EnterTask, false);
      }
      if token == "" {
        return ShowError(TokenRequired, true);
      }
      notice := SubmitTask(task, requestId, reply, replies);
    }

    /** Lines 223-242: dispatches `task`, then waits for its results. */
    method SubmitTask(task: string, requestId: string, reply: HttpReply, replies: nat -> (HttpReply, HttpReply))
      returns (notice: Notice)
      modifies this
      ensures var s := Dispatched(token, setting, statusShown, task, requestId, reply, replies);
              notice == s.notice &&
              dispatches == old(dispatches) + (if s.sent.Some? then [s.sent.value] else []) &&
              currentRequestId == (if s.requestId.Some? then s.requestId else old(currentRequestId)) &&
              currentResults == (if s.results.Some? then s.results.value else old(currentResults))
    {
      var id := TriggerWorkflow(task, requestId, reply);
      if id.Err? {
        return Caught(id.error);
      }
      currentRequestId := Some(id.value);
      notice := AwaitResults(replies);
    }

    /** Lines 231-242: waits for the poll and shows what it brought. */
    method AwaitResults(replies: nat -> (HttpReply, HttpReply)) returns (notice: Notice)
      modifies this`currentResults
      ensures var (n, results) := Settled(Poll(statusShown, replies, 0));
              notice == n && currentResults == (if results.Some? then results.value else old(currentResults))
    {
      var outcome := PollForResults(statusShown, replies);
      if outcome.Rejected? {
        return Caught(Raised(TimeoutMessage));
      }
      var data := outcome.data;
      if data == JNull {
        return ShowBrowserError;
      }
      if JsTruthy(Get(data, "success")) {
        currentResults := Get(data, "results");
        notice := ShowMessage(CompletedMessage);
      } else {
        var error := Get(data, "error");
        notice := ShowError(if JsTruthy(error) then JsString(error) else ExecutionFailed, false);
      }
    }

    /** `triggerWorkflow(task)`: sends the dispatch unless a check fails first. */
    method TriggerWorkflow(task: string, requestId: string, reply: HttpReply) returns (r: Result<string, JsError>)
      modifies this
      ensures var d := DispatchRequest(token, setting, task, requestId);
              (r == if d.Ok? then DispatchResult(reply, requestId) else Err(d.error)) &&
              dispatches == old(dispatches) + (if d.Ok? then [d.value] else [])
      ensures unchanged(this`currentResults, this`currentRequestId)
    {
      var d := DispatchRequest(token, setting, task, requestId);
      if d.Err? {
        return Err(d.error);
      }
      dispatches := dispatches + [d.value];
      r := DispatchResult(reply, requestId);
    }
  }
}
