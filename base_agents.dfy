/**
  base_agent.py: the key check an agent makes when it is built, the chat request
  `call_llm` assembles and the way it reads the OpenRouter reply, `format_output`, and
  the abstract `process`.  The HTTP exchange is a parameter `send`, so the model states
  what is sent and how each kind of reply is turned into a result or an exception.
 */
module BaseAgents {
  import opened Wrappers
  import opened Text
  import opened JsonValue
  import opened PyRuntime
  import opened Configuration

  /** The identity an agent reports in `format_output`. */
  datatype Agent = Agent(name: string, role: string)

  datatype ChatMessage = ChatMessage(role: string, content: string)

  /** The parts of the POST to `/chat/completions` that depend on the call. */
  datatype Request = Request(authorization: string, model: string, messages: seq<ChatMessage>, maxTokens: int)

  /** What `requests.post` produced: an exception of the `requests` library
      (`detail` is its `str`), or a response with its status, its decoded body (or the
      text of the decode error) and the `str` of the `HTTPError` `raise_for_status`
      would raise. */
  datatype HttpReply =
    | Unreachable(detail: string)
    | Reply(status: int, body: Result<Json, string>, reason: string)

  const KeyNotSetMessage := "OPENROUTER_API_KEY not set in environment variables"
  const KeyMissingMessage := "OPENROUTER_API_KEY is missing or empty"
  const UnexpectedFormatMessage := "Unexpected response format from OpenRouter API"
  const NotImplementedMessage := "Subclasses must implement process method"

  /** `BaseAgent.__init__`: a missing or empty key raises; otherwise the shared key is
      stripped in place, so a key of only whitespace passes and is left as "". */
  method InitAgent(config: Config, name: string, role: string) returns (r: Result<Agent, PyError>)
    modifies config
    ensures Blank(old(config.apiKey)) <==> r.Err?
    ensures r.Err? ==> r.error == ValueError(KeyNotSetMessage)
    ensures r.Ok? ==> r.value == Agent(name, role)
    ensures config.apiKey == KeyAfterValidate(old(config.apiKey))
  {
    if config.apiKey.None? || config.apiKey.value == [] {
      return Err(ValueError(KeyNotSetMessage));
    }
    config.apiKey := Some(PyStrip(config.apiKey.value));
    r := Ok(Agent(name, role));
  }

  /** The `messages` list of `call_llm`: the system instructions when there are any,
      then the caller's context messages, then the prompt as the one user message. */
  function Messages(instructions: string, context: seq<ChatMessage>, prompt: string): (r: seq<ChatMessage>)
    ensures |r| == |context| + 1 + (if instructions != [] then 1 else 0)
    ensures r[|r| - 1] == ChatMessage("user", prompt)
    ensures instructions != [] ==> r[0] == ChatMessage("system", instructions) && r[1..|r| - 1] == context
    ensures instructions == [] ==> r[..|r| - 1] == context
    ensures forall i :: 0 <= i < |r| - 1 ==> r[i].role != "user" || r[i] in context
  {
    (if instructions != [] then [ChatMessage("system", instructions)] else []) + context + [ChatMessage("user", prompt)]
  }

  /** The `ValueError` text for a 401 reply: it shows at most the first ten characters of
      the key and the model name. */
  const AuthFailureHead :=
    "401 Unauthorized: Authentication failed.\n"
    + "Possible causes:\n  1. Invalid or expired API key\n  2. API key doesn't have access to this model\n  3. API key format is incorrect\n\n"
    + "Please verify your API key at: https://openrouter.ai/keys\n"
    + "Current API key (first 10 chars): "

  function AuthFailureMessage(key: string, model: string): string {
    AuthFailureHead + Prefix(key, 10) + "...\nModel: " + model
  }

  /** `choice["message"]["content"]`. */
  function MessageContent(choice: Json): (r: Result<Json, PyError>)
    ensures r.Ok? <==> Lookup(choice, "message").Some? && Lookup(Lookup(choice, "message").value, "content").Some?
  {
    match PyGetItem(choice, "message")
    case Err(e) => Err(e)
    case Ok(message) => PyGetItem(message, "content")
  }

  /** A value `content[:100]` can slice: only a string or a list. */
  predicate Sliceable(content: Json) {
    content.JStr? || content.JArr?
  }

  /** `content[:100]`, built for the debug log before the content is returned: slicing
      `None`, a number or a bool raises `TypeError`, and so does a dict, whose keys
      cannot be slices. */
  function SliceForLog(content: Json): (r: Result<Json, PyError>)
    ensures r.Ok? <==> Sliceable(content)
    ensures r.Ok? ==> r.value == content
    ensures r.Err? ==> r.error.TypeError?
  {
    match content
    case JStr(_) => Ok(content)
    case JArr(_) => Ok(content)
    case JObj(_) => Err(TypeError("unhashable type: 'slice'"))
    case _ => Err(TypeError("'" + TypeName(content) + "' object is not subscriptable"))
  }

  /** The `content` of the first choice of a body with a non-empty `choices` list. */
  function FirstContent(body: Json): Option<Json> {
    match Lookup(body, "choices")
    case Some(JArr(items)) =>
      if items != [] && Lookup(items[0], "message").Some? && Lookup(Lookup(items[0], "message").value, "content").Some?
      then Some(Lookup(Lookup(items[0], "message").value, "content").value)
      else None
    case _ => None
  }

  /** A reply body of the documented shape: a non-empty `choices` list whose first entry
      holds `message.content`, and that content a string or a list, which the debug log
      can slice. */
  predicate WellFormedBody(body: Json) {
    FirstContent(body).Some? && Sliceable(FirstContent(body).value)
  }

  /** The tail of `call_llm` once a decoded body is in hand:
      `"choices" in result and len(result["choices"]) > 0`, then
      `result["choices"][0]["message"]["content"]`, sliced for the debug log before it
      is returned.  Python's own `TypeError` / `KeyError` escape for bodies of other
      shapes. */
  function BodyContent(result: Json): (r: Result<Json, PyError>)
    ensures r.Ok? <==> WellFormedBody(result)
    ensures r.Ok? ==> r.value == FirstContent(result).value
    ensures FirstContent(result).Some? && !Sliceable(FirstContent(result).value) ==> r.Err? && r.error.TypeError?
    ensures result.JObj? && Lookup(result, "choices").None? ==> r == Err(ValueError(UnexpectedFormatMessage))
  {
    match result
    case JObj(_) =>
      (match Lookup(result, "choices")
       case None => Err(ValueError(UnexpectedFormatMessage))
       case Some(choices) =>
         (match choices
          case JArr(items) =>
            if items == [] then Err(ValueError(UnexpectedFormatMessage))
            else
              (match MessageContent(items[0])
               case Err(e) => Err(e)
               case Ok(content) => SliceForLog(content))
          case JStr(s) =>
            if s == [] then Err(ValueError(UnexpectedFormatMessage))
            else Err(TypeError("string indices must be integers, not 'str'"))
          case JObj(fields) => if fields == [] then Err(ValueError(UnexpectedFormatMessage)) else Err(KeyError("0"))
          case _ => Err(TypeError("object of type '" + TypeName(choices) + "' has no len()"))))
    case JArr(items) =>
      if JStr("choices") in items then Err(TypeError("list indices must be integers or slices, not str"))
      else Err(ValueError(UnexpectedFormatMessage))
    case JStr(s) =>
      if Contains(s, "choices") then Err(TypeError("string indices must be integers, not 'str'"))
      else Err(ValueError(UnexpectedFormatMessage))
    case _ => Err(TypeError("argument of type '" + TypeName(result) + "' is not iterable"))
  }

  /** The request `call_llm` posts with the key `key`. */
  function RequestFor(key: string, instructions: string, prompt: string, context: seq<ChatMessage>): Request {
    Request("Bearer " + key, ModelName, Messages(instructions, context, prompt), MaxTokens)
  }

  /** How `call_llm` turns what `requests.post` produced into its result: a 401 names the
      key's first characters, other 4xx/5xx statuses and transport failures become a
      bare `Exception`, and a decoded body is read by `BodyContent`. */
  function ReplyResult(key: string, reply: HttpReply): (r: Result<Json, PyError>)
    ensures r.Ok? <==> reply.Reply? && !(400 <= reply.status < 600) && reply.body.Ok? && WellFormedBody(reply.body.value)
    ensures reply.Reply? && reply.status == 401 ==> r == Err(ValueError(AuthFailureMessage(key, ModelName)))
    ensures reply.Reply? && 400 <= reply.status < 600 && reply.status != 401 ==> r.Err? && r.error.BareException?
    ensures reply.Unreachable? ==> r == Err(BareException("Failed to call OpenRouter API: " + reply.detail))
  {
    match reply
    case Unreachable(detail) => Err(BareException("Failed to call OpenRouter API: " + detail))
    case Reply(status, body, reason) =>
      if status == 401 then Err(ValueError(AuthFailureMessage(key, ModelName)))
      else if 400 <= status < 600 then
        Err(BareException("Failed to call OpenRouter API (HTTP " + IntToString(status) + "): " + reason))
      else
        match body
        case Err(detail) => Err(BareException("Failed to call OpenRouter API: " + detail))
        case Ok(result) => BodyContent(result)
  }

  /** `call_llm(prompt, context)` of an agent whose instructions are `instructions`, with
      the shared key `key`: a missing or blank key raises before anything is sent. */
  function CallLlm(key: Option<string>, instructions: string, prompt: string, context: seq<ChatMessage>,
                   send: Request -> HttpReply): (r: Result<Json, PyError>)
    ensures key.None? || PyStrip(key.value) == [] ==> r == Err(ValueError(KeyMissingMessage))
    ensures key.Some? && PyStrip(key.value) != [] ==>
              r == ReplyResult(key.value, send(RequestFor(key.value, instructions, prompt, context)))
  {
    if key.None? || PyStrip(key.value) == [] then Err(ValueError(KeyMissingMessage))
    else ReplyResult(key.value, send(RequestFor(key.value, instructions, prompt, context)))
  }

  /** A call returns text exactly when the key is usable, the reply is neither an HTTP
      error nor undecodable, and the body has the documented shape. */
  lemma CallLlmSucceeds(key: Option<string>, instructions: string, prompt: string, context: seq<ChatMessage>,
                        send: Request -> HttpReply)
    ensures CallLlm(key, instructions, prompt, context, send).Ok?
            <==> key.Some? && PyStrip(key.value) != []
                 && var reply := send(RequestFor(key.value, instructions, prompt, context));
                    reply.Reply? && !(400 <= reply.status < 600) && reply.body.Ok? && WellFormedBody(reply.body.value)
  {
  }

  /** `format_output(result)`: the agent's name and role, the result unchanged, and
      status "completed". */
  function FormatOutput(agent: Agent, result: Json): (r: Json)
    ensures Lookup(r, "agent") == Some(JStr(agent.name))
    ensures Lookup(r, "role") == Some(JStr(agent.role))
    ensures Lookup(r, "result") == Some(result)
    ensures Lookup(r, "status") == Some(JStr("completed"))
    ensures r.JObj? && |r.fields| == 4
  {
    var fields := [("agent", JStr(agent.name)), ("role", JStr(agent.role)), ("result", result), ("status", JStr("completed"))];
    LookupFirst(fields, 0);
    LookupFirst(fields, 1);
    LookupFirst(fields, 2);
    LookupFirst(fields, 3);
    JObj([("agent", JStr(agent.name)), ("role", JStr(agent.role)), ("result", result), ("status", JStr("completed"))])
  }

  /** The base `process`: always raises `NotImplementedError`, whatever the task. */
  function Process(agent: Agent, task: string, context: Json): (r: Result<Json, PyError>)
    ensures r.Err? && r.error.NotImplementedError?
  {
    Err(NotImplementedError(NotImplementedMessage))
  }
}
