/** The documentation orchestration of src/agents/durable_agents.py and its
    start route. This version reads the query from a dict input only, keeps
    the two DeepWiki calls on one conversation thread and gives the
    CodeStyle call a thread of its own, and takes the agents' "response"
    entries as its output. */
module AgentApp {
  import opened Wrappers
  import opened Json
  import opened Responses
  import opened Orchestration

  const DefaultQuery := "Generate comprehensive documentation"
  const FocusSuffix := ". Focus on architecture and key patterns."
  const RefinePrompt := "Enhance the documentation with more code examples and best practices."
  const StylePrompt := "Generate a style guide that aligns with the patterns discussed in the wiki."

  /** `input_data.get("query", default) if input_data else default`: a falsy
      input gives the default, an object its "query", and any other truthy
      value has no `get`. */
  function QueryOf(input: Json): (q: Result<Json, Fault>)
    ensures !Truthy(input) ==> q == Success(JStr(DefaultQuery))
    ensures Truthy(input) && input.JObj? ==> q == Success(GetOr(input.fields, "query", JStr(DefaultQuery)))
    ensures q.Failure? <==> Truthy(input) && !input.JObj?
    ensures q.Failure? ==> q.error == AttributeError
  {
    if !Truthy(input) then Success(JStr(DefaultQuery))
    else if input.JObj? then Success(GetOr(input.fields, "query", JStr(DefaultQuery)))
    else Failure(AttributeError)
  }

  /** The threads the orchestration opens, numbered in the order it opens
      them: the wiki thread, then the style thread. */
  const WikiThread: nat := 0
  const StyleThread: nat := 1

  datatype Call = Call(agent: AgentName, prompt: Prompt, thread: nat)

  /** The output object: "wiki", "styleGuide", "success". */
  datatype Documentation = Documentation(wiki: Json, styleGuide: Json, success: bool)

  datatype Step = Invoke(call: Call) | Finish(result: Result<Documentation, Fault>)

  /** `result.get("response", "")` on an agent's result. */
  function ResponseOf(result: Json): (r: Result<Json, Fault>)
    ensures r.Failure? <==> !result.JObj?
    ensures r.Success? ==> r.value == GetOr(result.fields, "response", JStr(""))
  {
    if result.JObj? then Success(GetOr(result.fields, "response", JStr(""))) else Failure(AttributeError)
  }

  /** documentation_orchestration, replayed with the agent results delivered
      so far. */
  function Orchestrate(input: Json, results: seq<Json>): (step: Step)
    ensures step.Invoke? <==> QueryOf(input).Success? && |results| < 3
    ensures QueryOf(input).Failure? ==> step == Finish(Failure(AttributeError))
    ensures step.Finish? && step.result.Success? ==> step.result.value.success
  {
    match QueryOf(input)
    case Failure(e) => Finish(Failure(e))
    case Success(query) =>
      if |results| == 0 then Invoke(Call(DeepWikiAgent, QueryThen(query, FocusSuffix), WikiThread))
      else if |results| == 1 then Invoke(Call(DeepWikiAgent, Literal(RefinePrompt), WikiThread))
      else if |results| == 2 then Invoke(Call(CodeStyleAgent, Literal(StylePrompt), StyleThread))
      else
        match ResponseOf(results[1])
        case Failure(e) => Finish(Failure(e))
        case Success(wiki) =>
          match ResponseOf(results[2])
          case Failure(e) => Finish(Failure(e))
          case Success(style) => Finish(Success(Documentation(wiki, style, true)))
  }

  /** The three calls in order: the refinement continues the wiki
      conversation on the same thread, and the style guide starts a thread of
      its own; the calls never depend on what the agents answered. */
  lemma CallSequence(input: Json, r0: Json, r1: Json)
    requires QueryOf(input).Success?
    ensures var q := QueryOf(input).value;
      Orchestrate(input, []) == Invoke(Call(DeepWikiAgent, QueryThen(q, FocusSuffix), WikiThread))
      && Orchestrate(input, [r0]) == Invoke(Call(DeepWikiAgent, Literal(RefinePrompt), WikiThread))
      && Orchestrate(input, [r0, r1]) == Invoke(Call(CodeStyleAgent, Literal(StylePrompt), StyleThread))
      && Orchestrate(input, []).call.thread == Orchestrate(input, [r0]).call.thread
      && Orchestrate(input, [r0, r1]).call.thread != Orchestrate(input, [r0]).call.thread
  {
  }

  /** The output carries the agents' "response" texts unchanged, "" when an
      agent gave none. */
  lemma OutputCarriesResponses(input: Json, r0: Json, wiki: seq<(string, Json)>, style: seq<(string, Json)>)
    requires QueryOf(input).Success?
    ensures Orchestrate(input, [r0, JObj(wiki), JObj(style)])
      == Finish(Success(Documentation(GetOr(wiki, "response", JStr("")), GetOr(style, "response", JStr("")), true)))
  {
  }

  /** The orchestration input the start route passes: the request body when
      it decodes to a truthy value, otherwise None (`JNull`). */
  function StartInput(body: Option<Json>): (input: Json)
    ensures Truthy(input) <==> body.Some? && Truthy(body.value)
    ensures Truthy(input) ==> input == body.value
  {
    if body.Some? && Truthy(body.value) then body.value else JNull
  }

  /** start_documentation_orchestration: always starts an orchestration and
      answers 202 with its instance id and status URL, or 500 when
      `start_new` raises. `body` is the decoded request body (None when it
      is not JSON); `instanceId` what `start_new` returns or raises. */
  function StartDocumentation(body: Option<Json>, requestUrl: string, instanceId: Result<string, Fault>): (r: (HttpResponse, Json))
    ensures r.1 == StartInput(body)
    ensures instanceId.Failure? ==> r.0 == InternalError(instanceId.error)
    ensures instanceId.Success? ==> r.0 == Respond(202, JObj([
      ("message", JStr("Documentation orchestration started.")),
      ("instanceId", JStr(instanceId.value)),
      ("statusQueryGetUri", JStr(StatusUrl(requestUrl, instanceId.value, "orchestration")))]))
  {
    match instanceId
    case Failure(e) => (InternalError(e), StartInput(body))
    case Success(id) =>
      (Respond(202, JObj([
        ("message", JStr("Documentation orchestration started.")),
        ("instanceId", JStr(id)),
        ("statusQueryGetUri", JStr(StatusUrl(requestUrl, id, "orchestration")))])),
       StartInput(body))
  }

  /** A start request without a usable body runs the orchestration on the
      default query. */
  lemma EmptyStartUsesDefault(body: Option<Json>)
    requires body.None? || !Truthy(body.value)
    ensures QueryOf(StartInput(body)) == Success(JStr(DefaultQuery))
  {
  }

  /** A start request whose body is a truthy JSON value other than an object
      starts an orchestration that fails before calling any agent. */
  lemma NonObjectStartFails(body: Json)
    requires Truthy(body) && !body.JObj?
    ensures Orchestrate(StartInput(Some(body)), []) == Finish(Failure(AttributeError))
  {
  }
}
