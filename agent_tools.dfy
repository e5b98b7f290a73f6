/** The MCP tools of the function app that talk to the agents
    (src/function_app.py): code_style and deep_wiki run one agent on a
    message composed from the chat history and the user's query;
    generate_comprehensive_documentation starts the documentation
    orchestration and polls its status until it ends or time runs out. The
    agent and the durable client are parameters. */
module AgentTools {
  import opened Wrappers
  import opened Json
  import opened Responses
  import opened Orchestration
  import opened ToolSchemas
  import Strings
  import AgentApp

  const CodeStyleFallback := "Generate a comprehensive code style guide based on the code snippets."
  const DeepWikiFallback := "Generate comprehensive wiki documentation based on all code snippets."

  /** The message sent to the agent: history and query together when both
      are given, the query alone when only it is, the tool's fallback
      otherwise (a history without a query is dropped). */
  function AgentMessage(chatHistory: string, userQuery: string, fallback: string): (m: string)
    ensures chatHistory != "" && userQuery != "" ==>
      Strings.StartsWith(m, "Context: " + chatHistory) && Strings.EndsWith(m, "\n\nQuery: " + userQuery)
      && |m| == |"Context: "| + |chatHistory| + |"\n\nQuery: "| + |userQuery|
    ensures chatHistory == "" && userQuery != "" ==> m == userQuery
    ensures userQuery == "" ==> m == fallback
    ensures userQuery != "" ==> Strings.EndsWith(m, userQuery)
  {
    if chatHistory != "" && userQuery != "" then
      var m := "Context: " + chatHistory + "\n\nQuery: " + userQuery;
      assert m[..|"Context: " + chatHistory|] == "Context: " + chatHistory;
      assert m[|m| - |"\n\nQuery: " + userQuery|..] == "\n\nQuery: " + userQuery;
      assert m[|m| - |userQuery|..] == userQuery;
      m
    else if userQuery != "" then userQuery
    else fallback
  }

  /** The contract pins the combined message: a string that opens with the
      context, closes with the query and has their combined length is
      exactly the context followed by the query. */
  lemma CombinedMessageIsContextThenQuery(chatHistory: string, userQuery: string, m: string)
    requires Strings.StartsWith(m, "Context: " + chatHistory) && Strings.EndsWith(m, "\n\nQuery: " + userQuery)
    requires |m| == |"Context: "| + |chatHistory| + |"\n\nQuery: "| + |userQuery|
    ensures m == "Context: " + chatHistory + "\n\nQuery: " + userQuery
  {
    var p := "Context: " + chatHistory;
    var q := "\n\nQuery: " + userQuery;
    assert m == m[..|p|] + m[|p|..];
    assert m[|p|..] == m[|m| - |q|..];
    assert m == p + q;
  }

  /** `args.get(key, "")`. */
  function ArgumentOrEmpty(context: ToolContext, key: string): string
    requires context.ToolContext?
  {
    if key in context.arguments then context.arguments[key] else ""
  }

  /** A content item of an agent's chat message: text, or another kind that
      the tool renders with `str()`, whose rendering is given. */
  datatype Content = TextContent(text: string) | OtherContent(rendered: string)

  datatype ChatMessage = ChatMessage(contents: seq<Content>)

  function ContentText(c: Content): string {
    match c
    case TextContent(t) => t
    case OtherContent(r) => r
  }

  function ContentsText(contents: seq<Content>): string {
    Strings.Concat(seq(|contents|, i requires 0 <= i < |contents| => ContentText(contents[i])))
  }

  /** The reply text: the last message's contents joined in order, "" when
      there is no message. */
  function ReplyText(messages: seq<ChatMessage>): string {
    if messages == [] then "" else ContentsText(messages[|messages| - 1].contents)
  }

  /** Only the last message counts. */
  lemma ReplyTextIsLastMessage(earlier: seq<ChatMessage>, last: ChatMessage)
    ensures ReplyText(earlier + [last]) == ReplyText([last])
  {
  }

  /** The reply text of a message split in two is the two texts joined. */
  lemma ContentsTextAppend(a: seq<Content>, b: seq<Content>)
    ensures ContentsText(a + b) == ContentsText(a) + ContentsText(b)
  {
    var ta := seq(|a|, i requires 0 <= i < |a| => ContentText(a[i]));
    var tb := seq(|b|, i requires 0 <= i < |b| => ContentText(b[i]));
    assert seq(|a + b|, i requires 0 <= i < |a + b| => ContentText((a + b)[i])) == ta + tb;
    Strings.ConcatAppend(ta, tb);
  }

  /** A message of text items only reads back as those texts joined. */
  lemma {:induction false} ContentsTextOfTexts(texts: seq<string>)
    ensures ContentsText(seq(|texts|, i requires 0 <= i < |texts| => TextContent(texts[i]))) == Strings.Concat(texts)
  {
    var cs := seq(|texts|, i requires 0 <= i < |texts| => TextContent(texts[i]));
    assert seq(|cs|, i requires 0 <= i < |cs| => ContentText(cs[i])) == texts;
  }

  /** What distinguishes code_style from deep_wiki: the fallback message,
      the key of the reply text and the success message. */
  datatype AgentTool = AgentTool(fallback: string, key: string, done: string)

  const CodeStyleTool := AgentTool(CodeStyleFallback, "style_guide", "Code style guide generated successfully")
  const DeepWikiTool := AgentTool(DeepWikiFallback, "wiki", "Wiki documentation generated successfully")

  /** The message a tool sends its agent. */
  function ToolMessage(tool: AgentTool, context: ToolContext): string
    requires context.ToolContext?
  {
    AgentMessage(ArgumentOrEmpty(context, ChatHistoryArg), ArgumentOrEmpty(context, UserQueryArg), tool.fallback)
  }

  /** mcp_code_style and mcp_deep_wiki: `agent` runs the tool's agent on a
      message. A context that does not decode, or an agent that raises, ends
      in the catch-all reply; otherwise the reply holds the text of the
      agent's last message under the tool's key. */
  function RunAgentTool(tool: AgentTool, context: ToolContext, agent: string -> Result<seq<ChatMessage>, Fault>): (r: ToolReply)
    ensures context.MalformedContext? ==> r == Raised(JsonDecodeError)
    ensures context.ToolContext? && agent(ToolMessage(tool, context)).Failure? ==>
      r == Raised(agent(ToolMessage(tool, context)).error)
    ensures context.ToolContext? && agent(ToolMessage(tool, context)).Success? ==>
      r.Reply? && r.payload.JObj? && Keys(r.payload.fields) == ["success", tool.key, "message"]
      && r.payload.fields[0].1 == JBool(true)
      && r.payload.fields[1].1 == JStr(ReplyText(agent(ToolMessage(tool, context)).value))
      && r.payload.fields[2].1 == JStr(tool.done)
  {
    if context.MalformedContext? then Raised(JsonDecodeError)
    else
      match agent(ToolMessage(tool, context))
      case Failure(e) => Raised(e)
      case Success(messages) =>
        var fields := [("success", JBool(true)), (tool.key, JStr(ReplyText(messages))), ("message", JStr(tool.done))];
        assert Keys(fields) == ["success", tool.key, "message"];
        Reply(JObj(fields))
  }

  /** With no arguments each tool asks for its general document; with only
      a query it asks exactly that query; a history alone is ignored. */
  lemma ToolMessages(tool: AgentTool, query: string, history: string)
    requires query != ""
    ensures ToolMessage(tool, ToolContext(map[])) == tool.fallback
    ensures ToolMessage(tool, ToolContext(map[ChatHistoryArg := history])) == tool.fallback
    ensures ToolMessage(tool, ToolContext(map[UserQueryArg := query])) == query
  {
  }

  const MaxWaitSeconds := 300
  const PollInterval := 2
  /** Polls made before giving up: 300 seconds in steps of 2. */
  const MaxPolls := MaxWaitSeconds / PollInterval

  const FailedPrefix := "Orchestration failed: "
  const TimeoutPrefix := "Orchestration timed out after 300 seconds. Check status at instance ID: "

  /** What one `client.get_status` call reports. */
  datatype Poll = Poll(runtimeStatus: RuntimeStatus, output: Json)

  /** A status that ends the polling loop. */
  predicate Ends(s: RuntimeStatus) {
    Name(s) == "Completed" || Name(s) in ["Failed", "Terminated"]
  }

  lemma EndingStatuses(s: RuntimeStatus)
    ensures Ends(s) <==> s == Completed || s == Failed || s == Terminated
  {
  }

  /** The tool's reply once the orchestration has ended. */
  function EndReply(instanceId: string, p: Poll): ToolReply
    requires Ends(p.runtimeStatus)
  {
    if Name(p.runtimeStatus) == "Completed" then
      (match p.output
       case JObj(out) => Reply(JObj([
         ("success", JBool(true)),
         ("wiki", GetOr(out, "wiki", JStr(""))),
         ("styleGuide", GetOr(out, "styleGuide", JStr(""))),
         ("message", JStr("Comprehensive documentation generated successfully")),
         ("instanceId", JStr(instanceId))]))
       case _ => Raised(AttributeError))  // `output.get` on an output that is not an object
    else
      Reply(JObj([
        ("success", JBool(false)),
        ("error", JStr(FailedPrefix + Name(p.runtimeStatus))),
        ("instanceId", JStr(instanceId))]))
  }

  function TimeoutReply(instanceId: string): ToolReply {
    Reply(JObj([
      ("success", JBool(false)),
      ("error", JStr(TimeoutPrefix + instanceId)),
      ("instanceId", JStr(instanceId)),
      ("message", JStr("You can check the orchestration status using the HTTP endpoint"))]))
  }

  /** A status check that answered with a status still going. */
  predicate StillGoing(p: Result<Poll, Fault>) {
    p.Success? && !Ends(p.value.runtimeStatus)
  }

  /** After `polls` status checks the tool replies with `reply`: every
      earlier check found the orchestration still going, and the last one
      raised, found it ended, or was the last allowed. */
  predicate Awaited(instanceId: string, poll: nat -> Result<Poll, Fault>, polls: nat, reply: ToolReply) {
    1 <= polls <= MaxPolls
    && (forall k :: 0 <= k < polls - 1 ==> StillGoing(poll(k)))
    && match poll(polls - 1)
       case Failure(e) => reply == Raised(e)
       case Success(p) =>
         if Ends(p.runtimeStatus) then reply == EndReply(instanceId, p)
         else polls == MaxPolls && reply == TimeoutReply(instanceId)
  }

  /** The polling loop of mcp_generate_comprehensive_documentation.
      `poll(k)` is what the k-th status check reports, or the exception it
      raises. Returns the reply and how many checks were made. */
  method AwaitDocumentation(instanceId: string, poll: nat -> Result<Poll, Fault>) returns (reply: ToolReply, polls: nat)
    ensures Awaited(instanceId, poll, polls, reply)
  {
    var elapsed := 0;
    polls := 0;
    while elapsed < MaxWaitSeconds
      invariant elapsed == PollInterval * polls && polls <= MaxPolls
      invariant forall k :: 0 <= k < polls ==> StillGoing(poll(k))
      decreases MaxWaitSeconds - elapsed
    {
      var checked := poll(polls);
      polls := polls + 1;
      if checked.Failure? {
        return Raised(checked.error), polls;
      }
      var status := checked.value;
      if Ends(status.runtimeStatus) {
        return EndReply(instanceId, status), polls;
      }
      elapsed := elapsed + PollInterval;
    }
    reply := TimeoutReply(instanceId);
  }

  /** The orchestration input: `{"query": q}` with the user's query, or
      the default when the tool got none. */
  function OrchestrationInput(context: ToolContext): Json
    requires context.ToolContext?
  {
    JObj([("query", JStr(if UserQueryArg in context.arguments then context.arguments[UserQueryArg]
                          else "Generate comprehensive documentation"))])
  }

  /** The query the tool passes is the one the orchestration reads, even an
      empty one. */
  lemma ToolQueryReachesOrchestration(context: ToolContext)
    requires context.ToolContext?
    ensures UserQueryArg in context.arguments ==>
      AgentApp.QueryOf(OrchestrationInput(context)) == Success(JStr(context.arguments[UserQueryArg]))
    ensures UserQueryArg !in context.arguments ==>
      AgentApp.QueryOf(OrchestrationInput(context)) == Success(JStr(AgentApp.DefaultQuery))
  {
    assert Keys(OrchestrationInput(context).fields) == ["query"];
  }

  /** mcp_generate_comprehensive_documentation: `started` is the input the
      orchestration was started with (None when the context did not
      decode). `instanceId` is what `start_new` returns or raises. */
  method McpComprehensiveDocumentation(context: ToolContext, instanceId: Result<string, Fault>,
                                       poll: nat -> Result<Poll, Fault>)
    returns (started: Option<Json>, reply: ToolReply)
    ensures context.MalformedContext? ==> started.None? && reply == Raised(JsonDecodeError)
    ensures context.ToolContext? ==> started == Some(OrchestrationInput(context))
    ensures context.ToolContext? && instanceId.Failure? ==> reply == Raised(instanceId.error)
    ensures context.ToolContext? && instanceId.Success? ==> exists polls :: Awaited(instanceId.value, poll, polls, reply)
  {
    if context.MalformedContext? {
      return None, Raised(JsonDecodeError);
    }
    started := Some(OrchestrationInput(context));
    if instanceId.Failure? {
      return started, Raised(instanceId.error);
    }
    var polls;
    reply, polls := AwaitDocumentation(instanceId.value, poll);
  }

  /** An orchestration that is already complete at the first check is
      answered with its wiki and style guide after one check. */
  lemma CompletedAtOnce(instanceId: string, poll: nat -> Result<Poll, Fault>, out: seq<(string, Json)>)
    requires poll(0) == Success(Poll(Completed, JObj(out)))
    ensures EndReply(instanceId, poll(0).value) == Reply(JObj([
      ("success", JBool(true)),
      ("wiki", GetOr(out, "wiki", JStr(""))),
      ("styleGuide", GetOr(out, "styleGuide", JStr(""))),
      ("message", JStr("Comprehensive documentation generated successfully")),
      ("instanceId", JStr(instanceId))]))
  {
  }
}
