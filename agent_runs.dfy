/** The agent run shared by src/agents/deep_wiki.py and
    src/agents/code_style.py: open a thread, add the chat history (when
    given) and the query as user messages, run the agent, and answer with
    the text of the newest assistant message that has content. The agent
    service is a parameter: a run reports its status, its last error and
    the messages the agent added to the thread. */
module AgentRuns {
  import opened Wrappers
  import opened Responses

  /** A content item of a thread message: text, or another kind (an image,
      say), which has no `text` to read. */
  datatype MessageContent = TextContent(value: string) | OtherContent

  datatype ThreadMessage = ThreadMessage(role: string, content: seq<MessageContent>)

  /** A conversation thread of the agent service; messages are only ever
      added at the end. */
  class AgentThread {
    var messages: seq<ThreadMessage>

    constructor ()
      ensures messages == []
    {
      messages := [];
    }

    /** `messages.create(thread_id, role, content)`. */
    method Add(role: string, text: string)
      modifies this
      ensures messages == old(messages) + [ThreadMessage(role, [TextContent(text)])]
    {
      messages := messages + [ThreadMessage(role, [TextContent(text)])];
    }

    /** The messages the agent adds while it runs. */
    method Record(replies: seq<ThreadMessage>)
      modifies this
      ensures messages == old(messages) + replies
    {
      messages := messages + replies;
    }

    /** `messages.list(thread_id)`: the thread, newest message first. */
    function Listed(): (listed: seq<ThreadMessage>)
      reads this
      ensures listed == NewestFirst(messages)
    {
      NewestFirst(messages)
    }
  }

  function NewestFirst(ms: seq<ThreadMessage>): (r: seq<ThreadMessage>)
    ensures |r| == |ms|
    ensures forall i :: 0 <= i < |ms| ==> r[i] == ms[|ms| - 1 - i]
  {
    if ms == [] then [] else [ms[|ms| - 1]] + NewestFirst(ms[..|ms| - 1])
  }

  /** Listing newest first puts later messages ahead of earlier ones. */
  lemma NewestFirstAppend(a: seq<ThreadMessage>, b: seq<ThreadMessage>)
    ensures NewestFirst(a + b) == NewestFirst(b) + NewestFirst(a)
  {
    assert forall i :: 0 <= i < |a + b| ==> NewestFirst(a + b)[i] == (NewestFirst(b) + NewestFirst(a))[i];
  }

  /** What a run of the agent reports. */
  datatype RunResult = RunResult(status: string, lastError: string, replies: seq<ThreadMessage>)

  /** Why generation raised: the run failed, no response text came back, or
      reading the chosen message raised. */
  datatype AgentError = RunFailed(lastError: string) | NoResponse | ReadFault(fault: Fault)

  /** The query added to the thread: the user's, or the default when empty. */
  function FinalQuery(userQuery: string, defaultQuery: string): (q: string)
    ensures userQuery != "" ==> q == userQuery
    ensures userQuery == "" ==> q == defaultQuery
  {
    if userQuery != "" then userQuery else defaultQuery
  }

  /** The messages the handler adds before running the agent. */
  function Prompts(chatHistory: string, userQuery: string, defaultQuery: string): (ms: seq<ThreadMessage>)
    ensures forall i :: 0 <= i < |ms| ==> ms[i].role == "user"
    ensures |ms| == if chatHistory != "" then 2 else 1
    ensures chatHistory != "" ==> ms[0] == ThreadMessage("user", [TextContent(chatHistory)])
    ensures ms[|ms| - 1] == ThreadMessage("user", [TextContent(FinalQuery(userQuery, defaultQuery))])
  {
    (if chatHistory != "" then [ThreadMessage("user", [TextContent(chatHistory)])] else [])
    + [ThreadMessage("user", [TextContent(FinalQuery(userQuery, defaultQuery))])]
  }

  /** The messages the reply loop stops at: an assistant's, with content. */
  predicate Answers(m: ThreadMessage) {
    m.role == "assistant" && m.content != []
  }

  /** `str(message.content[0].text.value)`. */
  function ReadText(m: ThreadMessage): Result<string, Fault>
    requires m.content != []
  {
    match m.content[0]
    case TextContent(v) => Success(v)
    case OtherContent => Failure(AttributeError)
  }

  /** The reply loop: the text of the first answering message, None when no
      message answers. */
  function FirstReply(listed: seq<ThreadMessage>): Result<Option<string>, Fault> {
    if listed == [] then Success(None)
    else if Answers(listed[0]) then
      (match ReadText(listed[0]) case Success(t) => Success(Some(t)) case Failure(e) => Failure(e))
    else FirstReply(listed[1..])
  }

  /** The reply comes from the first answering message and from nothing
      before or after it. */
  lemma {:induction false} FirstReplyIsFirstAnswer(listed: seq<ThreadMessage>, k: nat)
    requires k < |listed| && Answers(listed[k])
    requires forall j :: 0 <= j < k ==> !Answers(listed[j])
    ensures FirstReply(listed) == match ReadText(listed[k]) case Success(t) => Success(Some(t)) case Failure(e) => Failure(e)
  {
    if k > 0 {
      FirstReplyIsFirstAnswer(listed[1..], k - 1);
    }
  }

  /** With no answering message there is no reply. */
  lemma {:induction false} NoAnswerNoReply(listed: seq<ThreadMessage>)
    requires forall j :: 0 <= j < |listed| ==> !Answers(listed[j])
    ensures FirstReply(listed) == Success(None)
  {
    if listed != [] {
      NoAnswerNoReply(listed[1..]);
    }
  }

  /** Messages after the first answer cannot change the reply, and user
      messages never answer. */
  lemma {:induction false} FirstReplySkipsTail(a: seq<ThreadMessage>, b: seq<ThreadMessage>)
    requires forall j :: 0 <= j < |b| ==> !Answers(b[j])
    ensures FirstReply(a + b) == FirstReply(a)
  {
    if a == [] {
      assert a + b == b;
      NoAnswerNoReply(b);
    } else {
      assert (a + b)[1..] == a[1..] + b;
      FirstReplySkipsTail(a[1..], b);
    }
  }

  /** The reply loop, which breaks at the first answering message. */
  method SelectReply(listed: seq<ThreadMessage>) returns (response: Result<Option<string>, Fault>)
    ensures response == FirstReply(listed)
  {
    response := Success(None);
    var i := 0;
    while i < |listed|
      invariant 0 <= i <= |listed|
      invariant FirstReply(listed) == FirstReply(listed[i..])
      invariant response == Success(None)
    {
      var message := listed[i];
      if message.role == "assistant" {
        if message.content != [] {
          match ReadText(message) {
            case Success(t) => response := Success(Some(t));
            case Failure(e) => response := Failure(e);
          }
          break;
        }
      }
      assert listed[i..][1..] == listed[i + 1..];
      i := i + 1;
    }
  }

  /** What the handler makes of the reply loop's result. */
  function Outcome(reply: Result<Option<string>, Fault>): (r: Result<string, AgentError>)
    ensures r.Success? ==> r.value != ""
    ensures r.Success? <==> reply.Success? && reply.value.Some? && reply.value.value != ""
    ensures r.Success? ==> r.value == reply.value.value
    ensures reply.Failure? ==> r == Failure(ReadFault(reply.error))
    ensures reply.Success? && (reply.value.None? || reply.value.value == "") ==> r == Failure(NoResponse)
  {
    match reply
    case Failure(e) => Failure(ReadFault(e))
    case Success(None) => Failure(NoResponse)
    case Success(Some(t)) => if t == "" then Failure(NoResponse) else Success(t)
  }

  /** The prompts, listed after the run's messages, never supply the reply. */
  lemma ReplyIgnoresPrompts(prompts: seq<ThreadMessage>, replies: seq<ThreadMessage>)
    requires forall i :: 0 <= i < |prompts| ==> prompts[i].role == "user"
    ensures FirstReply(NewestFirst(prompts + replies)) == FirstReply(NewestFirst(replies))
  {
    NewestFirstAppend(prompts, replies);
    FirstReplySkipsTail(NewestFirst(replies), NewestFirst(prompts));
  }

  /** generate_deep_wiki and generate_code_style. Returns the thread the run
      used and the generated document (or why generation raised). */
  method Generate(defaultQuery: string, chatHistory: string, userQuery: string, run: RunResult)
    returns (thread: AgentThread, reply: Result<string, AgentError>)
    ensures fresh(thread)
    ensures thread.messages == Prompts(chatHistory, userQuery, defaultQuery) + run.replies
    ensures run.status == "failed" ==> reply == Failure(RunFailed(run.lastError))
    ensures run.status != "failed" ==> reply == Outcome(FirstReply(NewestFirst(run.replies)))
    ensures reply.Success? ==> reply.value != ""
  {
    thread := new AgentThread();
    if chatHistory != "" {
      thread.Add("user", chatHistory);
    }
    thread.Add("user", FinalQuery(userQuery, defaultQuery));
    assert thread.messages == Prompts(chatHistory, userQuery, defaultQuery);
    thread.Record(run.replies);
    if run.status == "failed" {
      return thread, Failure(RunFailed(run.lastError));
    }
    var listed := thread.Listed();
    var response := SelectReply(listed);
    assert response == FirstReply(NewestFirst(run.replies)) by {
      ReplyIgnoresPrompts(Prompts(chatHistory, userQuery, defaultQuery), run.replies);
    }
    reply := Outcome(response);
  }
}
