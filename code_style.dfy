/** src/agents/code_style.py: the code style agent run. */
module CodeStyle {
  import opened Wrappers
  import opened AgentRuns

  const AgentName := "CodeStyleSynthesizer"
  const DefaultQuery := "Generate a code style guide."

  /** generate_code_style: the query (or the default) follows the chat
      history on a fresh thread, and the guide is the newest assistant
      answer of the run. */
  method GenerateCodeStyle(chatHistory: string, userQuery: string, run: RunResult)
    returns (thread: AgentThread, guide: Result<string, AgentError>)
    ensures fresh(thread)
    ensures thread.messages == Prompts(chatHistory, userQuery, DefaultQuery) + run.replies
    ensures run.status == "failed" ==> guide == Failure(RunFailed(run.lastError))
    ensures run.status != "failed" ==> guide == Outcome(FirstReply(NewestFirst(run.replies)))
    ensures guide.Success? ==> guide.value != ""
  {
    thread, guide := Generate(DefaultQuery, chatHistory, userQuery, run);
  }
}
