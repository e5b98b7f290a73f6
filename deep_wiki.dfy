/** src/agents/deep_wiki.py: the DeepWiki agent run. */
module DeepWiki {
  import opened Wrappers
  import opened AgentRuns

  const AgentName := "DeepWikiAgent"
  const DefaultQuery := "Generate a comprehensive wiki documentation."

  /** generate_deep_wiki: the query (or the default) follows the chat
      history on a fresh thread, and the wiki is the newest assistant
      answer of the run. */
  method GenerateDeepWiki(chatHistory: string, userQuery: string, run: RunResult)
    returns (thread: AgentThread, wiki: Result<string, AgentError>)
    ensures fresh(thread)
    ensures thread.messages == Prompts(chatHistory, userQuery, DefaultQuery) + run.replies
    ensures run.status == "failed" ==> wiki == Failure(RunFailed(run.lastError))
    ensures run.status != "failed" ==> wiki == Outcome(FirstReply(NewestFirst(run.replies)))
    ensures wiki.Success? ==> wiki.value != ""
  {
    thread, wiki := Generate(DefaultQuery, chatHistory, userQuery, run);
  }
}
