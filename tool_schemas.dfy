/** The argument names of the MCP tools and the input schema each tool
    registers (src/function_app.py): every argument a handler reads is a
    property of its tool's schema, declared as a string. */
module ToolSchemas {
  import opened ToolHelpers

  const SnippetNameArg := "snippetname"
  const SnippetArg := "snippet"
  const ProjectIdArg := "projectid"
  const ChatHistoryArg := "chathistory"
  const UserQueryArg := "userquery"

  const SaveNameDescription := "A unique name or identifier for the code snippet. Provide this if you have a specific name for the snippet being saved. Essential for identifying the snippet later."
  const SaveProjectDescription := "An identifier for a project to associate this snippet with. Useful for organizing snippets. If omitted or not relevant, it defaults to 'default-project'."
  const SaveSnippetDescription := "The actual code or text content of the snippet. Provide the content that needs to be saved and made searchable."
  const SaveSnippetSchema := ToolPropertyList([
    ToolProperty(SnippetNameArg, "string", SaveNameDescription),
    ToolProperty(ProjectIdArg, "string", SaveProjectDescription),
    ToolProperty(SnippetArg, "string", SaveSnippetDescription)])

  const GetNameDescription := "The unique name or identifier of the code snippet you want to retrieve. This is required to fetch a specific snippet."
  const GetSnippetSchema := ToolPropertyList([
    ToolProperty(SnippetNameArg, "string", GetNameDescription)])

  const WikiHistoryDescription := "Optional. The preceding conversation history (e.g., user prompts and AI responses). Providing this helps contextualize the wiki content generation. Omit if no relevant history exists or if a general wiki is desired."
  const WikiQueryDescription := "Optional. The user's specific question, instruction, or topic to focus the wiki documentation on. If omitted, a general wiki covering available snippets might be generated."
  const DeepWikiSchema := ToolPropertyList([
    ToolProperty(ChatHistoryArg, "string", WikiHistoryDescription),
    ToolProperty(UserQueryArg, "string", WikiQueryDescription)])

  const StyleHistoryDescription := "Optional. The preceding conversation history (e.g., user prompts and AI responses). This can provide context for the code style analysis or guide generation. Omit if not available or not relevant."
  const StyleQueryDescription := "Optional. The user's specific question, instruction, or prompt related to code style. If omitted, a general code style analysis or a default guide might be generated."
  const CodeStyleSchema := ToolPropertyList([
    ToolProperty(ChatHistoryArg, "string", StyleHistoryDescription),
    ToolProperty(UserQueryArg, "string", StyleQueryDescription)])

  const DocsQueryDescription := "Optional. A specific query or focus area for the documentation. This can guide the multi-agent orchestration to emphasize particular aspects (e.g., 'Focus on API patterns' or 'Emphasize security best practices'). If omitted, generates comprehensive documentation covering all aspects."
  const ComprehensiveDocsSchema := ToolPropertyList([
    ToolProperty(UserQueryArg, "string", DocsQueryDescription)])

  /** The property names a schema declares, in order. */
  function Names(l: ToolPropertyList): (names: seq<string>)
    ensures |names| == |l.properties|
    ensures forall i :: 0 <= i < |names| ==> names[i] == l.properties[i].propertyName
  {
    seq(|l.properties|, i requires 0 <= i < |l.properties| => l.properties[i].propertyName)
  }

  predicate AllStrings(l: ToolPropertyList) {
    forall i :: 0 <= i < |l.properties| ==> l.properties[i].propertyType == "string"
  }

  /** Each tool's schema names exactly the arguments its handler reads. */
  lemma SchemasMatchHandlers()
    ensures Names(SaveSnippetSchema) == [SnippetNameArg, ProjectIdArg, SnippetArg]
    ensures Names(GetSnippetSchema) == [SnippetNameArg]
    ensures Names(DeepWikiSchema) == [ChatHistoryArg, UserQueryArg]
    ensures Names(CodeStyleSchema) == [ChatHistoryArg, UserQueryArg]
    ensures Names(ComprehensiveDocsSchema) == [UserQueryArg]
  {
  }

  /** Every argument of every tool is declared as a string, which is what
      the handlers read them as. */
  lemma SchemasDeclareStrings()
    ensures AllStrings(SaveSnippetSchema) && AllStrings(GetSnippetSchema) && AllStrings(DeepWikiSchema)
    ensures AllStrings(CodeStyleSchema) && AllStrings(ComprehensiveDocsSchema)
  {
  }
}
