# snippy, modelled in Dafny

snippy is an Azure Functions app that stores code snippets with their
embedding vectors and has AI agents write documentation from them. This
project models the logic that the app's own code decides:

- the MCP tool-input schemas and their JSON serialisation (`ToolHelpers`, `ToolSchemas`);
- the snippet routes and tools: required-field checks, argument defaults,
  extraction of the embedding vector, and lookup by name (`SnippetHandlers`);
- the agent-backed MCP tools: composing the agent message, reading the reply
  text, and the bounded status-polling loop (`AgentTools`);
- the two documentation orchestrations, their start routes and the status
  route (`Orchestration`, `DurableAgents` for `src/durable_agents.py`,
  `AgentApp` for `src/agents/durable_agents.py`);
- the DeepWiki and code-style agent runs: building the thread and choosing
  the reply (`AgentRuns`, `DeepWiki`, `CodeStyle`);
- the blob-ingestion admission filter (`Ingestion`).

Decoded JSON is the `Json` datatype. An object keeps its keys in insertion
order, as a Python dict does. `json.dumps` and `json.loads` are modelled at
the level of tokens, with a proved round trip (`Json`). A Python exception
that a handler meets is a `Fault` kind. The catch-all handlers turn it into
`InternalError(fault)`, an HTTP 500 with `{"error": str(e)}`, or
`Raised(fault)`, an MCP reply `{"error": str(e)}` (`Responses`).

Every call into an external service is a parameter of the model:

- the snippet store's answers;
- the embeddings binding's decoded answer;
- an agent's chat messages;
- the durable client's instance id, status answers and `start_new` behaviour;
- the agent service's run result.

Each of these calls either answers or raises. Raising is modelled as a
`Fault` that reaches the handler's own `except` clauses.

A durable orchestration is a generator that the runtime replays. It is
modelled as a function from its input and the agent results delivered so
far to its next agent call or its final output.

The status route is the same code in `src/durable_agents.py:431-470` and
`src/agents/durable_agents.py:396-435`. `Orchestration.GetOrchestrationStatus`
models both. The agents version builds its status URL inline
(`src/agents/durable_agents.py:352-353`). It is the same expression as
`_build_status_url` with the route "orchestration". `generate_deep_wiki` and
`generate_code_style` differ only in the agent name and the default query.
Both are `AgentRuns.Generate` with their own constants.

## Model

| member | source | states |
|---|---|---|
| ToolHelpers.ToDict | src/tool_helpers.py:19-28 | the entry has exactly the keys propertyName, propertyType, description, in that order, holding the constructor's arguments unchanged |
| ToolHelpers.Entries | src/tool_helpers.py:46-53 | one entry per property, in list order; each entry reads back as that property; an empty list gives an empty array |
| ToolHelpers.FromDictsOfEntries | src/tool_helpers.py:53 | reading the entries back gives the properties of the list, in order and with the same count |
| ToolHelpers.SchemaRoundTrip | src/tool_helpers.py:53 | decoding the JSON text of `to_json` gives exactly the `to_dict` entries, and through them the original properties |
| ToolHelpers.EntriesConcat | src/tool_helpers.py:37-53 | serialising two lists joined gives the entries of the first followed by those of the second |
| ToolSchemas.Names | src/function_app.py:60-90 | the names a schema declares, one per property, in order |
| ToolSchemas.SchemasMatchHandlers | src/function_app.py:44-90 | each tool's schema names exactly the arguments its handler reads, in the declared order |
| ToolSchemas.SchemasDeclareStrings | src/function_app.py:44-90 | every argument of every tool schema is typed "string" |
| Json.Lookup | src/function_app.py:128-130 | a lookup succeeds exactly when the key is present, and returns a value stored under it |
| Json.LookupAppend | src/durable_agents.py:459-464 | adding a new key at the end of a dict leaves every other lookup as it was |
| Json.ParseEncode | src/tool_helpers.py:53 | parsing the tokens of any value gives the value back and leaves the following tokens untouched |
| Json.DecodeEncode | src/tool_helpers.py:53 | `json.loads(json.dumps(v)) == v` for every value |
| Strings.BeforeFirst | src/durable_agents.py:247 | `split(sep)[0]`: a prefix of the text with no earlier occurrence of the separator, ending at the first occurrence or at the end |
| Strings.Strip | src/durable_agents.py:367 | the result is a slice of the text with only white space before and after it; it is empty exactly when the text is all white space, and otherwise starts and ends with non-space |
| Strings.TrimBoth | src/durable_agents.py:367 | trimming both ends leaves the slice of the text that starts where its leading white space ends, with only white space after it |
| Strings.StripIdempotent | src/durable_agents.py:367 | stripping a stripped prompt changes nothing |
| Strings.ConcatAppend | src/function_app.py:399-402 | `"".join` of two lists joined is the two joins concatenated |
| SnippetHandlers.Membership | src/function_app.py:120 | `field in body` is key membership for an object, and raises for a body that is not an object, array or string |
| SnippetHandlers.FirstMissingField | src/function_app.py:118-125 | all fields present exactly when each is in the body; otherwise the verdict is that of the first field not found, every earlier one being present |
| SnippetHandlers.EmbeddingVector | src/function_app.py:143 | reading `["response"]["data"][0]["embedding"]` fails only with KeyError, IndexError or TypeError, and with TypeError when the answer is not an object |
| SnippetHandlers.EmbeddingVectorReadsPath | src/function_app.py:143 | for every answer: a vector is read exactly when one sits at `["response"]["data"][0]["embedding"]` by dict lookups, and it is that one |
| SnippetHandlers.EmbeddingVectorFaults | src/function_app.py:143 | a missing "response", "data" or "embedding" key raises KeyError and an empty `data` list IndexError, the faults reported as invalid embeddings |
| SnippetHandlers.EmbeddingVectorOfAnswer | src/function_app.py:139-143 | the vector read is exactly the one the embeddings answer carries in its first data entry, whatever other keys each object on the path holds and whatever entries follow |
| SnippetHandlers.UpsertFailed | src/function_app.py:146-165 | an upsert raising KeyError, IndexError or JSONDecodeError answers 500 "Invalid embeddings data or structure"; any other fault answers the catch-all 500 carrying that fault |
| SnippetHandlers.UpsertFailedReply | src/function_app.py:221-235 | the same for the save tool: invalid embeddings for those three faults, the catch-all reply carrying the fault otherwise |
| SnippetHandlers.HttpSaveSnippet | src/function_app.py:115-165 | 400 "Missing required field: name", then "…: code", in that order, with nothing saved; a save happens exactly for a well-formed body and a readable vector, with projectId defaulting to "default-project", and answers 200 with the store's result, or as UpsertFailed says when the store raises; bad embeddings answer 500 "Invalid embeddings data or structure"; the catch-all 500 carries TypeError for `in` on a body that is not an object, list or string, for a log preview of a value without a length and for a vector read that raises it, and AttributeError for `.get` on a list or string body; any other status than 200, 400 and the invalid-embeddings 500 is the catch-all |
| SnippetHandlers.MissingArguments | src/function_app.py:202-205 | the list names exactly the missing or empty arguments, snippetname before snippet, once each |
| SnippetHandlers.McpSaveSnippet | src/function_app.py:191-235 | a bad context, or each combination of missing arguments, gets its own error reply and no save; a save happens exactly when both are given and the vector is readable, with projectid defaulting to "default-project"; the reply is the store's result, or as UpsertFailedReply says when the store raises; a vector read that raises TypeError gets the catch-all reply with it |
| SnippetHandlers.HttpGetSnippet | src/function_app.py:255-273 | 400 exactly when no name is given, the catch-all 500 exactly when the store raises, 404 exactly when it returns nothing, otherwise 200 with the stored document |
| SnippetHandlers.McpGetSnippet | src/function_app.py:297-324 | a bad context and a missing name each get their own error reply; the catch-all reply exactly when the store raises |
| SnippetHandlers.GetSnippetRoutesAgree | src/function_app.py:297-324 | for a given name the MCP tool replies with the body the HTTP route sends, and both hand a store fault to their catch-all |
| SnippetHandlers.SaveRoutesAgree | src/function_app.py:127-130 | the HTTP body carrying an MCP call's name, code and optional project is accepted and saves the document the MCP tool saves (lines 197-199), the "default-project" default included |
| AgentTools.AgentMessage | src/function_app.py:377-385 | history and query together give a message that opens with "Context: h", closes with "\n\nQuery: q" and has their combined length; a query alone is sent as is; without a query the fallback is sent |
| AgentTools.CombinedMessageIsContextThenQuery | src/function_app.py:381 | that contract pins the message to exactly "Context: h\n\nQuery: q" |
| AgentTools.ToolMessages | src/function_app.py:455-463 | with no arguments or only a history the tool asks its fallback; with only a query it asks that query |
| AgentTools.ReplyTextIsLastMessage | src/function_app.py:394-396 | only the last message of the agent's answer contributes to the reply text |
| AgentTools.ContentsTextAppend | src/function_app.py:397-402 | the text of a message split in two is the two texts joined |
| AgentTools.ContentsTextOfTexts | src/function_app.py:399-402 | a message of text items reads back as those texts joined in order |
| AgentTools.RunAgentTool | src/function_app.py:366-413 | a bad context or an agent failure ends in the catch-all reply; otherwise the reply has keys success, the tool's key, message, holding true, the last message's text and the tool's success message |
| AgentTools.EndingStatuses | src/function_app.py:547-556 | polling ends exactly on Completed, Failed or Terminated |
| AgentTools.AwaitDocumentation | src/function_app.py:540-579 | between 1 and 150 status checks; every check but the last answered that the orchestration is running; the reply is the catch-all reply when the last check raised, the result for an ended orchestration, or, after exactly 150 checks, the timeout reply with the instance id |
| AgentTools.ToolQueryReachesOrchestration | src/function_app.py:521-526 | the orchestration reads back exactly the user's query (even an empty one), or the default without one |
| AgentTools.McpComprehensiveDocumentation | src/function_app.py:517-579 | a bad context starts nothing; otherwise the orchestration starts with `{"query": q}`, and the reply is the catch-all reply when `start_new` raises, the polling loop's otherwise |
| AgentTools.CompletedAtOnce | src/function_app.py:547-555 | a completed orchestration is answered with its wiki and style guide, "" for a missing one, and the instance id |
| Orchestration.NameInjective | src/durable_agents.py:453 | runtime status names are distinct, so comparing names compares statuses |
| Orchestration.StatusUrl | src/durable_agents.py:234-248 | the URL ends with "/api/<route>/status/<id>" after the part of the request URL before its first "/api/" (all of it when there is none) |
| Orchestration.StatusUrlKeepsOrigin | src/durable_agents.py:247-248 | a request to "<origin>/api/…" gets the status URL "<origin>/api/<route>/status/<id>" |
| Orchestration.AppendKeepsStatusFields | src/durable_agents.py:459-464 | appending input or output keeps the four status fields where they are |
| Orchestration.InputStep | src/durable_agents.py:451-460 | after the optional input the body holds the four status fields, then input exactly when it is truthy |
| Orchestration.StatusFieldsReport | src/durable_agents.py:451-464 | the body has the four status fields first, then input and output each exactly when truthy |
| Orchestration.GetOrchestrationStatus | src/durable_agents.py:431-477 | 400 "Missing instanceId" without an id, the catch-all 500 when `get_status` raises, 404 "Instance not found" for an unknown one, otherwise 200 with that body |
| DurableAgents.NormalizeQuery | src/durable_agents.py:276-281 | an object gives its "query" (default when absent), a string gives itself, anything else gives the default |
| DurableAgents.JoinParts | src/durable_agents.py:322-323 | joining fails exactly when some part is not a string |
| DurableAgents.CollectTextParts | src/durable_agents.py:316-321 | the loop collects the "text" of every content item that has one, in order |
| DurableAgents.ExtractText | src/durable_agents.py:305-326 | `extract_text` as specified: "" for a falsy result, the joined text parts of the last message when it has any, `str(result)` otherwise, and the exception when a step raises |
| DurableAgents.TextPartsOfItems | src/durable_agents.py:316-321 | the text items of a message give their texts, in order |
| DurableAgents.ExtractTextOfChatReply | src/durable_agents.py:310-323 | a chat reply's text is its last message's text items joined in order; earlier messages play no part |
| DurableAgents.ExtractTextFallsBack | src/durable_agents.py:325-326 | a truthy result without messages falls back to `str(result)` |
| DurableAgents.Orchestrate | src/durable_agents.py:273-333 | exactly three calls, DeepWiki with the query and ". Focus on architecture and key patterns.", DeepWiki, CodeStyle; then wiki is `extract_text` of the second result and styleGuide of the third, with success true, or the fault of the first of the two that raises |
| DurableAgents.FirstDraftUnused | src/durable_agents.py:287-333 | the first wiki draft never affects the output |
| DurableAgents.CallsIgnoreResults | src/durable_agents.py:287-302 | the calls depend only on how many results were delivered, never on their content |
| DurableAgents.OrchestrationOutput | src/durable_agents.py:328-333 | for chat replies the output is the refined wiki's text and the style guide's text |
| DurableAgents.OrchestrationOutputFallsBack | src/durable_agents.py:328-333 | a falsy wiki result gives "" and a style result without messages gives its `str()` |
| DurableAgents.OrchestrationOutputFails | src/durable_agents.py:328-333 | a wiki result whose "messages" is a non-zero number ends the orchestration with TypeError |
| DurableAgents.StartDocumentation | src/durable_agents.py:364-404 | an orchestration starts exactly when the body has a non-space character, with the stripped prompt; otherwise 400 "Prompt is required"; a start answers 202 with the instance id and status URL, or the catch-all 500 when `start_new` raises |
| DurableAgents.StartedQueryIsPrompt | src/durable_agents.py:366-379 | a started orchestration's first agent call carries the stripped prompt, never empty |
| AgentApp.QueryOf | src/agents/durable_agents.py:271-272 | a falsy input gives the default query, an object its "query" (default when absent), any other value raises AttributeError |
| AgentApp.ResponseOf | src/agents/durable_agents.py:306-307 | `result.get("response", "")` succeeds exactly on an object |
| AgentApp.Orchestrate | src/agents/durable_agents.py:270-309 | calls continue exactly while the query is readable and fewer than three results came back; the output has success true |
| AgentApp.CallSequence | src/agents/durable_agents.py:275-302 | DeepWiki twice on the wiki thread, then CodeStyle on a separate thread, whatever the agents answer |
| AgentApp.OutputCarriesResponses | src/agents/durable_agents.py:305-309 | wiki and styleGuide are the second and third results' "response", "" when absent |
| AgentApp.StartInput | src/agents/durable_agents.py:335-341 | the input is the body when it decodes to a truthy value, otherwise None |
| AgentApp.StartDocumentation | src/agents/durable_agents.py:333-370 | every request starts an orchestration and answers 202 with the instance id and status URL, or the catch-all 500 when `start_new` raises |
| AgentApp.EmptyStartUsesDefault | src/agents/durable_agents.py:335-347 | an empty, falsy or non-JSON body runs on the default query |
| AgentApp.NonObjectStartFails | src/agents/durable_agents.py:271-272 | a truthy body that is not an object makes the orchestration fail before any agent call |
| AgentRuns.AgentThread.constructor | src/agents/deep_wiki.py:129 | a new thread has no messages |
| AgentRuns.AgentThread.Add | src/agents/deep_wiki.py:134-147 | adding a message appends it to the thread |
| AgentRuns.AgentThread.Record | src/agents/deep_wiki.py:151-154 | the run appends the agent's messages to the thread |
| AgentRuns.AgentThread.Listed | src/agents/deep_wiki.py:164 | listing returns the thread newest first |
| AgentRuns.NewestFirst | src/agents/deep_wiki.py:164 | the listing has the thread's messages in reverse order |
| AgentRuns.NewestFirstAppend | src/agents/deep_wiki.py:164 | later messages are listed before earlier ones |
| AgentRuns.FinalQuery | src/agents/deep_wiki.py:141 | the user's query, or the default when empty |
| AgentRuns.Prompts | src/agents/deep_wiki.py:132-147 | user messages only: first the history as a text message when it is non-empty, then the query last |
| AgentRuns.FirstReplyIsFirstAnswer | src/agents/deep_wiki.py:167-173 | the reply is read from the first assistant message with content, skipping all before it |
| AgentRuns.NoAnswerNoReply | src/agents/deep_wiki.py:167-175 | with no assistant message with content there is no reply |
| AgentRuns.FirstReplySkipsTail | src/agents/deep_wiki.py:167-173 | messages that cannot answer, such as the user's, never change the reply |
| AgentRuns.SelectReply | src/agents/deep_wiki.py:167-173 | the loop with its break computes the reply rule above |
| AgentRuns.Outcome | src/agents/deep_wiki.py:175-179 | succeeds exactly for a non-empty reply text and returns that text; a missing or empty reply is the "No response generated" error; a fault reading the message is raised as it is |
| AgentRuns.ReplyIgnoresPrompts | src/agents/deep_wiki.py:164-173 | the user's prompts, listed after the run's messages, never supply the reply |
| AgentRuns.Generate | src/agents/deep_wiki.py:85-183 | the thread is the prompts followed by the run's messages; a failed run raises with its last error; otherwise the reply is the newest assistant answer of the run, non-empty, or an error |
| DeepWiki.GenerateDeepWiki | src/agents/deep_wiki.py:72-183 | the run with the default query "Generate a comprehensive wiki documentation." |
| CodeStyle.GenerateCodeStyle | src/agents/code_style.py:53-173 | the run with the default query "Generate a code style guide." |
| Ingestion.SettingsFrom | src/functions/bp_ingestion.py:16-17 | container "snippet-input" and a limit of 2 MiB unless set |
| Ingestion.TooLargeIsByteComparison | src/functions/bp_ingestion.py:29-30 | the float size test is the byte comparison length > MAX_BLOB_MB × 1048576 |
| Ingestion.SizeLimitBoundary | src/functions/bp_ingestion.py:29-32 | a blob of exactly the limit is admitted by size, one byte more is skipped |
| Ingestion.Admit | src/functions/bp_ingestion.py:28-37 | a blob is admitted exactly when its length is known, it is not over the limit, and it is text by content type (default "text/plain") or by name |
| Ingestion.TextByName | src/functions/bp_ingestion.py:35 | ".md" and ".txt" names are text in any letter case |
| Ingestion.Payload | src/functions/bp_ingestion.py:40 | exactly the keys projectId, name, text with the given values |
| Ingestion.IngestBlobAsWritten | src/functions/bp_ingestion.py:42-45 | a payload is built exactly for admitted blobs; a skipped blob starts nothing |
| Ingestion.SyncClientStartsTwice | src/functions/bp_ingestion.py:42-45 | as written, a client whose start is a plain call starts two orchestrations |
| Ingestion.FailedStartReportedAsStarted | src/functions/bp_ingestion.py:42-47 | as written, an async start raising TypeError starts nothing yet is logged as started |
| Ingestion.IngestBlob | src/functions/bp_ingestion.py:26-49 | the orchestrator starts at most once, exactly for admitted blobs whose start succeeds, and the log reports a start exactly when one happened |
| Ingestion.IntendedAgreesOnAsyncClient | src/functions/bp_ingestion.py:43 | for an async client the intended handler behaves as the code as written |

## Left out

- Cosmos DB, Azure OpenAI, the agent service, the chat agents and the durable client are parameters. Their internals are not modelled. Their failures are, as the fault each call raises.
- AgentTools.AwaitDocumentation: a `get_status` that answers None makes `status.runtime_status` raise AttributeError. The model takes that as a check that raises.
- Json.Lookup: a decoded object is taken to have distinct keys, as a Python dict does. With duplicate keys, Lookup reads the first entry, whereas `json.loads` keeps the last value. Every object the model decodes comes from `json.dumps` of a dict, which has no duplicates.
- Logging, `asyncio.sleep` and wall time are not modelled. The polling loop counts status checks: 150 checks, 2 seconds apart.
- Agent and client construction, the environment they read and the system prompts are not modelled.
- Tool descriptions in the `mcp_tool_trigger` decorators are not modelled. The argument schemas are.
- `json.dumps` spacing, string escaping and number formats are not modelled. Only tokens are. JSON numbers are integers; floats are not modelled.
- Python's `str()` rendering is not modelled. `DurableAgents.Extracted.StrOf` and `AgentTools.Content.OtherContent` carry the value or its given rendering instead. The text of `str(e)` for an exception is also not modelled: a fault is recorded by its kind.
- MCP tool arguments are modelled as strings, as the schemas declare them. A context whose JSON is not an object, and argument values of other types, are not modelled.
- The request body of the documentation start route in `src/durable_agents.py` is taken as decoded text. UTF-8 decoding with replacement is not modelled. Neither is the UTF-8 decoding of an ingested blob (errors ignored).
- `Strings.Lower` lowers ASCII letters only. For the ".md"/".txt" suffix test this gives the same answer as Python's full `str.lower()`, since no other character lowercases to one of those ASCII characters.
- `extract_text`'s `hasattr(content, "text")` branch is not modelled. A decoded JSON value never has that attribute.
- SnippetHandlers.LogPreview: slicing a JSON object in the log line raises TypeError before Python 3.12 and KeyError from 3.12 on. It is modelled as TypeError. Both reach the same catch-all handler.
- AgentRuns.AgentThread.Listed: the model takes the agent service's listing to be newest first, its default order.
- Ingestion.TooLargeIsByteComparison: the size test is exact arithmetic. Python's float division is exact for blobs under 2^53 bytes.
- Ingestion.SettingsFrom: a `MAX_BLOB_MB` that is not an integer makes the module fail to import. This is not modelled: the setting is taken as already parsed.
- `src/agents/tools/vector_search.py`, `data/cosmos_ops` and the embeddings orchestrator are not part of this model.

## Findings

| source | as written | input that shows it | evidently intended | confidence | as-written member | corrected member |
|---|---|---|---|---|---|---|
| src/functions/bp_ingestion.py:42-45 | `start_new` is awaited, and on TypeError it is called again without await | a client whose `start_new` is a plain call: it starts the orchestration, the `await` of its string result raises TypeError, and the fallback starts a second one | one orchestration per admitted blob, whichever way the client's `start_new` behaves | not executed | Ingestion.SyncClientStartsTwice | Ingestion.IngestBlob |
| src/functions/bp_ingestion.py:42-47 | a TypeError raised by the awaited start falls back to an un-awaited call | an async client whose awaited start raises TypeError: the fallback returns a coroutine nobody awaits, and "Ingestion started orchestration" is logged | a failed start is logged as a failure | not executed | Ingestion.FailedStartReportedAsStarted | Ingestion.IngestBlob |
