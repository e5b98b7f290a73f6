/** The documentation orchestration of src/durable_agents.py and its start
    route. The orchestration is a generator that the durable runtime
    replays: given its input and the results of the agent calls delivered so
    far, it either asks for the next agent call or finishes with its output.
    `Orchestrate` is that replay step. */
module DurableAgents {
  import opened Wrappers
  import opened Json
  import opened Responses
  import opened Orchestration
  import Strings

  const DefaultQuery := "Generate comprehensive documentation"
  const FocusSuffix := ". Focus on architecture and key patterns."
  const RefinePrompt := "Enhance the documentation with more code examples and best practices."
  const StylePrompt := "Generate a style guide that aligns with the patterns discussed in the wiki."

  /** The user's query read from the orchestration input: the "query" of an
      object (the default when absent), a string itself, anything else the
      default. */
  function NormalizeQuery(input: Json): (q: Json)
    ensures input.JObj? ==> q == GetOr(input.fields, "query", JStr(DefaultQuery))
    ensures input.JStr? ==> q == input
    ensures !input.JObj? && !input.JStr? ==> q == JStr(DefaultQuery)
  {
    match input
    case JObj(fields) => GetOr(fields, "query", JStr(DefaultQuery))
    case JStr(_) => input
    case _ => JStr(DefaultQuery)
  }

  /** What `extract_text` returns: text it assembled, or `str(result)` of
      the whole result, whose rendering is not modelled. */
  datatype Extracted = Text(text: string) | StrOf(value: Json)

  /** The orchestration's output object: "wiki", "styleGuide", "success". */
  datatype Documentation = Documentation(wiki: Extracted, styleGuide: Extracted, success: bool)

  /** One replay step: the next agent call, or the end of the orchestration
      with its output (or the exception that ends it). */
  datatype Step =
    | Invoke(agent: AgentName, prompt: Prompt)
    | Finish(result: Result<Documentation, Fault>)

  /** `for x in value`: what iterating over a decoded value yields. */
  function Elements(j: Json): Result<seq<Json>, Fault> {
    match j
    case JArr(items) => Success(items)
    case JStr(s) => Success(seq(|s|, i requires 0 <= i < |s| => JStr([s[i]])))
    case JObj(fields) => Success(seq(|fields|, i requires 0 <= i < |fields| => JStr(fields[i].0)))
    case _ => Failure(TypeError)
  }

  /** The `text` a content item contributes: the "text" entry of an object
      that has one. */
  function TextPart(content: Json): seq<Json> {
    if content.JObj? && "text" in Keys(content.fields) then [Lookup(content.fields, "text").value] else []
  }

  /** The `text_parts` list of `extract_text`, collected in order. */
  function TextParts(contents: seq<Json>): seq<Json> {
    if contents == [] then [] else TextParts(contents[..|contents| - 1]) + TextPart(contents[|contents| - 1])
  }

  /** `"".join(parts)`: defined when every part is a string. */
  function JoinParts(parts: seq<Json>): (r: Result<string, Fault>)
    ensures r.Failure? <==> exists i :: 0 <= i < |parts| && !parts[i].JStr?
  {
    if forall i :: 0 <= i < |parts| ==> parts[i].JStr? then
      Success(Strings.Concat(seq(|parts|, i requires 0 <= i < |parts| && parts[i].JStr? => parts[i].s)))
    else Failure(TypeError)
  }

  /** `messages[-1]` of a result, or None when there are no messages. */
  function LastMessage(result: Json): Result<Option<Json>, Fault> {
    var messages := if result.JObj? then GetOr(result.fields, "messages", JArr([])) else JArr([]);
    if !Truthy(messages) then Success(None)
    else match messages
      case JArr(items) => Success(Some(items[|items| - 1]))
      case JStr(s) => Success(Some(JStr([s[|s| - 1]])))
      case JObj(_) => Failure(KeyError)  // -1 is not a key of a decoded object
      case _ => Failure(TypeError)       // a number or `true` cannot be subscripted
  }

  /** `extract_text` on one agent result. */
  function ExtractTextSpec(result: Json): Result<Extracted, Fault> {
    if !Truthy(result) then Success(Text(""))
    else match LastMessage(result)
      case Failure(e) => Failure(e)
      case Success(None) => Success(StrOf(result))
      case Success(Some(last)) =>
        if !last.JObj? then Success(StrOf(result))
        else match Elements(GetOr(last.fields, "contents", JArr([])))
          case Failure(e) => Failure(e)
          case Success(contents) => JoinedText(result, TextParts(contents))
  }

  /** The end of `extract_text`: the collected parts joined, or the whole
      result when there are none. */
  function JoinedText(result: Json, parts: seq<Json>): Result<Extracted, Fault> {
    if parts == [] then Success(StrOf(result))
    else match JoinParts(parts)
      case Success(s) => Success(Text(s))
      case Failure(e) => Failure(e)
  }

  /** The loop of `extract_text` over the content items of the last
      message: the "text" of each item that has one, in order. */
  method CollectTextParts(contents: seq<Json>) returns (parts: seq<Json>)
    ensures parts == TextParts(contents)
  {
    parts := [];
    for i := 0 to |contents|
      invariant parts == TextParts(contents[..i])
    {
      assert contents[..i + 1][..i] == contents[..i];
      var content := contents[i];
      if content.JObj? && "text" in Keys(content.fields) {
        parts := parts + [Lookup(content.fields, "text").value];
      }
    }
    assert contents[..|contents|] == contents;
  }

  /** `extract_text`. */
  method ExtractText(result: Json) returns (r: Result<Extracted, Fault>)
    ensures r == ExtractTextSpec(result)
  {
    if !Truthy(result) {
      return Success(Text(""));
    }
    var last := LastMessage(result);
    if last.Failure? {
      return Failure(last.error);
    }
    if last.value.Some? && last.value.value.JObj? {
      var elements := Elements(GetOr(last.value.value.fields, "contents", JArr([])));
      if elements.Failure? {
        return Failure(elements.error);
      }
      var parts := CollectTextParts(elements.value);
      if parts != [] {
        var joined := JoinParts(parts);
        if joined.Failure? {
          return Failure(joined.error);
        }
        return Success(Text(joined.value));
      }
    }
    return Success(StrOf(result));
  }

  /** A chat client's reply: earlier messages, then a last message whose
      contents are text items. */
  function ChatReply(earlier: seq<Json>, texts: seq<string>): Json {
    JObj([("messages", JArr(earlier + [JObj([("contents", JArr(TextItems(texts)))])]))])
  }

  function TextItems(texts: seq<string>): (items: seq<Json>)
    ensures |items| == |texts|
  {
    seq(|texts|, i requires 0 <= i < |texts| => JObj([("type", JStr("text")), ("text", JStr(texts[i]))]))
  }

  /** One text item contributes its text. */
  lemma TextPartOfItem(t: string)
    ensures TextPart(JObj([("type", JStr("text")), ("text", JStr(t))])) == [JStr(t)]
  {
    assert Keys([("type", JStr("text")), ("text", JStr(t))]) == ["type", "text"];
  }

  lemma {:induction false} TextPartsOfItems(texts: seq<string>)
    ensures TextParts(TextItems(texts)) == seq(|texts|, i requires 0 <= i < |texts| => JStr(texts[i]))
  {
    if texts != [] {
      var n := |texts| - 1;
      assert TextItems(texts)[..n] == TextItems(texts[..n]);
      TextPartsOfItems(texts[..n]);
      TextPartOfItem(texts[n]);
    }
  }

  /** The last message of a chat reply is the one holding its text items. */
  lemma ChatReplyLast(earlier: seq<Json>, texts: seq<string>)
    ensures LastMessage(ChatReply(earlier, texts)) == Success(Some(JObj([("contents", JArr(TextItems(texts)))])))
  {
    var reply := ChatReply(earlier, texts);
    assert Keys(reply.fields) == ["messages"];
  }

  /** Text items' parts join to the texts concatenated. */
  lemma JoinedTexts(result: Json, texts: seq<string>)
    requires texts != []
    ensures JoinedText(result, TextParts(TextItems(texts))) == Success(Text(Strings.Concat(texts)))
  {
    var parts := TextParts(TextItems(texts));
    TextPartsOfItems(texts);
    assert |parts| == |texts| && parts != [];
    assert forall i :: 0 <= i < |parts| ==> parts[i] == JStr(texts[i]);
    assert seq(|parts|, i requires 0 <= i < |parts| && parts[i].JStr? => parts[i].s) == texts;
  }

  /** The text of a chat reply is its last message's text items joined in
      order; earlier messages play no part. */
  lemma ExtractTextOfChatReply(earlier: seq<Json>, texts: seq<string>)
    requires texts != []
    ensures ExtractTextSpec(ChatReply(earlier, texts)) == Success(Text(Strings.Concat(texts)))
  {
    var reply := ChatReply(earlier, texts);
    var last := JObj([("contents", JArr(TextItems(texts)))]);
    ChatReplyLast(earlier, texts);
    ContentsOfLast(texts);
    ExtractTextOfLast(reply, last, TextItems(texts));
    JoinedTexts(reply, texts);
  }

  /** Once the last message and its contents are known, `extract_text`
      joins the contents' text parts. */
  lemma ExtractTextOfLast(result: Json, last: Json, contents: seq<Json>)
    requires Truthy(result) && LastMessage(result) == Success(Some(last)) && last.JObj?
    requires Elements(GetOr(last.fields, "contents", JArr([]))) == Success(contents)
    ensures ExtractTextSpec(result) == JoinedText(result, TextParts(contents))
  {
  }

  /** The contents of that last message are its text items. */
  lemma ContentsOfLast(texts: seq<string>)
    ensures Elements(GetOr([("contents", JArr(TextItems(texts)))], "contents", JArr([]))) == Success(TextItems(texts))
  {
    assert Keys([("contents", JArr(TextItems(texts)))]) == ["contents"];
  }

  /** A result with no content text falls back to the whole result. */
  lemma ExtractTextFallsBack(result: Json)
    requires Truthy(result) && LastMessage(result) == Success(None)
    ensures ExtractTextSpec(result) == Success(StrOf(result))
  {
  }

  /** documentation_orchestration, replayed with the agent results delivered
      so far: two DeepWiki calls, then one CodeStyle call, then the output
      built from the second and third results. */
  function Orchestrate(input: Json, results: seq<Json>): (step: Step)
    ensures step.Invoke? <==> |results| < 3
    ensures |results| == 0 ==> step == Invoke(DeepWikiAgent, QueryThen(NormalizeQuery(input), FocusSuffix))
    ensures |results| == 1 ==> step == Invoke(DeepWikiAgent, Literal(RefinePrompt))
    ensures |results| == 2 ==> step == Invoke(CodeStyleAgent, Literal(StylePrompt))
    ensures step.Finish? && step.result.Success? ==> step.result.value.success
    ensures |results| >= 3 && ExtractTextSpec(results[1]).Success? && ExtractTextSpec(results[2]).Success? ==>
      step == Finish(Success(Documentation(ExtractTextSpec(results[1]).value, ExtractTextSpec(results[2]).value, true)))
    ensures |results| >= 3 && ExtractTextSpec(results[1]).Failure? ==>
      step == Finish(Failure(ExtractTextSpec(results[1]).error))
    ensures |results| >= 3 && ExtractTextSpec(results[1]).Success? && ExtractTextSpec(results[2]).Failure? ==>
      step == Finish(Failure(ExtractTextSpec(results[2]).error))
  {
    var query := NormalizeQuery(input);
    if |results| == 0 then Invoke(DeepWikiAgent, QueryThen(query, FocusSuffix))
    else if |results| == 1 then Invoke(DeepWikiAgent, Literal(RefinePrompt))
    else if |results| == 2 then Invoke(CodeStyleAgent, Literal(StylePrompt))
    else
      match ExtractTextSpec(results[1])
      case Failure(e) => Finish(Failure(e))
      case Success(wiki) =>
        match ExtractTextSpec(results[2])
        case Failure(e) => Finish(Failure(e))
        case Success(style) => Finish(Success(Documentation(wiki, style, true)))
  }

  /** The orchestration's output depends on the refined wiki and the style
      guide only: the first wiki draft is never read. */
  lemma FirstDraftUnused(input: Json, results: seq<Json>, draft: Json)
    requires |results| >= 3
    ensures Orchestrate(input, results) == Orchestrate(input, [draft] + results[1..])
  {
    assert ([draft] + results[1..])[1..] == results[1..];
  }

  /** The calls the orchestration makes never depend on what the agents
      answered, only on how many answers there are. */
  lemma CallsIgnoreResults(input: Json, a: seq<Json>, b: seq<Json>)
    requires |a| == |b| < 3
    ensures Orchestrate(input, a) == Orchestrate(input, b)
  {
  }

  /** Two agent results that both extract to text give the documentation
      with exactly those texts. */
  lemma OrchestrationOutput(input: Json, draft: Json, wikiEarlier: seq<Json>, wiki: seq<string>,
                            styleEarlier: seq<Json>, style: seq<string>)
    requires wiki != [] && style != []
    ensures Orchestrate(input, [draft, ChatReply(wikiEarlier, wiki), ChatReply(styleEarlier, style)])
      == Finish(Success(Documentation(Text(Strings.Concat(wiki)), Text(Strings.Concat(style)), true)))
  {
    ExtractTextOfChatReply(wikiEarlier, wiki);
    ExtractTextOfChatReply(styleEarlier, style);
  }

  /** Results without text fall back: a falsy result gives "", a truthy one
      without messages gives its `str()`. */
  lemma OrchestrationOutputFallsBack(input: Json, draft: Json, wiki: Json, style: Json)
    requires !Truthy(wiki)
    requires Truthy(style) && LastMessage(style) == Success(None)
    ensures Orchestrate(input, [draft, wiki, style]) == Finish(Success(Documentation(Text(""), StrOf(style), true)))
  {
    ExtractTextFallsBack(style);
  }

  /** A refined wiki whose "messages" is a non-zero number makes
      `extract_text` raise TypeError, and the orchestration ends with it
      whatever the style guide is. */
  lemma OrchestrationOutputFails(input: Json, draft: Json, n: int, style: Json)
    requires n != 0
    ensures Orchestrate(input, [draft, JObj([("messages", JNum(n))]), style]) == Finish(Failure(TypeError))
  {
    var wiki := JObj([("messages", JNum(n))]);
    assert Keys(wiki.fields) == ["messages"];
    assert LastMessage(wiki) == Failure(TypeError);
  }

  const StartedMessage := "Documentation orchestration started."

  /** What the start route does: its response, and the input it started the
      orchestration with (None when it started none). */
  datatype Start = Start(response: HttpResponse, input: Option<Json>)

  /** start_documentation_orchestration. `body` is the request body decoded
      as text, `instanceId` what the durable client's `start_new` returns or
      raises; `input` is what `start_new` was called with. */
  function StartDocumentation(body: string, requestUrl: string, instanceId: Result<string, Fault>): (s: Start)
    ensures s.input.Some? <==> exists i :: 0 <= i < |body| && !Strings.IsSpace(body[i])
    ensures s.input.None? ==> s.response == Respond(400, ErrorObject("Prompt is required"))
    ensures s.input.Some? ==> s.input.value == JStr(Strings.Strip(body))
    ensures s.input.Some? && instanceId.Failure? ==> s.response == InternalError(instanceId.error)
    ensures s.input.Some? && instanceId.Success? ==> s.response == Respond(202, JObj([
      ("message", JStr(StartedMessage)),
      ("instanceId", JStr(instanceId.value)),
      ("statusQueryGetUri", JStr(StatusUrl(requestUrl, instanceId.value, "orchestration")))]))
  {
    var prompt := Strings.Strip(body);
    if prompt == "" then Start(Respond(400, ErrorObject("Prompt is required")), None)
    else match instanceId
      case Failure(e) => Start(InternalError(e), Some(JStr(prompt)))
      case Success(id) =>
        Start(Respond(202, JObj([
          ("message", JStr(StartedMessage)),
          ("instanceId", JStr(id)),
          ("statusQueryGetUri", JStr(StatusUrl(requestUrl, id, "orchestration")))])),
          Some(JStr(prompt)))
  }

  /** An orchestration started by the route asks its first agent about the
      stripped prompt, which is never empty and never begins or ends with
      white space. */
  lemma StartedQueryIsPrompt(body: string, requestUrl: string, instanceId: Result<string, Fault>)
    requires StartDocumentation(body, requestUrl, instanceId).input.Some?
    ensures var input := StartDocumentation(body, requestUrl, instanceId).input.value;
      var q := Strings.Strip(body);
      Orchestrate(input, []) == Invoke(DeepWikiAgent, QueryThen(JStr(q), FocusSuffix))
      && q != "" && !Strings.IsSpace(q[0]) && !Strings.IsSpace(q[|q| - 1])
  {
  }
}
