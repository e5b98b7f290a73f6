/** The snippet routes and tools of the function app (src/function_app.py):
    saving a snippet together with the embedding vector the embeddings
    binding computed for it, and reading a snippet back by name, over HTTP
    and over MCP. The store is a parameter: `stored` is what its upsert
    returns or raises, `fetch` what it returns for a name (JNull when there
    is none) or raises. */
module SnippetHandlers {
  import opened Wrappers
  import opened Json
  import opened Responses
  import opened ToolSchemas
  import Strings

  const DefaultProjectId := "default-project"
  const RequiredFields: seq<string> := ["name", "code"]
  const InvalidEmbeddings := "Invalid embeddings data or structure"
  const InvalidContext := "Invalid JSON received in context"

  /** The arguments of the store's upsert. */
  datatype SnippetDocument = SnippetDocument(name: Json, projectId: Json, code: Json, embedding: Json)

  /** Python's `field in body` for a decoded request body: a key of an
      object, an element of an array, a substring of a string; any other
      value raises TypeError. */
  function Membership(body: Json, field: string): (r: Result<bool, Fault>)
    ensures r.Failure? <==> !(body.JObj? || body.JArr? || body.JStr?)
    ensures body.JObj? ==> r == Success(field in Keys(body.fields))
  {
    match body
    case JObj(fields) => Success(field in Keys(fields))
    case JArr(items) => Success(JStr(field) in items)
    case JStr(s) => Success(Strings.Contains(s, field))
    case _ => Failure(TypeError)
  }

  /** What the required-field check decides. */
  datatype FieldCheck = AllPresent | MissingField(field: string) | CheckFailed(fault: Fault)

  function Verdict(field: string, member: Result<bool, Fault>): FieldCheck {
    match member
    case Success(true) => AllPresent
    case Success(false) => MissingField(field)
    case Failure(e) => CheckFailed(e)
  }

  /** The required-field loop of http_save_snippet: the first field that is
      not in the body decides the answer; all present lets the save go on. */
  method FirstMissingField(body: Json, fields: seq<string>) returns (r: FieldCheck)
    ensures r.AllPresent? <==> forall k :: 0 <= k < |fields| ==> Membership(body, fields[k]) == Success(true)
    ensures !r.AllPresent? ==>
      exists k :: 0 <= k < |fields| && r == Verdict(fields[k], Membership(body, fields[k]))
        && forall j :: 0 <= j < k ==> Membership(body, fields[j]) == Success(true)
  {
    for k := 0 to |fields|
      invariant forall j :: 0 <= j < k ==> Membership(body, fields[j]) == Success(true)
    {
      var present := Membership(body, fields[k]);
      if present != Success(true) {
        return Verdict(fields[k], present);
      }
    }
    return AllPresent;
  }

  /** `value[key]` for a string key. */
  function Subscript(j: Json, key: string): Result<Json, Fault> {
    match j
    case JObj(fields) => (match Lookup(fields, key) case Some(v) => Success(v) case None => Failure(KeyError))
    case _ => Failure(TypeError)
  }

  /** `value[0]`. */
  function First(j: Json): Result<Json, Fault> {
    match j
    case JArr(items) => if items == [] then Failure(IndexError) else Success(items[0])
    case JStr(s) => if s == "" then Failure(IndexError) else Success(JStr([s[0]]))
    case JObj(_) => Failure(KeyError)  // the keys of a decoded object are strings, never 0
    case _ => Failure(TypeError)
  }

  /** `embeddings_data["response"]["data"][0]["embedding"]`. A failure is one
      of the three kinds of fault that subscripting raises. */
  function EmbeddingVector(data: Json): (r: Result<Json, Fault>)
    ensures r.Failure? ==> r.error in {KeyError, IndexError, TypeError}
    ensures !data.JObj? ==> r == Failure(TypeError)
  {
    match Subscript(data, "response")
    case Failure(e) => Failure(e)
    case Success(response) =>
      match Subscript(response, "data")
      case Failure(e) => Failure(e)
      case Success(entries) =>
        match First(entries)
        case Failure(e) => Failure(e)
        case Success(entry) => Subscript(entry, "embedding")
  }

  /** The vector sits at `["response"]["data"][0]["embedding"]`, read with
      dict lookups: `response` is an object, its `data` a non-empty list
      whose first entry is an object holding `embedding`. */
  predicate VectorAt(data: Json, v: Json) {
    data.JObj? &&
    match Lookup(data.fields, "response")
    case Some(JObj(response)) =>
      (match Lookup(response, "data")
       case Some(JArr(entries)) =>
         entries != [] && entries[0].JObj? && Lookup(entries[0].fields, "embedding") == Some(v)
       case _ => false)
    case _ => false
  }

  /** The handler reads a vector exactly when one sits at the path, and it
      reads that one. */
  lemma EmbeddingVectorReadsPath(data: Json, v: Json)
    ensures EmbeddingVector(data) == Success(v) <==> VectorAt(data, v)
  {
  }

  /** A missing key along the path is a KeyError and an empty `data` list an
      IndexError, the faults the handler reports as invalid embeddings. */
  lemma EmbeddingVectorFaults(top: seq<(string, Json)>, response: seq<(string, Json)>, entries: seq<Json>)
    ensures "response" !in Keys(top) ==> EmbeddingVector(JObj(top)) == Failure(KeyError)
    ensures Lookup(top, "response") == Some(JObj(response)) && "data" !in Keys(response) ==>
      EmbeddingVector(JObj(top)) == Failure(KeyError)
    ensures Lookup(top, "response") == Some(JObj(response)) && Lookup(response, "data") == Some(JArr([])) ==>
      EmbeddingVector(JObj(top)) == Failure(IndexError)
    ensures (Lookup(top, "response") == Some(JObj(response)) && Lookup(response, "data") == Some(JArr(entries))
             && entries != [] && entries[0].JObj? && "embedding" !in Keys(entries[0].fields)) ==>
      EmbeddingVector(JObj(top)) == Failure(KeyError)
    ensures CaughtAsInvalid(Some(JObj(top))) <==>
      EmbeddingVector(JObj(top)) == Failure(KeyError) || EmbeddingVector(JObj(top)) == Failure(IndexError)
  {
  }

  /** The shape of the embeddings binding's answer: each object on the path
      may hold other keys before and after the one the handler reads (such
      as "object", "index", "model" and "usage"), and `data` may hold more
      entries after the first. */
  function EmbeddingsAnswer(top: seq<(string, Json)>, topRest: seq<(string, Json)>,
                            response: seq<(string, Json)>, responseRest: seq<(string, Json)>,
                            entry: seq<(string, Json)>, entryRest: seq<(string, Json)>,
                            vector: Json, others: seq<Json>): Json
  {
    var first := JObj(entry + [("embedding", vector)] + entryRest);
    JObj(top + [("response", JObj(response + [("data", JArr([first] + others))] + responseRest))] + topRest)
  }

  /** The handler reads back exactly the vector the binding put there. */
  lemma EmbeddingVectorOfAnswer(top: seq<(string, Json)>, topRest: seq<(string, Json)>,
                                response: seq<(string, Json)>, responseRest: seq<(string, Json)>,
                                entry: seq<(string, Json)>, entryRest: seq<(string, Json)>,
                                vector: Json, others: seq<Json>)
    requires "response" !in Keys(top) && "data" !in Keys(response) && "embedding" !in Keys(entry)
    ensures EmbeddingVector(EmbeddingsAnswer(top, topRest, response, responseRest, entry, entryRest, vector, others))
      == Success(vector)
  {
    var first := JObj(entry + [("embedding", vector)] + entryRest);
    var entries := JArr([first] + others);
    var inner := JObj(response + [("data", entries)] + responseRest);
    var answer := JObj(top + [("response", inner)] + topRest);
    assert Subscript(answer, "response") == Success(inner) by {
      LookupFirstEntry(top, "response", inner, topRest);
    }
    assert Subscript(inner, "data") == Success(entries) by {
      LookupFirstEntry(response, "data", entries, responseRest);
    }
    assert First(entries) == Success(first);
    assert Subscript(first, "embedding") == Success(vector) by {
      LookupFirstEntry(entry, "embedding", vector, entryRest);
    }
  }

  /** A failure to find the vector that the inner handler turns into
      "Invalid embeddings data or structure" (JSONDecodeError, KeyError or
      IndexError); a TypeError escapes to the catch-all handler. */
  predicate CaughtAsInvalid(embeddings: Option<Json>) {
    embeddings.None? || EmbeddingVector(embeddings.value) == Failure(KeyError)
    || EmbeddingVector(embeddings.value) == Failure(IndexError)
  }

  /** `len(code)` and `code[:100]` in the log lines: they fail on a value
      that has no length, and slicing fails on an object. */
  function LogPreview(code: Json): Result<(), Fault> {
    if code.JStr? || code.JArr? then Success(()) else Failure(TypeError)
  }

  /** What the save route answers when the store's upsert raises: inside
      the embeddings `try`, so a KeyError, an IndexError or a
      JSONDecodeError is reported as invalid embeddings, and anything else
      reaches the catch-all. */
  function UpsertFailed(e: Fault): (r: HttpResponse)
    ensures StatusCode(r) == 500
    ensures e in {KeyError, IndexError, JsonDecodeError} <==> r == Respond(500, ErrorObject(InvalidEmbeddings))
    ensures e !in {KeyError, IndexError, JsonDecodeError} ==> r == InternalError(e)
  {
    if e in {KeyError, IndexError, JsonDecodeError} then Respond(500, ErrorObject(InvalidEmbeddings))
    else InternalError(e)
  }

  /** The same for the save tool. */
  function UpsertFailedReply(e: Fault): (r: ToolReply)
    ensures e in {KeyError, IndexError, JsonDecodeError} <==> r == Reply(ErrorObject(InvalidEmbeddings))
    ensures r.Raised? <==> e !in {KeyError, IndexError, JsonDecodeError}
    ensures e !in {KeyError, IndexError, JsonDecodeError} ==> r == Raised(e)
  {
    if e in {KeyError, IndexError, JsonDecodeError} then Reply(ErrorObject(InvalidEmbeddings))
    else Raised(e)
  }

  /** The request body http_save_snippet accepts up to the embeddings step. */
  predicate WellFormedSaveBody(b: Json) {
    b.JObj? && "name" in Keys(b.fields) && "code" in Keys(b.fields)
    && LogPreview(Lookup(b.fields, "code").value).Success?
  }

  /** The document http_save_snippet upserts for a well-formed body. */
  function SaveDocument(b: Json, vector: Json): SnippetDocument
    requires WellFormedSaveBody(b)
  {
    SnippetDocument(Lookup(b.fields, "name").value, GetOr(b.fields, "projectId", JStr(DefaultProjectId)),
                    Lookup(b.fields, "code").value, vector)
  }

  /** http_save_snippet. `body` is the decoded request body (None when it is
      not JSON), `embeddings` the decoded embeddings binding (None when it is
      not JSON). Returns the response and the document upserted, if any. */
  method HttpSaveSnippet(body: Option<Json>, embeddings: Option<Json>, stored: Result<Json, Fault>)
    returns (response: HttpResponse, saved: Option<SnippetDocument>)
    ensures body.None? ==> response == InternalError(JsonDecodeError) && saved.None?
    ensures body.Some? && Membership(body.value, "name") == Success(false) ==>
      response == Respond(400, ErrorObject("Missing required field: name")) && saved.None?
    ensures body.Some? && Membership(body.value, "name") == Success(true) && Membership(body.value, "code") == Success(false) ==>
      response == Respond(400, ErrorObject("Missing required field: code")) && saved.None?
    ensures StatusCode(response) == 400 <==>
      body.Some? && exists k :: 0 <= k < 2 && Membership(body.value, RequiredFields[k]) == Success(false)
    ensures saved.Some? <==> body.Some? && WellFormedSaveBody(body.value) && embeddings.Some? && EmbeddingVector(embeddings.value).Success?
    ensures saved.Some? ==> saved.value == SaveDocument(body.value, EmbeddingVector(embeddings.value).value)
    ensures saved.Some? && stored.Success? ==> response == Respond(200, stored.value)
    ensures saved.Some? && stored.Failure? ==> response == UpsertFailed(stored.error)
    ensures body.Some? && WellFormedSaveBody(body.value) && CaughtAsInvalid(embeddings) ==>
      response == Respond(500, ErrorObject(InvalidEmbeddings))
    ensures StatusCode(response) == 200 <==> saved.Some? && stored.Success?
    ensures body.Some? && Membership(body.value, "name").Failure? ==> response == InternalError(TypeError)
    ensures body.Some? && (body.value.JArr? || body.value.JStr?)
            && Membership(body.value, "name") == Success(true) && Membership(body.value, "code") == Success(true) ==>
      response == InternalError(AttributeError)
    ensures body.Some? && body.value.JObj? && "name" in Keys(body.value.fields) && "code" in Keys(body.value.fields)
            && LogPreview(Lookup(body.value.fields, "code").value).Failure? ==>
      response == InternalError(TypeError)
    ensures body.Some? && WellFormedSaveBody(body.value) && embeddings.Some? && EmbeddingVector(embeddings.value) == Failure(TypeError) ==>
      response == InternalError(TypeError)
    ensures StatusCode(response) !in {200, 400} && response != Respond(500, ErrorObject(InvalidEmbeddings)) ==>
      response.InternalError?
  {
    saved := None;
    if body.None? {
      return InternalError(JsonDecodeError), None;
    }
    var b := body.value;
    var check := FirstMissingField(b, RequiredFields);
    match check {
      case CheckFailed(e) =>
        return InternalError(e), None;
      case MissingField(f) =>
        assert f == "name" <==> Membership(b, "name") == Success(false) by {
          if Membership(b, "name") == Success(true) {
            assert Membership(b, RequiredFields[0]) == Success(true);
          }
        }
        assert "Missing required field: " + "name" == "Missing required field: name";
        assert "Missing required field: " + "code" == "Missing required field: code";
        return Respond(400, ErrorObject("Missing required field: " + f)), None;
      case AllPresent =>
    }
    assert Membership(b, RequiredFields[0]) == Success(true) && Membership(b, RequiredFields[1]) == Success(true);
    if !b.JObj? {
      // req_body.get on an array or a string
      return InternalError(AttributeError), None;
    }
    var code := Lookup(b.fields, "code").value;
    var preview := LogPreview(code);
    if preview.Failure? {
      return InternalError(preview.error), None;
    }
    if embeddings.None? {
      return Respond(500, ErrorObject(InvalidEmbeddings)), None;
    }
    var vector := EmbeddingVector(embeddings.value);
    if vector.Failure? {
      if vector.error == TypeError {
        return InternalError(TypeError), None;
      }
      return Respond(500, ErrorObject(InvalidEmbeddings)), None;
    }
    saved := Some(SaveDocument(b, vector.value));
    response := if stored.Success? then Respond(200, stored.value) else UpsertFailed(stored.error);
  }

  /** A present, non-empty argument (`if not name` fails otherwise). */
  predicate Given(arg: Option<string>) {
    arg.Some? && arg.value != ""
  }

  /** The list of missing arguments mcp_save_snippet reports, built by
      appending in a fixed order. */
  method MissingArguments(name: Option<string>, code: Option<string>) returns (missing: seq<string>)
    ensures SnippetNameArg in missing <==> !Given(name)
    ensures SnippetArg in missing <==> !Given(code)
    ensures |missing| == (if Given(name) then 0 else 1) + (if Given(code) then 0 else 1)
    ensures !Given(name) ==> missing[0] == SnippetNameArg
  {
    missing := [];
    if !Given(name) {
      missing := missing + [SnippetNameArg];
    }
    if !Given(code) {
      missing := missing + [SnippetArg];
    }
  }

  const MissingPrefix := "Missing essential arguments for save_snippet: "
  const MissingSuffix := ". Please provide both snippet name and content."

  function MissingArgumentsMessage(missing: seq<string>): string {
    MissingPrefix + Strings.Join(missing, ", ") + MissingSuffix
  }

  /** mcp_save_snippet. Returns the tool's reply and the document upserted,
      if any. */
  method McpSaveSnippet(context: ToolContext, embeddings: Option<Json>, stored: Result<Json, Fault>)
    returns (reply: ToolReply, saved: Option<SnippetDocument>)
    ensures context.MalformedContext? ==> reply == Reply(ErrorObject(InvalidContext)) && saved.None?
    ensures context.ToolContext? && !Given(Argument(context, SnippetNameArg)) && !Given(Argument(context, SnippetArg)) ==>
      reply == Reply(ErrorObject(MissingPrefix + SnippetNameArg + ", " + SnippetArg + MissingSuffix)) && saved.None?
    ensures context.ToolContext? && !Given(Argument(context, SnippetNameArg)) && Given(Argument(context, SnippetArg)) ==>
      reply == Reply(ErrorObject(MissingPrefix + SnippetNameArg + MissingSuffix)) && saved.None?
    ensures context.ToolContext? && Given(Argument(context, SnippetNameArg)) && !Given(Argument(context, SnippetArg)) ==>
      reply == Reply(ErrorObject(MissingPrefix + SnippetArg + MissingSuffix)) && saved.None?
    ensures saved.Some? <==>
      (context.ToolContext? && Given(Argument(context, SnippetNameArg)) && Given(Argument(context, SnippetArg))
       && embeddings.Some? && EmbeddingVector(embeddings.value).Success?)
    ensures saved.Some? && stored.Success? ==> reply == Reply(stored.value)
    ensures saved.Some? && stored.Failure? ==> reply == UpsertFailedReply(stored.error)
    ensures saved.Some? ==>
      (saved.value.name == JStr(context.arguments[SnippetNameArg])
       && saved.value.code == JStr(context.arguments[SnippetArg])
       && saved.value.projectId == JStr(if ProjectIdArg in context.arguments then context.arguments[ProjectIdArg] else DefaultProjectId)
       && saved.value.embedding == EmbeddingVector(embeddings.value).value)
    ensures context.ToolContext? && Given(Argument(context, SnippetNameArg)) && Given(Argument(context, SnippetArg)) && CaughtAsInvalid(embeddings) ==>
      reply == Reply(ErrorObject(InvalidEmbeddings))
    ensures context.ToolContext? && Given(Argument(context, SnippetNameArg)) && Given(Argument(context, SnippetArg))
            && embeddings.Some? && EmbeddingVector(embeddings.value) == Failure(TypeError) ==>
      reply == Raised(TypeError)
  {
    saved := None;
    if context.MalformedContext? {
      return Reply(ErrorObject(InvalidContext)), None;
    }
    var name := Argument(context, SnippetNameArg);
    var code := Argument(context, SnippetArg);
    var projectId := if ProjectIdArg in context.arguments then context.arguments[ProjectIdArg] else DefaultProjectId;
    if !Given(name) || !Given(code) {
      var missing := MissingArguments(name, code);
      assert !Given(name) && !Given(code) ==> missing == [SnippetNameArg, SnippetArg];
      assert !Given(name) && Given(code) ==> missing == [SnippetNameArg];
      assert Given(name) && !Given(code) ==> missing == [SnippetArg];
      if !Given(name) && !Given(code) {
        assert missing[1..] == [SnippetArg];
        assert Strings.Join(missing[1..], ", ") == SnippetArg;
        var joined := Strings.Join(missing, ", ");
        assert joined == SnippetNameArg + ", " + SnippetArg;
        assert MissingArgumentsMessage(missing) == MissingPrefix + joined + MissingSuffix;
        assert MissingPrefix + joined + MissingSuffix == MissingPrefix + SnippetNameArg + ", " + SnippetArg + MissingSuffix;
      }
      return Reply(ErrorObject(MissingArgumentsMessage(missing))), None;
    }
    if embeddings.None? {
      return Reply(ErrorObject(InvalidEmbeddings)), None;
    }
    var vector := EmbeddingVector(embeddings.value);
    if vector.Failure? {
      if vector.error == TypeError {
        return Raised(TypeError), None;
      }
      return Reply(ErrorObject(InvalidEmbeddings)), None;
    }
    saved := Some(SnippetDocument(JStr(name.value), JStr(projectId), JStr(code.value), vector.value));
    reply := if stored.Success? then Reply(stored.value) else UpsertFailedReply(stored.error);
  }

  /** http_get_snippet: 400 without a name, 404 when the store has nothing
      (or an empty document) for it, otherwise the document with 200. */
  function HttpGetSnippet(name: Option<string>, fetch: string -> Result<Json, Fault>): (r: HttpResponse)
    ensures r.InternalError? <==> Given(name) && fetch(name.value).Failure?
    ensures r.InternalError? ==> r.fault == fetch(name.value).error
    ensures StatusCode(r) == 400 <==> !Given(name)
    ensures StatusCode(r) == 404 <==> Given(name) && fetch(name.value).Success? && !Truthy(fetch(name.value).value)
    ensures StatusCode(r) == 200 <==> Given(name) && fetch(name.value).Success? && Truthy(fetch(name.value).value)
    ensures StatusCode(r) == 200 ==> r.body == fetch(name.value).value
    ensures StatusCode(r) == 404 ==> r.body == ErrorObject("Snippet '" + name.value + "' not found")
  {
    if !Given(name) then Respond(400, ErrorObject("Missing snippet name in route"))
    else match fetch(name.value)
      case Failure(e) => InternalError(e)
      case Success(snippet) =>
        if !Truthy(snippet) then Respond(404, ErrorObject("Snippet '" + name.value + "' not found"))
        else Respond(200, snippet)
  }

  /** mcp_get_snippet: the same lookup, answered as a tool reply. */
  function McpGetSnippet(context: ToolContext, fetch: string -> Result<Json, Fault>): (r: ToolReply)
    ensures r.Raised? <==>
      context.ToolContext? && Given(Argument(context, SnippetNameArg)) && fetch(context.arguments[SnippetNameArg]).Failure?
    ensures context.MalformedContext? ==> r.payload == ErrorObject(InvalidContext)
    ensures context.ToolContext? && !Given(Argument(context, SnippetNameArg)) ==>
      r.payload == ErrorObject("Missing essential argument for get_snippet: " + SnippetNameArg + ". Please provide the snippet name to retrieve.")
  {
    if context.MalformedContext? then Reply(ErrorObject(InvalidContext))
    else
      var name := Argument(context, SnippetNameArg);
      if !Given(name) then
        Reply(ErrorObject("Missing essential argument for get_snippet: " + SnippetNameArg + ". Please provide the snippet name to retrieve."))
      else
        match fetch(name.value)
        case Failure(e) => Raised(e)
        case Success(snippet) =>
          if !Truthy(snippet) then Reply(ErrorObject("Snippet '" + name.value + "' not found"))
          else Reply(snippet)
  }

  /** Both routes to a snippet agree: for a name that is given, the MCP tool
      replies with the same body the HTTP route answers with, and when the
      store raises, both hand the same fault to their catch-all. */
  lemma GetSnippetRoutesAgree(context: ToolContext, fetch: string -> Result<Json, Fault>)
    requires context.ToolContext? && Given(Argument(context, SnippetNameArg))
    ensures var http := HttpGetSnippet(Argument(context, SnippetNameArg), fetch);
      var mcp := McpGetSnippet(context, fetch);
      (http.Respond? <==> mcp.Reply?)
      && (http.Respond? ==> mcp.payload == http.body)
      && (http.InternalError? ==> mcp.fault == http.fault)
  {
  }

  /** The HTTP request body that carries the same snippet as an MCP call:
      name and code, and the project only when the call names one. */
  function SaveBodyOf(context: ToolContext): Json
    requires context.ToolContext? && Given(Argument(context, SnippetNameArg)) && Given(Argument(context, SnippetArg))
  {
    var base := [("name", JStr(context.arguments[SnippetNameArg])), ("code", JStr(context.arguments[SnippetArg]))];
    if ProjectIdArg in context.arguments then JObj(base + [("projectId", JStr(context.arguments[ProjectIdArg]))])
    else JObj(base)
  }

  /** What the HTTP route reads from that body. */
  lemma SaveBodyFields(context: ToolContext)
    requires context.ToolContext? && Given(Argument(context, SnippetNameArg)) && Given(Argument(context, SnippetArg))
    ensures SaveBodyOf(context).JObj?
    ensures Lookup(SaveBodyOf(context).fields, "name") == Some(JStr(context.arguments[SnippetNameArg]))
    ensures Lookup(SaveBodyOf(context).fields, "code") == Some(JStr(context.arguments[SnippetArg]))
    ensures GetOr(SaveBodyOf(context).fields, "projectId", JStr(DefaultProjectId))
      == JStr(if ProjectIdArg in context.arguments then context.arguments[ProjectIdArg] else DefaultProjectId)
  {
    var name := JStr(context.arguments[SnippetNameArg]);
    var code := JStr(context.arguments[SnippetArg]);
    var base := [("name", name), ("code", code)];
    assert Keys(base) == ["name", "code"];
    assert Lookup(base, "name") == Some(name) && Lookup(base, "code") == Some(code);
    if ProjectIdArg in context.arguments {
      var project := JStr(context.arguments[ProjectIdArg]);
      assert SaveBodyOf(context) == JObj(base + [("projectId", project)]);
      LookupAppend(base, "projectId", project, "name");
      LookupAppend(base, "projectId", project, "code");
      LookupAppend(base, "projectId", project, "projectId");
    } else {
      assert SaveBodyOf(context) == JObj(base);
      assert Lookup(base, "projectId") == None;
    }
  }

  /** Both routes to saving agree: the HTTP body carrying an MCP call's
      arguments is accepted, and it saves the document the MCP tool saves
      (McpSaveSnippet's ensures), the default project included; both read
      the vector with EmbeddingVector from the same answer. */
  lemma SaveRoutesAgree(context: ToolContext, vector: Json)
    requires context.ToolContext? && Given(Argument(context, SnippetNameArg)) && Given(Argument(context, SnippetArg))
    ensures WellFormedSaveBody(SaveBodyOf(context))
    ensures SaveDocument(SaveBodyOf(context), vector) ==
      SnippetDocument(JStr(context.arguments[SnippetNameArg]),
                      JStr(if ProjectIdArg in context.arguments then context.arguments[ProjectIdArg] else DefaultProjectId),
                      JStr(context.arguments[SnippetArg]), vector)
  {
    SaveBodyFields(context);
  }
}
