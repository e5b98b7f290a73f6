/** What the two documentation orchestrations and their HTTP routes share
    (src/durable_agents.py, src/agents/durable_agents.py): the runtime
    status of an orchestration instance, the status URL handed back when one
    is started, the status route, and the agent calls an orchestration
    makes. */
module Orchestration {
  import opened Wrappers
  import opened Json
  import opened Responses
  import Strings

  /** The runtime states of a durable orchestration instance. */
  datatype RuntimeStatus =
    | Pending | Running | Completed | Failed | Terminated | Canceled | ContinuedAsNew | Suspended

  /** `runtime_status.name`. */
  function Name(s: RuntimeStatus): string {
    match s
    case Pending => "Pending"
    case Running => "Running"
    case Completed => "Completed"
    case Failed => "Failed"
    case Terminated => "Terminated"
    case Canceled => "Canceled"
    case ContinuedAsNew => "ContinuedAsNew"
    case Suspended => "Suspended"
  }

  /** Distinct states have distinct names, so comparing names (as the
      handlers do) is comparing states. */
  lemma NameInjective(a: RuntimeStatus, b: RuntimeStatus)
    ensures Name(a) == Name(b) <==> a == b
  {
  }

  /** What the durable client reports for an instance. The times are the
      `isoformat()` text of the timestamps, None when unset. */
  datatype InstanceStatus = InstanceStatus(
    instanceId: string, runtimeStatus: RuntimeStatus,
    createdTime: Option<string>, lastUpdatedTime: Option<string>,
    input: Json, output: Json)

  /** The two agents the orchestrations call. */
  datatype AgentName = DeepWikiAgent | CodeStyleAgent

  /** The message text of an agent call: a constant, or the user's query
      followed by a constant (`f"{user_query}{suffix}"`). */
  datatype Prompt = Literal(text: string) | QueryThen(query: Json, suffix: string)

  const ApiSegment := "/api/"

  /** `_build_status_url`: everything before the first "/api/" of the
      request URL, then "/api/<route>/status/<instance id>". */
  function StatusUrl(requestUrl: string, instanceId: string, route: string): (url: string)
    ensures Strings.EndsWith(url, ApiSegment + route + "/status/" + instanceId)
    ensures var base := url[..|url| - |ApiSegment + route + "/status/" + instanceId|];
      Strings.StartsWith(requestUrl, base)
      && (forall i :: 0 <= i < |base| ==> !Strings.OccursAt(requestUrl, ApiSegment, i))
      && (base == requestUrl || Strings.OccursAt(requestUrl, ApiSegment, |base|))
  {
    var base := Strings.BeforeFirst(requestUrl, ApiSegment);
    var url := base + ApiSegment + route + "/status/" + instanceId;
    assert url == base + (ApiSegment + route + "/status/" + instanceId);
    assert url[..|base|] == base;
    url
  }

  /** For a request made to "<origin>/api/<path>", where "/api/" does not
      occur before the path, the status URL points at the same origin. */
  lemma StatusUrlKeepsOrigin(origin: string, path: string, instanceId: string, route: string)
    requires forall i :: 0 <= i < |origin| ==> !Strings.OccursAt(origin + ApiSegment + path, ApiSegment, i)
    ensures StatusUrl(origin + ApiSegment + path, instanceId, route) == origin + ApiSegment + route + "/status/" + instanceId
  {
    var requestUrl := origin + ApiSegment + path;
    assert requestUrl[|origin|..] == ApiSegment + path;
    assert Strings.OccursAt(requestUrl, ApiSegment, |origin|);
    Strings.BeforeFirstIsFirstOccurrence(requestUrl, ApiSegment, |origin|);
    assert requestUrl[..|origin|] == origin;
  }

  function TimeText(t: Option<string>): Json {
    match t
    case Some(text) => JStr(text)
    case None => JNull
  }

  /** The body of the status route for an instance: the four status fields
      first, then the input and the output, each only when truthy. */
  predicate ReportsStatus(fields: seq<(string, Json)>, s: InstanceStatus) {
    |fields| == 4 + (if Truthy(s.input) then 1 else 0) + (if Truthy(s.output) then 1 else 0)
    && Keys(fields)[..4] == ["instanceId", "runtimeStatus", "createdTime", "lastUpdatedTime"]
    && Lookup(fields, "instanceId") == Some(JStr(s.instanceId))
    && Lookup(fields, "runtimeStatus") == Some(JStr(Name(s.runtimeStatus)))
    && Lookup(fields, "createdTime") == Some(TimeText(s.createdTime))
    && Lookup(fields, "lastUpdatedTime") == Some(TimeText(s.lastUpdatedTime))
    && Lookup(fields, "input") == (if Truthy(s.input) then Some(s.input) else None)
    && Lookup(fields, "output") == (if Truthy(s.output) then Some(s.output) else None)
    && (Truthy(s.input) ==> fields[4].0 == "input")
  }

  function StatusFields(s: InstanceStatus): seq<(string, Json)> {
    [("instanceId", JStr(s.instanceId)),
     ("runtimeStatus", JStr(Name(s.runtimeStatus))),
     ("createdTime", TimeText(s.createdTime)),
     ("lastUpdatedTime", TimeText(s.lastUpdatedTime))]
  }

  /** Appending `key` when `present` (`if value: d[key] = value`). */
  function Optional(key: string, value: Json): seq<(string, Json)> {
    if Truthy(value) then [(key, value)] else []
  }

  /** The four status fields are found where they were put, whatever is
      appended after them under other keys. */
  predicate KeepsStatusFields(fields: seq<(string, Json)>, s: InstanceStatus) {
    |fields| >= 4
    && Keys(fields)[..4] == ["instanceId", "runtimeStatus", "createdTime", "lastUpdatedTime"]
    && Lookup(fields, "instanceId") == Some(JStr(s.instanceId))
    && Lookup(fields, "runtimeStatus") == Some(JStr(Name(s.runtimeStatus)))
    && Lookup(fields, "createdTime") == Some(TimeText(s.createdTime))
    && Lookup(fields, "lastUpdatedTime") == Some(TimeText(s.lastUpdatedTime))
  }

  lemma AppendKeepsStatusFields(fields: seq<(string, Json)>, s: InstanceStatus, k: string, v: Json)
    requires KeepsStatusFields(fields, s) && k !in Keys(fields)
    requires k == "input" || k == "output"
    ensures KeepsStatusFields(fields + [(k, v)], s)
    ensures Keys(fields + [(k, v)]) == Keys(fields) + [k]
  {
    LookupAppend(fields, k, v, "instanceId");
    LookupAppend(fields, k, v, "runtimeStatus");
    LookupAppend(fields, k, v, "createdTime");
    LookupAppend(fields, k, v, "lastUpdatedTime");
    assert (Keys(fields) + [k])[..4] == Keys(fields)[..4];
  }

  /** The four status fields, before anything is appended. */
  lemma StatusFieldsKept(s: InstanceStatus)
    ensures Keys(StatusFields(s)) == ["instanceId", "runtimeStatus", "createdTime", "lastUpdatedTime"]
    ensures KeepsStatusFields(StatusFields(s), s)
    ensures "input" !in Keys(StatusFields(s)) && "output" !in Keys(StatusFields(s))
  {
    var base := StatusFields(s);
    assert Keys(base) == ["instanceId", "runtimeStatus", "createdTime", "lastUpdatedTime"];
    assert Lookup(base, "instanceId") == Some(JStr(s.instanceId));
    assert base[1..][1..][1..] == [("lastUpdatedTime", TimeText(s.lastUpdatedTime))];
  }

  lemma InputStep(s: InstanceStatus)
    ensures var fields := StatusFields(s) + Optional("input", s.input);
      KeepsStatusFields(fields, s)
      && |fields| == 4 + (if Truthy(s.input) then 1 else 0)
      && "output" !in Keys(fields)
      && Lookup(fields, "input") == (if Truthy(s.input) then Some(s.input) else None)
      && (Truthy(s.input) ==> fields[4].0 == "input")
  {
    var base := StatusFields(s);
    StatusFieldsKept(s);
    if Truthy(s.input) {
      var fields := base + [("input", s.input)];
      assert Optional("input", s.input) == [("input", s.input)];
      AppendKeepsStatusFields(base, s, "input", s.input);
      LookupAppend(base, "input", s.input, "input");
      assert fields[4].0 == "input";
    } else {
      assert base + Optional("input", s.input) == base;
    }
  }

  lemma StatusFieldsReport(s: InstanceStatus)
    ensures ReportsStatus(StatusFields(s) + Optional("input", s.input) + Optional("output", s.output), s)
  {
    var withInput := StatusFields(s) + Optional("input", s.input);
    InputStep(s);
    var all := withInput + Optional("output", s.output);
    if Truthy(s.output) {
      AppendKeepsStatusFields(withInput, s, "output", s.output);
      LookupAppend(withInput, "output", s.output, "input");
      LookupAppend(withInput, "output", s.output, "output");
      assert Truthy(s.input) ==> all[4] == withInput[4];
    } else {
      assert Lookup(withInput, "output") == None;
      assert all == withInput;
    }
  }

  /** get_orchestration_status: 400 without an instance id, 404 when the
      client knows no such instance, otherwise 200 with the status body.
      `lookup` is the durable client's `get_status`: the status, None for
      an unknown instance, or the exception it raises. */
  method GetOrchestrationStatus(instanceId: Option<string>, lookup: string -> Result<Option<InstanceStatus>, Fault>)
    returns (response: HttpResponse)
    ensures instanceId.None? || instanceId.value == "" ==> response == Respond(400, ErrorObject("Missing instanceId"))
    ensures instanceId.Some? && instanceId.value != "" && lookup(instanceId.value).Failure? ==>
      response == InternalError(lookup(instanceId.value).error)
    ensures instanceId.Some? && instanceId.value != "" && lookup(instanceId.value) == Success(None) ==>
      response == Respond(404, ErrorObject("Instance not found"))
    ensures instanceId.Some? && instanceId.value != "" && lookup(instanceId.value).Success? && lookup(instanceId.value).value.Some? ==>
      response.Respond? && response.status == 200 && response.body.JObj?
      && ReportsStatus(response.body.fields, lookup(instanceId.value).value.value)
  {
    if instanceId.None? || instanceId.value == "" {
      return Respond(400, ErrorObject("Missing instanceId"));
    }
    var checked := lookup(instanceId.value);
    if checked.Failure? {
      return InternalError(checked.error);
    }
    var found := checked.value;
    if found.None? {
      return Respond(404, ErrorObject("Instance not found"));
    }
    var s := found.value;
    var data := StatusFields(s);
    if Truthy(s.input) {
      data := data + [("input", s.input)];
    }
    if Truthy(s.output) {
      data := data + [("output", s.output)];
    }
    assert data == StatusFields(s) + Optional("input", s.input) + Optional("output", s.output);
    StatusFieldsReport(s);
    response := Respond(200, JObj(data));
  }
}
