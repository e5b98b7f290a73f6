/** What the HTTP routes and MCP tools of the function app send back. */
module Responses {
  import Wrappers
  import opened Json

  /** The Python exceptions the handlers meet, by kind. */
  datatype Fault =
    | JsonDecodeError  // json.loads or req.get_json on text that is not JSON
    | KeyError
    | IndexError
    | TypeError
    | AttributeError
    | ServiceError     // raised by a call into an external service

  /** An HTTP response. `InternalError` is the 500 that a route's catch-all
      handler writes, `{"error": str(e)}`, whose text is the exception's. */
  datatype HttpResponse = Respond(status: int, body: Json) | InternalError(fault: Fault)

  function StatusCode(r: HttpResponse): int {
    match r
    case Respond(status, _) => status
    case InternalError(_) => 500
  }

  /** The value an MCP tool returns as JSON text. `Raised` is its catch-all
      handler's `{"error": str(e)}`. */
  datatype ToolReply = Reply(payload: Json) | Raised(fault: Fault)

  /** The `context` an MCP tool receives: its JSON text did not decode, or it
      holds the tool's `arguments`. */
  datatype ToolContext = MalformedContext | ToolContext(arguments: map<string, string>)

  /** `args.get(key)`: None when the argument is absent. */
  function Argument(context: ToolContext, key: string): Wrappers.Option<string>
    requires context.ToolContext?
  {
    if key in context.arguments then Wrappers.Some(context.arguments[key]) else Wrappers.None
  }
}
