/**
 * The MCP tool provider (BlazzingPizzaToolProvider): it wraps `tools/list` and
 * `tools/call` in a JSON-RPC 2.0 request envelope, posts it to a fixed server
 * and unwraps the answer.
 *
 * The HTTP POST is the parameter `post`, the JSON deserialiser of the
 * `tools/list` answer is the parameter `deserialize`, and the fresh Guid of
 * each request is the parameter `guid`. The envelope is a datatype, not text.
 */
module McpTools {
  import opened Wrappers

  const JsonRpcVersion: string := "2.0"
  const ToolsListMethod: string := "tools/list"
  const ToolsCallMethod: string := "tools/call"

  /** The arguments of a tool call, relayed as given. */
  type ToolArguments = map<string, string>

  /** What the caller asks to run: a tool name and its arguments. */
  datatype ToolExecuteArguments = ToolExecuteArguments(toolName: string, toolArguments: ToolArguments)

  /** The `params` member: `{}` for a listing, `{name, arguments}` for a call. */
  datatype Params = EmptyParams | CallParams(name: string, arguments: ToolArguments)

  /** A JSON-RPC request envelope. */
  datatype Request = Request(jsonrpc: string, id: string, methodName: string, params: Params)

  /** A tool descriptor as the server lists it. */
  datatype Tool = Tool(name: string, description: string, inputSchema: string)

  /** The `result` member of a `tools/list` answer. */
  datatype ToolsResultWrapper = ToolsResultWrapper(tools: seq<Tool>)

  /** A JSON-RPC response record (McpResponseDto); a missing `result` is None. */
  datatype McpResponseDto<T> = McpResponseDto(jsonRpc: string, id: string, result: Option<T>)

  /**
   * What the POST produces: a status code and a body, a connection failure with
   * no response, or the client's timeout.
   */
  datatype HttpReply = HttpResponse(statusCode: int, body: string) | NoResponse | TimedOut

  /** What the deserialiser produces: a record, null (for a JSON `null`), or a JSON error. */
  datatype Parsed<T> = Deserialized(dto: Option<McpResponseDto<T>>) | JsonError

  /** The exceptions that can escape the provider. */
  datatype Fault =
    | HttpRequestFailed(statusCode: Option<int>)
    | TaskCanceled
    | JsonFault
    | NullDereference

  /** A call either returns a value or raises an exception. */
  datatype Outcome<T> = Returned(value: T) | Raised(fault: Fault)

  /** The provider's own Result<string> type. */
  datatype Result<T> = Ok(value: T) | Failure(error: string)

  /** The codes EnsureSuccessStatusCode accepts. */
  predicate IsSuccessStatusCode(code: int)
  {
    200 <= code <= 299
  }

  /** The request envelope: protocol version 2.0, the fresh id, and the caller's method and params. */
  function BuildRequest(methodName: string, parameters: Params, guid: string): (r: Request)
    ensures r.jsonrpc == JsonRpcVersion && r.id == guid
    ensures r.methodName == methodName && r.params == parameters
  {
    Request(JsonRpcVersion, guid, methodName, parameters)
  }

  /** A reply EnsureSuccessStatusCode lets through: a response with a 2xx status. */
  predicate IsSuccessReply(reply: HttpReply)
  {
    reply.HttpResponse? && IsSuccessStatusCode(reply.statusCode)
  }

  /**
   * The exception a failed POST raises: HttpRequestException for a failed
   * connection or a non-2xx status, TaskCanceledException for a timeout.
   */
  function TransportFault(reply: HttpReply): (f: Fault)
    requires !IsSuccessReply(reply)
    ensures reply.TimedOut? <==> f == TaskCanceled
    ensures reply.NoResponse? ==> f == HttpRequestFailed(None)
    ensures reply.HttpResponse? ==> f == HttpRequestFailed(Some(reply.statusCode))
  {
    match reply
    case NoResponse => HttpRequestFailed(None)
    case TimedOut => TaskCanceled
    case HttpResponse(code, _) => HttpRequestFailed(Some(code))
  }

  /**
   * SendJsonRpcRequestAsync: posts the envelope once and returns the raw body of
   * a 2xx answer; any other status, or no answer, raises.
   */
  function SendJsonRpcRequestAsync(methodName: string, parameters: Params, guid: string,
                                   post: Request -> HttpReply): (r: Outcome<string>)
    ensures var reply := post(BuildRequest(methodName, parameters, guid));
            r.Returned? <==> IsSuccessReply(reply)
    ensures var reply := post(BuildRequest(methodName, parameters, guid));
            r.Returned? ==> r.value == reply.body
    ensures var reply := post(BuildRequest(methodName, parameters, guid));
            !IsSuccessReply(reply) ==> r == Raised(TransportFault(reply))
  {
    var reply := post(BuildRequest(methodName, parameters, guid));
    if IsSuccessReply(reply) then Returned(reply.body) else Raised(TransportFault(reply))
  }

  /** `result.Result.Tools` of a deserialised answer; a null on the way raises. */
  function UnwrapTools(parsed: Parsed<ToolsResultWrapper>): (r: Outcome<seq<Tool>>)
    ensures r.Returned? <==> parsed.Deserialized? && parsed.dto.Some? && parsed.dto.value.result.Some?
    ensures r.Returned? ==> r.value == parsed.dto.value.result.value.tools
  {
    match parsed
    case JsonError => Raised(JsonFault)
    case Deserialized(None) => Raised(NullDereference)
    case Deserialized(Some(dto)) =>
      match dto.result
      case None => Raised(NullDereference)
      case Some(wrapper) => Returned(wrapper.tools)
  }

  /** GetToolsAsync: a `tools/list` request with empty params, then the listed tools. */
  function GetToolsAsync(guid: string, post: Request -> HttpReply,
                         deserialize: string -> Parsed<ToolsResultWrapper>): (r: Outcome<seq<Tool>>)
    ensures var reply := post(Request(JsonRpcVersion, guid, ToolsListMethod, EmptyParams));
            if IsSuccessReply(reply)
            then r == UnwrapTools(deserialize(reply.body))
            else r == Raised(TransportFault(reply))
  {
    match SendJsonRpcRequestAsync(ToolsListMethod, EmptyParams, guid, post)
    case Raised(fault) => Raised(fault)
    case Returned(body) => UnwrapTools(deserialize(body))
  }

  /** ExecuteToolAsync: a `tools/call` request with `{name, arguments}`, then the raw body as Ok. */
  function ExecuteToolAsync(args: ToolExecuteArguments, guid: string, post: Request -> HttpReply)
    : (r: Outcome<Result<string>>)
    ensures var reply := post(Request(JsonRpcVersion, guid, ToolsCallMethod,
                                      CallParams(args.toolName, args.toolArguments)));
            r.Returned? <==> IsSuccessReply(reply)
    ensures var reply := post(Request(JsonRpcVersion, guid, ToolsCallMethod,
                                      CallParams(args.toolName, args.toolArguments)));
            r.Returned? ==> r.value == Ok(reply.body)
    ensures var reply := post(Request(JsonRpcVersion, guid, ToolsCallMethod,
                                      CallParams(args.toolName, args.toolArguments)));
            !IsSuccessReply(reply) ==> r == Raised(TransportFault(reply))
  {
    var toolParams := CallParams(args.toolName, args.toolArguments);
    match SendJsonRpcRequestAsync(ToolsCallMethod, toolParams, guid, post)
    case Raised(fault) => Raised(fault)
    case Returned(body) => Returned(Ok(body))
  }

  /** The tool listing depends on nothing but the server's answer to its one `tools/list` envelope. */
  lemma GetToolsPostsOnlyToolsList(guid: string, a: Request -> HttpReply, b: Request -> HttpReply,
                                   deserialize: string -> Parsed<ToolsResultWrapper>)
    requires a(Request(JsonRpcVersion, guid, ToolsListMethod, EmptyParams))
          == b(Request(JsonRpcVersion, guid, ToolsListMethod, EmptyParams))
    ensures GetToolsAsync(guid, a, deserialize) == GetToolsAsync(guid, b, deserialize)
  {
  }

  /**
   * The listed tools are exactly `result.tools`, in the server's order, whatever
   * the answer's `jsonrpc` and `id` say: the id is never compared with the request's.
   */
  lemma ResponseEnvelopeIgnored(guid: string, post: Request -> HttpReply,
                                deserialize: string -> Parsed<ToolsResultWrapper>,
                                answeredVersion: string, answeredId: string, tools: seq<Tool>)
    requires IsSuccessReply(post(Request(JsonRpcVersion, guid, ToolsListMethod, EmptyParams)))
    requires deserialize(post(Request(JsonRpcVersion, guid, ToolsListMethod, EmptyParams)).body)
          == Deserialized(Some(McpResponseDto(answeredVersion, answeredId, Some(ToolsResultWrapper(tools)))))
    ensures GetToolsAsync(guid, post, deserialize) == Returned(tools)
  {
  }

  /** A tool call that returns is always Ok, carrying the response body unchanged. */
  lemma ExecuteToolNeverFails(args: ToolExecuteArguments, guid: string, post: Request -> HttpReply)
    ensures ExecuteToolAsync(args, guid, post).Returned? ==>
              ExecuteToolAsync(args, guid, post).value.Ok?
  {
  }

  /** An HTTP failure makes both public operations raise instead of returning. */
  lemma HttpFailureRaises(args: ToolExecuteArguments, guid: string, post: Request -> HttpReply,
                          deserialize: string -> Parsed<ToolsResultWrapper>)
    requires forall req :: !IsSuccessReply(post(req))
    ensures GetToolsAsync(guid, post, deserialize).Raised?
    ensures ExecuteToolAsync(args, guid, post).Raised?
  {
  }

  /** One public operation of the provider. */
  datatype Operation = ListTools | ExecuteTool(args: ToolExecuteArguments)

  /** The envelope an operation posts, given the Guid drawn for it. */
  function RequestFor(op: Operation, guid: string): (r: Request)
    ensures r.jsonrpc == JsonRpcVersion && r.id == guid
    ensures op.ListTools? ==> r.methodName == ToolsListMethod && r.params == EmptyParams
    ensures op.ExecuteTool? ==>
              r.methodName == ToolsCallMethod && r.params == CallParams(op.args.toolName, op.args.toolArguments)
  {
    match op
    case ListTools => BuildRequest(ToolsListMethod, EmptyParams, guid)
    case ExecuteTool(args) => BuildRequest(ToolsCallMethod, CallParams(args.toolName, args.toolArguments), guid)
  }

  /** The envelopes posted by a run of operations, one Guid per operation. */
  function RequestsFor(ops: seq<Operation>, guids: seq<string>): (rs: seq<Request>)
    requires |ops| == |guids|
    ensures |rs| == |ops|
    ensures forall i :: 0 <= i < |ops| ==> rs[i] == RequestFor(ops[i], guids[i])
  {
    if ops == [] then [] else [RequestFor(ops[0], guids[0])] + RequestsFor(ops[1..], guids[1..])
  }

  /** No two positions of `ids` hold the same id. */
  predicate Distinct(ids: seq<string>)
  {
    forall i, j :: 0 <= i < j < |ids| ==> ids[i] != ids[j]
  }

  /**
   * When every Guid drawn is new, every envelope of a run carries an id no earlier
   * envelope carried. This only carries the uniqueness of the drawn Guids through
   * to the envelopes; the uniqueness itself is assumed.
   */
  lemma IssuedIdsAreFresh(ops: seq<Operation>, guids: seq<string>)
    requires |ops| == |guids| && Distinct(guids)
    ensures forall i, j :: 0 <= j < i < |ops| ==> RequestsFor(ops, guids)[j].id != RequestsFor(ops, guids)[i].id
  {
  }
}
