/** The gateway's `/mcp` endpoint: `handle_mcp_request` as a decision over the action, the
    request data and a snapshot of the (read-only) tool registry. */
module Gateway {
  import opened Wrappers
  import opened Json
  import opened Schemas
  import opened Tools

  /** How a request ends: a 200 response carrying a gateway envelope, or an `HTTPException`
      that the transport turns into that status code with `{"detail": ...}`. */
  datatype Reply = Answered(response: MCPResponse) | HttpError(status: int, detail: string)

  function StatusCode(r: Reply): int
  {
    match r
    case Answered(_) => 200
    case HttpError(status, _) => status
  }

  /** `{"tools": [tool.model_dump() for tool in tools]}`. */
  function ToolsListing(c: Catalog): Value
    requires forall n :: n in c.order ==> n in c.tools
  {
    Obj(map["tools" := Arr(DumpSchemaList(Listing(c)))])
  }

  /** Whether an `invoke_tool` request gets past `if not request.data`. */
  predicate HasData(request: MCPRequest)
  {
    request.data.Some? && request.data.value != map[]
  }

  /** `handle_mcp_request`. The clock is abstracted: `toolLatencyMs` is what the tool's own timer
      reads and `latencyMs` what the dispatcher's reads when the response is built. */
  function HandleMcpRequest(request: MCPRequest, registry: Catalog, toolLatencyMs: real, latencyMs: real): (r: Reply)
    requires WellFormed(registry)
    // Only the two transport conditions leave as HTTP errors, with these codes and details.
    ensures StatusCode(r) in {200, 400, 404}
    ensures StatusCode(r) == 404 <==>
      request.action == "invoke_tool" && HasData(request)
      && ParseToolRequest(request.data.value).Success?
      && ParseToolRequest(request.data.value).value.toolName !in registry.tools
    ensures StatusCode(r) == 404 ==> r.detail == "Tool '" + ParseToolRequest(request.data.value).value.toolName + "' not found"
    ensures request.action == "invoke_tool" && !HasData(request) ==> r == HttpError(400, "Missing tool invocation data")
    ensures request.action !in {"list_tools", "invoke_tool"} ==> r == HttpError(400, "Unknown action: " + request.action)
    // Every 200 envelope carries the dispatcher's latency; a failed one carries only the fault.
    ensures r.Answered? ==> r.response.latencyMs == latencyMs
    ensures r.Answered? ==> (r.response.success <==> r.response.data.Some? && r.response.error.None?)
    ensures r.Answered? && !r.response.success ==>
      request.action == "invoke_tool" && HasData(request) && ParseToolRequest(request.data.value).Failure?
      && r.response.data.None?
      && r.response.error == Some(Describe(ParseToolRequest(request.data.value).error))
    // Conversely, a request that cannot be parsed is answered with that failed envelope.
    ensures request.action == "invoke_tool" && HasData(request) && ParseToolRequest(request.data.value).Failure? ==>
      r == Answered(MCPResponse(false, None, Some(Describe(ParseToolRequest(request.data.value).error)), latencyMs))
    // list_tools always succeeds and its data reads back as the registry's listing, in order.
    ensures request.action == "list_tools" ==>
      r.Answered? && r.response.success
      && Field(r.response.data.value, "tools").Arr?
      && LoadSchemaList(Field(r.response.data.value, "tools").items) == Some(Listing(registry))
    // A registered tool's response is embedded whole, whether or not the tool itself failed.
    ensures (request.action == "invoke_tool" && HasData(request) && ParseToolRequest(request.data.value).Success?
             && ParseToolRequest(request.data.value).value.toolName in registry.tools) ==>
      var call := ParseToolRequest(request.data.value).value;
      r.Answered? && r.response.success
      && r.response.data == Some(DumpToolResponse(Invoke(registry.tools[call.toolName], call.parameters, call.requestId, toolLatencyMs)))
  {
    if request.action == "list_tools" then
      Answered(MCPResponse(true, Some(ToolsListing(registry)), None, latencyMs))
    else if request.action == "invoke_tool" then
      if !HasData(request) then HttpError(400, "Missing tool invocation data")
      else match ParseToolRequest(request.data.value)
        case Failure(fault) => Answered(MCPResponse(false, None, Some(Describe(fault)), latencyMs))
        case Success(call) =>
          if call.toolName !in registry.tools then HttpError(404, "Tool '" + call.toolName + "' not found")
          else
            var response := Invoke(registry.tools[call.toolName], call.parameters, call.requestId, toolLatencyMs);
            Answered(MCPResponse(true, Some(DumpToolResponse(response)), None, latencyMs))
    else
      HttpError(400, "Unknown action: " + request.action)
  }

  /** The embedded tool response of a successful `invoke_tool` reads back unchanged: same tool
      name, success flag, result or error, and the caller's `request_id`. */
  lemma InvokedResponseReadsBack(request: MCPRequest, registry: Catalog, toolLatencyMs: real, latencyMs: real)
    requires WellFormed(registry)
    requires request.action == "invoke_tool" && HasData(request)
    requires ParseToolRequest(request.data.value).Success?
    requires ParseToolRequest(request.data.value).value.toolName in registry.tools
    requires !registry.tools[ParseToolRequest(request.data.value).value.toolName].CustomTool?
    ensures var call := ParseToolRequest(request.data.value).value;
      var r := HandleMcpRequest(request, registry, toolLatencyMs, latencyMs);
      && r.Answered? && r.response.data.Some?
      && LoadToolResponse(r.response.data.value) == Some(Invoke(registry.tools[call.toolName], call.parameters, call.requestId, toolLatencyMs))
      && LoadToolResponse(r.response.data.value).value.requestId == call.requestId
      && LoadToolResponse(r.response.data.value).value.toolName == call.toolName
  {
    var call := ParseToolRequest(request.data.value).value;
    var tool := registry.tools[call.toolName];
    var response := Invoke(tool, call.parameters, call.requestId, toolLatencyMs);
    assert response.result != Some(Null) by {
      match Execute(tool, call.parameters)
      case Returned(v) => assert v.Obj?;
      case Raised(_) =>
    }
  }
}
