/** The records the gateway passes around: tool schemas, tool requests and responses, and the
    outer gateway request and response, with the defaults their pydantic models declare and the
    `model_dump()` renderings that end up in JSON bodies. */
module Schemas {
  import opened Wrappers
  import opened Json
  import Text

  /** The closed set of tool categories. */
  datatype ToolType = SearchType | DatabaseType | FileOpsType

  /** The enum's string value. */
  function ToolTypeName(t: ToolType): (s: string)
    ensures s in {"search", "database", "file_ops"}
    ensures ParseToolType(s) == Some(t)
  {
    match t
    case SearchType => "search"
    case DatabaseType => "database"
    case FileOpsType => "file_ops"
  }

  /** `ToolType(s)`: only the three enum values are accepted. */
  function ParseToolType(s: string): (r: Option<ToolType>)
    ensures r.Some? <==> s in {"search", "database", "file_ops"}
  {
    if s == "search" then Some(SearchType)
    else if s == "database" then Some(DatabaseType)
    else if s == "file_ops" then Some(FileOpsType)
    else None
  }

  lemma ToolTypeNamesDistinct(t: ToolType, u: ToolType)
    ensures ToolTypeName(t) == ToolTypeName(u) ==> t == u
  {
    assert ParseToolType(ToolTypeName(t)) == Some(t);
  }

  datatype ToolSchema = ToolSchema(name: string, kind: ToolType, description: string, parameters: map<string, Value>)

  /** `tool_name` is required, `parameters` defaults to `{}` and `request_id` to `None`. */
  datatype ToolRequest = ToolRequest(toolName: string, parameters: map<string, Value>, requestId: Option<string>)

  datatype ToolResponse = ToolResponse(
    toolName: string,
    success: bool,
    result: Option<Value>,
    error: Option<string>,
    latencyMs: real,
    requestId: Option<string>)

  /** `action` is any string; unknown actions are rejected by the dispatcher, not here. */
  datatype MCPRequest = MCPRequest(action: string, data: Option<map<string, Value>>)

  datatype MCPResponse = MCPResponse(success: bool, data: Option<Value>, error: Option<string>, latencyMs: real)

  /** The fields of a `ToolRequest(**data)` call that pydantic rejects, in declaration order. */
  function ToolRequestErrors(data: map<string, Value>): (bad: seq<string>)
    ensures "tool_name" in bad <==> !("tool_name" in data && data["tool_name"].Str?)
    ensures "parameters" in bad <==> ("parameters" in data && !data["parameters"].Obj?)
    ensures "request_id" in bad <==> ("request_id" in data && !(data["request_id"].Str? || data["request_id"].Null?))
    ensures bad == [] <==> !("tool_name" in bad || "parameters" in bad || "request_id" in bad)
  {
    (if "tool_name" in data && data["tool_name"].Str? then [] else ["tool_name"])
    + (if "parameters" !in data || data["parameters"].Obj? then [] else ["parameters"])
    + (if "request_id" !in data || data["request_id"].Str? || data["request_id"].Null? then [] else ["request_id"])
  }

  function JoinFields(fields: seq<string>): string
  {
    if fields == [] then "" else if |fields| == 1 then fields[0] else fields[0] + ", " + JoinFields(fields[1..])
  }

  /** `ToolRequest(**data)`: validation of the three declared fields, defaults for the absent ones.
      Undeclared keys are ignored. */
  function ParseToolRequest(data: map<string, Value>): (r: Result<ToolRequest, Fault>)
    ensures r.Success? <==> ToolRequestErrors(data) == []
    ensures r.Success? ==> Str(r.value.toolName) == data["tool_name"]
    ensures r.Success? && "parameters" in data ==> Obj(r.value.parameters) == data["parameters"]
    ensures r.Success? && "parameters" !in data ==> r.value.parameters == map[]
    ensures r.Success? ==> (r.value.requestId.Some? <==> "request_id" in data && data["request_id"].Str?)
    ensures r.Success? && r.value.requestId.Some? ==> Str(r.value.requestId.value) == data["request_id"]
    ensures r.Failure? ==> r.error.kind == "ValidationError"
  {
    var bad := ToolRequestErrors(data);
    if bad != [] then
      Failure(Fault("ValidationError",
        Text.IntToString(|bad|) + (if |bad| == 1 then " validation error" else " validation errors")
        + " for ToolRequest: " + JoinFields(bad)))
    else
      var parameters := if "parameters" in data then data["parameters"].fields else map[];
      var requestId := if "request_id" in data && data["request_id"].Str? then Some(data["request_id"].s) else None;
      Success(ToolRequest(data["tool_name"].s, parameters, requestId))
  }

  function OptionalString(o: Option<string>): Value
  {
    match o
    case None => Null
    case Some(s) => Str(s)
  }

  function OptionalValue(o: Option<Value>): Value
  {
    match o
    case None => Null
    case Some(v) => v
  }

  /** `schema.model_dump()` as it is rendered to JSON (the enum becomes its string value). */
  function DumpSchema(s: ToolSchema): (v: Value)
    ensures v.Obj? && v.fields.Keys == {"name", "type", "description", "parameters"}
    ensures LoadSchema(v) == Some(s)
  {
    Obj(map[
      "name" := Str(s.name),
      "type" := Str(ToolTypeName(s.kind)),
      "description" := Str(s.description),
      "parameters" := Obj(s.parameters)])
  }

  /** Reads a dumped schema back; `None` unless every field has the declared type. */
  function LoadSchema(v: Value): Option<ToolSchema>
  {
    if v.Obj? && "name" in v.fields && "type" in v.fields && "description" in v.fields && "parameters" in v.fields then
      var name, kind, description, parameters := v.fields["name"], v.fields["type"], v.fields["description"], v.fields["parameters"];
      if name.Str? && kind.Str? && description.Str? && parameters.Obj? && ParseToolType(kind.s).Some? then
        Some(ToolSchema(name.s, ParseToolType(kind.s).value, description.s, parameters.fields))
      else None
    else None
  }

  /** `[tool.model_dump() for tool in tools]`: the dumped list loads back to the same schemas, in order. */
  function DumpSchemaList(schemas: seq<ToolSchema>): (vs: seq<Value>)
    ensures |vs| == |schemas|
    ensures LoadSchemaList(vs) == Some(schemas)
  {
    if schemas == [] then []
    else
      var vs := [DumpSchema(schemas[0])] + DumpSchemaList(schemas[1..]);
      assert vs[1..] == DumpSchemaList(schemas[1..]);
      assert [schemas[0]] + schemas[1..] == schemas;
      vs
  }

  function LoadSchemaList(vs: seq<Value>): Option<seq<ToolSchema>>
  {
    if vs == [] then Some([])
    else match (LoadSchema(vs[0]), LoadSchemaList(vs[1..]))
      case (Some(s), Some(rest)) => Some([s] + rest)
      case _ => None
  }

  /** `response.model_dump()`: every field, absent ones as `null`. It loads back to the same
      response unless the result is itself `None`, which the dump cannot tell from an absent one. */
  function DumpToolResponse(r: ToolResponse): (v: Value)
    ensures v.Obj? && v.fields.Keys == {"tool_name", "success", "result", "error", "latency_ms", "request_id"}
    ensures r.result != Some(Null) ==> LoadToolResponse(v) == Some(r)
  {
    Obj(map[
      "tool_name" := Str(r.toolName),
      "success" := Bool(r.success),
      "result" := OptionalValue(r.result),
      "error" := OptionalString(r.error),
      "latency_ms" := Real(r.latencyMs),
      "request_id" := OptionalString(r.requestId)])
  }

  function LoadOptionalString(v: Value): Option<Option<string>>
  {
    match v
    case Null => Some(None)
    case Str(s) => Some(Some(s))
    case _ => None
  }

  function LoadToolResponse(v: Value): Option<ToolResponse>
  {
    if v.Obj? && v.fields.Keys == {"tool_name", "success", "result", "error", "latency_ms", "request_id"} then
      var f := v.fields;
      var error, requestId := LoadOptionalString(f["error"]), LoadOptionalString(f["request_id"]);
      if f["tool_name"].Str? && f["success"].Bool? && f["latency_ms"].Real? && error.Some? && requestId.Some? then
        var result := if f["result"].Null? then None else Some(f["result"]);
        Some(ToolResponse(f["tool_name"].s, f["success"].b, result, error.value, f["latency_ms"].r, requestId.value))
      else None
    else None
  }
}
