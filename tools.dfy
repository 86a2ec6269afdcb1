/** The tool layer: the three stub tools (schema plus `execute`), the `invoke` wrapper that turns
    a returned value or a raised exception into a `ToolResponse`, and the tool registry. */
module Tools {
  import opened Wrappers
  import opened Json
  import opened Schemas
  import Text

  /** What `execute` does: return a value or raise an exception. */
  datatype Outcome = Returned(value: Value) | Raised(fault: Fault)

  /** A tool object. The three shipped subclasses of `BaseTool` are constructors of their own;
      `CustomTool` stands for any other subclass, given by its schema and its `execute`. */
  datatype Tool =
    | SearchTool
    | DatabaseTool
    | FileOpsTool
    | CustomTool(schema: ToolSchema, run: map<string, Value> -> Outcome)

  function ValueError(message: string): Outcome
  {
    Raised(Fault("ValueError", message))
  }

  /** One entry of a schema's `properties`. */
  function Property(kind: string, description: string): Value
  {
    Obj(map["type" := Str(kind), "description" := Str(description)])
  }

  function StringList(names: seq<string>): Value
  {
    Arr(seq(|names|, i requires 0 <= i < |names| => Str(names[i])))
  }

  /** A parameter description as the tools write it: an object schema whose required names are
      all among its declared properties. */
  ghost predicate DescribesObject(parameters: map<string, Value>, required: seq<string>)
  {
    && parameters.Keys == {"type", "properties", "required"}
    && parameters["type"] == Str("object")
    && parameters["properties"].Obj?
    && parameters["required"] == StringList(required)
    && forall k :: 0 <= k < |required| ==> required[k] in parameters["properties"].fields
  }

  const SearchSchema := ToolSchema("search", SearchType, "Search for content based on a query", SearchParameters())

  /** The JSON-Schema-like description of the search tool's parameters. */
  function SearchParameters(): map<string, Value>
  {
    map[
      "type" := Str("object"),
      "properties" := Obj(map[
        "query" := Property("string", "Search query"),
        "limit" := Obj(map["type" := Str("integer"), "description" := Str("Maximum number of results"), "default" := Int(10)])]),
      "required" := StringList(["query"])]
  }

  const DatabaseSchema := ToolSchema("database", DatabaseType, "Query database for records", DatabaseParameters())

  /** The JSON-Schema-like description of the database tool's parameters. */
  function DatabaseParameters(): map<string, Value>
  {
    map[
      "type" := Str("object"),
      "properties" := Obj(map[
        "operation" := Obj(map[
          "type" := Str("string"),
          "enum" := StringList(["query", "insert", "update", "delete"]),
          "description" := Str("Database operation")]),
        "table" := Property("string", "Table name"),
        "data" := Property("object", "Operation data")]),
      "required" := StringList(["operation", "table"])]
  }

  const FileOpsSchema := ToolSchema("file_ops", FileOpsType, "Perform file operations (read, write, list)", FileOpsParameters())

  /** The JSON-Schema-like description of the file_ops tool's parameters. */
  function FileOpsParameters(): map<string, Value>
  {
    map[
      "type" := Str("object"),
      "properties" := Obj(map[
        "operation" := Obj(map[
          "type" := Str("string"),
          "enum" := StringList(["read", "write", "list", "delete"]),
          "description" := Str("File operation")]),
        "path" := Property("string", "File or directory path"),
        "content" := Property("string", "Content to write (for write operation)")]),
      "required" := StringList(["operation", "path"])]
  }

  /** `tool.get_schema()`: a built-in tool is named after its type; any other tool reports its
      own schema. */
  function SchemaOf(tool: Tool): (s: ToolSchema)
    ensures !tool.CustomTool? ==> s.name == ToolTypeName(s.kind) && s.description != ""
    ensures tool.CustomTool? ==> s == tool.schema
  {
    match tool
    case SearchTool => SearchSchema
    case DatabaseTool => DatabaseSchema
    case FileOpsTool => FileOpsSchema
    case CustomTool(schema, _) => schema
  }

  /** The search schema is of the search type and describes an object whose required `query`
      is declared, with the `limit` default that `execute` also uses. */
  lemma SearchSchemaShape()
    ensures SchemaOf(SearchTool).kind == SearchType && DescribesObject(SchemaOf(SearchTool).parameters, ["query"])
    ensures Field(Field(SchemaOf(SearchTool).parameters["properties"], "limit"), "default") == SearchLimit(map[])
  {
  }

  /** The database schema is of the database type and describes an object whose required
      `operation` and `table` are declared. */
  lemma DatabaseSchemaShape()
    ensures SchemaOf(DatabaseTool).kind == DatabaseType
    ensures DescribesObject(SchemaOf(DatabaseTool).parameters, ["operation", "table"])
  {
  }

  /** The file_ops schema is of the file_ops type, describes an object whose required
      `operation` and `path` are declared, and declares exactly the operations `execute` accepts. */
  lemma FileOpsSchemaShape()
    ensures SchemaOf(FileOpsTool).kind == FileOpsType
    ensures DescribesObject(SchemaOf(FileOpsTool).parameters, ["operation", "path"])
    ensures var declared := Field(Field(SchemaOf(FileOpsTool).parameters["properties"], "operation"), "enum");
      declared.Arr? && (forall v :: v in declared.items <==> v in FileOperations)
  {
    var declared := Field(Field(FileOpsParameters()["properties"], "operation"), "enum");
    assert declared.items == [Str("read"), Str("write"), Str("list"), Str("delete")];
  }

  function NameOf(tool: Tool): string
  {
    SchemaOf(tool).name
  }

  // ---------------------------------------------------------------- search

  function SearchQuery(parameters: map<string, Value>): Value
  {
    Get(parameters, "query", Str(""))
  }

  function SearchLimit(parameters: map<string, Value>): Value
  {
    Get(parameters, "limit", Int(10))
  }

  /** Whether `range(1, min(limit + 1, 6))` can be evaluated: integers (and booleans, which Python
      treats as integers) always, floats only when `min` picks the integer 6. */
  predicate LimitUsable(limit: Value)
  {
    limit.Int? || limit.Bool? || (limit.Real? && limit.r > 5.0)
  }

  /** The number of results promised for a usable limit: the limit clamped to 0..5. */
  function ExpectedCount(limit: Value): (n: nat)
    requires LimitUsable(limit)
    ensures n <= 5
  {
    match limit
    case Int(k) => if k <= 0 then 0 else if k >= 5 then 5 else k
    case Bool(b) => if b then 1 else 0
    case Real(_) => 5
  }

  /** `min(limit + 1, 6)`, or the `TypeError` Python raises on the way to `range`. */
  function SearchStop(limit: Value): (r: Result<int, Fault>)
    ensures r.Success? <==> LimitUsable(limit)
    ensures r.Success? ==> r.value <= 6 && ExpectedCount(limit) == if r.value > 1 then r.value - 1 else 0
    ensures r.Failure? ==> r.error.kind == "TypeError"
  {
    match limit
    case Int(k) => Success(if k + 1 < 6 then k + 1 else 6)
    case Bool(b) => Success(if b then 2 else 1)
    case Real(x) =>
      if 6.0 < x + 1.0 then Success(6)
      else Failure(Fault("TypeError", "'float' object cannot be interpreted as an integer"))
    case Str(_) => Failure(Fault("TypeError", "can only concatenate str (not \"int\") to str"))
    case Arr(_) => Failure(Fault("TypeError", "can only concatenate list (not \"int\") to list"))
    case _ => Failure(Fault("TypeError", "unsupported operand type(s) for +: '" + TypeName(limit) + "' and 'int'"))
  }

  function SearchHit(id: nat, query: Value): Value
  {
    Obj(map[
      "id" := Int(id),
      "title" := Str("Result " + Text.NatToString(id) + " for '" + Show(query) + "'"),
      "score" := Real(1.0 - id as real * 0.1)])
  }

  /** `n` hits with ids 1..n in order and strictly decreasing scores. */
  ghost predicate RankedHits(items: seq<Value>, n: nat)
  {
    && |items| == n
    && (forall k :: 0 <= k < n ==> Field(items[k], "id") == Int(k + 1) && Field(items[k], "score").Real?)
    && (forall j, k :: 0 <= j < k < n ==> Field(items[j], "score").r > Field(items[k], "score").r)
  }

  /** A search result echoing `query` whose `count` is the length of its ranked `results`. */
  ghost predicate IsRanking(v: Value, query: Value, n: nat)
  {
    && v.Obj? && v.fields.Keys == {"query", "count", "results"}
    && Field(v, "query") == query
    && Field(v, "count") == Int(n)
    && Field(v, "results").Arr?
    && RankedHits(Field(v, "results").items, n)
  }

  /** `SearchTool.execute`. */
  function ExecuteSearch(parameters: map<string, Value>): (r: Outcome)
    ensures !Truthy(SearchQuery(parameters)) ==> r == ValueError("Query parameter is required")
    ensures r.Raised? <==> !Truthy(SearchQuery(parameters)) || !LimitUsable(SearchLimit(parameters))
    ensures r.Returned? ==> IsRanking(r.value, SearchQuery(parameters), ExpectedCount(SearchLimit(parameters)))
  {
    var query := SearchQuery(parameters);
    var limit := SearchLimit(parameters);
    if !Truthy(query) then ValueError("Query parameter is required")
    else match SearchStop(limit)
      case Failure(f) => Raised(f)
      case Success(stop) =>
        var hits := Hits(if stop > 1 then stop - 1 else 0, query);
        Returned(Obj(map["query" := query, "count" := Int(|hits|), "results" := Arr(hits)]))
  }

  /** `[{...} for i in range(1, n + 1)]`. */
  function Hits(n: nat, query: Value): (items: seq<Value>)
    ensures RankedHits(items, n)
  {
    seq(n, i requires 0 <= i => SearchHit(i + 1, query))
  }

  // ---------------------------------------------------------------- database

  function DatabaseRecord(id: nat): Value
  {
    Obj(map["id" := Int(id), "name" := Str("Record " + Text.NatToString(id))])
  }

  /** `DatabaseTool.execute`. The operation is not checked against the schema's enum. */
  function ExecuteDatabase(parameters: map<string, Value>): (r: Outcome)
    ensures var operation, table := Get(parameters, "operation", Null), Get(parameters, "table", Null);
      && (r.Raised? <==> !Truthy(operation) || !Truthy(table))
      && (r.Raised? ==> r == ValueError("Operation and table parameters are required"))
      && (r.Returned? ==> Field(r.value, "operation") == operation && Field(r.value, "table") == table)
      && (r.Returned? ==> Field(r.value, "affected_rows") == Int(if operation == Str("query") then 5 else 1))
      && (r.Returned? && operation == Str("query") ==>
            Field(r.value, "data").Arr? && |Field(r.value, "data").items| == 5
            && forall k :: 0 <= k < 5 ==> Field(Field(r.value, "data").items[k], "id") == Int(k + 1))
      && (r.Returned? && operation != Str("query") ==> Field(r.value, "data") == Get(parameters, "data", Obj(map[])))
  {
    var operation := Get(parameters, "operation", Null);
    var table := Get(parameters, "table", Null);
    var data := Get(parameters, "data", Obj(map[]));
    if !Truthy(operation) || !Truthy(table) then ValueError("Operation and table parameters are required")
    else
      Returned(Obj(map[
        "operation" := operation,
        "table" := table,
        "affected_rows" := Int(if operation != Str("query") then 1 else 5),
        "data" := if operation != Str("query") then data else Arr(seq(5, i requires 0 <= i => DatabaseRecord(i + 1)))]))
  }

  // ---------------------------------------------------------------- file operations

  /** The operations `FileOpsTool.execute` knows. */
  const FileOperations: set<Value> := {Str("read"), Str("write"), Str("list"), Str("delete")}

  /** `FileOpsTool.execute`: simulated, no file is touched. */
  function ExecuteFileOps(parameters: map<string, Value>): (r: Outcome)
    ensures var operation, path, content := Get(parameters, "operation", Null), Get(parameters, "path", Null), Get(parameters, "content", Null);
      && (r.Returned? <==>
            Truthy(operation) && Truthy(path) && operation in FileOperations
            && (operation == Str("write") ==> Truthy(content) && Len(content).Success?))
      && (!Truthy(operation) || !Truthy(path) ==> r == ValueError("Operation and path parameters are required"))
      && (Truthy(operation) && Truthy(path) && operation !in FileOperations ==> r == ValueError("Unknown operation: " + Show(operation)))
      && (operation == Str("write") && Truthy(path) && !Truthy(content) ==> r == ValueError("Content parameter is required for write operation"))
      && (operation == Str("write") && Truthy(path) && Truthy(content) && Len(content).Failure? ==> r == Raised(Len(content).error))
      && (r.Returned? ==> Field(r.value, "operation") == operation && Field(r.value, "path") == path)
      && (r.Returned? && operation == Str("read") ==> Field(r.value, "size") == Int(1024))
      && (r.Returned? && operation == Str("write") ==> Field(r.value, "bytes_written") == Int(Len(content).value))
      && (r.Returned? && operation == Str("list") ==>
            Field(r.value, "count") == Int(3) && Field(r.value, "files").Arr? && |Field(r.value, "files").items| == 3)
      && (r.Returned? && operation == Str("delete") ==> Field(r.value, "deleted") == Bool(true))
  {
    var operation := Get(parameters, "operation", Null);
    var path := Get(parameters, "path", Null);
    var content := Get(parameters, "content", Null);
    if !Truthy(operation) || !Truthy(path) then ValueError("Operation and path parameters are required")
    else if operation == Str("read") then Returned(ReadReport(operation, path))
    else if operation == Str("write") then
      if !Truthy(content) then ValueError("Content parameter is required for write operation")
      else match Len(content)
        case Failure(f) => Raised(f)
        case Success(n) => Returned(WriteReport(operation, path, n))
    else if operation == Str("list") then Returned(ListReport(operation, path))
    else if operation == Str("delete") then Returned(DeleteReport(operation, path))
    else
      ValueError("Unknown operation: " + Show(operation))
  }

  function ReadReport(operation: Value, path: Value): (v: Value)
    ensures Field(v, "operation") == operation && Field(v, "path") == path && Field(v, "size") == Int(1024)
  {
    Obj(map[
      "operation" := operation,
      "path" := path,
      "content" := Str("Simulated content of " + Show(path)),
      "size" := Int(1024)])
  }

  function WriteReport(operation: Value, path: Value, written: nat): (v: Value)
    ensures Field(v, "operation") == operation && Field(v, "path") == path && Field(v, "bytes_written") == Int(written)
  {
    Obj(map["operation" := operation, "path" := path, "bytes_written" := Int(written)])
  }

  function ListReport(operation: Value, path: Value): (v: Value)
    ensures Field(v, "operation") == operation && Field(v, "path") == path
    ensures Field(v, "count") == Int(3) && Field(v, "files").Arr? && |Field(v, "files").items| == 3
  {
    Obj(map[
      "operation" := operation,
      "path" := path,
      "files" := Arr(seq(3, i requires 0 <= i => Str("file_" + Text.NatToString(i + 1) + ".txt"))),
      "count" := Int(3)])
  }

  function DeleteReport(operation: Value, path: Value): (v: Value)
    ensures Field(v, "operation") == operation && Field(v, "path") == path && Field(v, "deleted") == Bool(true)
  {
    Obj(map["operation" := operation, "path" := path, "deleted" := Bool(true)])
  }

  /** `tool.execute(parameters)`: the built-in tools only ever raise `ValueError` or `TypeError`. */
  function Execute(tool: Tool, parameters: map<string, Value>): (r: Outcome)
    ensures !tool.CustomTool? && r.Raised? ==> r.fault.kind in {"ValueError", "TypeError"}
    ensures tool.CustomTool? ==> r == tool.run(parameters)
  {
    match tool
    case SearchTool => ExecuteSearch(parameters)
    case DatabaseTool => ExecuteDatabase(parameters)
    case FileOpsTool => ExecuteFileOps(parameters)
    case CustomTool(_, run) => run(parameters)
  }

  /** `BaseTool.invoke`: whatever `execute` does, the caller gets a response that names the tool,
      echoes the request id and carries either the result or the described exception. The latency
      is measured by the caller's clock and passed in. */
  function Invoke(tool: Tool, parameters: map<string, Value>, requestId: Option<string>, latencyMs: real): (r: ToolResponse)
    ensures r.toolName == NameOf(tool) && r.requestId == requestId && r.latencyMs == latencyMs
    ensures r.success <==> Execute(tool, parameters).Returned?
    ensures r.success <==> r.result.Some? && r.error.None?
    ensures r.success ==> r.result == Some(Execute(tool, parameters).value)
    ensures !r.success ==> r.result.None? && r.error == Some(Describe(Execute(tool, parameters).fault))
  {
    match Execute(tool, parameters)
    case Returned(v) => ToolResponse(NameOf(tool), true, Some(v), None, latencyMs, requestId)
    case Raised(f) => ToolResponse(NameOf(tool), false, None, Some(Describe(f)), latencyMs, requestId)
  }

  // ---------------------------------------------------------------- registry

  /** The registry's contents: the `tools` dict and the order in which its keys were inserted. */
  datatype Catalog = Catalog(tools: map<string, Tool>, order: seq<string>)

  /** Keys are unique, the order lists exactly the keys, and every tool is filed under its
      schema's name. */
  ghost predicate WellFormed(c: Catalog)
  {
    && (forall i, j :: 0 <= i < j < |c.order| ==> c.order[i] != c.order[j])
    && (forall n :: n in c.tools <==> n in c.order)
    && (forall n :: n in c.tools ==> NameOf(c.tools[n]) == n)
  }

  /** `register_tool`: file the tool under its schema's name. A new name goes to the end of the
      order; a known name keeps its place and the tool is replaced. */
  function Register(c: Catalog, tool: Tool): (r: Catalog)
    ensures WellFormed(c) ==> WellFormed(r)
    ensures NameOf(tool) in r.tools && r.tools[NameOf(tool)] == tool
    ensures forall n :: n != NameOf(tool) ==> (n in r.tools <==> n in c.tools)
    ensures forall n :: n != NameOf(tool) && n in c.tools ==> r.tools[n] == c.tools[n]
    ensures |c.order| <= |r.order| && r.order[..|c.order|] == c.order
    ensures |r.order| == |c.order| + (if NameOf(tool) in c.tools then 0 else 1)
  {
    var name := NameOf(tool);
    Catalog(c.tools[name := tool], if name in c.tools then c.order else c.order + [name])
  }

  /** `list_tools`: the schemas of the registered tools in insertion order. */
  function Listing(c: Catalog): (schemas: seq<ToolSchema>)
    requires forall n :: n in c.order ==> n in c.tools
    ensures |schemas| == |c.order|
    ensures forall i :: 0 <= i < |c.order| ==> schemas[i] == SchemaOf(c.tools[c.order[i]])
  {
    seq(|c.order|, i requires 0 <= i < |c.order| => SchemaOf(c.tools[c.order[i]]))
  }

  /** In a well-formed catalog the listed names are the order itself, hence unique. */
  lemma SchemaNamesAreKeys(c: Catalog)
    requires WellFormed(c)
    ensures forall i :: 0 <= i < |c.order| ==> Listing(c)[i].name == c.order[i]
    ensures forall i, j :: 0 <= i < j < |c.order| ==> Listing(c)[i].name != Listing(c)[j].name
  {
  }

  /** Registering under a known name changes that one listing entry in place; a new name
      appends one entry. */
  lemma ListingAfterRegister(c: Catalog, tool: Tool)
    requires WellFormed(c)
    ensures var r := Register(c, tool);
      && WellFormed(r)
      && (NameOf(tool) !in c.tools ==> Listing(r) == Listing(c) + [SchemaOf(tool)])
      && (NameOf(tool) in c.tools ==>
            |Listing(r)| == |Listing(c)|
            && forall i :: 0 <= i < |c.order| ==>
                 Listing(r)[i] == if c.order[i] == NameOf(tool) then SchemaOf(tool) else Listing(c)[i])
  {
    var r := Register(c, tool);
    if NameOf(tool) !in c.tools {
      assert |Listing(r)| == |Listing(c)| + 1;
      forall i | 0 <= i < |Listing(r)| ensures Listing(r)[i] == (Listing(c) + [SchemaOf(tool)])[i] {
        if i < |c.order| {
          assert r.order[i] == c.order[i] && c.order[i] != NameOf(tool);
        }
      }
    }
  }

  const EmptyCatalog := Catalog(map[], [])

  lemma DefaultNames()
    ensures NameOf(SearchTool) == "search" && NameOf(DatabaseTool) == "database" && NameOf(FileOpsTool) == "file_ops"
  {
  }

  /** What `_register_default_tools` leaves in an empty registry. */
  function DefaultCatalog(): (c: Catalog)
    ensures WellFormed(c)
    ensures c.order == ["search", "database", "file_ops"]
  {
    DefaultNames();
    Catalog(map["search" := SearchTool, "database" := DatabaseTool, "file_ops" := FileOpsTool], ["search", "database", "file_ops"])
  }

  /** A fresh registry lists the search, database and file_ops schemas, in that order. */
  lemma DefaultListing()
    ensures Listing(DefaultCatalog()) == [SearchSchema, DatabaseSchema, FileOpsSchema]
  {
    assert Listing(DefaultCatalog()) == [SchemaOf(SearchTool), SchemaOf(DatabaseTool), SchemaOf(FileOpsTool)];
  }

  /** Every schema a fresh registry lists is named after its type, described, and describes its
      parameters as an object. */
  lemma DefaultListingDescribed()
    ensures forall s :: s in Listing(DefaultCatalog()) ==>
      s.name == ToolTypeName(s.kind) && s.description != "" && s.parameters["type"] == Str("object")
  {
    var l := Listing(DefaultCatalog());
    DefaultListing();
    forall s | s in l
      ensures s.name == ToolTypeName(s.kind) && s.description != "" && s.parameters["type"] == Str("object")
    {
      if s == SearchSchema {
        SearchSchemaShape();
      } else if s == DatabaseSchema {
        DatabaseSchemaShape();
      } else {
        FileOpsSchemaShape();
      }
    }
  }

  /** The three registrations of `_register_default_tools`, from an empty registry, give the
      default catalog. */
  lemma DefaultRegistrations()
    ensures Register(Register(Register(EmptyCatalog, SearchTool), DatabaseTool), FileOpsTool) == DefaultCatalog()
  {
    RegisterSearchFirst();
    RegisterDatabaseSecond();
    RegisterFileOpsThird();
  }

  lemma RegisterSearchFirst()
    ensures Register(EmptyCatalog, SearchTool) == Catalog(map["search" := SearchTool], ["search"])
  {
    DefaultNames();
  }

  lemma RegisterDatabaseSecond()
    ensures Register(Catalog(map["search" := SearchTool], ["search"]), DatabaseTool)
         == Catalog(map["search" := SearchTool, "database" := DatabaseTool], ["search", "database"])
  {
    DefaultNames();
  }

  lemma RegisterFileOpsThird()
    ensures Register(Catalog(map["search" := SearchTool, "database" := DatabaseTool], ["search", "database"]), FileOpsTool)
         == DefaultCatalog()
  {
    DefaultNames();
  }

  /** `ToolRegistry`: a dict of tools updated in place. `order` records the dict's insertion
      order, which `list_tools` follows. */
  class ToolRegistry {
    var tools: map<string, Tool>
    var order: seq<string>

    function Snapshot(): Catalog
      reads this
    {
      Catalog(tools, order)
    }

    ghost predicate Valid()
      reads this
    {
      WellFormed(Snapshot())
    }

    /** A fresh registry holds the three default tools. */
    constructor ()
      ensures Valid() && Snapshot() == DefaultCatalog()
    {
      tools := map[];
      order := [];
      new;
      RegisterDefaultTools();
      DefaultRegistrations();
    }

    method RegisterDefaultTools()
      requires Valid()
      modifies this
      ensures Valid()
      ensures Snapshot() == Register(Register(Register(old(Snapshot()), SearchTool), DatabaseTool), FileOpsTool)
    {
      RegisterTool(SearchTool);
      RegisterTool(DatabaseTool);
      RegisterTool(FileOpsTool);
    }

    method RegisterTool(tool: Tool)
      requires Valid()
      modifies this
      ensures Valid() && Snapshot() == Register(old(Snapshot()), tool)
    {
      var name := NameOf(tool);
      if name !in tools {
        order := order + [name];
      }
      tools := tools[name := tool];
    }

    /** `get_tool`: the tool filed under `name`, absent for unknown names. */
    function GetTool(name: string): (t: Option<Tool>)
      requires Valid()
      reads this
      ensures t.Some? <==> name in order
      ensures t.Some? ==> t.value == tools[name] && NameOf(t.value) == name
    {
      if name in tools then Some(tools[name]) else None
    }

    /** `list_tools`: one schema per registered name, in insertion order. */
    function ListTools(): (schemas: seq<ToolSchema>)
      requires Valid()
      reads this
      ensures |schemas| == |order|
      ensures forall i :: 0 <= i < |order| ==> schemas[i] == SchemaOf(tools[order[i]]) && schemas[i].name == order[i]
    {
      SchemaNamesAreKeys(Snapshot());
      Listing(Snapshot())
    }
  }
}
