# MCP Serverless Gateway — a verified model

This project models, in Dafny, the deterministic core of the MCP Serverless Gateway: a small
HTTP gateway through which LLM agents list and invoke "tools".

- **Schemas** (`schemas.dfy`). The pydantic records: `ToolType`, `ToolSchema`, `ToolRequest`,
  `ToolResponse`, `MCPRequest` and `MCPResponse`. Each becomes a datatype with `Option` fields.
  The model also gives the `ToolRequest(**data)` validation and the `model_dump()` renderings,
  each with a loader that reads the rendering back.
- **Tool layer** (`tools.dfy`).
  - The three stub tools: search, database and file_ops. Each has a schema and an `execute`
    that returns a value or raises.
  - `BaseTool.invoke`, which turns either outcome into a `ToolResponse`.
  - The `ToolRegistry` class, holding a dict of tools and its insertion order. It is specified by
    a value-level `Catalog` and the `Register`/`Listing` functions.
- **Dispatcher** (`gateway.dfy`). The `/mcp` endpoint `handle_mcp_request`, as a function from
  a request and a registry snapshot to a 200 envelope or an HTTP error status.
- **Standalone MCP server** (`mcp_server.dfy`). The `search`, `file_read` and `db_query` tools.
  They share one success/error envelope and one request-id fallback. The file system is an
  oracle that is consulted only for an acceptable file name.
- **Deployment comparison harness** (`comparison.dfy`, `statistics.dfy`).
  - URL normalisation and cyclic payload selection.
  - The loop of `run_test_suite`, which records each result.
  - The per-deployment statistics and the comparison report.

The shared modules are:
- `json.dfy`: Python values decoded from JSON, plus truthiness, `dict.get`, `len` and `str`.
- `text.dfy`: `str.strip()`, `str.rstrip(c)` and `str(n)`.
- `wrappers.dfy`: `Option`, `Result`, and a raised exception (`Fault`) rendered as
  `"<Type>: <message>"`.

Time readings (`time.time()`), `uuid.uuid4()`, the HTTP round trip of the harness and
`open()` are all parameters. Latencies, timestamps and fresh identifiers are inputs.

Request identifiers: `src/server.py`'s `handle_mcp_request` passes the caller's `request_id`,
possibly `None`, to `invoke` unchanged; only the standalone `server.py` falls back to `uuid4()`.
`Tools.Invoke` echoes the identifier as given, and `McpServer.ResolveRequestId` is the fallback.

## Model

| member | source | states |
|---|---|---|
| Wrappers.Describe | src/tools.py:51-53 | an exception is rendered as its type name, then `": "`, then its message, each part recoverable from the text |
| Text.IsSpace | server.py:56 | the characters stripped are CPython's `str.isspace()` set: in ASCII exactly space, tab, line feed, vertical tab, form feed, carriage return and the four separators U+001C–U+001F, and none beyond U+3000 |
| Text.StripLeft | server.py:56 | `lstrip()` is a suffix of `s` that does not start with whitespace, and every character it dropped is whitespace |
| Text.StripRight | server.py:56 | `rstrip()` is a prefix of `s` that does not end with whitespace, and every character it dropped is whitespace |
| Text.Strip | server.py:56 | `s.strip()` is empty exactly when `s` is empty or whitespace only; otherwise it neither starts nor ends with whitespace. It is a prefix of `lstrip()`, and every character cut from the end of `lstrip()` is whitespace |
| Text.StripIgnoresPadding | server.py:60 | whitespace added around a string never changes its `strip()` |
| Text.TrimTrailing | compare_deployments.py:16-17 | `rstrip('/')` is a prefix, does not end in `/`, and only `/` characters were removed |
| Text.TrimTrailingIdempotent | compare_deployments.py:16-17 | normalising an already normalised URL changes nothing |
| Json.Truthy | src/tools.py:101 | `if not x` rejects exactly Python's falsy values: `None`, `False`, `0`, `0.0`, `""`, `[]` and `{}` |
| Json.Show | src/tools.py:238 | an f-string renders a string as itself, and the rendering is empty only for the empty string |
| Text.NatToString | src/tools.py:108 | `str(n)` of a non-negative integer is a non-empty run of decimal digits with no leading zero |
| Text.IntToString | src/tools.py:108 | `str(i)` starts with `-` exactly for negative `i`, followed by decimal digits with no leading zero |
| Text.NatToStringReadsBack | src/tools.py:108 | the digits `str(n)` writes denote `n` |
| Text.IntToStringReadsBack | src/tools.py:108 | `str(i)` reads back as `i`, a leading minus negating the digits after it |
| Json.Get | src/tools.py:98-99 | `dict.get(key, default)` yields the stored value when the key is present, the default otherwise |
| Json.TypeName | src/tools.py:51-53 | `type(v).__name__` is one of `NoneType`, `bool`, `int`, `float`, `str`, `list`, `dict` |
| Json.TypeNamesDistinct | src/tools.py:51-53 | values of different Python types have different type names |
| Json.Len | src/tools.py:216-223 | `len` succeeds exactly on strings, lists and dicts, gives a string's length, and otherwise raises `TypeError` with Python's message |
| Schemas.ToolTypeName | src/schemas.py:9-13 | each tool type's wire name is one of `search`, `database`, `file_ops` and parses back to that type |
| Schemas.ParseToolType | src/schemas.py:9-13 | exactly the three enum values are accepted |
| Schemas.ToolTypeNamesDistinct | src/schemas.py:9-13 | distinct tool types have distinct names |
| Schemas.ToolRequestErrors | src/schemas.py:24-28 | a field is rejected exactly when `tool_name` is missing or not a string, `parameters` is present and not a dict, or `request_id` is present and neither a string nor `None` |
| Schemas.ParseToolRequest | src/schemas.py:24-28 | `ToolRequest(**data)` succeeds exactly when no field is rejected; it takes `tool_name`, defaults `parameters` to `{}` and `request_id` to absent, and otherwise raises a `ValidationError` |
| Schemas.DumpSchema | src/schemas.py:16-21 | a schema dumps to an object with exactly `name`, `type`, `description`, `parameters`, and loads back to the same schema |
| Schemas.DumpSchemaList | src/server.py:64-68 | the dumped tool list has one entry per schema and loads back to the same schemas in the same order |
| Schemas.DumpToolResponse | src/schemas.py:31-38 | a response dumps to an object with all six fields (absent ones as `null`) and loads back unchanged whenever its result is not `None` |
| Tools.SearchStop | src/tools.py:105-111 | `min(limit + 1, 6)` is usable by `range` exactly for integer, boolean or over-5.0 float limits; the range then holds the limit clamped to 0..5; otherwise Python raises `TypeError` |
| Tools.SchemaOf | src/tools.py:74-94 | a built-in tool's schema is named after its own type and is described; any other tool reports its own schema |
| Tools.SearchSchemaShape | src/tools.py:74-94 | the search schema has the search type and describes an object with the required `query` declared, and its `limit` default is the limit `execute` uses when none is given |
| Tools.DatabaseSchemaShape | src/tools.py:124-148 | the database schema has the database type and describes an object with the required `operation` and `table` declared |
| Tools.FileOpsSchemaShape | src/tools.py:173-197 | the file_ops schema has the file_ops type, describes an object with the required `operation` and `path` declared, and its `operation` enum lists exactly the operations `execute` accepts |
| Tools.Execute | src/tools.py:96-238 | a built-in tool only ever raises `ValueError` or `TypeError`; another tool's outcome is its own |
| Tools.Hits | src/tools.py:105-113 | the hits have ids 1..n in order with strictly decreasing scores |
| Tools.ExecuteSearch | src/tools.py:96-118 | a missing or falsy query raises "Query parameter is required"; it raises exactly then or for an unusable limit; otherwise it returns the query, `count` equal to the number of results, and min(max(limit,0),5) ranked results (limit defaults to 10) |
| Tools.ExecuteDatabase | src/tools.py:150-167 | raises "Operation and table parameters are required" exactly when either is missing or falsy; otherwise echoes both, with 5 affected rows and five records (ids 1..5) for `query`, and one affected row and the echoed `data` (default `{}`) for any other operation |
| Tools.ExecuteFileOps | src/tools.py:199-238 | returns exactly when operation and path are truthy, the operation is read/write/list/delete, and a write has a truthy content with a length; each failure has its own message ("Operation and path parameters are required", "Unknown operation: <op>", "Content parameter is required for write operation", or `len`'s `TypeError`); read reports size 1024, write `bytes_written = len(content)`, list three files with `count` 3, delete `deleted` true |
| Tools.ReadReport | src/tools.py:209-215 | the read result echoes operation and path and reports size 1024 |
| Tools.WriteReport | src/tools.py:216-223 | the write result echoes operation and path and reports the bytes written |
| Tools.ListReport | src/tools.py:224-230 | the list result echoes operation and path and holds three files with `count` 3 |
| Tools.DeleteReport | src/tools.py:231-236 | the delete result echoes operation and path with `deleted` true |
| Tools.Invoke | src/tools.py:30-68 | the response names the tool by its schema name and echoes the request id and latency; it succeeds exactly when `execute` returns; a success carries the result and no error; a failure carries no result and the error `"<Type>: <message>"` of the raised exception |
| Tools.Register | src/tools.py:254-257 | the tool is filed under its schema name and nothing else changes; a new name is appended to the order, a known name keeps its place and the count; well-formedness (unique keys, order = keys, each tool under its own name) is preserved |
| Tools.Listing | src/tools.py:263-265 | one schema per registered tool, in insertion order |
| Tools.SchemaNamesAreKeys | src/tools.py:254-265 | in a well-formed registry the listed names are the registry keys in order, hence unique |
| Tools.ListingAfterRegister | src/tools.py:254-265 | re-registering a name replaces that one listing entry in place and keeps the length; a new name appends exactly its schema |
| Tools.DefaultNames | src/tools.py:74-197 | the three default tools are named `search`, `database`, `file_ops` |
| Tools.DefaultCatalog | src/tools.py:248-252 | the default registry is well formed with order `search`, `database`, `file_ops` |
| Tools.DefaultListing | src/tools.py:263-265 | a fresh registry lists exactly the search, database and file_ops schemas, in that order |
| Tools.DefaultListingDescribed | src/tools.py:74-94 | every schema a fresh registry lists is named after its type, described, and describes an object |
| Tools.DefaultRegistrations | src/tools.py:248-252 | the three registrations from an empty registry give the default registry |
| Tools.ToolRegistry.constructor | src/tools.py:244-246 | a new registry is valid and holds exactly the default tools |
| Tools.ToolRegistry.RegisterDefaultTools | src/tools.py:248-252 | the registry becomes the result of registering search, database and file_ops in turn, and stays valid |
| Tools.ToolRegistry.RegisterTool | src/tools.py:254-257 | the dict and its order become `Register` of the old ones, and the registry stays valid |
| Tools.ToolRegistry.GetTool | src/tools.py:259-261 | a tool is found exactly for a registered name, and it is the one filed there, named by that name; unknown names give absent |
| Tools.ToolRegistry.ListTools | src/tools.py:263-265 | one schema per registered name, in insertion order, each the registered tool's own `get_schema()` and named by its key |
| Gateway.HandleMcpRequest | src/server.py:41-130 | only 200, 400 and 404 occur. `list_tools` always succeeds and its `tools` load back to the registry's listing in order. `invoke_tool` with missing or empty data gives 400 "Missing tool invocation data". A parsed request naming an unregistered tool gives 404 "Tool '<name>' not found", and 404 occurs exactly then. A registered tool's response is embedded whole under an outer `success=true`, even when the tool failed. A request that fails to parse gives 200 with `success=false`, no data and the `"<Type>: <message>"` error, and a failed envelope occurs exactly then. Any other action gives 400 "Unknown action: <action>" |
| Gateway.InvokedResponseReadsBack | src/server.py:74-105 | for a built-in tool the tool is invoked with the caller's parameters unchanged, and the embedded data loads back to that invocation's own response, so the tool name and the caller's request id reach the reply unchanged |
| McpServer.CodeName | server.py:56-88 | the three error codes have wire names that parse back to the same code |
| McpServer.ResolveRequestId | server.py:53 | a supplied non-empty id is echoed; a missing or empty one is replaced by the fresh id |
| McpServer.SuccessEnvelope | server.py:27-33 | a success envelope has exactly `status`, `request_id`, `data`, `execution_time_ms` (no `error`), reads back as a success with the data, and its time is now − start |
| McpServer.ErrorEnvelope | server.py:36-42 | an error envelope has exactly `status`, `request_id`, `error`, `execution_time_ms` (no `data`), reads back as the given code and message, and its time is now − start |
| McpServer.Search | server.py:48-61 | fails exactly for an empty or whitespace-only query, with `INVALID_INPUT` "query cannot be empty"; otherwise exactly one result, "Stub result for: " + the stripped query; the request id is resolved and the time is now − start |
| McpServer.SearchIgnoresPadding | server.py:56-60 | whitespace around the query never changes the answer |
| McpServer.FileRead | server.py:65-88 | a blank name gives `INVALID_INPUT` "filename cannot be empty"; a name containing `/` or `\` gives `INVALID_INPUT` "filename must not include path separators"; otherwise the file's content, or `EXECUTION_ERROR` "file not found: <name>", or `INTERNAL_ERROR` "unexpected error: <reason>"; success happens exactly when the name is acceptable and the file was read |
| McpServer.RejectedNamesNeverReachFiles | server.py:72-78 | a refused name is answered with an error that is the same whatever the file system holds: no file is consulted for it |
| McpServer.MockUsers | server.py:105-108 | the canned rows are two records with ids 1 and 2 and fields `id`, `name`, `status` |
| McpServer.DbQuery | server.py:92-110 | fails exactly for an empty or whitespace-only query, with `INVALID_INPUT` "SQL query cannot be empty"; otherwise the two canned rows and `query_echo` = the stripped query |
| McpServer.DbQueryEchoIsStripped | server.py:100-110 | the echo of a padded non-blank query is the stripped query: non-empty, without surrounding whitespace, and unaffected by the padding |
| Statistics.Min | compare_deployments.py:131 | `min` is a sample no larger than any sample |
| Statistics.Max | compare_deployments.py:132 | `max` is a sample no smaller than any sample |
| Statistics.SumConcat | compare_deployments.py:129 | the total behind `statistics.mean` is additive: two runs of samples total the sum of their totals |
| Statistics.SumNonNegative | compare_deployments.py:129 | non-negative samples, as latencies are, have a non-negative total |
| Statistics.SumBounds | compare_deployments.py:129 | the total of n samples lies between n·lo and n·hi for any bounds lo, hi of the samples |
| Statistics.Mean | compare_deployments.py:129 | the mean times the sample count is the total |
| Statistics.MeanBounds | compare_deployments.py:129-132 | min ≤ mean ≤ max |
| Statistics.SortAscending | compare_deployments.py:130 | `sorted` gives an ascending permutation of the samples |
| Statistics.Median | compare_deployments.py:130 | for an odd count the median is a sample; for an even count it is the average of two samples, the smaller first. `MedianIsMiddle` pins down which samples they are |
| Statistics.AscendingUnique | compare_deployments.py:130 | two ascending arrangements of the same samples are equal, so the sorted order `median` uses is unique |
| Statistics.MedianIsMiddle | compare_deployments.py:130 | the median is the middle element of any ascending arrangement of the samples for an odd count, and the average of its two middle elements for an even count |
| Statistics.MedianBounds | compare_deployments.py:130-132 | min ≤ median ≤ max |
| Statistics.SingleSample | compare_deployments.py:129-132 | a single sample is its own mean, median, minimum and maximum |
| Comparison.DeploymentName | compare_deployments.py:18-21 | Lambda is keyed `lambda` and EC2 `ec2`: each name is one of the two keys and parses back to its own deployment |
| Comparison.ParseDeployment | compare_deployments.py:103-116 | `self.results[deployment]` finds exactly the keys `lambda` and `ec2`; any other name is a `KeyError` |
| Comparison.DeploymentNamesDistinct | compare_deployments.py:18-21 | the two deployments have distinct keys |
| Comparison.Other | compare_deployments.py:18-21 | the other deployment differs from the given one |
| Comparison.ErrorText | compare_deployments.py:105 | a failure is recorded with its exception text, or "Unknown error" for a non-200 reply |
| Comparison.Record | compare_deployments.py:102-105 | a success (status 200) appends its latency and a failure its error text, each to exactly one list |
| Comparison.SuccessLatencies | compare_deployments.py:102-103 | at most one latency per result, and each is the latency of a result that succeeded |
| Comparison.FailureTexts | compare_deployments.py:104-105 | at most one error text per result, and each is the text of a result that failed |
| Comparison.RecordAll | compare_deployments.py:98-105 | recording a run keeps both earlier lists as prefixes and adds exactly one entry per result |
| Comparison.FilterSplit | compare_deployments.py:102-105 | one more result extends exactly one of the two filtered lists by its own entry |
| Comparison.RecordAllPartitions | compare_deployments.py:98-105 | recording a run of results leaves what was already recorded in place and appends the successes' latencies and the failures' texts, each in request order |
| Comparison.RecordAllStep | compare_deployments.py:98-105 | recording one more result extends the recorded run by that result |
| Comparison.PartitionSizes | compare_deployments.py:102-105 | every result lands in exactly one list |
| Comparison.TestPayload | compare_deployments.py:66-99 | request i lists the tools when i mod 4 = 0, and otherwise invokes search, database or file_ops with the suite's fixed arguments, cycling in that order |
| Comparison.PayloadsCycle | compare_deployments.py:99 | the payload sequence has period four |
| Comparison.InvocationSucceeds | src/server.py:84-105 | invoking a registered tool whose call returns yields 200, an outer success, and an embedded tool success |
| Comparison.SuiteRequestsSucceed | compare_deployments.py:66-95 | against the default gateway every suite payload is answered 200 with success, and every tool call in it succeeds |
| Comparison.SearchArgumentsAccepted | compare_deployments.py:68-74 | the suite's search arguments are accepted by the default search tool |
| Comparison.DatabaseArgumentsAccepted | compare_deployments.py:75-84 | the suite's database arguments are accepted by the default database tool |
| Comparison.FileOpsArgumentsAccepted | compare_deployments.py:85-94 | the suite's file_ops arguments are accepted by the default file_ops tool |
| Comparison.SuiteResults | compare_deployments.py:98-100 | a suite of n requests sends max(n, 0) requests, request i with payload i mod 4 |
| Comparison.SuiteGrowth | compare_deployments.py:98-105 | after a suite of n requests the two lists together are exactly max(n, 0) entries longer |
| Comparison.DeploymentTester.constructor | compare_deployments.py:15-21 | both URLs are stored without trailing slashes and both deployments start with empty lists |
| Comparison.DeploymentTester.RunTestSuite | compare_deployments.py:98-105 | the chosen deployment's lists become the old ones with the suite's results recorded in order; the other deployment and both URLs are unchanged |
| Comparison.CalculateStatistics | compare_deployments.py:113-136 | with no successes only the error count; otherwise total = successful + failed, a success rate in (0, 100] that is 100 exactly when nothing failed, the mean, median, min and max of the latencies, p95 = max below 20 samples, p99 = max below 100 samples, and stddev exactly 0 for a single sample |
| Comparison.LatencySummaryBounds | compare_deployments.py:129-132 | min and max are samples bounding every sample, and min ≤ mean ≤ max, min ≤ median ≤ max |
| Comparison.SuccessRate | compare_deployments.py:128 | the success rate lies in (0, 100], is 100 exactly when all requests succeeded, and is the successes' share of all requests |
| Comparison.Percentage | compare_deployments.py:154-157 | the percentage times the base is the difference times 100 |
| Comparison.FasterDeploymentName | compare_deployments.py:160 | `faster_deployment` is the string `ec2` when the EC2 mean is strictly lower, otherwise `lambda` |
| Comparison.GenerateComparisonReport | compare_deployments.py:138-163 | the report holds both deployments' statistics. A comparison is present exactly when both have successes. It holds `latency_difference_ms` = lambda mean − ec2 mean, the percentage of the ec2 mean, and both success rates. `faster_deployment` is ec2 exactly when its mean is strictly lower, so ties go to lambda. A zero ec2 mean raises `ZeroDivisionError` |

## Left out

- Logging (`src/observability.py`) is not part of this model. Every `log_*` call has no effect on results, so it is omitted.
- `BaseTool.__init__` (src/tools.py:17-18) takes its logger from `get_logger`, imported at src/tools.py:11, but src/observability.py:13-148 defines no `get_logger` (only `ObservabilityLogger`, `time_operation` and `log_timing`). As written, importing `src.tools`, and with it `src.server`, raises `ImportError`. The model assumes the import succeeds and that `self.logger` is a sink with no effect on results.
- FastAPI and pydantic request handling is not modelled. That covers the 422 reply to a malformed `MCPRequest` body and the JSON rendering of HTTP errors by the exception handler (src/server.py:133-145). Only the status code and the detail text are kept.
- The `root` and `health` endpoints are not modelled. They return constant dictionaries.
- Schemas.ParseToolRequest: the `ValidationError` message lists the offending field names, not pydantic's full per-field text. The error kind is exact.
- Json.Show: an f-string renders strings, integers, booleans and `None` as Python does. Floats, lists and dicts get a placeholder naming their type; Python's `repr` of these is not modelled. This affects search titles, "Unknown operation: …" and the simulated read content.
- Python floats are modelled as exact reals. That covers search scores (`1.0 - i * 0.1`), latencies, rates and the statistics. Rounding is not represented.
- Dictionary key order is not represented. Dicts are maps, so the textual order of keys in JSON bodies is not modelled. Registry order is modelled explicitly.
- Tools.CustomTool stands for any other `BaseTool` subclass. Its `execute` is an arbitrary function of the parameters, and async scheduling is not modelled.
- Tools.Invoke: every raised exception is caught, as `except Exception` does. Exceptions outside `Exception` are not modelled.
- Gateway.HandleMcpRequest requires a well-formed registry. The gateway only ever uses its module-level registry, which is built by the constructor and kept valid by `register_tool`.
- Gateway.InvokedResponseReadsBack is stated for the built-in tools only. A custom tool returning `None` dumps as `result: null`, which cannot be told apart from an absent result.
- Schemas.DumpToolResponse: the round trip likewise excludes a result that is `None`.
- McpServer.FileRead: `open(filename).read()` is an oracle. It yields content, not-found, or any other failure with its text, such as a directory, a permission error or a decoding error. The typed `query`/`filename` arguments are strings; FastMCP's argument validation is not modelled.
- `mcp.run` and its transport are not modelled.
- The harness's network call is not modelled. `test_endpoint`'s aiohttp request, its 30 s timeout and the reply body are an abstract `Network` result: a status code or an exception text, plus a latency.
- The progress prints, `asyncio.sleep`, `print_report`, `main`, its argument parsing and its JSON file output are not modelled.
- Comparison.CalculateStatistics: `statistics.quantiles` (p95 from 20 samples, p99 from 100) and `statistics.stdev` (two or more samples) are not computed. They appear as `Estimated`.
- Comparison.Deployment: only `lambda` and `ec2` are modelled. Any other name raises `KeyError` in the source; `ParseDeployment` returns `None` for it, and the tester's operations take the closed datatype.
- The deployment entry points (`deployments/`) and `test_client.py` are not part of this model. They contain no gateway logic.
