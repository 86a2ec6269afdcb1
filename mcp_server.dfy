/** The standalone MCP server: three tools that answer with a uniform success or error envelope.
    The wall clock and `uuid4()` are parameters: `startMs` is the first `_now_ms()` reading,
    `nowMs` the one taken when the envelope is built, and `freshId` the generated identifier. */
module McpServer {
  import opened Wrappers
  import opened Json
  import opened Text

  datatype ErrorCode = InvalidInput | ExecutionError | InternalError

  function CodeName(c: ErrorCode): (s: string)
    ensures ParseCode(s) == Some(c)
  {
    match c
    case InvalidInput => "INVALID_INPUT"
    case ExecutionError => "EXECUTION_ERROR"
    case InternalError => "INTERNAL_ERROR"
  }

  function ParseCode(s: string): Option<ErrorCode>
  {
    if s == "INVALID_INPUT" then Some(InvalidInput)
    else if s == "EXECUTION_ERROR" then Some(ExecutionError)
    else if s == "INTERNAL_ERROR" then Some(InternalError)
    else None
  }

  /** What an envelope says, independent of its dictionary encoding. */
  datatype Envelope =
    | Ok(requestId: string, data: map<string, Value>, elapsedMs: int)
    | Err(requestId: string, code: ErrorCode, message: string, elapsedMs: int)

  /** Reads a response dictionary back; `None` for anything that is not an envelope. */
  function ReadEnvelope(m: map<string, Value>): Option<Envelope>
  {
    if "status" !in m || "request_id" !in m || "execution_time_ms" !in m then None
    else if !m["request_id"].Str? || !m["execution_time_ms"].Int? then None
    else if m["status"] == Str("success") && m.Keys == {"status", "request_id", "data", "execution_time_ms"} then
      if m["data"].Obj? then Some(Ok(m["request_id"].s, m["data"].fields, m["execution_time_ms"].i)) else None
    else if m["status"] == Str("error") && m.Keys == {"status", "request_id", "error", "execution_time_ms"} then
      var e := m["error"];
      if e.Obj? && e.fields.Keys == {"code", "message"} && e.fields["code"].Str? && e.fields["message"].Str?
         && ParseCode(e.fields["code"].s).Some?
      then Some(Err(m["request_id"].s, ParseCode(e.fields["code"].s).value, e.fields["message"].s, m["execution_time_ms"].i))
      else None
    else None
  }

  /** `request_id or str(uuid.uuid4())`: a supplied non-empty identifier is echoed, otherwise
      the generated one is used. */
  function ResolveRequestId(requestId: Option<string>, freshId: string): (rid: string)
    ensures requestId.Some? && requestId.value != [] ==> rid == requestId.value
    ensures requestId.None? || requestId.value == [] ==> rid == freshId
    ensures freshId != [] ==> rid != []
  {
    if requestId.Some? && requestId.value != [] then requestId.value else freshId
  }

  /** `_success`. */
  function SuccessEnvelope(requestId: string, data: map<string, Value>, startMs: int, nowMs: int): (m: map<string, Value>)
    ensures ReadEnvelope(m) == Some(Ok(requestId, data, nowMs - startMs))
    ensures m.Keys == {"status", "request_id", "data", "execution_time_ms"}
  {
    map["status" := Str("success"), "request_id" := Str(requestId), "data" := Obj(data),
        "execution_time_ms" := Int(nowMs - startMs)]
  }

  /** `_error`. */
  function ErrorEnvelope(requestId: string, code: ErrorCode, message: string, startMs: int, nowMs: int): (m: map<string, Value>)
    ensures ReadEnvelope(m) == Some(Err(requestId, code, message, nowMs - startMs))
    ensures m.Keys == {"status", "request_id", "error", "execution_time_ms"}
  {
    map["status" := Str("error"), "request_id" := Str(requestId),
        "error" := Obj(map["code" := Str(CodeName(code)), "message" := Str(message)]),
        "execution_time_ms" := Int(nowMs - startMs)]
  }

  /** The `search` tool: rejects a blank query, otherwise answers with one stub result built
      from the stripped query. */
  function Search(query: string, requestId: Option<string>, freshId: string, startMs: int, nowMs: int): (m: map<string, Value>)
    ensures ReadEnvelope(m).Some?
    ensures ReadEnvelope(m).value.requestId == ResolveRequestId(requestId, freshId)
    ensures ReadEnvelope(m).value.elapsedMs == nowMs - startMs
    ensures ReadEnvelope(m).value.Err? <==> IsBlank(query)
    ensures ReadEnvelope(m).value.Err? ==>
      ReadEnvelope(m).value.code == InvalidInput && ReadEnvelope(m).value.message == "query cannot be empty"
    ensures ReadEnvelope(m).value.Ok? ==>
      ReadEnvelope(m).value.data == map["results" := Arr([Str("Stub result for: " + Strip(query))])]
  {
    var rid := ResolveRequestId(requestId, freshId);
    if Strip(query) == [] then ErrorEnvelope(rid, InvalidInput, "query cannot be empty", startMs, nowMs)
    else SuccessEnvelope(rid, map["results" := Arr([Str("Stub result for: " + Strip(query))])], startMs, nowMs)
  }

  /** Surrounding whitespace never changes what `search` answers. */
  lemma SearchIgnoresPadding(pre: string, query: string, post: string, requestId: Option<string>, freshId: string, startMs: int, nowMs: int)
    requires IsBlank(pre) && IsBlank(post)
    ensures Search(pre + query + post, requestId, freshId, startMs, nowMs) == Search(query, requestId, freshId, startMs, nowMs)
  {
    StripIgnoresPadding(pre, query, post);
    assert Strip(pre + query + post) == Strip(query);
  }

  /** What `open(filename).read()` does, as seen by `file_read`. */
  datatype FileOutcome = Contents(text: string) | NotFound | Failed(reason: string)

  /** A name `file_read` refuses before touching the file system. */
  predicate RejectedFileName(filename: string)
  {
    Strip(filename) == [] || '/' in filename || '\\' in filename
  }

  /** The `file_read` tool; `open` is the file system, consulted only for an acceptable name. */
  function FileRead(filename: string, requestId: Option<string>, freshId: string, open: string -> FileOutcome, startMs: int, nowMs: int): (m: map<string, Value>)
    ensures ReadEnvelope(m).Some?
    ensures ReadEnvelope(m).value.requestId == ResolveRequestId(requestId, freshId)
    ensures ReadEnvelope(m).value.elapsedMs == nowMs - startMs
    ensures IsBlank(filename) ==>
      ReadEnvelope(m).value.Err? && ReadEnvelope(m).value.code == InvalidInput
      && ReadEnvelope(m).value.message == "filename cannot be empty"
    ensures !IsBlank(filename) && ('/' in filename || '\\' in filename) ==>
      ReadEnvelope(m).value.Err? && ReadEnvelope(m).value.code == InvalidInput
      && ReadEnvelope(m).value.message == "filename must not include path separators"
    ensures ReadEnvelope(m).value.Ok? <==> !RejectedFileName(filename) && open(filename).Contents?
    ensures ReadEnvelope(m).value.Ok? ==> ReadEnvelope(m).value.data == map["content" := Str(open(filename).text)]
    ensures !RejectedFileName(filename) && open(filename).NotFound? ==>
      ReadEnvelope(m).value.Err? && ReadEnvelope(m).value.code == ExecutionError
      && ReadEnvelope(m).value.message == "file not found: " + filename
    ensures !RejectedFileName(filename) && open(filename).Failed? ==>
      ReadEnvelope(m).value.Err? && ReadEnvelope(m).value.code == InternalError
      && ReadEnvelope(m).value.message == "unexpected error: " + open(filename).reason
  {
    var rid := ResolveRequestId(requestId, freshId);
    if Strip(filename) == [] then ErrorEnvelope(rid, InvalidInput, "filename cannot be empty", startMs, nowMs)
    else if '/' in filename || '\\' in filename then
      ErrorEnvelope(rid, InvalidInput, "filename must not include path separators", startMs, nowMs)
    else match open(filename)
      case Contents(text) => SuccessEnvelope(rid, map["content" := Str(text)], startMs, nowMs)
      case NotFound => ErrorEnvelope(rid, ExecutionError, "file not found: " + filename, startMs, nowMs)
      case Failed(reason) => ErrorEnvelope(rid, InternalError, "unexpected error: " + reason, startMs, nowMs)
  }

  /** A refused name is answered the same way whatever the file system holds: no file outside
      the working directory, and no file at all, is ever read for it. */
  lemma RejectedNamesNeverReachFiles(filename: string, requestId: Option<string>, freshId: string,
                                     open1: string -> FileOutcome, open2: string -> FileOutcome, startMs: int, nowMs: int)
    requires RejectedFileName(filename)
    ensures FileRead(filename, requestId, freshId, open1, startMs, nowMs) == FileRead(filename, requestId, freshId, open2, startMs, nowMs)
    ensures ReadEnvelope(FileRead(filename, requestId, freshId, open1, startMs, nowMs)).value.Err?
  {
  }

  /** The two canned rows `db_query` answers with. */
  function MockUsers(): (rows: seq<Value>)
    ensures |rows| == 2
    ensures forall k :: 0 <= k < 2 ==>
      rows[k].Obj? && rows[k].fields.Keys == {"id", "name", "status"} && rows[k].fields["id"] == Int(k + 1)
  {
    [Obj(map["id" := Int(1), "name" := Str("User_Alpha"), "status" := Str("active")]),
     Obj(map["id" := Int(2), "name" := Str("User_Beta"), "status" := Str("pending")])]
  }

  /** The `db_query` tool: rejects a blank query, otherwise answers with the canned rows and
      echoes the stripped query. */
  function DbQuery(query: string, requestId: Option<string>, freshId: string, startMs: int, nowMs: int): (m: map<string, Value>)
    ensures ReadEnvelope(m).Some?
    ensures ReadEnvelope(m).value.requestId == ResolveRequestId(requestId, freshId)
    ensures ReadEnvelope(m).value.elapsedMs == nowMs - startMs
    ensures ReadEnvelope(m).value.Err? <==> IsBlank(query)
    ensures ReadEnvelope(m).value.Err? ==>
      ReadEnvelope(m).value.code == InvalidInput && ReadEnvelope(m).value.message == "SQL query cannot be empty"
    ensures ReadEnvelope(m).value.Ok? ==>
      ReadEnvelope(m).value.data == map["results" := Arr(MockUsers()), "query_echo" := Str(Strip(query))]
  {
    var rid := ResolveRequestId(requestId, freshId);
    if Strip(query) == [] then ErrorEnvelope(rid, InvalidInput, "SQL query cannot be empty", startMs, nowMs)
    else SuccessEnvelope(rid, map["results" := Arr(MockUsers()), "query_echo" := Str(Strip(query))], startMs, nowMs)
  }

  /** The echoed query is the caller's text without its surrounding whitespace: non-empty,
      neither starting nor ending with whitespace, and unchanged by padding the request. */
  lemma DbQueryEchoIsStripped(pre: string, query: string, post: string, requestId: Option<string>, freshId: string, startMs: int, nowMs: int)
    requires IsBlank(pre) && IsBlank(post) && !IsBlank(query)
    ensures var e := ReadEnvelope(DbQuery(pre + query + post, requestId, freshId, startMs, nowMs)).value;
      && e.Ok? && e.data["query_echo"].Str?
      && e.data["query_echo"].s == Strip(query)
      && e.data["query_echo"].s != []
      && !IsSpace(e.data["query_echo"].s[0]) && !IsSpace(e.data["query_echo"].s[|e.data["query_echo"].s| - 1])
  {
    StripIgnoresPadding(pre, query, post);
  }
}
