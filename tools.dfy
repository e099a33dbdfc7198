/** `tools/list` and `tools/call`: the eleven tools and how a call reaches the engine. */
module Tools {
  import opened Wrappers
  import opened JsonValue
  import opened Text
  import opened Rpc
  import opened IndexEngine

  /** The names of the catalogued tools, in catalogue order. */
  const ToolNames: seq<string> := [
    "search", "search_symbols", "search_files", "get_symbol", "get_file",
    "get_callers", "get_callees", "get_symbol_usage", "get_tree", "index",
    "status"
  ]

  /** The tools that need an integer `id` argument. */
  const IdTools: set<string> := {"get_symbol", "get_callers", "get_callees", "get_symbol_usage"}

  /** `tools/list`: the catalogue, reduced to the tools' names. */
  function ToolsList(): (r: Json)
    ensures Get(r, "tools").Some? && Get(r, "tools").value.Arr?
    ensures var items := Get(r, "tools").value.items;
      |items| == |ToolNames| && forall i :: 0 <= i < |items| ==> GetStr(items[i], "name") == Some(ToolNames[i])
  {
    Obj1("tools", Arr(seq(|ToolNames|, i requires 0 <= i < |ToolNames| => Obj1("name", Str(ToolNames[i])))))
  }

  /** `tool_result`: a result holding one text content item. */
  function ToolResult(text: string): (r: Json)
    ensures ToolText(r) == Some(text)
  {
    Obj1("content", Arr([Obj(map["type" := Str("text"), "text" := Str(text)])]))
  }

  /** The text a client reads from a result made of a single text content item. */
  function ToolText(v: Json): Option<string> {
    match Get(v, "content")
    case Some(Arr(items)) =>
      if |items| == 1 && GetStr(items[0], "type") == Some("text") then GetStr(items[0], "text") else None
    case _ => None
  }

  /** The part of the `index` summary before the errors: both counts. */
  function IndexHeadline(p: IndexProgress): string {
    "Indexed " + NatToString(p.filesProcessed) + " files with " + NatToString(p.symbolsIndexed) + " symbols. Errors: "
  }

  /** The errors of an indexing run, joined by ", ", or "none". */
  function ErrorList(errors: seq<string>): string {
    if errors == [] then "none" else Join(errors, ", ")
  }

  /** The summary line the `index` tool returns. */
  function IndexSummary(p: IndexProgress): (r: string)
    ensures HasPrefix(r, "Indexed " + NatToString(p.filesProcessed) + " files with ")
    ensures StripPrefix(r, IndexHeadline(p)) == Some(ErrorList(p.errors))
    ensures p.errors == [] ==> Contains(r, "Errors: none")
    ensures forall e <- p.errors :: Contains(r, e)
  {
    SummaryLayout(p);
    IndexHeadline(p) + ErrorList(p.errors)
  }

  lemma SummaryLayout(p: IndexProgress)
    ensures var r := IndexHeadline(p) + ErrorList(p.errors);
      && HasPrefix(r, "Indexed " + NatToString(p.filesProcessed) + " files with ")
      && StripPrefix(r, IndexHeadline(p)) == Some(ErrorList(p.errors))
      && (p.errors == [] ==> Contains(r, "Errors: none"))
      && (forall e <- p.errors :: Contains(r, e))
  {
    var files := "Indexed " + NatToString(p.filesProcessed) + " files with ";
    var counts := NatToString(p.symbolsIndexed) + " symbols. ";
    var head := IndexHeadline(p);
    var tail := ErrorList(p.errors);
    var r := head + tail;
    assert head == files + (counts + "Errors: ");
    assert r == files + (counts + "Errors: " + tail);
    assert r[..|files|] == files;
    StripPrefixOfConcat(head, tail);
    if p.errors == [] {
      assert r == files + counts + "Errors: none" + "";
      ContainsMiddle(files + counts, "Errors: none", "");
    } else {
      forall e <- p.errors ensures Contains(r, e) {
        var k :| 0 <= k < |p.errors| && p.errors[k] == e;
        JoinContainsParts(p.errors, ", ", k);
        ContainsInSuffix(head, tail, e);
      }
    }
  }

  /** `query` argument, the empty string when absent. */
  function Query(args: Json): string {
    GetStr(args, "query").GetOr("")
  }

  /** The `limit` argument when it is an unsigned 64-bit integer, 10 otherwise. */
  function ListLimit(args: Json): (r: nat)
    ensures GetU64(args, "limit").None? ==> r == 10
    ensures GetU64(args, "limit").Some? ==> r == GetU64(args, "limit").value
  {
    GetU64(args, "limit").GetOr(10)
  }

  /** The limit `search` hands the engine: the requested one, clamped into [1, 100]. */
  function SearchLimit(args: Json): (r: nat)
    ensures 1 <= r <= 100
    ensures 1 <= ListLimit(args) <= 100 ==> r == ListLimit(args)
    ensures ListLimit(args) == 0 ==> r == 1
    ensures ListLimit(args) > 100 ==> r == 100
  {
    var l := ListLimit(args);
    if l < 1 then 1 else if l > 100 then 100 else l
  }

  /** How running a named tool against an open engine ends. */
  datatype ToolOutcome =
    | UnknownTool
    | MissingArgument(message: string)
    | Ran(result: EngineResult<string>)

  /** The per-tool part of `handle_tools_call`, once the engine is known to be open. */
  function RunTool(e: Engine, name: string, args: Json, env: Env): (r: ToolOutcome)
    ensures r.UnknownTool? <==> name !in ToolNames
    ensures r.MissingArgument? <==>
      (name in IdTools && GetI64(args, "id").None?) || (name == "get_file" && GetStr(args, "path").None?)
    // which engine operation each tool consults, and that its answer comes back rendered or as the same failure
    ensures name == "search" ==> r == Ran(Render(e.search(Query(args), SearchLimit(args)), env.pretty))
    ensures name == "search_symbols" ==>
      r == Ran(Render(e.searchSymbols(Query(args), ListLimit(args)), (ss: seq<Symbol>) => env.pretty(SymbolsJson(ss))))
    ensures name == "search_files" ==> r == Ran(Render(e.searchFiles(Query(args), ListLimit(args)), env.pretty))
    ensures name in IdTools && GetI64(args, "id").Some? ==>
      var id := GetI64(args, "id").value;
      && (name == "get_symbol" ==> r == Ran(Render(e.getSymbol(id), (s: Symbol) => env.pretty(s.json))))
      && (name == "get_callers" ==> r == Ran(Render(e.getCallers(id), (ss: seq<Symbol>) => env.pretty(SymbolsJson(ss)))))
      && (name == "get_callees" ==> r == Ran(Render(e.getCallees(id), (ss: seq<Symbol>) => env.pretty(SymbolsJson(ss)))))
      && (name == "get_symbol_usage" ==> r == Ran(Render(e.getSymbolUsage(id), (u: Usage) => env.pretty(u.json))))
    ensures name == "get_file" && GetStr(args, "path").Some? ==>
      r == Ran(Render(e.getFile(GetStr(args, "path").value), (f: FileInfo) => env.pretty(f.json)))
    ensures name == "get_tree" ==> r == Ran(Render(e.tree, (t: Tree) => env.pretty(t.json)))
    ensures name == "index" ==> r == Ran(Render(e.index, IndexSummary))
    ensures name == "status" ==> r == Ran(Render(e.status, (s: Status) => env.pretty(s.json)))
  {
    if name == "search" then
      Ran(Render(e.search(Query(args), SearchLimit(args)), env.pretty))
    else if name == "search_symbols" then
      Ran(Render(e.searchSymbols(Query(args), ListLimit(args)), (ss: seq<Symbol>) => env.pretty(SymbolsJson(ss))))
    else if name == "search_files" then
      Ran(Render(e.searchFiles(Query(args), ListLimit(args)), env.pretty))
    else if name in IdTools then
      match GetI64(args, "id")
      case None => MissingArgument("Missing symbol id")
      case Some(id) =>
        if name == "get_symbol" then Ran(Render(e.getSymbol(id), (s: Symbol) => env.pretty(s.json)))
        else if name == "get_callers" then Ran(Render(e.getCallers(id), (ss: seq<Symbol>) => env.pretty(SymbolsJson(ss))))
        else if name == "get_callees" then Ran(Render(e.getCallees(id), (ss: seq<Symbol>) => env.pretty(SymbolsJson(ss))))
        else Ran(Render(e.getSymbolUsage(id), (u: Usage) => env.pretty(u.json)))
    else if name == "get_file" then
      match GetStr(args, "path")
      case None => MissingArgument("Missing file path")
      case Some(path) => Ran(Render(e.getFile(path), (f: FileInfo) => env.pretty(f.json)))
    else if name == "get_tree" then
      Ran(Render(e.tree, (t: Tree) => env.pretty(t.json)))
    else if name == "index" then
      Ran(Render(e.index, IndexSummary))
    else if name == "status" then
      Ran(Render(e.status, (s: Status) => env.pretty(s.json)))
    else
      UnknownTool
  }

  /** `to_rpc_error`: an engine failure as an internal error carrying the engine's message. */
  function ToRpcError(e: EngineError): (r: RpcError)
    ensures r.code == INTERNAL_ERROR && r.message == e.message && r.data.None?
  {
    InternalError(e.message)
  }

  /** `handle_tools_call` */
  function ToolsCall(adi: Option<Engine>, params: Option<Json>, env: Env): (r: Outcome)
    // the checks, each made before the next
    ensures params.None? ==> r == Err(InvalidParams("Missing params"))
    ensures params.Some? && GetStr(params.value, "name").None? ==> r == Err(InvalidParams("Missing tool name"))
    ensures params.Some? && GetStr(params.value, "name").Some? && adi.None? ==>
      r == Err(InternalError("ADI not initialized. Call initialize first."))
    // with an engine and a name, the tool decides
    ensures params.Some? && GetStr(params.value, "name").Some? && adi.Some? ==>
      var name := GetStr(params.value, "name").value;
      var outcome := RunTool(adi.value, name, GetOrEmpty(params.value, "arguments"), env);
      && (outcome.UnknownTool? ==> r == Err(InvalidParams("Unknown tool: " + name)))
      && (outcome.MissingArgument? ==> r == Err(InvalidParams(outcome.message)))
      && (outcome.Ran? && outcome.result.Err? ==> r == Err(RpcError(INTERNAL_ERROR, outcome.result.error.message, None)))
      && (outcome.Ran? && outcome.result.Ok? ==> r == Ok(ToolResult(outcome.result.value)))
    // every failure is an invalid-params or an internal error; every success reads back as text
    ensures r.Err? ==> r.error.code == INVALID_PARAMS || r.error.code == INTERNAL_ERROR
    ensures r.Ok? ==> ToolText(r.value).Some?
  {
    match params
    case None => Err(InvalidParams("Missing params"))
    case Some(p) =>
      match GetStr(p, "name")
      case None => Err(InvalidParams("Missing tool name"))
      case Some(name) =>
        var args := GetOrEmpty(p, "arguments");
        match adi
        case None => Err(InternalError("ADI not initialized. Call initialize first."))
        case Some(e) =>
          match RunTool(e, name, args, env)
          case UnknownTool => Err(InvalidParams("Unknown tool: " + name))
          case MissingArgument(m) => Err(InvalidParams(m))
          case Ran(Err(err)) => Err(ToRpcError(err))
          case Ran(Ok(text)) => Ok(ToolResult(text))
  }

  /** A tool in the catalogue is never answered with "Unknown tool", and any other name always is. */
  lemma CatalogueMatchesDispatch(e: Engine, params: Json, env: Env)
    requires GetStr(params, "name").Some?
    ensures var name := GetStr(params, "name").value;
      ToolsCall(Some(e), Some(params), env) == Err(InvalidParams("Unknown tool: " + name)) <==> name !in ToolNames
  {
  }

  /** `search` hands the engine its query and the limit clamped into [1, 100]: 0 asks for one result, more than 100 for a hundred. */
  lemma SearchSeesClampedLimit(e: Engine, args: Json, env: Env)
    ensures RunTool(e, "search", args, env) == Ran(Render(e.search(Query(args), SearchLimit(args)), env.pretty))
    ensures GetU64(args, "limit") == Some(0) ==> RunTool(e, "search", args, env) == Ran(Render(e.search(Query(args), 1), env.pretty))
    ensures GetU64(args, "limit").Some? && GetU64(args, "limit").value > 100 ==>
      RunTool(e, "search", args, env) == Ran(Render(e.search(Query(args), 100), env.pretty))
    ensures GetU64(args, "limit").None? ==> RunTool(e, "search", args, env) == Ran(Render(e.search(Query(args), 10), env.pretty))
  {
  }

  /** A failing lookup by symbol id is answered with an internal error carrying the engine's message. */
  lemma IdToolFailures(e: Engine, params: Json, env: Env, id: int, err: EngineError)
    requires GetI64(GetOrEmpty(params, "arguments"), "id") == Some(id)
    ensures GetStr(params, "name") == Some("get_symbol") && e.getSymbol(id) == Err(err) ==>
      ToolsCall(Some(e), Some(params), env) == Err(RpcError(INTERNAL_ERROR, err.message, None))
    ensures GetStr(params, "name") == Some("get_callers") && e.getCallers(id) == Err(err) ==>
      ToolsCall(Some(e), Some(params), env) == Err(RpcError(INTERNAL_ERROR, err.message, None))
    ensures GetStr(params, "name") == Some("get_callees") && e.getCallees(id) == Err(err) ==>
      ToolsCall(Some(e), Some(params), env) == Err(RpcError(INTERNAL_ERROR, err.message, None))
    ensures GetStr(params, "name") == Some("get_symbol_usage") && e.getSymbolUsage(id) == Err(err) ==>
      ToolsCall(Some(e), Some(params), env) == Err(RpcError(INTERNAL_ERROR, err.message, None))
  {
  }

  /** A failing project-wide query is answered with an internal error carrying the engine's message. */
  lemma ProjectToolFailures(e: Engine, params: Json, env: Env, err: EngineError)
    ensures var args := GetOrEmpty(params, "arguments");
      GetStr(params, "name") == Some("search") && e.search(Query(args), SearchLimit(args)) == Err(err) ==>
      ToolsCall(Some(e), Some(params), env) == Err(RpcError(INTERNAL_ERROR, err.message, None))
    ensures GetStr(params, "name") == Some("get_tree") && e.tree == Err(err) ==>
      ToolsCall(Some(e), Some(params), env) == Err(RpcError(INTERNAL_ERROR, err.message, None))
    ensures GetStr(params, "name") == Some("index") && e.index == Err(err) ==>
      ToolsCall(Some(e), Some(params), env) == Err(RpcError(INTERNAL_ERROR, err.message, None))
    ensures GetStr(params, "name") == Some("status") && e.status == Err(err) ==>
      ToolsCall(Some(e), Some(params), env) == Err(RpcError(INTERNAL_ERROR, err.message, None))
  {
  }

  /** `search_symbols` and `search_files` hand the engine the requested limit unclamped (10 when absent). */
  lemma ListingToolsPassLimitUnclamped(e: Engine, args: Json, env: Env, n: nat)
    requires GetU64(args, "limit") == Some(n)
    ensures RunTool(e, "search_symbols", args, env)
      == Ran(Render(e.searchSymbols(Query(args), n), (ss: seq<Symbol>) => env.pretty(SymbolsJson(ss))))
    ensures RunTool(e, "search_files", args, env) == Ran(Render(e.searchFiles(Query(args), n), env.pretty))
  {
  }
}
