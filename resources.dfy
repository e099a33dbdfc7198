/**
 * `resources/list`, `resources/read`, `resources/templates/list` and the
 * parameter that `resources/subscribe` and `resources/unsubscribe` share.
 */
module Resources {
  import opened Wrappers
  import opened JsonValue
  import opened Text
  import opened Rpc
  import opened IndexEngine
  import Tools

  const StatusUri: string := "adi://status"
  const TreeUri: string := "adi://tree"
  const ConfigUri: string := "adi://config"
  const FilePrefix: string := "adi://file/"
  const SymbolPrefix: string := "adi://symbol/"

  /** Most file resources one listing carries. */
  const MaxListedFiles: nat := 100

  // ------------------------------------------------------------ listing

  /** An `McpResource`, with every optional field present. */
  function Descriptor(uri: string, name: string, description: string, mime: string): (r: Json)
    ensures GetStr(r, "uri") == Some(uri) && GetStr(r, "name") == Some(name)
    ensures GetStr(r, "description") == Some(description) && GetStr(r, "mimeType") == Some(mime)
  {
    Obj(map["uri" := Str(uri), "name" := Str(name), "description" := Str(description), "mimeType" := Str(mime)])
  }

  /** The three virtual resources every listing starts with. */
  const VirtualResources: seq<Json> := [
    Descriptor(StatusUri, "Index Status", "Current indexing status and statistics", "application/json"),
    Descriptor(TreeUri, "Project Tree", "Hierarchical view of all indexed files and symbols", "application/json"),
    Descriptor(ConfigUri, "Configuration", "Current ADI configuration", "application/json")
  ]

  /** The descriptor of one indexed file. */
  function FileResource(f: FileNode, env: Env): (r: Json)
    ensures GetStr(r, "uri") == Some(FilePrefix + f.path)
    ensures GetStr(r, "mimeType") == Some(LanguageToMime(f.language))
  {
    Descriptor(
      FilePrefix + f.path,
      env.fileName(f.path).GetOr(f.path),
      env.languageName(f.language) + " file with " + NatToString(f.symbolCount) + " symbols",
      LanguageToMime(f.language))
  }

  /** A file is listed under its file name, or its whole path when it has none, and described by language and symbol count. */
  lemma FileResourceLabels(f: FileNode, env: Env)
    ensures env.fileName(f.path).Some? ==> GetStr(FileResource(f, env), "name") == env.fileName(f.path)
    ensures env.fileName(f.path).None? ==> GetStr(FileResource(f, env), "name") == Some(f.path)
    ensures GetStr(FileResource(f, env), "description") ==
      Some(env.languageName(f.language) + " file with " + NatToString(f.symbolCount) + " symbols")
  {
  }

  /** The files a listing shows: the first hundred of the tree, or none when the tree cannot be read. */
  function ListedFiles(e: Engine): seq<FileNode> {
    match e.tree
    case Ok(t) => Take(t.files, MaxListedFiles)
    case Err(_) => []
  }

  /** One descriptor per file, in order. */
  function FileEntries(files: seq<FileNode>, env: Env): (r: seq<Json>)
    ensures |r| == |files| && forall i :: 0 <= i < |files| ==> r[i] == FileResource(files[i], env)
  {
    seq(|files|, i requires 0 <= i < |files| => FileResource(files[i], env))
  }

  /** The resource list `handle_resources_list` answers with. */
  function Listing(adi: Option<Engine>, env: Env): (r: Json)
    ensures Get(r, "resources").Some? && Get(r, "resources").value.Arr?
    ensures adi.None? ==> Get(r, "resources").value.items == []
  {
    match adi
    case None => Obj1("resources", Arr([]))
    case Some(e) => Obj1("resources", Arr(VirtualResources + FileEntries(ListedFiles(e), env)))
  }

  /** The three virtual resources, by URI. */
  lemma VirtualResourceUris()
    ensures |VirtualResources| == 3
    ensures GetStr(VirtualResources[0], "uri") == Some(StatusUri)
    ensures GetStr(VirtualResources[1], "uri") == Some(TreeUri)
    ensures GetStr(VirtualResources[2], "uri") == Some(ConfigUri)
  {
  }

  /** Pushing the next file's descriptor extends a listing by that file. */
  lemma PushFileEntry(prefix: seq<Json>, files: seq<FileNode>, i: nat, env: Env)
    requires i < |files|
    ensures prefix + FileEntries(files[..i], env) + [FileResource(files[i], env)] == prefix + FileEntries(files[..i + 1], env)
  {
    assert files[..i + 1][i] == files[i];
    assert FileEntries(files[..i + 1], env) == FileEntries(files[..i], env) + [FileResource(files[i], env)];
  }

  /**
   * Without an engine the list is empty. With one, it opens with the status,
   * tree and config resources, followed by one `adi://file/` entry per listed
   * file, in tree order: at most 103 entries in all.
   */
  lemma ListingShape(adi: Option<Engine>, env: Env)
    ensures adi.None? ==> Listing(adi, env) == Obj1("resources", Arr([]))
    ensures adi.Some? ==>
      var items := Get(Listing(adi, env), "resources").value.items;
      var files := ListedFiles(adi.value);
      && 3 <= |items| == 3 + |files| <= 3 + MaxListedFiles
      && items[..3] == VirtualResources
      && items[3..] == FileEntries(files, env)
  {
    if adi.Some? {
      var items := Get(Listing(adi, env), "resources").value.items;
      assert items == VirtualResources + FileEntries(ListedFiles(adi.value), env);
    }
  }

  // ------------------------------------------------------------ reading

  /** What a resource URI names, in the order `handle_resources_read` tries them. */
  datatype ResourceRef =
    | StatusRes
    | TreeRes
    | ConfigRes
    | FileRes(path: string)
    | SymbolRes(id: int)
    | BadSymbolId
    | UnknownRes

  /**
   * Exact match on the three virtual URIs, then the `adi://file/` prefix, then
   * the `adi://symbol/` prefix whose remainder must parse as an `i64`.
   */
  function Resolve(uri: string): (r: ResourceRef)
    ensures r.StatusRes? <==> uri == StatusUri
    ensures r.TreeRes? <==> uri == TreeUri
    ensures r.ConfigRes? <==> uri == ConfigUri
    ensures r.FileRes? <==> uri !in {StatusUri, TreeUri, ConfigUri} && HasPrefix(uri, FilePrefix)
    ensures r.FileRes? ==> uri == FilePrefix + r.path
    ensures r.SymbolRes? ==>
      && HasPrefix(uri, SymbolPrefix)
      && ParseI64(uri[|SymbolPrefix|..]) == Some(r.id)
    ensures r.BadSymbolId? <==>
      && uri !in {StatusUri, TreeUri, ConfigUri} && !HasPrefix(uri, FilePrefix)
      && HasPrefix(uri, SymbolPrefix) && ParseI64(uri[|SymbolPrefix|..]).None?
    ensures r.UnknownRes? <==>
      uri !in {StatusUri, TreeUri, ConfigUri} && !HasPrefix(uri, FilePrefix) && !HasPrefix(uri, SymbolPrefix)
  {
    if uri == StatusUri then StatusRes
    else if uri == TreeUri then TreeRes
    else if uri == ConfigUri then ConfigRes
    else if HasPrefix(uri, FilePrefix) then FileRes(uri[|FilePrefix|..])
    else if HasPrefix(uri, SymbolPrefix) then
      match ParseI64(uri[|SymbolPrefix|..])
      case Some(id) => SymbolRes(id)
      case None => BadSymbolId
    else UnknownRes
  }

  /** A resource that a URI can name. */
  predicate Nameable(r: ResourceRef) {
    !r.BadSymbolId? && !r.UnknownRes? && (r.SymbolRes? ==> InI64(r.id))
  }

  /** The URI of a resource, as the listing and the templates write it. */
  function UriOf(r: ResourceRef): string
    requires Nameable(r)
  {
    match r
    case StatusRes => StatusUri
    case TreeRes => TreeUri
    case ConfigRes => ConfigUri
    case FileRes(path) => FilePrefix + path
    case SymbolRes(id) => SymbolPrefix + IntToString(id)
  }

  /** Every URI the server writes resolves back to the resource it was written for. */
  lemma ResolveRoundTrip(r: ResourceRef)
    requires Nameable(r)
    ensures Resolve(UriOf(r)) == r
  {
    match r
    case StatusRes =>
    case TreeRes =>
    case ConfigRes =>
    case FileRes(path) =>
      var uri := FilePrefix + path;
      StripPrefixOfConcat(FilePrefix, path);
      assert uri[6] == 'f';
      assert uri !in {StatusUri, TreeUri, ConfigUri};
    case SymbolRes(id) =>
      var uri := SymbolPrefix + IntToString(id);
      StripPrefixOfConcat(SymbolPrefix, IntToString(id));
      assert uri[..|FilePrefix|] != FilePrefix by {
        assert uri[6] == 's';
      }
      ParseI64RoundTrip(id);
  }

  /** An `McpResourceContent` with a MIME type and a text body. */
  function Content(uri: string, mime: string, text: string): (r: Json)
    ensures GetStr(r, "uri") == Some(uri) && GetStr(r, "mimeType") == Some(mime) && GetStr(r, "text") == Some(text)
  {
    Obj(map["uri" := Str(uri), "mimeType" := Str(mime), "text" := Str(text)])
  }

  /** The document shown for a file whose content could be read: its record, its symbols and the content. */
  function FileDocument(info: FileInfo, content: string): (d: Json)
    ensures Get(d, "file") == Some(info.fileJson)
    ensures Get(d, "symbols") == Some(SymbolsJson(info.symbols))
    ensures GetStr(d, "content") == Some(content)
  {
    Obj(map["file" := info.fileJson, "symbols" := SymbolsJson(info.symbols), "content" := Str(content)])
  }

  /**
   * The body of an `adi://file/` resource: the file document in compact form
   * when the file can be read, the engine's file record pretty-printed otherwise.
   */
  function FileBody(e: Engine, path: string, info: FileInfo, env: Env): (body: string)
    ensures env.readFile(e.projectPath, path).Some? ==>
      body == env.compact(FileDocument(info, env.readFile(e.projectPath, path).value))
    ensures env.readFile(e.projectPath, path).None? ==> body == env.pretty(info.json)
  {
    match env.readFile(e.projectPath, path)
    case Some(content) => env.compact(FileDocument(info, content))
    case None => env.pretty(info.json)
  }

  /** The document shown for a symbol: the symbol and its usage, `null` when the usage lookup failed. */
  function SymbolDocument(sym: Symbol, usage: EngineResult<Usage>): (d: Json)
    ensures Get(d, "symbol") == Some(sym.json)
    ensures usage.Ok? ==> Get(d, "usage") == Some(usage.value.json)
    ensures usage.Err? ==> Get(d, "usage") == Some(Null)
  {
    Obj(map["symbol" := sym.json, "usage" := if usage.Ok? then usage.value.json else Null])
  }

  /** The body of an `adi://symbol/` resource: the symbol document, pretty-printed. */
  function SymbolBody(e: Engine, sym: Symbol, id: int, env: Env): (body: string)
    ensures body == env.pretty(SymbolDocument(sym, e.getSymbolUsage(id)))
  {
    env.pretty(SymbolDocument(sym, e.getSymbolUsage(id)))
  }

  /**
   * The content item for a URI, once the engine is known to be open: each
   * resource consults its own engine lookup, and a failed lookup becomes an
   * internal error carrying the engine's message.
   */
  function ReadContent(e: Engine, uri: string, env: Env): (r: Result<Json, RpcError>)
    ensures r.Ok? ==> GetStr(r.value, "uri") == Some(uri)
    ensures Resolve(uri).StatusRes? ==>
      match e.status
      case Ok(st) => r.Ok? && GetStr(r.value, "mimeType") == Some("application/json")
        && GetStr(r.value, "text") == Some(env.pretty(st.json))
      case Err(err) => r == Err(Tools.ToRpcError(err))
    ensures Resolve(uri).TreeRes? ==>
      match e.tree
      case Ok(t) => r.Ok? && GetStr(r.value, "mimeType") == Some("application/json")
        && GetStr(r.value, "text") == Some(env.pretty(t.json))
      case Err(err) => r == Err(Tools.ToRpcError(err))
    ensures Resolve(uri).ConfigRes? ==>
      r.Ok? && GetStr(r.value, "mimeType") == Some("application/json") && GetStr(r.value, "text") == Some(env.pretty(e.config))
    ensures Resolve(uri).FileRes? ==>
      var path := Resolve(uri).path;
      match e.getFile(path)
      case Ok(info) => r.Ok? && GetStr(r.value, "mimeType") == Some(LanguageToMime(info.language))
        && GetStr(r.value, "text") == Some(FileBody(e, path, info, env))
      case Err(err) => r == Err(Tools.ToRpcError(err))
    ensures Resolve(uri).SymbolRes? ==>
      var id := Resolve(uri).id;
      match e.getSymbol(id)
      case Ok(sym) => r.Ok? && GetStr(r.value, "mimeType") == Some("application/json")
        && GetStr(r.value, "text") == Some(SymbolBody(e, sym, id, env))
      case Err(err) => r == Err(Tools.ToRpcError(err))
    ensures Resolve(uri).BadSymbolId? ==> r == Err(InvalidParams("Invalid symbol ID"))
    ensures Resolve(uri).UnknownRes? ==> r == Err(InvalidParams("Unknown resource URI: " + uri))
  {
    match Resolve(uri)
    case StatusRes =>
      (match e.status
       case Ok(st) => Ok(Content(uri, "application/json", env.pretty(st.json)))
       case Err(err) => Err(Tools.ToRpcError(err)))
    case TreeRes =>
      (match e.tree
       case Ok(t) => Ok(Content(uri, "application/json", env.pretty(t.json)))
       case Err(err) => Err(Tools.ToRpcError(err)))
    case ConfigRes => Ok(Content(uri, "application/json", env.pretty(e.config)))
    case FileRes(path) =>
      (match e.getFile(path)
       case Ok(info) => Ok(Content(uri, LanguageToMime(info.language), FileBody(e, path, info, env)))
       case Err(err) => Err(Tools.ToRpcError(err)))
    case SymbolRes(id) =>
      (match e.getSymbol(id)
       case Ok(sym) => Ok(Content(uri, "application/json", SymbolBody(e, sym, id, env)))
       case Err(err) => Err(Tools.ToRpcError(err)))
    case BadSymbolId => Err(InvalidParams("Invalid symbol ID"))
    case UnknownRes => Err(InvalidParams("Unknown resource URI: " + uri))
  }

  /** `handle_resources_read` */
  function ResourcesRead(adi: Option<Engine>, params: Option<Json>, env: Env): (r: Outcome)
    ensures params.None? ==> r == Err(InvalidParams("Missing params"))
    ensures params.Some? && GetStr(params.value, "uri").None? ==> r == Err(InvalidParams("Missing uri parameter"))
    ensures params.Some? && GetStr(params.value, "uri").Some? && adi.None? ==>
      r == Err(InternalError("ADI not initialized"))
    ensures params.Some? && GetStr(params.value, "uri").Some? && adi.Some? ==>
      var uri := GetStr(params.value, "uri").value;
      && (Resolve(uri).UnknownRes? ==> r == Err(InvalidParams("Unknown resource URI: " + uri)))
      && (Resolve(uri).BadSymbolId? ==> r == Err(InvalidParams("Invalid symbol ID")))
      && (Resolve(uri) == ConfigRes ==> r.Ok?)
    ensures r.Err? ==> r.error.code == INVALID_PARAMS || r.error.code == INTERNAL_ERROR
    ensures r.Ok? ==>
      var items := Get(r.value, "contents");
      && items.Some? && items.value.Arr? && |items.value.items| == 1
      && GetStr(items.value.items[0], "uri") == GetStr(params.value, "uri")
    ensures params.Some? && GetStr(params.value, "uri").Some? && adi.Some? ==>
      var content := ReadContent(adi.value, GetStr(params.value, "uri").value, env);
      && (content.Err? ==> r == Err(content.error))
      && (content.Ok? ==> r.Ok? && Get(r.value, "contents") == Some(Arr([content.value])))
  {
    match params
    case None => Err(InvalidParams("Missing params"))
    case Some(p) =>
      match GetStr(p, "uri")
      case None => Err(InvalidParams("Missing uri parameter"))
      case Some(uri) =>
        match adi
        case None => Err(InternalError("ADI not initialized"))
        case Some(e) =>
          match ReadContent(e, uri, env)
          case Ok(c) => Ok(Obj1("contents", Arr([c])))
          case Err(err) => Err(err)
  }

  /** A failed engine lookup behind any resource comes back as an internal error carrying the engine's message. */
  lemma ReadEngineFailure(e: Engine, uri: string, env: Env, err: EngineError)
    requires
      || (Resolve(uri).StatusRes? && e.status == Err(err))
      || (Resolve(uri).TreeRes? && e.tree == Err(err))
      || (Resolve(uri).FileRes? && e.getFile(Resolve(uri).path) == Err(err))
      || (Resolve(uri).SymbolRes? && e.getSymbol(Resolve(uri).id) == Err(err))
    ensures ResourcesRead(Some(e), Some(Obj1("uri", Str(uri))), env) == Err(RpcError(INTERNAL_ERROR, err.message, None))
  {
    assert GetStr(Obj1("uri", Str(uri)), "uri") == Some(uri);
  }

  // ------------------------------------------------------------ templates and subscriptions

  /** A `resourceTemplates` entry; both families read as JSON. */
  function TemplateEntry(uriTemplate: string, name: string, description: string): (r: Json)
    ensures GetStr(r, "uriTemplate") == Some(uriTemplate) && GetStr(r, "name") == Some(name)
    ensures GetStr(r, "mimeType") == Some("application/json")
  {
    Obj(map["uriTemplate" := Str(uriTemplate), "name" := Str(name),
            "description" := Str(description), "mimeType" := Str("application/json")])
  }

  /** `resources/templates/list`: the file family, then the symbol family, under the prefixes `Resolve` accepts. */
  function TemplatesList(): (r: Json)
    ensures Get(r, "resourceTemplates").Some? && Get(r, "resourceTemplates").value.Arr?
    ensures var items := Get(r, "resourceTemplates").value.items;
      && |items| == 2
      && GetStr(items[0], "uriTemplate") == Some(FilePrefix + "{path}")
      && GetStr(items[1], "uriTemplate") == Some(SymbolPrefix + "{id}")
  {
    Obj1("resourceTemplates", Arr([
      TemplateEntry(FilePrefix + "{path}", "Source File", "Access indexed source file with symbols and content"),
      TemplateEntry(SymbolPrefix + "{id}", "Symbol Details", "Get detailed information about a symbol by ID")
    ]))
  }

  /** The `uri` that subscribe and unsubscribe both demand. */
  function SubscriptionUri(params: Option<Json>): (r: Result<string, RpcError>)
    ensures params.None? ==> r == Err(InvalidParams("Missing params"))
    ensures params.Some? ==>
      (r.Ok? <==> GetStr(params.value, "uri").Some?)
      && (r.Ok? ==> r.value == GetStr(params.value, "uri").value)
      && (r.Err? ==> r == Err(InvalidParams("Missing uri parameter")))
  {
    match params
    case None => Err(InvalidParams("Missing params"))
    case Some(p) =>
      match GetStr(p, "uri")
      case None => Err(InvalidParams("Missing uri parameter"))
      case Some(u) => Ok(u)
  }
}
