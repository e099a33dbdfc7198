/**
 * `McpServer`: the session state (the open engine, the project path and the
 * subscribed URIs) and the dispatcher that routes each request to its
 * handler. `Step` is the specification of one request; the class carries
 * the same state in fields and is proved to follow `Step`.
 */
module Server {
  import opened Wrappers
  import opened JsonValue
  import opened Text
  import opened Rpc
  import opened IndexEngine
  import Tools
  import Resources
  import Prompts
  import Completion

  /** The protocol revision `initialize` announces. */
  const ProtocolVersion: string := "2024-11-05"

  /** The methods that only read the session. */
  const ReadOnlyMethods: set<string> := {
    "initialized", "ping", "tools/list", "tools/call", "resources/list", "resources/read",
    "resources/templates/list", "prompts/list", "prompts/get", "completion/complete"
  }

  /** Every method the dispatcher knows. */
  const Methods: set<string> := ReadOnlyMethods + {"initialize", "resources/subscribe", "resources/unsubscribe"}

  /** The fields of an `McpServer`. */
  datatype ServerState = ServerState(adi: Option<Engine>, projectPath: string, subscribed: set<string>)

  /** `McpServer::new`: no engine, the current directory, no subscriptions. */
  const Initial: ServerState := ServerState(None, ".", {})

  // ------------------------------------------------------------ initialize

  /** The project path a root URI names: the URI without its `file://` scheme, or the URI itself. */
  function ProjectPathOf(rootUri: string): (path: string)
    ensures HasPrefix(rootUri, "file://") ==> rootUri == "file://" + path
    ensures !HasPrefix(rootUri, "file://") ==> path == rootUri
  {
    StripPrefix(rootUri, "file://").GetOr(rootUri)
  }

  /** A `file://` URI gives back the path it was made from. */
  lemma ProjectPathOfFileUri(path: string)
    ensures ProjectPathOf("file://" + path) == path
  {
    StripPrefixOfConcat("file://", path);
  }

  /** What `initialize` answers, whatever happened to the engine. */
  function InitializeResult(env: Env): (r: Json)
    ensures GetStr(r, "protocolVersion") == Some(ProtocolVersion)
    ensures Get(r, "serverInfo") == Some(Obj(map["name" := Str("adi-mcp"), "version" := Str(env.serverVersion)]))
    // resources can be subscribed to and announce list changes; the tool and prompt lists never change
    ensures Get(r, "capabilities").Some? && Get(r, "capabilities").value.Obj?
    ensures var caps := Get(r, "capabilities").value;
      && Get(caps, "tools") == Some(Obj1("listChanged", Bool(false)))
      && Get(caps, "prompts") == Some(Obj1("listChanged", Bool(false)))
      && Get(caps, "resources").Some?
      && Get(Get(caps, "resources").value, "subscribe") == Some(Bool(true))
      && Get(Get(caps, "resources").value, "listChanged") == Some(Bool(true))
  {
    Obj(map[
      "protocolVersion" := Str(ProtocolVersion),
      "capabilities" := Obj(map[
        "tools" := Obj1("listChanged", Bool(false)),
        "resources" := Obj(map["subscribe" := Bool(true), "listChanged" := Bool(true)]),
        "prompts" := Obj1("listChanged", Bool(false))]),
      "serverInfo" := Obj(map["name" := Str("adi-mcp"), "version" := Str(env.serverVersion)])])
  }

  /** The project path after `initialize`: taken from `rootUri` when there is one. */
  function NewProjectPath(s: ServerState, params: Option<Json>): (path: string)
    ensures params.None? || GetStr(params.value, "rootUri").None? ==> path == s.projectPath
    ensures params.Some? && GetStr(params.value, "rootUri").Some? ==>
      var rootUri := GetStr(params.value, "rootUri").value;
      && (HasPrefix(rootUri, "file://") ==> rootUri == "file://" + path)
      && (!HasPrefix(rootUri, "file://") ==> path == rootUri)
  {
    if params.Some? && GetStr(params.value, "rootUri").Some? then ProjectPathOf(GetStr(params.value, "rootUri").value)
    else s.projectPath
  }

  /** `handle_initialize` */
  function Initialize(s: ServerState, params: Option<Json>, env: Env): (r: (ServerState, Outcome))
    ensures r.1 == Ok(InitializeResult(env))
    ensures r.0.projectPath == NewProjectPath(s, params)
    ensures env.open(r.0.projectPath).Ok? ==> r.0.adi == Some(env.open(r.0.projectPath).value)
    ensures env.open(r.0.projectPath).Err? ==> r.0.adi == s.adi
    ensures r.0.subscribed == s.subscribed
  {
    var path := NewProjectPath(s, params);
    var adi := match env.open(path)
      case Ok(e) => Some(e)
      case Err(_) => s.adi;
    (s.(projectPath := path, adi := adi), Ok(InitializeResult(env)))
  }

  // ------------------------------------------------------------ subscriptions

  /** `handle_resources_subscribe` */
  function Subscribe(s: ServerState, params: Option<Json>): (r: (ServerState, Outcome))
    ensures Resources.SubscriptionUri(params).Ok? ==>
      r == (s.(subscribed := s.subscribed + {Resources.SubscriptionUri(params).value}), Ok(EmptyObject))
    ensures Resources.SubscriptionUri(params).Err? ==> r == (s, Err(Resources.SubscriptionUri(params).error))
  {
    match Resources.SubscriptionUri(params)
    case Ok(uri) => (s.(subscribed := s.subscribed + {uri}), Ok(EmptyObject))
    case Err(e) => (s, Err(e))
  }

  /** `handle_resources_unsubscribe`: removing a URI that was never subscribed is not an error. */
  function Unsubscribe(s: ServerState, params: Option<Json>): (r: (ServerState, Outcome))
    ensures Resources.SubscriptionUri(params).Ok? ==>
      r == (s.(subscribed := s.subscribed - {Resources.SubscriptionUri(params).value}), Ok(EmptyObject))
    ensures Resources.SubscriptionUri(params).Err? ==> r == (s, Err(Resources.SubscriptionUri(params).error))
  {
    match Resources.SubscriptionUri(params)
    case Ok(uri) => (s.(subscribed := s.subscribed - {uri}), Ok(EmptyObject))
    case Err(e) => (s, Err(e))
  }

  /** Subscribing twice to a URI is the same as subscribing once. */
  lemma SubscribeIdempotent(s: ServerState, params: Option<Json>)
    ensures Subscribe(Subscribe(s, params).0, params) == Subscribe(s, params)
  {
  }

  /** Unsubscribing twice from a URI is the same as unsubscribing once. */
  lemma UnsubscribeIdempotent(s: ServerState, params: Option<Json>)
    ensures Unsubscribe(Unsubscribe(s, params).0, params) == Unsubscribe(s, params)
  {
    if Resources.SubscriptionUri(params).Ok? {
      var uri := Resources.SubscriptionUri(params).value;
      assert s.subscribed - {uri} - {uri} == s.subscribed - {uri};
    }
  }

  /** Unsubscribing undoes a subscription to a URI that was not subscribed before. */
  lemma UnsubscribeUndoesSubscribe(s: ServerState, params: Option<Json>)
    requires Resources.SubscriptionUri(params).Ok? ==> Resources.SubscriptionUri(params).value !in s.subscribed
    ensures Unsubscribe(Subscribe(s, params).0, params).0 == s
  {
    if Resources.SubscriptionUri(params).Ok? {
      var uri := Resources.SubscriptionUri(params).value;
      assert s.subscribed + {uri} - {uri} == s.subscribed;
    }
  }

  // ------------------------------------------------------------ dispatch

  /** The answer of a method that only reads the session. */
  function Answer(s: ServerState, m: string, params: Option<Json>, env: Env): (r: Outcome)
    ensures m !in ReadOnlyMethods ==> r == Err(RpcError(METHOD_NOT_FOUND, "Method not found: " + m, None))
    // each method is answered by its own handler
    ensures m == "initialized" || m == "ping" ==> r == Ok(EmptyObject)
    ensures m == "tools/list" ==> r == Ok(Tools.ToolsList())
    ensures m == "tools/call" ==> r == Tools.ToolsCall(s.adi, params, env)
    ensures m == "resources/list" ==> r == Ok(Resources.Listing(s.adi, env))
    ensures m == "resources/read" ==> r == Resources.ResourcesRead(s.adi, params, env)
    ensures m == "resources/templates/list" ==> r == Ok(Resources.TemplatesList())
    ensures m == "prompts/list" ==> r == Ok(Prompts.PromptsList())
    ensures m == "prompts/get" ==> r == Prompts.PromptsGet(s.adi, params, env)
    ensures m == "completion/complete" ==> r == Completion.Complete(s.adi, params)
  {
    if m == "initialized" || m == "ping" then Ok(EmptyObject)
    else if m == "tools/list" then Ok(Tools.ToolsList())
    else if m == "tools/call" then Tools.ToolsCall(s.adi, params, env)
    else if m == "resources/list" then Ok(Resources.Listing(s.adi, env))
    else if m == "resources/read" then Resources.ResourcesRead(s.adi, params, env)
    else if m == "resources/templates/list" then Ok(Resources.TemplatesList())
    else if m == "prompts/list" then Ok(Prompts.PromptsList())
    else if m == "prompts/get" then Prompts.PromptsGet(s.adi, params, env)
    else if m == "completion/complete" then Completion.Complete(s.adi, params)
    else Err(RpcError(METHOD_NOT_FOUND, "Method not found: " + m, None))
  }

  /** The read-only methods fail only with an invalid-params or an internal error. */
  lemma AnswerErrorCodes(s: ServerState, m: string, params: Option<Json>, env: Env)
    requires m in ReadOnlyMethods
    ensures Answer(s, m, params, env).Err? ==>
      Answer(s, m, params, env).error.code == INVALID_PARAMS || Answer(s, m, params, env).error.code == INTERNAL_ERROR
  {
    var r := Answer(s, m, params, env);
    if m == "tools/call" {
      assert r == Tools.ToolsCall(s.adi, params, env);
    } else if m == "resources/read" {
      assert r == Resources.ResourcesRead(s.adi, params, env);
    } else if m == "prompts/get" {
      assert r == Prompts.PromptsGet(s.adi, params, env);
    } else if m == "completion/complete" {
      assert r == Completion.Complete(s.adi, params);
    } else {
      assert r.Ok?;
    }
  }

  /** The new state and the outcome of one method call. */
  function Dispatch(s: ServerState, m: string, params: Option<Json>, env: Env): (r: (ServerState, Outcome))
    ensures m !in Methods ==> r == (s, Err(RpcError(METHOD_NOT_FOUND, "Method not found: " + m, None)))
    ensures m in ReadOnlyMethods ==> r.0 == s
    // the state-changing methods are handled by their own functions, the others by `Answer`
    ensures m == "initialize" ==> r == Initialize(s, params, env)
    ensures m == "resources/subscribe" ==> r == Subscribe(s, params)
    ensures m == "resources/unsubscribe" ==> r == Unsubscribe(s, params)
    ensures m in ReadOnlyMethods ==> r.1 == Answer(s, m, params, env)
  {
    if m == "initialize" then Initialize(s, params, env)
    else if m == "resources/subscribe" then Subscribe(s, params)
    else if m == "resources/unsubscribe" then Unsubscribe(s, params)
    else if m in ReadOnlyMethods then (s, Answer(s, m, params, env))
    else (s, Err(RpcError(METHOD_NOT_FOUND, "Method not found: " + m, None)))
  }

  /** Only the subscribe methods change the subscriptions; only `initialize` changes the engine and the project path. */
  lemma DispatchFrames(s: ServerState, m: string, params: Option<Json>, env: Env)
    ensures m != "resources/subscribe" && m != "resources/unsubscribe" ==> Dispatch(s, m, params, env).0.subscribed == s.subscribed
    ensures m != "initialize" ==> Dispatch(s, m, params, env).0.adi == s.adi && Dispatch(s, m, params, env).0.projectPath == s.projectPath
  {
    var r := Dispatch(s, m, params, env);
    if m == "initialize" {
      assert r == Initialize(s, params, env);
    } else if m == "resources/subscribe" {
      assert r == Subscribe(s, params);
    } else if m == "resources/unsubscribe" {
      assert r == Unsubscribe(s, params);
    } else {
      assert r.0 == s;
    }
  }

  /** "Method not found" is the error exactly of the methods the dispatcher does not know. */
  lemma DispatchErrorCodes(s: ServerState, m: string, params: Option<Json>, env: Env)
    ensures Dispatch(s, m, params, env).1.Err? ==>
      (Dispatch(s, m, params, env).1.error.code == METHOD_NOT_FOUND <==> m !in Methods)
  {
    var r := Dispatch(s, m, params, env).1;
    if m in ReadOnlyMethods {
      AnswerErrorCodes(s, m, params, env);
      assert r == Answer(s, m, params, env);
    } else if m == "initialize" {
      assert r.Ok?;
    } else if m == "resources/subscribe" {
      assert r == Subscribe(s, params).1;
    } else if m == "resources/unsubscribe" {
      assert r == Unsubscribe(s, params).1;
    }
  }

  /** `handle_request`: one request in, the session after it and one response out. */
  function Step(s: ServerState, req: Request, env: Env): (r: (ServerState, Response))
    ensures WellFormed(r.1) && r.1.id == ResponseId(req)
    ensures req.methodName !in Methods ==> r.0 == s && r.1.error == Some(RpcError(METHOD_NOT_FOUND, "Method not found: " + req.methodName, None))
    ensures r.1.error.Some? ==> (r.1.error.value.code == METHOD_NOT_FOUND <==> req.methodName !in Methods)
  {
    DispatchErrorCodes(s, req.methodName, req.params, env);
    var (s', outcome) := Dispatch(s, req.methodName, req.params, env);
    (s', Respond(ResponseId(req), outcome))
  }

  /** `initialize` always succeeds and a failed open keeps whatever engine was open before. */
  lemma InitializeAlwaysAnswers(s: ServerState, req: Request, env: Env)
    requires req.methodName == "initialize"
    ensures Step(s, req, env).1.result == Some(InitializeResult(env))
    ensures env.open(NewProjectPath(s, req.params)).Err? ==> Step(s, req, env).0.adi == s.adi
  {
  }

  /**
   * Before an engine is open (a new session, or one whose `initialize` failed
   * to open it): the catalogues and `ping` still answer, the resource list is
   * empty, and calling a tool is an internal error.
   */
  lemma DegradedMode(s: ServerState, req: Request, env: Env)
    requires s.adi.None?
    ensures req.methodName == "ping" ==> Step(s, req, env).1.result == Some(EmptyObject)
    ensures req.methodName == "tools/list" ==> Step(s, req, env).1.result == Some(Tools.ToolsList())
    ensures req.methodName == "prompts/list" ==> Step(s, req, env).1.result == Some(Prompts.PromptsList())
    ensures req.methodName == "resources/list" ==>
      Step(s, req, env).1.result.Some? && Get(Step(s, req, env).1.result.value, "resources") == Some(Arr([]))
    ensures req.methodName == "tools/call" && req.params.Some? && GetStr(req.params.value, "name").Some? ==>
      Step(s, req, env).1.error == Some(InternalError("ADI not initialized. Call initialize first."))
    ensures req.methodName in ReadOnlyMethods ==> Step(s, req, env).0 == s
  {
  }

  // ------------------------------------------------------------ the server object

  class McpServer {
    var adi: Option<Engine>
    var projectPath: string
    var subscribedResources: set<string>

    /** The fields, as a value. */
    function State(): ServerState
      reads this
    {
      ServerState(adi, projectPath, subscribedResources)
    }

    /** `McpServer::new` */
    constructor()
      ensures State() == Initial
    {
      adi := None;
      projectPath := ".";
      subscribedResources := {};
    }

    /** `handle_initialize`: takes the project path from `rootUri`, then opens the engine there. */
    method HandleInitialize(params: Option<Json>, env: Env) returns (r: Outcome)
      modifies this
      ensures (State(), r) == Initialize(old(State()), params, env)
    {
      if params.Some? {
        match GetStr(params.value, "rootUri") {
          case Some(rootUri) => projectPath := ProjectPathOf(rootUri);
          case None =>
        }
      }
      match env.open(projectPath) {
        case Ok(e) => adi := Some(e);
        case Err(_) =>
      }
      r := Ok(InitializeResult(env));
    }

    /** `handle_resources_list`: the three virtual resources, then one entry per file, at most a hundred. */
    method HandleResourcesList(env: Env) returns (r: Json)
      ensures r == Resources.Listing(adi, env)
    {
      if adi.None? {
        r := Obj1("resources", Arr([]));
      } else {
        var e := adi.value;
        var files: seq<FileNode> := if e.tree.Ok? then e.tree.value.files else [];
        var resources := Resources.VirtualResources;
        var i := 0;
        while i < |files| && i < Resources.MaxListedFiles
          invariant 0 <= i <= |files| && i <= Resources.MaxListedFiles
          invariant resources == Resources.VirtualResources + Resources.FileEntries(files[..i], env)
        {
          Resources.PushFileEntry(Resources.VirtualResources, files, i, env);
          resources := resources + [Resources.FileResource(files[i], env)];
          i := i + 1;
        }
        assert files[..i] == Resources.ListedFiles(e);
        r := Obj1("resources", Arr(resources));
      }
    }

    /** `handle_resources_subscribe` */
    method HandleResourcesSubscribe(params: Option<Json>) returns (r: Outcome)
      modifies this`subscribedResources
      ensures (State(), r) == Subscribe(old(State()), params)
    {
      var uri := Resources.SubscriptionUri(params);
      if uri.Err? {
        return Err(uri.error);
      }
      subscribedResources := subscribedResources + {uri.value};
      r := Ok(EmptyObject);
    }

    /** `handle_resources_unsubscribe` */
    method HandleResourcesUnsubscribe(params: Option<Json>) returns (r: Outcome)
      modifies this`subscribedResources
      ensures (State(), r) == Unsubscribe(old(State()), params)
    {
      var uri := Resources.SubscriptionUri(params);
      if uri.Err? {
        return Err(uri.error);
      }
      subscribedResources := subscribedResources - {uri.value};
      r := Ok(EmptyObject);
    }

    /** `handle_request` */
    method HandleRequest(req: Request, env: Env) returns (resp: Response)
      modifies this
      ensures (State(), resp) == Step(old(State()), req, env)
    {
      var m := req.methodName;
      var outcome: Outcome;
      if m == "initialize" {
        outcome := HandleInitialize(req.params, env);
      } else if m == "resources/subscribe" {
        outcome := HandleResourcesSubscribe(req.params);
      } else if m == "resources/unsubscribe" {
        outcome := HandleResourcesUnsubscribe(req.params);
      } else if m == "resources/list" {
        var listing := HandleResourcesList(env);
        outcome := Ok(listing);
      } else {
        outcome := Answer(State(), m, req.params, env);
      }
      resp := Respond(ResponseId(req), outcome);
    }
  }
}
