# adi-mcp request layer, modelled in Dafny

This project models `McpServer`, the Model Context Protocol server of the
`adi-mcp` binary: the JSON-RPC 2.0 envelope, the dispatcher that routes each
method to its handler, the session state it keeps between requests (the open
index engine, the project path and the set of subscribed resource URIs), the
eleven tools, the resources, the seven prompt templates, argument completion,
and the stdio loop of `main` that reads one request per line and writes one
response per non-blank line.

The index engine (`adi_core::Adi`) is a collaborator whose answers the layer
cannot predict. `IndexEngine.Engine` holds each of its operations as a
function to an arbitrary result, and `IndexEngine.Env` holds the rest of the
outside world: opening an engine, reading a file, serde's two renderers,
`Language::as_str`, `Path::file_name`, and the crate version. Every property
below therefore holds for every engine and every environment.

The layer is modelled twice, and the two are connected:

- `Server.Step` is the specification of one request. It is a pure function
  from the session state and the request to the new state and the response.
- `Server.McpServer` is a class whose fields are the session state. Its
  `HandleRequest` method changes those fields in place, and its contract is
  that it does exactly what `Step` does.
- `Framing.Run` is the pure meaning of the stdio loop.
- `Framing.Serve` is the loop itself, proved equal to `Run`.

Behaviour the model follows from the code:

- A request without an `id` is still answered, with a `null` id.
- An `initialize` whose engine fails to open still succeeds, and keeps the
  engine that was open before, if any.
- Unsubscribing from a URI that was never subscribed is not an error.
- The `search` tool clamps its limit into [1, 100]. `search_symbols` and
  `search_files` pass the requested limit on unchanged.

Modules:

| file | module | what it holds |
|---|---|---|
| wrappers.dfy | Wrappers | `Option`, `Result` |
| json.dfy | JsonValue | JSON values and serde_json's accessors |
| text.dfy | Text | `contains`, `strip_prefix`, integer printing and parsing, `join`, `take`, blank lines |
| rpc.dfy | Rpc | requests, responses, error codes |
| engine.dfy | IndexEngine | the engine, the environment, `language_to_mime` |
| tools.dfy | Tools | `tools/list`, `tools/call` |
| resources.dfy | Resources | `resources/list`, `resources/read`, `resources/templates/list`, the subscription parameter |
| prompts.dfy | Prompts | `prompts/list`, `prompts/get` |
| completion.dfy | Completion | `completion/complete` |
| server.dfy | Server | session state, dispatch, the `McpServer` class |
| framing.dfy | Framing | the stdio loop of `main` |

## Model

| member | source | states |
|---|---|---|
| Text.StripPrefix | src/main.rs:156 | `strip_prefix` succeeds exactly when the string starts with the prefix, and the prefix followed by the remainder gives back the string |
| Text.StripPrefixOfConcat | src/main.rs:581 | stripping a prefix from a string built with it gives back the rest |
| Text.ContainsIffOccurs | src/main.rs:1057 | the recursive `contains` holds exactly when the pattern occurs at some position of the string |
| Text.ContainsMiddle | src/main.rs:1057 | a string contains whatever it was built around |
| Text.ContainsInSuffix | src/main.rs:453-460 | a string contains whatever its tail contains |
| Text.ContainsTransitive | src/main.rs:841-876 | a string contains whatever is contained in a string it contains |
| Text.ContainsAllTransitive | src/main.rs:841-876 | every part contained in a string it contains is contained in the outer string |
| Text.PrefixTransitive | src/main.rs:849-864 | a prefix of a prefix of a string is a prefix of that string |
| Text.ConcatContains | src/main.rs:832-1009 | a text assembled from pieces, as `format!` assembles it, contains each of its pieces |
| Text.ConcatStartsWithFirst | src/main.rs:832-1009 | a text assembled from pieces starts with its first piece |
| Text.NatToString | src/main.rs:456-457 | integer formatting yields a non-empty run of decimal digits with no leading zero |
| Text.NatToStringRoundTrip | src/main.rs:456-457 | reading the printed digits back gives the number |
| Text.ParseI64 | src/main.rs:607 | `parse::<i64>` succeeds exactly when the text after an optional sign is a non-empty run of digits whose signed value lies in the `i64` range, and then yields that value |
| Text.Magnitude | src/main.rs:607 | the digits part of a number is the text after an optional leading sign, a suffix of the whole |
| Text.NonDigitRejected | src/main.rs:607-611 | a non-digit anywhere after the first character makes `parse::<i64>` fail |
| Text.ParseI64RoundTrip | src/main.rs:606-611 | every `i64` printed and parsed back is itself |
| Text.Take | src/main.rs:512 | `take(n)` keeps the first `min(len, n)` elements, unchanged |
| Text.Join | src/main.rs:823 | `join` starts with the first part |
| Text.JoinContainsParts | src/main.rs:458 | `join` keeps every part in the joined text |
| Text.JoinContainsAll | src/main.rs:858-862 | `join` keeps all the parts in the joined text |
| Text.TrimStart | src/main.rs:1179 | trimming the front leaves a suffix, drops only whitespace, and the result is empty or starts with a non-whitespace character |
| Text.TrimEnd | src/main.rs:1179 | trimming the back leaves a prefix, drops only whitespace, and the result is empty or ends with a non-whitespace character |
| Text.BlankIffAllWhitespace | src/main.rs:1179 | `line.trim().is_empty()` holds exactly when every character of the line is whitespace |
| Text.SubsequenceEmpty | src/main.rs:1056-1058 | the empty sequence is a subsequence of any sequence |
| Text.SubsequenceSkip | src/main.rs:1056-1058 | dropping a leading element keeps a subsequence a subsequence |
| Text.SubsequenceKeep | src/main.rs:1056-1058 | keeping a leading element in both sequences keeps a subsequence a subsequence |
| JsonValue.AsU64 | src/main.rs:379 | `as_u64` yields a value exactly for integers in [0, 2^64), and then the integer itself |
| JsonValue.AsI64 | src/main.rs:401 | `as_i64` yields a value exactly for integers in the `i64` range, and then the integer itself |
| JsonValue.Get | src/main.rs:360 | `get(key)` yields a value exactly when the value is an object holding the key, and then that field |
| JsonValue.AsStr | src/main.rs:361 | `as_str` yields a value exactly for strings, and then the string itself |
| JsonValue.StrArr | src/main.rs:1090-1095 | an array of strings has one string element per input, in order |
| Rpc.ResponseId | src/main.rs:104 | the response carries the request's id, or `null` when the request had none |
| Rpc.Respond | src/main.rs:137-150 | the response is tagged "2.0" and carries the result on success or the error on failure, never both |
| Rpc.ParseErrorResponse | src/main.rs:1187-1197 | a line that does not decode is answered with code -32700 and a `null` id |
| IndexEngine.SymbolsJson | src/main.rs:388-390 | a list of symbols serialises as an array holding each symbol's serialisation, in order |
| IndexEngine.LanguageToMime | src/main.rs:1118-1144 | every named language maps into the table of 22 MIME types, and only unnamed languages map to `text/plain` |
| IndexEngine.LanguageToMimeInjective | src/main.rs:1118-1144 | no two named languages share a MIME type |
| Tools.ToolsList | src/main.rs:194-350 | the catalogue lists the eleven tools by name, in order |
| Tools.ToolResult | src/main.rs:1109-1116 | a tool result holds exactly one text item, whose text is the one given |
| Tools.IndexSummary | src/main.rs:453-461 | the `index` summary starts with both counts; after them comes exactly the error list, "none" when there were no errors, and every error is contained in it |
| Tools.SummaryLayout | src/main.rs:453-460 | the headline and the error list, put together, start with the file count and give back the error list once the headline is stripped |
| Tools.ListLimit | src/main.rs:387 | the requested limit, or 10 when it is absent |
| Tools.SearchLimit | src/main.rs:379-380 | `search`'s limit lies in [1, 100]: a limit in range is kept, 0 becomes 1, and anything above 100 becomes 100 |
| Tools.RunTool | src/main.rs:376-470 | a name is unknown exactly when it is not in the catalogue; an argument is missing exactly when an id tool lacks an integer `id` or `get_file` lacks a string `path`; otherwise each tool's text is the rendering of its own engine call on its own arguments (`search` with the clamped limit, `index` through the summary) |
| Tools.ToRpcError | src/main.rs:1101-1107 | an engine failure becomes an internal error (-32603) carrying the engine's message |
| Tools.ToolsCall | src/main.rs:352-472 | the checks come in the source's order: params, tool name, engine, then the tool. Each failure has its own message, every error is -32602 or -32603, and every success holds the tool's text |
| Tools.CatalogueMatchesDispatch | src/main.rs:376-470 | "Unknown tool" is the answer exactly for names outside the catalogue |
| Tools.SearchSeesClampedLimit | src/main.rs:377-384 | `search` hands the engine its query and exactly the clamped limit: 0 asks for one result, more than 100 for a hundred, no limit for ten |
| Tools.ListingToolsPassLimitUnclamped | src/main.rs:385-398 | `search_symbols` and `search_files` hand the engine the requested limit unchanged |
| Tools.IdToolFailures | src/main.rs:399-447 | when the engine fails a lookup by id, `get_symbol`, `get_callers`, `get_callees` and `get_symbol_usage` answer with an internal error carrying the engine's message |
| Tools.ProjectToolFailures | src/main.rs:377-465 | when the engine fails, `search`, `get_tree`, `index` and `status` answer with an internal error carrying the engine's message |
| Resources.Descriptor | src/main.rs:487-492 | a resource descriptor carries its uri, name, description and MIME type |
| Resources.FileResource | src/main.rs:512-524 | a file's descriptor has the URI `adi://file/<path>` and the MIME type of its language |
| Resources.FileResourceLabels | src/main.rs:516-522 | the descriptor is named by the file name (the whole path when there is none) and described by the language and the symbol count |
| Resources.FileEntries | src/main.rs:511-525 | one descriptor per file, in tree order |
| Resources.VirtualResourceUris | src/main.rs:486-508 | the listing starts with status, tree and config, in that order |
| Resources.PushFileEntry | src/main.rs:512-524 | pushing the next file's descriptor extends the listing by exactly that file |
| Resources.Listing | src/main.rs:476-531 | the result holds a `resources` array, empty without an engine |
| Resources.ListingShape | src/main.rs:476-531 | without an engine the list is empty. With one, the list is the three virtual resources followed by one entry per listed file, at most 103 entries in all |
| Resources.Resolve | src/main.rs:552-640 | a URI is matched exactly against the three virtual URIs, then by the file prefix, then by the symbol prefix with an `i64` id; each case holds for exactly its URIs |
| Resources.ResolveRoundTrip | src/main.rs:552-640 | every URI the server writes resolves back to the resource it was written for |
| Resources.ReadContent | src/main.rs:552-633 | per resource: status and tree are pretty JSON of the engine's answer, config is the pretty JSON of the engine's configuration, a file has its language's MIME type and the file body, a symbol the symbol body as JSON; engine failures become internal errors, a bad id and an unknown URI their own errors; the content echoes the URI |
| Resources.Content | src/main.rs:597-602 | a content item carries the given URI, MIME type and text |
| Resources.FileDocument | src/main.rs:587-592 | the file document holds the file record, its symbols and the file's text |
| Resources.FileBody | src/main.rs:584-596 | a readable file gives the compact file document, an unreadable one the pretty file record |
| Resources.SymbolDocument | src/main.rs:612-617 | the symbol document holds the symbol and its usage, `null` when the usage lookup failed |
| Resources.SymbolBody | src/main.rs:606-626 | the symbol body is the pretty symbol document for that id |
| Resources.ResourcesRead | src/main.rs:533-640 | the params, uri and engine checks, unknown URIs and bad symbol ids each give their own error. Every error is -32602 or -32603; otherwise the result is exactly the `ReadContent` failure, or a `contents` array holding that one content item |
| Resources.ReadEngineFailure | src/main.rs:552-617 | a failing status, tree, file or symbol lookup comes back from `resources/read` as an internal error with the engine's message |
| Resources.TemplateEntry | src/main.rs:682-693 | a template entry carries its URI template and name, with MIME type `application/json` |
| Resources.TemplatesList | src/main.rs:680-697 | two templates, the file family then the symbol family, under the prefixes `Resolve` accepts |
| Resources.SubscriptionUri | src/main.rs:642-652 | subscribe and unsubscribe demand params and a string `uri`, and fail with the source's messages otherwise |
| Prompts.PromptsList | src/main.rs:701-787 | the catalogue lists the seven templates by name, in order |
| Prompts.PromptDescription | src/main.rs:1146-1157 | the generic description "Prompt" is given exactly to names outside the catalogue |
| Prompts.WithUsage | src/main.rs:845-855 | a symbol is kept, paired with its usage, exactly when the engine reports a usage for it |
| Text.Firsts | src/main.rs:845-855 | the first components of a list of pairs, one per pair, in order |
| Text.FirstsCons | src/main.rs:845-855 | putting a pair in front puts its first component in front |
| Prompts.WithUsageInOrder | src/main.rs:845-847 | the symbols kept come in the order the engine listed them |
| Prompts.TemplateNamed | src/main.rs:810-1019 | a template is found exactly for the catalogued names |
| Prompts.ReviewContext | src/main.rs:815-827 | an unknown file gives "File: <path>" alone; a known one starts with the path and contains its language and its symbols, "name (kind)", joined by commas |
| Prompts.CodeReviewText | src/main.rs:811-840 | the `code_review` text starts with its opening and contains the focus ("general" when none is given), the file header, and the file's text or "[File content not available]" |
| Prompts.Explanation | src/main.rs:849-860 | one explanation starts with the symbol's name and contains its callers' and callees' names, joined by commas |
| Prompts.Explained | src/main.rs:844-847 | at most three symbols are explained: a pair is kept exactly when its symbol is among the first three found by name and the engine reports that usage for it |
| Prompts.Explanations | src/main.rs:849-862 | one explanation per kept symbol, in order |
| Prompts.ExplainContext | src/main.rs:849-864 | no kept symbol gives "No symbol found with name: <name>"; otherwise the text starts with the first kept symbol and contains every kept symbol's explanation |
| Prompts.ExplainSymbolText | src/main.rs:841-876 | the `explain_symbol` text starts with its opening and contains the quoted name and the context of the symbols explained |
| Prompts.FindSimilarText | src/main.rs:877-889 | the `find_similar` text starts with its opening and contains the description it was given |
| Prompts.DependencyLines | src/main.rs:903-905 | one "  - name (file)" line per dependency, in order |
| Prompts.Section | src/main.rs:899-905 | a direction not looked up, or whose lookup failed, reads "(0):" and "N/A"; otherwise it starts with the count and contains every dependency's line |
| Prompts.DependencyInfo | src/main.rs:895-907 | starts with the symbol's name; callers are looked up unless the direction is "callees", callees unless it is "callers", and each side not looked up reads "N/A" |
| Prompts.DependencyContext | src/main.rs:894-915 | only the first symbol found is described; none found gives "No symbol found" |
| Prompts.AnalyzeDependenciesText | src/main.rs:890-921 | the `analyze_dependencies` text starts with its opening and contains the quoted target, the direction ("both" by default) and the dependency information |
| Prompts.SymbolLines | src/main.rs:929-935 | one summary line per symbol, in order, "no documentation" standing in for a missing doc comment |
| Prompts.SummaryLayout | src/main.rs:939-945 | the layout starts with the opening and the path, and contains the language, the symbol summary and the code |
| Prompts.KnownFileSummary | src/main.rs:924-945 | for a file the engine knows, the text contains its language and every symbol's summary line |
| Prompts.SummarizeFileText | src/main.rs:922-951 | the `summarize_file` text starts with its opening and the path; it contains the file's text or "[Content not available]", and the language, "unknown" when the engine does not know the file, and then every symbol's summary line |
| Prompts.RefactorContext | src/main.rs:955-974 | only the first symbol found is described, with its reference, caller and callee counts; no symbol, or no usage for it, gives the hint to search |
| Prompts.RefactorSuggestionsText | src/main.rs:952-979 | the `refactor_suggestions` text starts with its opening and contains the quoted target and its context |
| Prompts.ArchitectureOverviewText | src/main.rs:980-1012 | without a tree the text is the opening and "No index available. Run the 'index' tool first."; with one it contains the file and symbol counts (0 without a status) and the files by language |
| Prompts.TemplateText | src/main.rs:810-1019 | every template's expansion starts with that template's fixed opening |
| Prompts.PromptResult | src/main.rs:1022-1025 | the result carries the description and exactly one user text message, with the given text |
| Prompts.PromptsGet | src/main.rs:789-1026 | checks params, name and engine in order; unknown names are refused with -32602; a success carries the name's description and the template's expansion as its only message |
| Completion.Matching | src/main.rs:1056-1058 | the candidates kept are exactly those containing the typed value |
| Completion.MatchingIsSubsequence | src/main.rs:1056-1058 | the candidates kept are picked from the list at increasing positions, so filtering keeps their order |
| Completion.MatchingEmptyValue | src/main.rs:1073-1086 | with nothing typed, every candidate is kept |
| Completion.FilePaths | src/main.rs:1055-1056 | one path per file, in order |
| Completion.SymbolNames | src/main.rs:1066-1067 | one name per symbol, in order |
| Completion.SourceOf | src/main.rs:1052-1087 | a file path for `ref/resource` and the prompt's `file_path`, symbol names for `symbol_name` and `target`, the fixed choices for `focus` and `direction`, nothing for any other reference |
| Completion.Candidates | src/main.rs:1052-1088 | paths are the first 20 tree paths containing the value, in tree order, and none when the tree fails. Symbol names are those the engine returns when asked for 20, and none when nothing is typed. The focus and direction choices are exactly those containing the value, in order; every other argument gets none |
| Completion.CompletionResult | src/main.rs:1090-1095 | the result lists the values and `hasMore: false` |
| Completion.Complete | src/main.rs:1030-1096 | missing params or ref are refused with -32602; a ref is always answered; without an engine the list is empty, otherwise it lists the candidates |
| Completion.EmptyValueOffersEveryChoice | src/main.rs:1073-1086 | with nothing typed, every focus and direction choice is offered, in order |
| Server.ProjectPathOf | src/main.rs:155-158 | a `file://` URI gives the path after the scheme; anything else is taken as a path as is |
| Server.ProjectPathOfFileUri | src/main.rs:155-158 | a path turned into a `file://` URI comes back unchanged |
| Server.InitializeResult | src/main.rs:171-190 | protocol version "2024-11-05", server info naming `adi-mcp` with the crate version, and capabilities: tool and prompt lists that never change, resources that can be subscribed to and announce list changes |
| Server.NewProjectPath | src/main.rs:154-158 | without a `rootUri` the path is unchanged; a `file://` URI gives the path after the scheme, any other URI is the path itself |
| Server.Initialize | src/main.rs:153-190 | `initialize` always succeeds. It takes the project path from `rootUri`, installs the engine when it opens, keeps the previous engine when it does not, and leaves subscriptions alone |
| Server.Subscribe | src/main.rs:642-659 | a valid `uri` is added to the subscriptions; otherwise the state is unchanged and the error returned |
| Server.Unsubscribe | src/main.rs:661-678 | a valid `uri` is removed from the subscriptions, whether or not it was there; otherwise the state is unchanged |
| Server.SubscribeIdempotent | src/main.rs:653 | subscribing twice is the same as subscribing once |
| Server.UnsubscribeIdempotent | src/main.rs:661-678 | unsubscribing twice is the same as unsubscribing once |
| Server.UnsubscribeUndoesSubscribe | src/main.rs:653-672 | unsubscribing undoes a fresh subscription |
| Server.Answer | src/main.rs:106-134 | each read-only method is answered by its own handler: `initialized` and `ping` with `{}`, the three catalogues with their lists, and `tools/call`, `resources/list`, `resources/read`, `prompts/get` and `completion/complete` by their handlers on the open engine; any other method gets -32601 "Method not found" |
| Server.AnswerErrorCodes | src/main.rs:106-134 | every read-only method fails only with -32602 or -32603 |
| Server.Dispatch | src/main.rs:106-134 | `initialize`, `resources/subscribe` and `resources/unsubscribe` are handled by their own state-changing functions; the read-only methods change nothing and get `Answer`'s answer; an unknown method changes nothing and gets -32601 |
| Server.DispatchFrames | src/main.rs:106-134 | only the subscribe methods change subscriptions, and only `initialize` changes the engine and path |
| Server.DispatchErrorCodes | src/main.rs:106-134 | an error is "Method not found" exactly for unknown methods |
| Server.Step | src/main.rs:103-151 | every request gets one well-formed response with the request's id; an unknown method changes nothing and is the only source of -32601 |
| Server.InitializeAlwaysAnswers | src/main.rs:153-190 | `initialize` answers with its result even when the engine fails to open, and then keeps the old engine |
| Server.DegradedMode | src/main.rs:103-151 | before an engine is open, `ping` and the tool and prompt catalogues still answer, the resource list is empty, calling a tool is the internal error "ADI not initialized. Call initialize first.", and no read-only method changes the session |
| Server.McpServer.constructor | src/main.rs:95-101 | a new server has no engine, the path ".", and no subscriptions |
| Server.McpServer.HandleInitialize | src/main.rs:153-190 | the in-place update matches `Initialize` |
| Server.McpServer.HandleResourcesList | src/main.rs:476-531 | the list built by the loop is the listing `ListingShape` describes |
| Server.McpServer.HandleResourcesSubscribe | src/main.rs:642-659 | the in-place update matches `Subscribe` |
| Server.McpServer.HandleResourcesUnsubscribe | src/main.rs:661-678 | the in-place update matches `Unsubscribe` |
| Server.McpServer.HandleRequest | src/main.rs:103-151 | the new fields and the response are those of `Step` |
| Framing.RunLine | src/main.rs:1177-1211 | a blank line leaves the session and writes nothing; an undecodable line writes its parse error; a request writes the handler's one response and takes its new session |
| Framing.Run | src/main.rs:1176-1212 | exactly one response is written per non-blank line |
| Framing.RunNext | src/main.rs:1176-1212 | reading one more line gives the session that line leaves and the responses so far followed by that line's responses |
| Framing.RunPrefixAt | src/main.rs:1176-1212 | the responses to the lines before a line, then those to that line, begin the responses to all lines |
| Framing.RunExtends | src/main.rs:1176-1212 | reading further lines only appends responses |
| Framing.ParseFailureAnswered | src/main.rs:1185-1201 | a non-blank line that does not decode is answered, in its place, by a parse error |
| Framing.RequestAnswered | src/main.rs:1205-1206 | a decoded request is answered, in its place, by a response carrying its id |
| Framing.RunWellFormed | src/main.rs:1176-1212 | every response written is well formed |
| Framing.ServerAnswers | src/main.rs:103-151 | the server's handler answers every request well, with the request's id |
| Framing.ServeLine | src/main.rs:1177-1211 | one iteration of the loop does what `RunLine` says |
| Framing.Serve | src/main.rs:1170-1212 | the loop over the input lines writes exactly the responses `Run` gives, starting from a new server |

## Left out

- Floating-point JSON numbers: `Json` has integers only. A non-integer `limit` or `id` therefore behaves as absent, as it does for `as_u64` and `as_i64`.
- Tools.ToolsList: states the tools' names and order only. The descriptions and input schemas are constant text the layer never reads back.
- Prompts.PromptsList: states the templates' names and order only, for the same reason.
- The architecture overview's per-language lines come from a `HashMap`, whose iteration order is unspecified. They are a parameter of the environment (`groupByLanguage`).
- serde_json serialisation and parsing: `to_string`, `to_string_pretty` and `from_str` are parameters. A line's decoding is the `Parser` given to `Framing.Serve`. The bytes written to stdout are not modelled.
- I/O errors: `main` stops on a failed read or write through `?`. The model reads a finite list of lines that all arrive.
- Locking, logging and async: the server is shared behind a mutex, but one request is handled at a time, so the model calls it directly. `tracing` output has no effect on responses.
- The engine's own behaviour (indexing, search, storage) is not part of this model. Its answers are arbitrary functions.
- The engine's answers and the file system are fixed for the whole session: an `Engine` is a value, so running the `index` tool does not change what later `status`, `search` or `get_tree` calls return, and `readFile` gives the same text every time. Only `initialize` replaces the engine.
- The crate version compiled in by `env!` is a parameter.
- The `cursor` parameter of `resources/list` is read and ignored by the source. The model does not read it.
- `Path` handling: paths are strings. `to_string_lossy` and `Path::file_name` are the identity and an environment function.
