/**
 * `prompts/list` and `prompts/get`: seven named templates, each expanded into
 * a single user message built from what the engine reports.
 */
module Prompts {
  import opened Wrappers
  import opened JsonValue
  import opened Text
  import opened Rpc
  import opened IndexEngine

  /** The names of the catalogued prompt templates, in catalogue order. */
  const PromptNames: seq<string> := [
    "code_review", "explain_symbol", "find_similar", "analyze_dependencies",
    "summarize_file", "refactor_suggestions", "architecture_overview"
  ]

  /** `prompts/list`: the catalogue, reduced to the templates' names. */
  function PromptsList(): (r: Json)
    ensures Get(r, "prompts").Some? && Get(r, "prompts").value.Arr?
    ensures var items := Get(r, "prompts").value.items;
      |items| == |PromptNames| && forall i :: 0 <= i < |items| ==> GetStr(items[i], "name") == Some(PromptNames[i])
  {
    Obj1("prompts", Arr(seq(|PromptNames|, i requires 0 <= i < |PromptNames| => Obj1("name", Str(PromptNames[i])))))
  }

  /** `get_prompt_description` */
  function PromptDescription(name: string): (r: string)
    ensures r == "Prompt" <==> name !in PromptNames
  {
    if name == "code_review" then "Code review with focus on quality, bugs, and improvements"
    else if name == "explain_symbol" then "Explanation of symbol purpose and usage"
    else if name == "find_similar" then "Search for similar code patterns"
    else if name == "analyze_dependencies" then "Dependency graph analysis"
    else if name == "summarize_file" then "File purpose and content summary"
    else if name == "refactor_suggestions" then "Refactoring recommendations"
    else if name == "architecture_overview" then "Project architecture overview"
    else "Prompt"
  }

  /** A string argument, or the template's default when absent or not a string. */
  function Arg(args: Json, key: string, default: string): string {
    GetStr(args, key).GetOr(default)
  }

  /** A lookup that failed counts as finding nothing (`unwrap_or_default`). */
  function SymbolsOrNone(r: EngineResult<seq<Symbol>>): seq<Symbol> {
    match r
    case Ok(ss) => ss
    case Err(_) => []
  }

  function Names(ss: seq<Symbol>): seq<string> {
    seq(|ss|, i requires 0 <= i < |ss| => ss[i].name)
  }

  /** "name (kind)" for each symbol. */
  function Labels(ss: seq<Symbol>): seq<string> {
    seq(|ss|, i requires 0 <= i < |ss| => ss[i].name + " (" + ss[i].kind + ")")
  }

  // ------------------------------------------------------------ code_review

  /** The file header of a `code_review` prompt: the path, then the language and symbols when the engine knows the file. */
  function ReviewContext(e: Engine, filePath: string, env: Env): (r: string)
    ensures e.getFile(filePath).Err? ==> r == "File: " + filePath
    ensures e.getFile(filePath).Ok? ==>
      var info := e.getFile(filePath).value;
      && HasPrefix(r, "File: " + filePath)
      && Contains(r, "\nLanguage: " + env.languageName(info.language))
      && Contains(r, "\nSymbols: " + Join(Labels(info.symbols), ", "))
  {
    match e.getFile(filePath)
    case Ok(info) => (
      var pieces := ["File: " + filePath, "\nLanguage: " + env.languageName(info.language),
                     "\nSymbols: " + Join(Labels(info.symbols), ", "), "\n"];
      ConcatStartsWithFirst(pieces);
      ConcatContains(pieces, 1);
      ConcatContains(pieces, 2);
      Concat(pieces))
    case Err(_) => "File: " + filePath
  }

  /**
   * The `code_review` prompt: the focus ("general" when none is given), the
   * file header, and the file's text or a placeholder when it cannot be read.
   */
  function CodeReviewText(e: Engine, args: Json, env: Env): (r: string)
    ensures HasPrefix(r, Opening(CodeReview))
    ensures Contains(r, Arg(args, "focus", "general"))
    ensures Contains(r, ReviewContext(e, Arg(args, "file_path", ""), env))
    ensures Contains(r, env.readFile(e.projectPath, Arg(args, "file_path", "")).GetOr("[File content not available]"))
  {
    var filePath := Arg(args, "file_path", "");
    var content := env.readFile(e.projectPath, filePath).GetOr("[File content not available]");
    var pieces := [Opening(CodeReview), Arg(args, "focus", "general"), ".\n\n", ReviewContext(e, filePath, env),
                   "\n\nCode:\n```\n", content, "\n```\n\nProvide specific, actionable feedback."];
    ConcatStartsWithFirst(pieces);
    ConcatContains(pieces, 1);
    ConcatContains(pieces, 3);
    ConcatContains(pieces, 5);
    Concat(pieces)
  }

  // ------------------------------------------------------------ explain_symbol

  /**
   * The symbols whose usage the engine can report, each paired with that
   * usage; the others are dropped.
   */
  function WithUsage(e: Engine, ss: seq<Symbol>): (r: seq<(Symbol, Usage)>)
    ensures |r| <= |ss|
    ensures forall p :: p in r <==> p.0 in ss && e.getSymbolUsage(p.0.id) == Ok(p.1)
  {
    if ss == [] then []
    else
      assert ss == [ss[0]] + ss[1..];
      var head := match e.getSymbolUsage(ss[0].id)
        case Ok(u) => [(ss[0], u)]
        case Err(_) => [];
      head + WithUsage(e, ss[1..])
  }

  /** The symbols kept stay in the engine's order. */
  lemma {:induction false} WithUsageInOrder(e: Engine, ss: seq<Symbol>)
    ensures IsSubsequence(Firsts(WithUsage(e, ss)), ss)
  {
    if ss == [] {
      SubsequenceEmpty(ss);
    } else {
      var rest := ss[1..];
      assert ss == [ss[0]] + rest;
      WithUsageInOrder(e, rest);
      var kept := WithUsage(e, rest);
      if e.getSymbolUsage(ss[0].id).Ok? {
        var u := e.getSymbolUsage(ss[0].id).value;
        assert WithUsage(e, ss) == [(ss[0], u)] + kept;
        FirstsCons((ss[0], u), kept);
        SubsequenceKeep(ss[0], Firsts(kept), rest);
      } else {
        assert WithUsage(e, ss) == kept;
        SubsequenceSkip(ss[0], Firsts(kept), rest);
      }
    }
  }

  /** One explained symbol: where it is, its signature and documentation, and who it calls and is called by. */
  function Explanation(s: Symbol, u: Usage): (r: string)
    ensures HasPrefix(r, "Symbol: " + s.name)
    ensures Contains(r, "\nCallers: " + Join(Names(u.callers), ", "))
    ensures Contains(r, "\nCallees: " + Join(Names(u.callees), ", "))
  {
    var pieces := ["Symbol: " + s.name, " (" + s.kind + ")\nFile: " + s.filePath,
                   "\nSignature: " + s.signature.GetOr("N/A"), "\nDoc: " + s.docComment.GetOr("N/A"),
                   "\nCallers: " + Join(Names(u.callers), ", "), "\nCallees: " + Join(Names(u.callees), ", ")];
    ConcatStartsWithFirst(pieces);
    ConcatContains(pieces, 4);
    ConcatContains(pieces, 5);
    Concat(pieces)
  }

  /** The symbols `explain_symbol` explains: of the first three found by name, those whose usage the engine reports. */
  function Explained(e: Engine, symbolName: string): (r: seq<(Symbol, Usage)>)
    ensures |r| <= 3
    ensures forall p :: p in r <==>
      p.0 in Take(SymbolsOrNone(e.findSymbolsByName(symbolName)), 3) && e.getSymbolUsage(p.0.id) == Ok(p.1)
  {
    WithUsage(e, Take(SymbolsOrNone(e.findSymbolsByName(symbolName)), 3))
  }

  /** The explanations of the kept symbols, one per symbol. */
  function Explanations(kept: seq<(Symbol, Usage)>): (r: seq<string>)
    ensures |r| == |kept| && forall i :: 0 <= i < |kept| ==> r[i] == Explanation(kept[i].0, kept[i].1)
  {
    seq(|kept|, i requires 0 <= i < |kept| => Explanation(kept[i].0, kept[i].1))
  }

  /** The explanations of the kept symbols, or a not-found line when there are none. */
  function ExplainContext(kept: seq<(Symbol, Usage)>, symbolName: string): (r: string)
    ensures kept == [] ==> r == "No symbol found with name: " + symbolName
    ensures kept != [] ==>
      && HasPrefix(r, "Symbol: " + kept[0].0.name)
      && forall i :: 0 <= i < |kept| ==> Contains(r, Explanation(kept[i].0, kept[i].1))
  {
    if kept != [] then
      var parts := Explanations(kept);
      JoinContainsAll(parts, "\n\n---\n\n");
      PrefixTransitive(Join(parts, "\n\n---\n\n"), parts[0], "Symbol: " + kept[0].0.name);
      Join(parts, "\n\n---\n\n")
    else "No symbol found with name: " + symbolName
  }

  /** The `explain_symbol` prompt: the quoted name, then what the index knows about it. */
  function ExplainSymbolText(e: Engine, args: Json): (r: string)
    ensures HasPrefix(r, Opening(ExplainSymbol))
    ensures Contains(r, "'" + Arg(args, "symbol_name", "") + "'")
    ensures Contains(r, ExplainContext(Explained(e, Arg(args, "symbol_name", "")), Arg(args, "symbol_name", "")))
  {
    var symbolName := Arg(args, "symbol_name", "");
    var pieces := [Opening(ExplainSymbol), "'" + symbolName + "'",
                   " does and how it's used in this codebase.\n\nContext from code index:\n", ExplainContext(Explained(e, symbolName), symbolName)];
    ConcatStartsWithFirst(pieces);
    ConcatContains(pieces, 1);
    ConcatContains(pieces, 3);
    Concat(pieces)
  }

  // ------------------------------------------------------------ find_similar

  /** The `find_similar` prompt: the description, then a hint to search. */
  function FindSimilarText(args: Json): (r: string)
    ensures HasPrefix(r, Opening(FindSimilar))
    ensures Contains(r, Arg(args, "description", ""))
  {
    var pieces := [Opening(FindSimilar), Arg(args, "description", ""),
                   "\n\nUse the 'search' tool with semantic search to find relevant symbols, then analyze them."];
    ConcatStartsWithFirst(pieces);
    ConcatContains(pieces, 1);
    Concat(pieces)
  }

  // ------------------------------------------------------------ analyze_dependencies

  /** One line of a dependency list: the symbol's name and file. */
  function DependencyLine(d: Symbol): string {
    "  - " + d.name + " (" + d.filePath + ")"
  }

  /** The lines of a dependency list, one per symbol. */
  function DependencyLines(ds: seq<Symbol>): (r: seq<string>)
    ensures |r| == |ds| && forall k :: 0 <= k < |ds| ==> r[k] == DependencyLine(ds[k])
  {
    seq(|ds|, k requires 0 <= k < |ds| => DependencyLine(ds[k]))
  }

  /**
   * One direction of the dependency information: the count and one line per
   * symbol, or a count of 0 and "N/A" when it was not looked up or the lookup failed.
   */
  function Section(heading: string, deps: Option<seq<Symbol>>): (r: string)
    ensures deps.None? ==> r == heading + " (0):\nN/A"
    ensures deps.Some? ==>
      && HasPrefix(r, heading + " (" + NatToString(|deps.value|) + "):\n")
      && forall k :: 0 <= k < |deps.value| ==> Contains(r, DependencyLine(deps.value[k]))
  {
    match deps
    case None => heading + " (0):\nN/A"
    case Some(ds) =>
      var head := heading + " (" + NatToString(|ds|) + "):\n";
      var lines := DependencyLines(ds);
      JoinContainsAll(lines, "\n");
      ContainsMiddle(head, Join(lines, "\n"), "");
      assert head + Join(lines, "\n") + "" == head + Join(lines, "\n");
      ContainsAllTransitive(head + Join(lines, "\n"), Join(lines, "\n"), lines);
      assert (head + Join(lines, "\n"))[..|head|] == head;
      head + Join(lines, "\n")
  }

  function OkOrNone<T>(r: EngineResult<T>): Option<T> {
    match r
    case Ok(v) => Some(v)
    case Err(_) => None
  }

  /** One symbol with its dependencies: callers are looked up unless the direction is "callees", callees unless it is "callers". */
  function DependencyInfo(e: Engine, s: Symbol, direction: string): (r: string)
    ensures HasPrefix(r, "Symbol: " + s.name)
    ensures direction == "callees" ==> Contains(r, Section("Callers", None))
    ensures direction != "callees" ==> Contains(r, Section("Callers", OkOrNone(e.getCallers(s.id))))
    ensures direction == "callers" ==> Contains(r, Section("Callees", None))
    ensures direction != "callers" ==> Contains(r, Section("Callees", OkOrNone(e.getCallees(s.id))))
  {
    var callers := if direction != "callees" then OkOrNone(e.getCallers(s.id)) else None;
    var callees := if direction != "callers" then OkOrNone(e.getCallees(s.id)) else None;
    var pieces := ["Symbol: " + s.name, " (" + s.kind + ")\nFile: " + s.filePath + "\n",
                   Section("Callers", callers), "\n\n", Section("Callees", callees)];
    ConcatStartsWithFirst(pieces);
    ConcatContains(pieces, 2);
    ConcatContains(pieces, 4);
    Concat(pieces)
  }

  /** The first symbol of that name with its dependencies, or "No symbol found". */
  function DependencyContext(e: Engine, target: string, direction: string): (r: string)
    ensures SymbolsOrNone(e.findSymbolsByName(target)) == [] ==> r == "No symbol found"
    ensures var found := SymbolsOrNone(e.findSymbolsByName(target));
      found != [] ==> r == DependencyInfo(e, found[0], direction)
  {
    var symbols := SymbolsOrNone(e.findSymbolsByName(target));
    var info := if symbols == [] then "" else DependencyInfo(e, symbols[0], direction);
    if info == "" then "No symbol found" else info
  }

  /** The `analyze_dependencies` prompt: the quoted target, the direction ("both" by default) and the dependencies found. */
  function AnalyzeDependenciesText(e: Engine, args: Json): (r: string)
    ensures HasPrefix(r, Opening(AnalyzeDependencies))
    ensures Contains(r, "'" + Arg(args, "target", "") + "'")
    ensures Contains(r, Arg(args, "direction", "both"))
    ensures Contains(r, DependencyContext(e, Arg(args, "target", ""), Arg(args, "direction", "both")))
  {
    var target := Arg(args, "target", "");
    var direction := Arg(args, "direction", "both");
    var pieces := [Opening(AnalyzeDependencies), "'" + target + "'", " (direction: ", direction,
                   ").\n\nDependency Information:\n", DependencyContext(e, target, direction)];
    ConcatStartsWithFirst(pieces);
    ConcatContains(pieces, 1);
    ConcatContains(pieces, 3);
    ConcatContains(pieces, 5);
    Concat(pieces)
  }

  // ------------------------------------------------------------ summarize_file

  /** One line of a file's symbol summary: "no documentation" stands in for a missing doc comment. */
  function SymbolSummary(s: Symbol): string {
    "- " + s.name + " (" + s.kind + "): " + s.docComment.GetOr("no documentation")
  }

  /** The summary lines of a file's symbols, one per symbol. */
  function SymbolLines(ss: seq<Symbol>): (r: seq<string>)
    ensures |r| == |ss| && forall k :: 0 <= k < |ss| ==> r[k] == SymbolSummary(ss[k])
  {
    seq(|ss|, k requires 0 <= k < |ss| => SymbolSummary(ss[k]))
  }

  /** The layout of a `summarize_file` prompt around its four variable parts. */
  function SummaryLayout(filePath: string, language: string, summary: string, content: string): (r: string)
    ensures HasPrefix(r, Opening(SummarizeFile) + filePath) && HasPrefix(r, Opening(SummarizeFile))
    ensures Contains(r, "\nLanguage: " + language) && Contains(r, summary) && Contains(r, content)
  {
    var pieces := [Opening(SummarizeFile) + filePath, "\nLanguage: " + language, "\n\nSymbols:\n", summary,
                   "\n\nCode:\n```\n", content, "\n```"];
    ConcatStartsWithFirst(pieces);
    PrefixTransitive(Concat(pieces), pieces[0], Opening(SummarizeFile));
    ConcatContains(pieces, 1);
    ConcatContains(pieces, 3);
    ConcatContains(pieces, 5);
    Concat(pieces)
  }

  /** The `summarize_file` prompt for a file the engine knows: its language and one line per symbol. */
  function KnownFileSummary(filePath: string, info: FileInfo, env: Env, content: string): (r: string)
    ensures HasPrefix(r, Opening(SummarizeFile) + filePath) && HasPrefix(r, Opening(SummarizeFile))
    ensures Contains(r, content)
    ensures Contains(r, "\nLanguage: " + env.languageName(info.language))
    ensures forall k :: 0 <= k < |info.symbols| ==> Contains(r, SymbolSummary(info.symbols[k]))
  {
    var lines := SymbolLines(info.symbols);
    var text := SummaryLayout(filePath, env.languageName(info.language), Join(lines, "\n"), content);
    JoinContainsAll(lines, "\n");
    ContainsAllTransitive(text, Join(lines, "\n"), lines);
    text
  }

  /**
   * The `summarize_file` prompt: the path, the language ("unknown" when the
   * engine does not know the file), one line per symbol, and the file's text
   * or a placeholder when it cannot be read.
   */
  function SummarizeFileText(e: Engine, args: Json, env: Env): (r: string)
    ensures HasPrefix(r, Opening(SummarizeFile) + Arg(args, "file_path", ""))
    ensures HasPrefix(r, Opening(SummarizeFile))
    ensures Contains(r, env.readFile(e.projectPath, Arg(args, "file_path", "")).GetOr("[Content not available]"))
    ensures e.getFile(Arg(args, "file_path", "")).Err? ==> Contains(r, "\nLanguage: unknown")
    ensures e.getFile(Arg(args, "file_path", "")).Ok? ==>
      var info := e.getFile(Arg(args, "file_path", "")).value;
      && Contains(r, "\nLanguage: " + env.languageName(info.language))
      && forall k :: 0 <= k < |info.symbols| ==> Contains(r, SymbolSummary(info.symbols[k]))
  {
    var filePath := Arg(args, "file_path", "");
    var content := env.readFile(e.projectPath, filePath).GetOr("[Content not available]");
    match e.getFile(filePath)
    case Ok(info) => KnownFileSummary(filePath, info, env, content)
    case Err(_) =>
      assert "\nLanguage: " + "unknown" == "\nLanguage: unknown";
      SummaryLayout(filePath, "unknown", "", content)
  }

  // ------------------------------------------------------------ refactor_suggestions

  /** The first symbol of that name with its reference counts, or a hint to search when there is none or its usage is unknown. */
  function RefactorContext(e: Engine, target: string): (r: string)
    ensures var found := SymbolsOrNone(e.findSymbolsByName(target));
      found == [] || e.getSymbolUsage(found[0].id).Err? ==> r == "No symbol found. Try searching with the 'search' tool."
    ensures var found := SymbolsOrNone(e.findSymbolsByName(target));
      found != [] && e.getSymbolUsage(found[0].id).Ok? ==>
        var u := e.getSymbolUsage(found[0].id).value;
        && HasPrefix(r, "Symbol: " + found[0].name)
        && Contains(r, "\nReferences: " + NatToString(u.referenceCount))
        && Contains(r, "\nCallers: " + NatToString(|u.callers|))
        && Contains(r, "\nCallees: " + NatToString(|u.callees|))
  {
    var symbols := SymbolsOrNone(e.findSymbolsByName(target));
    var context :=
      if symbols == [] then ""
      else match e.getSymbolUsage(symbols[0].id)
        case Ok(u) => (
          var pieces := ["Symbol: " + symbols[0].name, " (" + symbols[0].kind + ")\nFile: " + symbols[0].filePath,
                         "\nReferences: " + NatToString(u.referenceCount), "\nCallers: " + NatToString(|u.callers|),
                         "\nCallees: " + NatToString(|u.callees|)];
          ConcatStartsWithFirst(pieces);
          ConcatContains(pieces, 2);
          ConcatContains(pieces, 3);
          ConcatContains(pieces, 4);
          Concat(pieces))
        case Err(_) => "";
    if context == "" then "No symbol found. Try searching with the 'search' tool." else context
  }

  /** The `refactor_suggestions` prompt: the quoted target, then its context. */
  function RefactorSuggestionsText(e: Engine, args: Json): (r: string)
    ensures HasPrefix(r, Opening(RefactorSuggestions))
    ensures Contains(r, "'" + Arg(args, "target", "") + "'")
    ensures Contains(r, RefactorContext(e, Arg(args, "target", "")))
  {
    var target := Arg(args, "target", "");
    var pieces := [Opening(RefactorSuggestions), "'" + target + "'", ".\n\nContext:\n", RefactorContext(e, target)];
    ConcatStartsWithFirst(pieces);
    ConcatContains(pieces, 1);
    ConcatContains(pieces, 3);
    Concat(pieces)
  }

  // ------------------------------------------------------------ architecture_overview

  /**
   * The `architecture_overview` prompt: the file and symbol counts (0 when the
   * status is unknown) and the files by language, or a hint to index when
   * there is no tree.
   */
  function ArchitectureOverviewText(e: Engine, env: Env): (r: string)
    ensures HasPrefix(r, Opening(ArchitectureOverview))
    ensures e.tree.Err? ==> r == Opening(ArchitectureOverview) + "No index available. Run the 'index' tool first."
    ensures e.tree.Ok? ==>
      && Contains(r, "- Total files: " + NatToString(if e.status.Ok? then e.status.value.indexedFiles else 0))
      && Contains(r, "\n- Total symbols: " + NatToString(if e.status.Ok? then e.status.value.indexedSymbols else 0))
      && Contains(r, env.groupByLanguage(e.tree.value.files))
  {
    var status := OkOrNone(e.status);
    var overview := match e.tree
      case Ok(t) => (
        var pieces := ["Project Statistics:\n", "- Total files: " + NatToString(if status.Some? then status.value.indexedFiles else 0),
                       "\n- Total symbols: " + NatToString(if status.Some? then status.value.indexedSymbols else 0),
                       "\n\nFiles by language:\n", env.groupByLanguage(t.files)];
        ConcatContains(pieces, 1);
        ConcatContains(pieces, 2);
        ConcatContains(pieces, 4);
        ContainsInSuffix(Opening(ArchitectureOverview), Concat(pieces), pieces[1]);
        ContainsInSuffix(Opening(ArchitectureOverview), Concat(pieces), pieces[2]);
        ContainsInSuffix(Opening(ArchitectureOverview), Concat(pieces), pieces[4]);
        Concat(pieces))
      case Err(_) => "No index available. Run the 'index' tool first.";
    assert (Opening(ArchitectureOverview) + overview)[..|Opening(ArchitectureOverview)|] == Opening(ArchitectureOverview);
    Opening(ArchitectureOverview) + overview
  }

  // ------------------------------------------------------------ prompts/get

  /** The seven templates. */
  datatype Template =
    | CodeReview | ExplainSymbol | FindSimilar | AnalyzeDependencies
    | SummarizeFile | RefactorSuggestions | ArchitectureOverview

  /** The template a name selects, if any. */
  function TemplateNamed(name: string): (r: Option<Template>)
    ensures r.Some? <==> name in PromptNames
  {
    if name == "code_review" then Some(CodeReview)
    else if name == "explain_symbol" then Some(ExplainSymbol)
    else if name == "find_similar" then Some(FindSimilar)
    else if name == "analyze_dependencies" then Some(AnalyzeDependencies)
    else if name == "summarize_file" then Some(SummarizeFile)
    else if name == "refactor_suggestions" then Some(RefactorSuggestions)
    else if name == "architecture_overview" then Some(ArchitectureOverview)
    else None
  }

  /** The fixed words each template's text starts with. */
  function Opening(t: Template): string {
    match t
    case CodeReview => "Please review the following code with a focus on "
    case ExplainSymbol => "Please explain what "
    case FindSimilar => "Find code in this codebase that is similar to or implements: "
    case AnalyzeDependencies => "Analyze the dependency graph for "
    case SummarizeFile => "Please summarize the purpose and contents of this file.\n\nFile: "
    case RefactorSuggestions => "Suggest refactoring opportunities for "
    case ArchitectureOverview => "Generate an architecture overview for this project based on the indexed structure.\n\n"
  }

  /** The text a template expands to; it starts with that template's opening. */
  function TemplateText(t: Template, e: Engine, args: Json, env: Env): (r: string)
    ensures HasPrefix(r, Opening(t))
  {
    match t
    case CodeReview => CodeReviewText(e, args, env)
    case ExplainSymbol => ExplainSymbolText(e, args)
    case FindSimilar => FindSimilarText(args)
    case AnalyzeDependencies => AnalyzeDependenciesText(e, args)
    case SummarizeFile => SummarizeFileText(e, args, env)
    case RefactorSuggestions => RefactorSuggestionsText(e, args)
    case ArchitectureOverview => ArchitectureOverviewText(e, env)
  }

  /** One user-role message with a text content item. */
  function UserMessage(text: string): Json {
    Obj(map["role" := Str("user"), "content" := Obj(map["type" := Str("text"), "text" := Str(text)])])
  }

  /** The text of a result holding exactly one user-role text message. */
  function MessageText(v: Json): Option<string> {
    match Get(v, "messages")
    case Some(Arr(ms)) =>
      if |ms| == 1 && GetStr(ms[0], "role") == Some("user") then
        match Get(ms[0], "content")
        case Some(c) => if GetStr(c, "type") == Some("text") then GetStr(c, "text") else None
        case None => None
      else None
    case _ => None
  }

  /** The `prompts/get` result: the template's description and its expansion as the one message. */
  function PromptResult(description: string, text: string): (r: Json)
    ensures GetStr(r, "description") == Some(description)
    ensures MessageText(r) == Some(text)
  {
    Obj(map["description" := Str(description), "messages" := Arr([UserMessage(text)])])
  }

  /** `handle_prompts_get` */
  function PromptsGet(adi: Option<Engine>, params: Option<Json>, env: Env): (r: Outcome)
    ensures params.None? ==> r == Err(InvalidParams("Missing params"))
    ensures params.Some? && GetStr(params.value, "name").None? ==> r == Err(InvalidParams("Missing prompt name"))
    ensures params.Some? && GetStr(params.value, "name").Some? && adi.None? ==>
      r == Err(InternalError("ADI not initialized"))
    ensures params.Some? && GetStr(params.value, "name").Some? && adi.Some? ==>
      var name := GetStr(params.value, "name").value;
      (r.Ok? <==> name in PromptNames)
      && (name !in PromptNames ==> r == Err(InvalidParams("Unknown prompt: " + name)))
    ensures r.Err? ==> r.error.code == INVALID_PARAMS || r.error.code == INTERNAL_ERROR
    ensures r.Ok? ==>
      var name := GetStr(params.value, "name").value;
      && GetStr(r.value, "description") == Some(PromptDescription(name))
      && MessageText(r.value) == Some(TemplateText(TemplateNamed(name).value, adi.value, GetOrEmpty(params.value, "arguments"), env))
  {
    match params
    case None => Err(InvalidParams("Missing params"))
    case Some(p) =>
      match GetStr(p, "name")
      case None => Err(InvalidParams("Missing prompt name"))
      case Some(name) =>
        var args := GetOrEmpty(p, "arguments");
        match adi
        case None => Err(InternalError("ADI not initialized"))
        case Some(e) =>
          match TemplateNamed(name)
          case None => Err(InvalidParams("Unknown prompt: " + name))
          case Some(t) => Ok(PromptResult(PromptDescription(name), TemplateText(t, e, args, env)))
  }
}
