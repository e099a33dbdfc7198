/**
 * The index engine (`adi_core::Adi`) as this layer sees it: a collaborator
 * whose every operation returns a result the layer cannot predict, and the
 * rest of the outside world the server touches (opening the engine, the
 * filesystem, serde's renderers and two standard-library helpers).
 */
module IndexEngine {
  import opened Wrappers
  import opened JsonValue

  /** `adi_core::Language`: the 22 languages the MIME table names, and every other one. */
  datatype Language =
    | Rust | Python | JavaScript | TypeScript | Java | Go | C | Cpp | CSharp
    | Ruby | Php | Kotlin | Scala | Swift | Bash | Json | Yaml | Toml | Xml
    | Html | Css | Markdown
    | Other(tag: string)

  /** The display text of an engine error. */
  datatype EngineError = EngineError(message: string)

  type EngineResult<T> = Result<T, EngineError>

  /**
   * A symbol as the layer reads it; `kind` and `filePath` are already the
   * engine's display strings, and `json` is the symbol's serde serialisation.
   */
  datatype Symbol = Symbol(
    id: int,
    name: string,
    kind: string,
    filePath: string,
    signature: Option<string>,
    docComment: Option<string>,
    json: Json)

  /** One file of the engine's file tree. */
  datatype FileNode = FileNode(path: string, language: Language, symbolCount: nat)

  datatype Tree = Tree(files: seq<FileNode>, json: Json)

  /** `get_file`'s answer: the file record and its symbols, each with its serialisation. */
  datatype FileInfo = FileInfo(language: Language, symbols: seq<Symbol>, fileJson: Json, json: Json)

  datatype Usage = Usage(referenceCount: nat, callers: seq<Symbol>, callees: seq<Symbol>, json: Json)

  datatype IndexProgress = IndexProgress(filesProcessed: nat, symbolsIndexed: nat, errors: seq<string>)

  datatype Status = Status(indexedFiles: nat, indexedSymbols: nat, json: Json)

  /**
   * An open engine. Each operation is a function of its arguments to an
   * arbitrary result; operations without arguments are the values they return.
   */
  datatype Engine = Engine(
    projectPath: string,
    search: (string, nat) -> EngineResult<Json>,
    searchSymbols: (string, nat) -> EngineResult<seq<Symbol>>,
    searchFiles: (string, nat) -> EngineResult<Json>,
    getSymbol: int -> EngineResult<Symbol>,
    getFile: string -> EngineResult<FileInfo>,
    getCallers: int -> EngineResult<seq<Symbol>>,
    getCallees: int -> EngineResult<seq<Symbol>>,
    getSymbolUsage: int -> EngineResult<Usage>,
    tree: EngineResult<Tree>,
    index: EngineResult<IndexProgress>,
    status: EngineResult<Status>,
    config: Json,
    findSymbolsByName: string -> EngineResult<seq<Symbol>>)

  /**
   * The world outside the layer:
   * `open` is `Adi::open` on a project path;
   * `readFile(root, rel)` reads the file at `rel` under `root`, nothing when that fails;
   * `pretty` and `compact` are serde_json's `to_string_pretty` and `to_string`;
   * `languageName` is `Language::as_str`;
   * `groupByLanguage` renders the per-language lines of the architecture
   * overview, whose order comes from a `HashMap`;
   * `serverVersion` is the crate version compiled into the binary.
   */
  datatype Env = Env(
    open: string -> EngineResult<Engine>,
    readFile: (string, string) -> Option<string>,
    pretty: Json -> string,
    compact: Json -> string,
    languageName: Language -> string,
    fileName: string -> Option<string>,
    groupByLanguage: seq<FileNode> -> string,
    serverVersion: string)

  /** The serialisation of a list of symbols: the array of their serialisations. */
  function SymbolsJson(ss: seq<Symbol>): (r: Json)
    ensures r.Arr? && |r.items| == |ss|
    ensures forall i :: 0 <= i < |ss| ==> r.items[i] == ss[i].json
  {
    Arr(seq(|ss|, i requires 0 <= i < |ss| => ss[i].json))
  }

  /** Renders a successful engine result with `f`; a failure stays the same failure. */
  function Render<T>(r: EngineResult<T>, f: T -> string): EngineResult<string> {
    match r
    case Ok(v) => Ok(f(v))
    case Err(e) => Err(e)
  }

  const MimeTypes: set<string> := {
    "text/x-rust", "text/x-python", "text/javascript", "text/typescript",
    "text/x-java", "text/x-go", "text/x-c", "text/x-c++", "text/x-csharp",
    "text/x-ruby", "text/x-php", "text/x-kotlin", "text/x-scala",
    "text/x-swift", "text/x-shellscript", "application/json", "text/yaml",
    "text/x-toml", "application/xml", "text/html", "text/css",
    "text/markdown"
  }

  /** `language_to_mime`: the MIME type of a file in the given language. */
  function LanguageToMime(lang: Language): (mime: string)
    ensures mime == "text/plain" <==> lang.Other?
    ensures !lang.Other? ==> mime in MimeTypes
  {
    match lang
    case Rust => "text/x-rust"
    case Python => "text/x-python"
    case JavaScript => "text/javascript"
    case TypeScript => "text/typescript"
    case Java => "text/x-java"
    case Go => "text/x-go"
    case C => "text/x-c"
    case Cpp => "text/x-c++"
    case CSharp => "text/x-csharp"
    case Ruby => "text/x-ruby"
    case Php => "text/x-php"
    case Kotlin => "text/x-kotlin"
    case Scala => "text/x-scala"
    case Swift => "text/x-swift"
    case Bash => "text/x-shellscript"
    case Json => "application/json"
    case Yaml => "text/yaml"
    case Toml => "text/x-toml"
    case Xml => "application/xml"
    case Html => "text/html"
    case Css => "text/css"
    case Markdown => "text/markdown"
    case Other(_) => "text/plain"
  }

  /** Two named languages never share a MIME type, so the table loses no information on them. */
  lemma LanguageToMimeInjective(a: Language, b: Language)
    requires !a.Other? && !b.Other?
    requires LanguageToMime(a) == LanguageToMime(b)
    ensures a == b
  {
  }
}
