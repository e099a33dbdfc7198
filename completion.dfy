/**
 * `completion/complete`: candidate values for a prompt or resource argument,
 * filtered by the partial value the client has typed so far.
 */
module Completion {
  import opened Wrappers
  import opened JsonValue
  import opened Text
  import opened Rpc
  import opened IndexEngine

  /** The fixed choices of the `focus` argument of `code_review`. */
  const FocusValues: seq<string> := ["security", "performance", "style", "bugs", "general"]

  /** The fixed choices of the `direction` argument of `analyze_dependencies`. */
  const DirectionValues: seq<string> := ["callers", "callees", "both"]

  /** At most this many paths or symbol names are offered. */
  const MaxCandidates: nat := 20

  /** The candidates that contain the typed value, in their original order. */
  function Matching(candidates: seq<string>, value: string): (r: seq<string>)
    ensures |r| <= |candidates|
    ensures forall c :: c in r <==> c in candidates && Contains(c, value)
  {
    if candidates == [] then []
    else if Contains(candidates[0], value) then [candidates[0]] + Matching(candidates[1..], value)
    else Matching(candidates[1..], value)
  }

  /** Filtering keeps the order: the candidates kept are a subsequence of the list. */
  lemma {:induction false} MatchingIsSubsequence(candidates: seq<string>, value: string)
    ensures IsSubsequence(Matching(candidates, value), candidates)
  {
    if candidates == [] {
      SubsequenceEmpty(candidates);
    } else {
      var rest := candidates[1..];
      assert candidates == [candidates[0]] + rest;
      MatchingIsSubsequence(rest, value);
      if Contains(candidates[0], value) {
        SubsequenceKeep(candidates[0], Matching(rest, value), rest);
      } else {
        SubsequenceSkip(candidates[0], Matching(rest, value), rest);
      }
    }
  }

  /** An empty partial value keeps every candidate, in order. */
  lemma {:induction false} MatchingEmptyValue(candidates: seq<string>)
    ensures Matching(candidates, "") == candidates
  {
    if candidates != [] {
      assert Contains(candidates[0], "");
      MatchingEmptyValue(candidates[1..]);
    }
  }

  /** The paths of the indexed files, as offered for a file-path argument. */
  function FilePaths(files: seq<FileNode>): (r: seq<string>)
    ensures |r| == |files| && forall i :: 0 <= i < |r| ==> r[i] == files[i].path
  {
    seq(|files|, i requires 0 <= i < |files| => files[i].path)
  }

  /** The names of the symbols, as offered for a symbol argument. */
  function SymbolNames(ss: seq<Symbol>): (r: seq<string>)
    ensures |r| == |ss| && forall i :: 0 <= i < |r| ==> r[i] == ss[i].name
  {
    seq(|ss|, i requires 0 <= i < |ss| => ss[i].name)
  }

  /** What kind of candidates a (reference type, argument name) pair asks for. */
  datatype Source = FilePathSource | SymbolSource | FocusSource | DirectionSource | NoSource

  function SourceOf(refType: string, argumentName: string): (r: Source)
    ensures r.FilePathSource? <==> refType == "ref/resource" || (refType == "ref/prompt" && argumentName == "file_path")
    ensures r.SymbolSource? <==> refType == "ref/prompt" && (argumentName == "symbol_name" || argumentName == "target")
    ensures r.FocusSource? <==> refType == "ref/prompt" && argumentName == "focus"
    ensures r.DirectionSource? <==> refType == "ref/prompt" && argumentName == "direction"
    ensures refType != "ref/prompt" && refType != "ref/resource" ==> r.NoSource?
  {
    if (refType == "ref/prompt" && argumentName == "file_path") || refType == "ref/resource" then FilePathSource
    else if refType == "ref/prompt" && (argumentName == "symbol_name" || argumentName == "target") then SymbolSource
    else if refType == "ref/prompt" && argumentName == "focus" then FocusSource
    else if refType == "ref/prompt" && argumentName == "direction" then DirectionSource
    else NoSource
  }

  /**
   * The completions offered by an open engine. Paths are cut at twenty here;
   * symbol names are whatever the engine returns when asked for twenty.
   */
  function Candidates(e: Engine, source: Source, value: string): (r: seq<string>)
    ensures !source.SymbolSource? ==> |r| <= MaxCandidates
    ensures source.FilePathSource? ==>
      forall c :: c in r ==> Contains(c, value) && e.tree.Ok? && c in FilePaths(e.tree.value.files)
    ensures source.SymbolSource? && value == "" ==> r == []
    ensures source.SymbolSource? && value != "" ==>
      match e.searchSymbols(value, MaxCandidates)
      case Ok(ss) => |r| == |ss| && forall i :: 0 <= i < |r| ==> r[i] == ss[i].name
      case Err(_) => r == []
    ensures source.FilePathSource? ==>
      r == (if e.tree.Ok? then Take(Matching(FilePaths(e.tree.value.files), value), MaxCandidates) else [])
    ensures source.FocusSource? ==> forall c :: c in r <==> c in FocusValues && Contains(c, value)
    ensures source.DirectionSource? ==> forall c :: c in r <==> c in DirectionValues && Contains(c, value)
    ensures source.FocusSource? ==> r == Matching(FocusValues, value)
    ensures source.DirectionSource? ==> r == Matching(DirectionValues, value)
    ensures source.NoSource? ==> r == []
  {
    match source
    case FilePathSource =>
      (match e.tree
       case Ok(t) =>
         var m := Matching(FilePaths(t.files), value);
         var r := Take(m, MaxCandidates);
         assert forall c :: c in r ==> c in m;
         r
       case Err(_) => [])
    case SymbolSource =>
      if value == "" then []
      else (match e.searchSymbols(value, MaxCandidates)
            case Ok(ss) => SymbolNames(ss)
            case Err(_) => [])
    case FocusSource => Matching(FocusValues, value)
    case DirectionSource => Matching(DirectionValues, value)
    case NoSource => []
  }

  /** The completion result: the values offered and `hasMore: false`. */
  function CompletionResult(values: seq<string>): (r: Json)
    ensures Get(r, "completion").Some?
    ensures Get(Get(r, "completion").value, "values") == Some(StrArr(values))
    ensures Get(Get(r, "completion").value, "hasMore") == Some(Bool(false))
  {
    Obj1("completion", Obj(map["values" := StrArr(values), "hasMore" := Bool(false)]))
  }

  /** A string field of the `argument` object of the parameters; the empty string when either is missing. */
  function ArgumentField(params: Json, key: string): string {
    match Get(params, "argument")
    case Some(a) => GetStr(a, key).GetOr("")
    case None => ""
  }

  /** `handle_completion` */
  function Complete(adi: Option<Engine>, params: Option<Json>): (r: Outcome)
    ensures params.None? ==> r == Err(InvalidParams("Missing params"))
    ensures params.Some? && Get(params.value, "ref").None? ==> r == Err(InvalidParams("Missing ref parameter"))
    ensures params.Some? && Get(params.value, "ref").Some? ==> r.Ok?
    ensures r.Err? ==> r.error.code == INVALID_PARAMS
    ensures params.Some? && Get(params.value, "ref").Some? && adi.None? ==> r == Ok(CompletionResult([]))
    ensures params.Some? && Get(params.value, "ref").Some? && adi.Some? ==>
      var source := SourceOf(GetStr(Get(params.value, "ref").value, "type").GetOr(""), ArgumentField(params.value, "name"));
      r == Ok(CompletionResult(Candidates(adi.value, source, ArgumentField(params.value, "value"))))
  {
    match params
    case None => Err(InvalidParams("Missing params"))
    case Some(p) =>
      match Get(p, "ref")
      case None => Err(InvalidParams("Missing ref parameter"))
      case Some(refObj) =>
        var refType := GetStr(refObj, "type").GetOr("");
        var argumentName := ArgumentField(p, "name");
        var argumentValue := ArgumentField(p, "value");
        match adi
        case None => Ok(CompletionResult([]))
        case Some(e) => Ok(CompletionResult(Candidates(e, SourceOf(refType, argumentName), argumentValue)))
  }

  /** With nothing typed yet, every fixed choice is offered. */
  lemma EmptyValueOffersEveryChoice(e: Engine)
    ensures Candidates(e, FocusSource, "") == FocusValues
    ensures Candidates(e, DirectionSource, "") == DirectionValues
  {
    MatchingEmptyValue(FocusValues);
    MatchingEmptyValue(DirectionValues);
  }
}
