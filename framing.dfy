/**
 * The stdio transport of `main`: one request per input line, blank lines
 * skipped, one response per remaining line. A line that does not decode as
 * a request is answered with a parse error carrying a null id; every other
 * line is handed to the server.
 */
module Framing {
  import opened Wrappers
  import opened JsonValue
  import opened Text
  import opened Rpc
  import opened IndexEngine
  import opened Server

  /** `serde_json::from_str::<JsonRpcRequest>`: a request, or serde's error message. */
  type Parser = string -> Result<Request, string>

  /** What the server does with one decoded request. */
  type Handler = (ServerState, Request) -> (ServerState, Response)

  /** The request handler of an `McpServer` in the given environment. */
  function ServerHandler(env: Env): Handler {
    (s: ServerState, req: Request) => Step(s, req, env)
  }

  /** A handler answers every request with a well-formed response carrying the request's id. */
  ghost predicate Answers(handle: Handler) {
    forall s, req :: WellFormed(handle(s, req).1) && handle(s, req).1.id == ResponseId(req)
  }

  /** The number of lines `main` does not skip. */
  function CountNonBlank(lines: seq<string>): nat
    decreases |lines|
  {
    if lines == [] then 0
    else CountNonBlank(lines[..|lines| - 1]) + (if IsBlank(lines[|lines| - 1]) then 0 else 1)
  }

  /** The session after the lines have been read, and the responses written, in order: one per non-blank line. */
  function Run(s: ServerState, lines: seq<string>, parse: Parser, handle: Handler): (r: (ServerState, seq<Response>))
    ensures |r.1| == CountNonBlank(lines)
    decreases |lines|
  {
    if lines == [] then (s, [])
    else
      var (s0, out0) := Run(s, lines[..|lines| - 1], parse, handle);
      var (s1, written) := RunLine(s0, lines[|lines| - 1], parse, handle);
      (s1, out0 + written)
  }

  /** Reading more lines only appends responses: what was written stays written. */
  lemma {:induction false} RunExtends(s: ServerState, lines: seq<string>, k: nat, parse: Parser, handle: Handler)
    requires k <= |lines|
    ensures Run(s, lines[..k], parse, handle).1 <= Run(s, lines, parse, handle).1
    decreases |lines|
  {
    if k < |lines| {
      var prefix := lines[..|lines| - 1];
      assert prefix[..k] == lines[..k];
      RunExtends(s, prefix, k, parse, handle);
    } else {
      assert lines[..k] == lines;
    }
  }

  /** The responses to all lines are those to all but the last, then those to the last. */
  lemma RunLast(s: ServerState, lines: seq<string>, parse: Parser, handle: Handler)
    requires lines != []
    ensures var before := Run(s, lines[..|lines| - 1], parse, handle);
      var last := RunLine(before.0, lines[|lines| - 1], parse, handle);
      Run(s, lines, parse, handle) == (last.0, before.1 + last.1)
  {
  }

  /** Reading one more line: the session and responses after the first i lines, then the i-th line. */
  lemma RunNext(s: ServerState, lines: seq<string>, i: nat, parse: Parser, handle: Handler)
    requires i < |lines|
    ensures var before := Run(s, lines[..i], parse, handle);
      var next := RunLine(before.0, lines[i], parse, handle);
      Run(s, lines[..i + 1], parse, handle) == (next.0, before.1 + next.1)
  {
    var upto := lines[..i + 1];
    assert upto[..|upto| - 1] == lines[..i] && upto[|upto| - 1] == lines[i];
    RunLast(s, upto, parse, handle);
  }

  /** The responses to the lines before the i-th, then those to the i-th, begin the responses to all lines. */
  lemma RunPrefixAt(s: ServerState, lines: seq<string>, i: nat, parse: Parser, handle: Handler)
    requires i < |lines|
    ensures var before := Run(s, lines[..i], parse, handle);
      before.1 + RunLine(before.0, lines[i], parse, handle).1 <= Run(s, lines, parse, handle).1
  {
    RunNext(s, lines, i, parse, handle);
    RunExtends(s, lines, i + 1, parse, handle);
  }

  /**
   * The i-th line, when it is not blank, is answered by the response at the
   * position counting the non-blank lines before it: a parse error with a
   * null id when it does not decode.
   */
  lemma ParseFailureAnswered(s: ServerState, lines: seq<string>, i: nat, parse: Parser, handle: Handler)
    requires i < |lines| && !IsBlank(lines[i]) && parse(lines[i]).Err?
    ensures CountNonBlank(lines[..i]) < |Run(s, lines, parse, handle).1|
    ensures Run(s, lines, parse, handle).1[CountNonBlank(lines[..i])] == ParseErrorResponse(parse(lines[i]).error)
  {
    RunPrefixAt(s, lines, i, parse, handle);
    var before := Run(s, lines[..i], parse, handle);
    var written := RunLine(before.0, lines[i], parse, handle).1;
    assert written == [ParseErrorResponse(parse(lines[i]).error)];
    assert (before.1 + written)[|before.1|] == written[0];
  }

  /** A decoded request is answered in place, by a response carrying its id. */
  lemma RequestAnswered(s: ServerState, lines: seq<string>, i: nat, parse: Parser, handle: Handler)
    requires Answers(handle)
    requires i < |lines| && !IsBlank(lines[i]) && parse(lines[i]).Ok?
    ensures CountNonBlank(lines[..i]) < |Run(s, lines, parse, handle).1|
    ensures Run(s, lines, parse, handle).1[CountNonBlank(lines[..i])].id == ResponseId(parse(lines[i]).value)
  {
    RunPrefixAt(s, lines, i, parse, handle);
    var before := Run(s, lines[..i], parse, handle);
    var req := parse(lines[i]).value;
    var written := RunLine(before.0, lines[i], parse, handle).1;
    assert written == [handle(before.0, req).1];
    assert handle(before.0, req).1.id == ResponseId(req);
    assert (before.1 + written)[|before.1|] == written[0];
  }

  /** With a handler that answers well, every response written is well formed. */
  lemma {:induction false} RunWellFormed(s: ServerState, lines: seq<string>, parse: Parser, handle: Handler)
    requires Answers(handle)
    ensures forall r :: r in Run(s, lines, parse, handle).1 ==> WellFormed(r)
    decreases |lines|
  {
    if lines != [] {
      RunWellFormed(s, lines[..|lines| - 1], parse, handle);
    }
  }

  /** The server's own handler answers well. */
  lemma ServerAnswers(env: Env)
    ensures Answers(ServerHandler(env))
  {
    forall s, req ensures WellFormed(Step(s, req, env).1) && Step(s, req, env).1.id == ResponseId(req) {
    }
  }

  /**
   * One line of `main`'s loop: a blank line is skipped, a line that does not
   * decode is answered with a parse error and leaves the session alone, and a
   * request is handed to the handler.
   */
  function RunLine(s: ServerState, line: string, parse: Parser, handle: Handler): (r: (ServerState, seq<Response>))
    ensures |r.1| == if IsBlank(line) then 0 else 1
    ensures IsBlank(line) ==> r.0 == s
    ensures !IsBlank(line) && parse(line).Err? ==> r == (s, [ParseErrorResponse(parse(line).error)])
    ensures !IsBlank(line) && parse(line).Ok? ==> r == (handle(s, parse(line).value).0, [handle(s, parse(line).value).1])
  {
    if IsBlank(line) then (s, [])
    else
      match parse(line)
      case Err(detail) => (s, [ParseErrorResponse(detail)])
      case Ok(req) =>
        var (s1, resp) := handle(s, req);
        (s1, [resp])
  }

  /** The body of `main`'s loop, on a server object. */
  method ServeLine(server: McpServer, line: string, parse: Parser, env: Env) returns (written: seq<Response>)
    modifies server
    ensures (server.State(), written) == RunLine(old(server.State()), line, parse, ServerHandler(env))
  {
    written := [];
    if !IsBlank(line) {
      match parse(line) {
        case Err(detail) =>
          written := [ParseErrorResponse(detail)];
        case Ok(req) =>
          var resp := server.HandleRequest(req, env);
          written := [resp];
      }
    }
  }

  /** `main`: a fresh server reads the lines and writes one response for each that is not blank. */
  method Serve(lines: seq<string>, parse: Parser, env: Env) returns (out: seq<Response>)
    ensures out == Run(Initial, lines, parse, ServerHandler(env)).1
  {
    var server := new McpServer();
    out := [];
    var i := 0;
    while i < |lines|
      invariant 0 <= i <= |lines|
      invariant (server.State(), out) == Run(Initial, lines[..i], parse, ServerHandler(env))
    {
      RunNext(Initial, lines, i, parse, ServerHandler(env));
      var written := ServeLine(server, lines[i], parse, env);
      out := out + written;
      i := i + 1;
    }
    assert lines[..i] == lines;
  }
}
