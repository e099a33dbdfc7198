/**
 * The JSON-RPC 2.0 envelope: requests, responses and error objects, with the
 * four error codes of section 5.1 of the JSON-RPC 2.0 specification that the
 * server uses.
 */
module Rpc {
  import opened Wrappers
  import opened JsonValue

  const PARSE_ERROR: int := -32700
  const METHOD_NOT_FOUND: int := -32601
  const INVALID_PARAMS: int := -32602
  const INTERNAL_ERROR: int := -32603

  /** `JsonRpcError`: the server never fills `data`. */
  datatype RpcError = RpcError(code: int, message: string, data: Option<Json>)

  /** `JsonRpcRequest`, as serde decodes it from one input line. */
  datatype Request = Request(jsonrpc: string, id: Option<Json>, methodName: string, params: Option<Json>)

  /** `JsonRpcResponse` */
  datatype Response = Response(jsonrpc: string, id: Json, result: Option<Json>, error: Option<RpcError>)

  /** What every handler returns: `Result<Value, JsonRpcError>`. */
  type Outcome = Result<Json, RpcError>

  function InvalidParams(message: string): RpcError {
    RpcError(INVALID_PARAMS, message, None)
  }

  function InternalError(message: string): RpcError {
    RpcError(INTERNAL_ERROR, message, None)
  }

  /** The id a response carries: the request's own, or `null` when it had none. */
  function ResponseId(req: Request): (id: Json)
    ensures req.id.Some? ==> id == req.id.value
    ensures req.id.None? ==> id == Null
  {
    req.id.GetOr(Null)
  }

  /** A response is well formed: tagged "2.0" and carrying exactly one of result and error. */
  predicate WellFormed(r: Response) {
    r.jsonrpc == "2.0" && (r.result.Some? != r.error.Some?)
  }

  /** Wraps a handler's outcome in the envelope for the given id. */
  function Respond(id: Json, outcome: Outcome): (r: Response)
    ensures WellFormed(r) && r.id == id
    ensures outcome.Ok? ==> r.result == Some(outcome.value)
    ensures outcome.Err? ==> r.error == Some(outcome.error)
  {
    match outcome
    case Ok(v) => Response("2.0", id, Some(v), None)
    case Err(e) => Response("2.0", id, None, Some(e))
  }

  /** The reply to a line that does not decode as a request; `detail` is serde's message. */
  function ParseErrorResponse(detail: string): (r: Response)
    ensures WellFormed(r) && r.id == Null
    ensures r.error.Some? && r.error.value.code == PARSE_ERROR
  {
    Respond(Null, Err(RpcError(PARSE_ERROR, "Parse error: " + detail, None)))
  }
}
