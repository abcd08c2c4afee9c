/** What a controller sends: a status code and one of the bodies the
    handlers write (the validation errors, an `errorsBody`, the internal
    server error, or a service result). */
module Responses {
  import opened Wrappers
  import opened MiniTocoErrors
  import opened RouteValidators
  import opened TokenDatas
  import ServerTransactionService
  import ServerUserService
  import Store

  datatype Body =
    | ValidationErrors(failures: seq<Failure>)
    | Errors(errors: seq<MiniTocoError>)
    | InternalError(error: MiniTocoError)
    | Transfer(result: ServerTransactionService.TransferResult)
    | Token(token: TokenData)
    | Detail(detail: ServerUserService.UserDetail)

  datatype Response = Response(status: int, body: Body)

  /** What a handler did: the response, the tables afterwards, and the
      statements it issued. */
  datatype Outcome = Outcome(response: Response, after: Store.DbState, calls: seq<Store.StoreCall>)

  /** `validationFailureWasSent`: 400 with `{ errors: errors.array() }`. */
  function ValidationFailed(failures: seq<Failure>): (r: Response)
    ensures r.status == 400 && r.body.ValidationErrors? && r.body.failures == failures
  {
    Response(400, ValidationErrors(failures))
  }

  /** `sendAndSignalInternalServerError`: 500 with `{ errors: internalServer() }`,
      a body that reveals nothing of the error: an empty value, the message
      "Internal ServerError", and neither a parameter nor a location. */
  function InternalServerError(): (r: Response)
    ensures r.status == 500 && r.body.InternalError?
    ensures r.body.error == MiniTocoError("", "Internal ServerError", None, None)
  {
    Response(500, InternalError(InternalServer()))
  }

  /** `ofBody(field).msg(m).value(v).build()`. */
  function BodyErrorOf(field: string, m: string, v: string): MiniTocoError {
    MiniTocoError(v, m, Some(field), Some("body"))
  }

  /** `ofPath(field).msg(m).value(v).build()`. */
  function PathErrorOf(field: string, m: string, v: string): MiniTocoError {
    MiniTocoError(v, m, Some(field), Some("path"))
  }

  /** `ofPath(field).msg(m).value(v).build()`, through the builder. */
  method PathError(field: string, m: string, v: string) returns (e: MiniTocoError)
    ensures e == PathErrorOf(field, m, v)
  {
    var b := MiniTocoErrorBuilder.Of("path", field);
    b.Msg(m);
    b.Value(v);
    var r := b.Build();
    e := r.value;
  }

  /** `sendAndSignal(res, status, MiniTocoError.errorsBody(e), ...)`. */
  method SendError(status: int, e: MiniTocoError) returns (r: Response)
    ensures r == Response(status, Errors([e]))
  {
    var body := ErrorsBody(e, []);
    assert body == [e];
    r := Response(status, Errors(body));
  }
}
