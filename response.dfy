/** Response handlers (response.go): the caller's callback that receives
    the outcome of a dispatch and decides what `Do` returns. */
module Responses {
  import opened Wrappers
  import opened Errors
  import opened Net

  /** `func(context.Context, *http.Response, error) error` */
  type ResponseHandler = (Context, Option<Response>, Option<Error>) -> Option<Error>

  /** The handler that only passes on the error it is given. */
  function NoopResponseHandler(ctx: Context, res: Option<Response>, err: Option<Error>): (e: Option<Error>)
    ensures e == err
  {
    err
  }
}
