/** The errors the library itself produces. Any other error (one returned by
    the platform or by a caller-supplied option or handler) is `Other`. */
module Errors {
  datatype Error =
    | InvalidOptionValue     // client.go:35, returned by the count-valued options
    | TooManyRedirects       // redirect.go:10
    | Other(message: string) // any error made outside this library

  /** The text `err.Error()` reports for each error. */
  function Message(e: Error): (m: string)
    ensures e.InvalidOptionValue? ==> m == "invalid value for option"
    ensures e.TooManyRedirects? ==> m == "too many redirects"
    ensures e.Other? ==> m == e.message
  {
    match e
    case InvalidOptionValue => "invalid value for option"
    case TooManyRedirects => "too many redirects"
    case Other(msg) => msg
  }
}
