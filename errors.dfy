/** Go's `error` values as used by the dispatch core: an error is its message text, nil is `None`. */
module Errors {
  import opened Wrappers

  datatype Error = Error(message: string)

  /** `fmt.Errorf(prefix + "%v", cause)`: the cause's text appended to a fixed prefix. */
  function Errorf(prefix: string, cause: string): (e: Error)
    ensures |e.message| == |prefix| + |cause|
    ensures e.message[..|prefix|] == prefix && e.message[|prefix|..] == cause
  {
    Error(prefix + cause)
  }

  /**
   * `errors.Wrap(err, message)` from github.com/pkg/errors: nil stays nil, otherwise the new
   * error reads "message: <cause>".
   */
  function Wrap(err: Option<Error>, message: string): (r: Option<Error>)
    ensures r.None? <==> err.None?
    ensures r.Some? ==> r.value.message == message + ": " + err.value.message
  {
    match err
    case None => None
    case Some(cause) => Some(Error(message + ": " + cause.message))
  }
}
