/**
 What one run of the script ends in: the JSON line it prints on standard
 output (or none) and its exit status.
 */
module Outcomes {
  import opened Json

  datatype Option<+T> = None | Some(value: T)

  /** The fatal conditions the script reports as `{"error": ...}` with exit
      status 1. Message texts are not modelled; an HTTP error keeps its status
      code, which the message mentions. */
  datatype Error =
    | StdinUnreadable     // any exception while reading standard input
    | InputNotJson        // standard input is not valid JSON
    | MissingToken        // `api_token` absent or falsy
    | HttpStatus(code: int)
    | NetworkFailure      // URLError: DNS, refused connection, timeout
    | ResponseNotJson     // the response body is not valid JSON
    | Unexpected          // any other exception during the HTTP phase

  /** `Success(items)` prints `{"combined_list": <items as a JSON string>}`;
      `Failure(e)` prints `{"error": ...}`; `Crash` is an exception the script
      does not catch, so nothing is printed on standard output. */
  datatype Outcome =
    | Success(items: seq<Value>)
    | Failure(error: Error)
    | Crash

  /** The process exit status: 0 after a success (`sys.exit(0)` or falling
      off the end of `main`), 1 after `sys.exit(1)` and after an uncaught
      exception, which the interpreter also reports with status 1. */
  function ExitCode(o: Outcome): (code: int)
    ensures code == 0 || code == 1
    ensures code == 0 <==> o.Success?
  {
    match o
    case Success(_) => 0
    case Failure(_) => 1
    case Crash => 1
  }
}
