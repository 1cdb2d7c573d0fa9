/** Error values shared by the command-line tool and the remote client,
    and the Option/Result wrappers used for Go's `(value, error)` returns. */
module Errors {

  /** Why `strconv.ParseUint` rejected its input. */
  datatype NumErrorKind = Syntax | Range

  /** The errors the core produces or passes through. `Help` is gopi.ErrHelp,
      `DeadlineExceeded` gopi.ErrDeadlineExceeded, `AppError` gopi.ErrAppError;
      `NumError` is the *strconv.NumError of a rejected number (it carries the
      input string); `Collaborator` is any error a radio, GPIO or RPC
      collaborator reports, identified only by a code. */
  datatype Error =
    | Help
    | DeadlineExceeded
    | AppError
    | NumError(num: string, kind: NumErrorKind)
    | Collaborator(code: nat)

  datatype Option<+T> = None | Some(value: T)

  datatype Result<+T> = Ok(value: T) | Err(error: Error)
}
