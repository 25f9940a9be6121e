/**
 * The Go `error` values that flow through the inbound path: TChannel system
 * errors, yarpc status errors (a code, an optional name and a message),
 * plain `fmt.Errorf`/`errors.New` errors and `multierr` combinations.
 * A nil error is `None` of an `Option<Error>`.
 */
module Errors {
  import opened Wrappers

  /** yarpcerrors.Code: the closed set of error kinds. */
  datatype Code =
    | Cancelled | Unknown | InvalidArgument | DeadlineExceeded | NotFound
    | AlreadyExists | PermissionDenied | ResourceExhausted | FailedPrecondition
    | Aborted | OutOfRange | Unimplemented | Internal | Unavailable | DataLoss
    | Unauthenticated

  /** tchannel.SystemErrCode: the status carried by a system-error frame. */
  datatype SystemCode =
    | ErrCodeTimeout | ErrCodeCancelled | ErrCodeBusy | ErrCodeDeclined
    | ErrCodeUnexpected | ErrCodeBadRequest | ErrCodeNetwork | ErrCodeProtocol

  datatype Error =
    | SystemError(status: SystemCode, message: string)   // tchannel.SystemError
    | Status(code: Code, name: string, message: string)  // *yarpcerrors.Status
    | Plain(text: string)                                // fmt.Errorf, errors.New
    | Multi(errors: seq<Error>)                          // a multierr combination

  /** `yarpcerrors.ErrorCode`: errors that carry no kind are `Unknown`. */
  function CodeOf(e: Error): Code {
    if e.Status? then e.code else Unknown
  }

  /** `yarpcerrors.ErrorName`: only status errors carry a name. */
  function NameOf(e: Error): string {
    if e.Status? then e.name else ""
  }

  /** `yarpcerrors.ErrorMessage`: the status message, or the error's text. */
  function MessageOf(e: Error): string {
    if e.Status? then e.message else Text(e)
  }

  /** The text of `Code.MarshalText`, lower-case and hyphen-separated. */
  function CodeText(c: Code): string {
    match c
    case Cancelled => "cancelled"
    case Unknown => "unknown"
    case InvalidArgument => "invalid-argument"
    case DeadlineExceeded => "deadline-exceeded"
    case NotFound => "not-found"
    case AlreadyExists => "already-exists"
    case PermissionDenied => "permission-denied"
    case ResourceExhausted => "resource-exhausted"
    case FailedPrecondition => "failed-precondition"
    case Aborted => "aborted"
    case OutOfRange => "out-of-range"
    case Unimplemented => "unimplemented"
    case Internal => "internal"
    case Unavailable => "unavailable"
    case DataLoss => "data-loss"
    case Unauthenticated => "unauthenticated"
  }

  function SystemCodeText(c: SystemCode): string {
    match c
    case ErrCodeTimeout => "timeout"
    case ErrCodeCancelled => "canceled"
    case ErrCodeBusy => "busy"
    case ErrCodeDeclined => "declined"
    case ErrCodeUnexpected => "unexpected-error"
    case ErrCodeBadRequest => "bad-request"
    case ErrCodeNetwork => "network-error"
    case ErrCodeProtocol => "protocol-error"
  }

  /** `err.Error()`. */
  function Text(e: Error): string
    decreases e
  {
    match e
    case SystemError(status, message) =>
      "tchannel error " + SystemCodeText(status) + ": " + message
    case Status(code, name, message) =>
      "code:" + CodeText(code)
        + (if name == "" then "" else " name:" + name)
        + (if message == "" then "" else " message:" + message)
    case Plain(text) => text
    case Multi(errors) =>
      Join(seq(|errors|, i requires 0 <= i < |errors| => Text(errors[i])), "; ")
  }

  function Join(parts: seq<string>, sep: string): string {
    if |parts| == 0 then ""
    else if |parts| == 1 then parts[0]
    else parts[0] + sep + Join(parts[1..], sep)
  }

  /** The errors a (possibly nil, possibly combined) error stands for, in order. */
  function Parts(e: Option<Error>): seq<Error> {
    match e
    case None => []
    case Some(Multi(errors)) => errors
    case Some(single) => [single]
  }

  /** Decimal text of a count, as `%v` prints an int. */
  function DecimalText(n: nat): string
    decreases n
  {
    if n < 10 then [Digit(n)] else DecimalText(n / 10) + [Digit(n % 10)]
  }

  function Digit(d: nat): char
    requires d < 10
  {
    "0123456789"[d]
  }
}
