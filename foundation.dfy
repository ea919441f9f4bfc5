/** Platform values the networking classes pass around: optional (nil-able)
    values, NSError, threads, run loop modes, URL requests and HTTP responses.
    Only what the core reads from them is kept. */
module Foundation {

  /** An Objective-C reference that may be nil. */
  datatype Option<+T> = None | Some(value: T) {
    /** The value, or `default` when nil. */
    function GetOr(default: T): T {
      match this
      case Some(v) => v
      case None => default
    }
  }

  /** One byte of a response body or of a data chunk. */
  newtype Byte = x: int | 0 <= x < 256

  /** The error domains the core produces or passes on. Transport errors
      arrive in the URL or POSIX domains; the HTTP operation adds its own. */
  datatype ErrorDomain =
    | CocoaErrorDomain
    | QHTTPOperationErrorDomain
    | URLErrorDomain
    | POSIXErrorDomain

  datatype NSError = NSError(domain: ErrorDomain, code: int)

  /** Foundation's NSUserCancelledError code. */
  const NSUserCancelledError: int := 3072

  /** A thread a run loop operation can be bound to. */
  datatype Thread = MainThread | WorkerThread(id: nat)

  /** Foundation's NSDefaultRunLoopMode. */
  const NSDefaultRunLoopMode: string := "kCFRunLoopDefaultMode"

  datatype URL = URL(scheme: string, host: string, path: string)

  datatype URLRequest = URLRequest(httpMethod: string, url: URL)

  /** A status code is a three-digit integer (section 6.1.1 of RFC 2616). */
  type StatusCode = code: int | 100 <= code <= 999 witness 200

  datatype HTTPURLResponse = HTTPURLResponse(url: URL, statusCode: StatusCode, mimeType: Option<string>)
}
