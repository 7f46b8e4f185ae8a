/** The shapes of the HTTP traffic the composables produce and consume. The
    transport itself is not modelled: every reply is handed in as a value. */
module Http {
  import opened Js

  /** The options object a caller passes to the authenticated fetch wrapper:
      the HTTP method, an optional JSON body and optional extra headers. */
  datatype Options = Options(verb: string, body: Option<map<string, string>>, headers: Option<map<string, string>>)

  /** A request as it leaves the client: path, method, body and the headers
      actually sent. */
  datatype Request = Request(url: string, verb: string, body: Option<map<string, string>>, headers: map<string, string>)

  /** What the transport did with a request: a parsed reply body, an HTTP
      error status, or a failure without any response. */
  datatype Response<T> = Reply(body: T) | HttpError(status: int) | NetworkError

  /** The exceptions an operation can end with. `TypeError` stands for the
      runtime error JavaScript raises when a property of `undefined` is read
      or written. */
  datatype Failure = NotAuthenticated | HttpFailure(status: int) | NetworkFailure | TypeError

  /** How an `async` operation settles: resolved with a value or rejected
      with a failure. */
  datatype Result<T> = Ok(value: T) | Thrown(failure: Failure)

  /** `await` on a transport call: resolves with the body of a reply and
      rejects on an error status or on a network failure. */
  function Settle<T>(reply: Response<T>): Result<T> {
    match reply
    case Reply(body) => Ok(body)
    case HttpError(status) => Thrown(HttpFailure(status))
    case NetworkError => Thrown(NetworkFailure)
  }
}
