/** The transport-level vocabulary shared by the Grafana client: what a request
    can come back with, the errors the client reports, and the rule that turns
    a response into success or failure. */
module Http {

  /** What one HTTP round trip delivers: either no response at all (connection
      refused, timeout, ...) or a status code together with a body of type B. */
  datatype Response<B> =
    | TransportFailure(reason: string)
    | Reply(status: int, body: B)

  /** The result of decoding a JSON body into a value of type T. */
  datatype Decoding<T> =
    | Malformed(reason: string)
    | Parsed(value: T)

  /** The errors the client returns to its callers. */
  datatype Error =
    | Transport(reason: string)          // the round trip itself failed
    | UnexpectedStatus(code: int)        // doRequest: status other than 200
    | WrongStatus(code: int)             // getDashboardId: status other than 200
    | Undecodable(reason: string)        // a JSON body could not be decoded
    | FolderListUndecodable              // SetFolders: "error marshal for folders"

  /** Go's `error` return: nil or an error value. */
  datatype Outcome = Ok | Err(error: Error)

  const StatusOK: int := 200

  /** doRequest: a request succeeds exactly when a response arrives with status
      200; a transport failure is passed through, any other status becomes an
      "unexpected status code" error. The body is never looked at. */
  function DoRequest<B>(response: Response<B>): (outcome: Outcome)
    ensures outcome.Ok? <==> response.Reply? && response.status == StatusOK
    ensures response.TransportFailure? ==> outcome == Err(Transport(response.reason))
    ensures response.Reply? && response.status != StatusOK ==>
              outcome == Err(UnexpectedStatus(response.status))
  {
    match response
    case TransportFailure(reason) => Err(Transport(reason))
    case Reply(status, _) =>
      if status != StatusOK then Err(UnexpectedStatus(status)) else Ok
  }
}
