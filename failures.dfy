/** Everything a lookup can throw, and the message each failure carries. */
module Failures {
  import opened Wrappers
  import JavaText

  /** The IOException behind a "Request failed" failure. */
  datatype IoError =
    | TransportFailed(message: Option<string>)  // executing the call or reading the body
    | MalformedJson(message: Option<string>)    // readTree rejected the body
    | Unbindable(key: string)                   // treeToValue could not bind the value under this key

  datatype Failure =
    | IllegalArgument(message: string)  // IllegalArgumentException, raised before any request exists
    | ServerError(code: int)            // GenderApiException for a 5xx/408 status
    | MissingStatus                     // GenderApiException for a body without `status`
    | RequestFailed(cause: IoError)     // GenderApiException wrapping an IOException

  const MissingStatusMessage := "Invalid API response: Missing 'status' field."
  const ServerErrorPrefix := "Server error ("
  const RequestFailedPrefix := "Request failed: "

  /** The IOException's `getMessage()`; a null message is written "null". */
  function CauseMessage(cause: IoError): (m: string)
    ensures !cause.Unbindable? ==> m == JavaText.OrNull(cause.message)
    ensures cause.Unbindable? ==> |m| > |cause.key| && m[|m| - 1 - |cause.key|..|m| - 1] == cause.key
  {
    match cause
    case TransportFailed(m) => JavaText.OrNull(m)
    case MalformedJson(m) => JavaText.OrNull(m)
    case Unbindable(key) => "cannot bind field '" + key + "'"
  }

  /** The exception's `getMessage()`. */
  function Message(f: Failure): (m: string)
    ensures f.ServerError? ==> m == ServerErrorPrefix + JavaText.IntToString(f.code) + ")"
    ensures f.RequestFailed? ==> m == RequestFailedPrefix + CauseMessage(f.cause)
    ensures f.RequestFailed? && !f.cause.Unbindable? ==> m == RequestFailedPrefix + JavaText.OrNull(f.cause.message)
    ensures f == MissingStatus ==> m == MissingStatusMessage
    ensures f.IllegalArgument? ==> m == f.message
  {
    match f
    case IllegalArgument(m) => m
    case ServerError(code) => ServerErrorPrefix + JavaText.IntToString(code) + ")"
    case MissingStatus => MissingStatusMessage
    case RequestFailed(cause) => RequestFailedPrefix + CauseMessage(cause)
  }

  /** The status code can be read back from a server-error message. */
  lemma ServerErrorMessageDeterminesCode(a: int, b: int)
    requires Message(ServerError(a)) == Message(ServerError(b))
    ensures a == b
  {
    var ma, mb := Message(ServerError(a)), Message(ServerError(b));
    var sa, sb := JavaText.IntToString(a), JavaText.IntToString(b);
    var p := |ServerErrorPrefix|;
    assert sa == ma[p..|ma| - 1];
    assert sb == mb[p..|mb| - 1];
    JavaText.IntToStringInjective(a, b);
  }
}
