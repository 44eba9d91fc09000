/** Frames, operations and errors of the wRPC transport (src/network/wrpc,
    src/platform/native/websocket_io.rs). */
module WrpcTypes {
  import opened Common

  /** The operations the transport treats alike are one constructor. */
  datatype Operation = Subscribe | SubmitTransaction | Request(code: byte)

  datatype NetworkError =
    | ConnectionFailed
    | ConnectTimeout
    | ResponseTimeout
    | SendFailed
    | UnexpectedResponse
    | MismatchedRequestId(expected: nat, actual: nat)
    | MismatchedOperation
    | RemoteError
    | TruncatedPayload
    | InvalidLength
    | InvalidEncoding

  datatype ResponseKind = Success | ErrorCode(code: byte) | Notification

  /** What a frame decodes to; `operation` is none for an unknown code. */
  datatype Decoded = Decoded(
    id: Option<nat>, operation: Option<Operation>, rawOperation: Option<byte>, kind: ResponseKind, payload: seq<byte>)

  /** A binary frame and its decoding, which is not part of this model. */
  datatype Frame = Frame(bytes: seq<byte>, decoded: Result<Decoded, NetworkError>)

  /** The frame answers the request with success: it has its id, and names its
      operation or none at all. */
  predicate Acknowledges(frame: Frame, requestId: nat, operation: Operation) {
    && frame.decoded.Ok?
    && var decoded := frame.decoded.value;
       && decoded.id == Some(requestId) && decoded.kind == Success
       && (decoded.rawOperation == None || decoded.operation == Some(operation))
  }

  /** The payload of a successful response to the expected request. */
  function ValidateResponse(frame: Frame, expectedId: nat, expected: Operation): (r: Result<seq<byte>, NetworkError>)
    ensures r.Ok? <==> Acknowledges(frame, expectedId, expected)
    ensures r.Ok? ==> r.value == frame.decoded.value.payload
  {
    var decoded :- frame.decoded;
    if decoded.id.None? then Err(UnexpectedResponse)
    else if decoded.id.value != expectedId then Err(MismatchedRequestId(expectedId, decoded.id.value))
    else if decoded.rawOperation.Some? && decoded.operation != Some(expected) then Err(MismatchedOperation)
    else
      match decoded.kind
      case Success => Ok(decoded.payload)
      case ErrorCode(_) => Err(RemoteError)
      case Notification => Err(UnexpectedResponse)
  }

  predicate ReconnectableTransportError(error: NetworkError) {
    error.ConnectionFailed? || error.ConnectTimeout? || error.ResponseTimeout? || error.SendFailed?
  }
}
