/**
 * The error taxonomy of errors.go: the status inside a decoded error
 * envelope picks one of six fixed kinds, and the rendered error is the
 * kind's label, ": ", and the envelope's message.
 */
module Errors {
  import opened Json

  /** The six ErrorType constants. */
  datatype ErrorKind = BadRequest | Unauthorized | Forbidden | NotFound | ServerError | GenericError

  /** The string each ErrorType constant holds. */
  function Label(k: ErrorKind): string
  {
    match k
    case BadRequest => "Bad Request"
    case Unauthorized => "Unauthorized"
    case Forbidden => "Forbidden"
    case NotFound => "Not Found"
    case ServerError => "Server Error"
    case GenericError => "Error"
  }

  /** The kind responseToError assigns for an envelope status. */
  function KindOf(status: int): (k: ErrorKind)
    ensures k == BadRequest <==> status == 400
    ensures k == Unauthorized <==> status == 401
    ensures k == Forbidden <==> status == 403
    ensures k == NotFound <==> status == 404
    ensures k == ServerError <==> status == 500
    ensures k == GenericError <==> status !in {400, 401, 403, 404, 500}
  {
    match status
    case 400 => BadRequest
    case 401 => Unauthorized
    case 403 => Forbidden
    case 404 => NotFound
    case 500 => ServerError
    case _ => GenericError
  }

  /** The "error" object of the envelope as the decoder fills it. */
  datatype ErrorBody = ErrorBody(status: int, errorType: string, message: string)

  /** The decoded envelope {"error": {...}, "url": ..., "livemode": ...}. */
  datatype ErrorEnvelope = ErrorEnvelope(url: string, livemode: bool, error: ErrorBody)

  /** A classified API error: the errorResponse that responseToError returns. */
  datatype ErrorResponse = ErrorResponse(status: int, kind: ErrorKind, message: string)
  {
    /** Error(): the kind's label, ": ", then the message. */
    function Error(): (s: string)
      ensures |s| == |Label(kind)| + 2 + |message|
      ensures s[..|Label(kind)|] == Label(kind)
      ensures s[|Label(kind)|..|Label(kind)| + 2] == ": "
      ensures s[|Label(kind)| + 2..] == message
    {
      Label(kind) + ": " + message
    }

    /** StatusCode(): the status carried in the envelope. */
    function StatusCode(): int { status }

    /** Type(): the kind. */
    function Type(): ErrorKind { kind }
  }

  /** Every error a call can return. */
  datatype ClientError =
    | ApiError(response: ErrorResponse)  // a classified error envelope
    | DecodeError(cause: string)         // a body that did not decode
    | TransportError(cause: string)      // the HTTP client's Do failed
    | BuildError(cause: string)          // http.NewRequest refused method or URL

  /**
   * responseToError, given what the decoder made of the error body: a decode
   * failure is returned as it is; otherwise the kind is chosen from the
   * envelope's status alone and whatever type the body named is dropped.
   */
  function ResponseToError(decoded: Decoding<ErrorEnvelope>): (e: ClientError)
    ensures decoded.DecodeFailed? ==> e == DecodeError(decoded.cause)
    ensures decoded.Decoded? ==>
      && e.ApiError?
      && e.response.StatusCode() == decoded.value.error.status
      && e.response.message == decoded.value.error.message
      && e.response.Type() == KindOf(decoded.value.error.status)
  {
    match decoded
    case DecodeFailed(cause) => DecodeError(cause)
    case Decoded(envelope) =>
      ApiError(ErrorResponse(envelope.error.status, KindOf(envelope.error.status), envelope.error.message))
  }

  /** The six labels start with six different letters, so Type() names the class. */
  lemma LabelsDistinct(k1: ErrorKind, k2: ErrorKind)
    requires Label(k1)[0] == Label(k2)[0]
    ensures k1 == k2
  {
  }

  /**
   * The rendered string determines the error: no two (kind, message) pairs
   * render alike.
   */
  lemma ErrorStringInjective(e1: ErrorResponse, e2: ErrorResponse)
    requires e1.Error() == e2.Error()
    ensures e1.kind == e2.kind && e1.message == e2.message
  {
    var s := e1.Error();
    assert s[0] == s[..|Label(e1.kind)|][0] == Label(e1.kind)[0];
    assert s[0] == s[..|Label(e2.kind)|][0] == Label(e2.kind)[0];
    LabelsDistinct(e1.kind, e2.kind);
  }

  /**
   * Two envelopes with the same status classify alike whatever their type
   * fields say: the kind depends on the status alone.
   */
  lemma KindIgnoresBodyType(env1: ErrorEnvelope, env2: ErrorEnvelope)
    requires env1.error.status == env2.error.status
    ensures ResponseToError(Decoded(env1)).response.kind == ResponseToError(Decoded(env2)).response.kind
  {
  }

  /** The error cases listed for the five mapped statuses and for others, rendered. */
  lemma RenderedErrors(message: string)
    ensures ResponseToError(Decoded(ErrorEnvelope("", false, ErrorBody(400, "", message)))).response.Error() == "Bad Request: " + message
    ensures ResponseToError(Decoded(ErrorEnvelope("", false, ErrorBody(401, "", message)))).response.Error() == "Unauthorized: " + message
    ensures ResponseToError(Decoded(ErrorEnvelope("", false, ErrorBody(403, "", message)))).response.Error() == "Forbidden: " + message
    ensures ResponseToError(Decoded(ErrorEnvelope("", false, ErrorBody(404, "", message)))).response.Error() == "Not Found: " + message
    ensures ResponseToError(Decoded(ErrorEnvelope("", false, ErrorBody(500, "", message)))).response.Error() == "Server Error: " + message
    ensures ResponseToError(Decoded(ErrorEnvelope("", false, ErrorBody(502, "", message)))).response.Error() == "Error: " + message
  {
    assert Label(BadRequest) + ": " == "Bad Request: ";
    assert Label(Unauthorized) + ": " == "Unauthorized: ";
    assert Label(Forbidden) + ": " == "Forbidden: ";
    assert Label(NotFound) + ": " == "Not Found: ";
    assert Label(ServerError) + ": " == "Server Error: ";
    assert Label(GenericError) + ": " == "Error: ";
  }

  /** A 404 envelope with message "not found" reads "Not Found: not found". */
  lemma NotFoundExample()
    ensures var e := ResponseToError(Decoded(ErrorEnvelope("", false, ErrorBody(404, "", "not found"))));
      e.ApiError? && e.response.Type() == NotFound && e.response.StatusCode() == 404
      && e.response.Error() == "Not Found: not found"
  {
  }
}
