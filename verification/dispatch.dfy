/** `sendRequest`: the request an endpoint and a parameter map produce, and
    the decision that turns the outcome of building the URL, of the transport
    and of the two decode attempts into exactly one result. URL construction,
    the transport and JSON decoding are inputs here: functions the caller
    supplies, over values this model does not look inside. */
module Dispatch {
  import opened Wrappers
  import opened Enums
  import opened Entities

  /** The address every endpoint path is appended to. */
  const ApiBase: string := "https://newsapi.org/v2/"

  newtype byte = x: int | 0 <= x < 256

  /** A response body. */
  type Data = seq<byte>

  /** What the client asks the transport for: the full path and the query
      items (an unordered map, as the URL components receive them). */
  datatype Request = Request(path: string, query: map<string, string>)

  /** The closed set of failures a call can report. */
  datatype NetworkError =
    | InvalidUrl
    | FailedRequest
    | ApiError(response: ErrorResponse)  // the API's own error payload
    | DecodingError

  /** The request for an endpoint: the base address followed by the
      endpoint's wire value, with the parameters as query items. */
  function RequestTo(endpoint: Endpoint, params: map<string, string>): (r: Request)
    ensures |ApiBase| <= |r.path| && r.path[..|ApiBase|] == ApiBase
    ensures EndpointFromRaw(r.path[|ApiBase|..]) == Some(endpoint)
    ensures r.query == params
  {
    var path := ApiBase + EndpointRaw(endpoint);
    assert path[|ApiBase|..] == EndpointRaw(endpoint);
    Request(path, params)
  }

  /** Different endpoints are never sent to the same path. */
  lemma RequestPathsDistinct(e1: Endpoint, e2: Endpoint, p1: map<string, string>, p2: map<string, string>)
    requires e1 != e2
    ensures RequestTo(e1, p1).path != RequestTo(e2, p2).path
  {
  }

  /** Whether an error payload is one the client reports as the API's error:
      anything but the success status. */
  predicate ReportableError(e: ErrorResponse)
  {
    e.status != OkStatus
  }

  /** The URL for the request cannot be built. */
  predicate NoUrl(request: Request, urlBuilds: Request -> bool)
  {
    !urlBuilds(request)
  }

  /** The URL builds but the transport gives no reply. */
  predicate NoReply(request: Request, urlBuilds: Request -> bool, send: Request -> Option<Data>)
  {
    urlBuilds(request) && send(request).None?
  }

  /** A reply arrives and decodes as the expected shape. */
  predicate BodyDecodes<T>(
    request: Request, urlBuilds: Request -> bool, send: Request -> Option<Data>,
    decodeBody: Data -> Option<T>)
  {
    urlBuilds(request) && send(request).Some? && decodeBody(send(request).value).Some?
  }

  /** A reply arrives, is not the expected shape, and is an error payload
      whose status is not `ok`. */
  predicate ErrorReported<T>(
    request: Request, urlBuilds: Request -> bool, send: Request -> Option<Data>,
    decodeBody: Data -> Option<T>, decodeError: Data -> Option<ErrorResponse>)
  {
    && urlBuilds(request) && send(request).Some?
    && decodeBody(send(request).value).None?
    && decodeError(send(request).value).Some?
    && ReportableError(decodeError(send(request).value).value)
  }

  /** A reply arrives and is neither the expected shape nor a reportable
      error payload. */
  predicate Undecodable<T>(
    request: Request, urlBuilds: Request -> bool, send: Request -> Option<Data>,
    decodeBody: Data -> Option<T>, decodeError: Data -> Option<ErrorResponse>)
  {
    && urlBuilds(request) && send(request).Some?
    && decodeBody(send(request).value).None?
    && (decodeError(send(request).value).None?
        || !ReportableError(decodeError(send(request).value).value))
  }

  /** The decision of `sendRequest`, in the source's order: no URL, no
      reply, the expected shape, then the error shape (only when its status is
      not `ok`), and a decoding error for everything else. */
  function SendRequest<T>(
    request: Request,
    urlBuilds: Request -> bool,
    send: Request -> Option<Data>,
    decodeBody: Data -> Option<T>,
    decodeError: Data -> Option<ErrorResponse>
  ): (r: Result<T, NetworkError>)
    ensures r == Failure(InvalidUrl) <==> NoUrl(request, urlBuilds)
    ensures r == Failure(FailedRequest) <==> NoReply(request, urlBuilds, send)
    ensures r.Success? <==> BodyDecodes(request, urlBuilds, send, decodeBody)
    ensures r.Success? ==> decodeBody(send(request).value) == Some(r.value)
    ensures r.Failure? && r.error.ApiError? <==>
      ErrorReported(request, urlBuilds, send, decodeBody, decodeError)
    ensures r.Failure? && r.error.ApiError? ==>
      decodeError(send(request).value) == Some(r.error.response)
    ensures r == Failure(DecodingError) <==>
      Undecodable(request, urlBuilds, send, decodeBody, decodeError)
  {
    if !urlBuilds(request) then Failure(InvalidUrl)
    else match send(request)
      case None => Failure(FailedRequest)
      case Some(data) =>
        match decodeBody(data)
        case Some(decoded) => Success(decoded)
        case None =>
          match decodeError(data)
          case None => Failure(DecodingError)
          case Some(decodedError) =>
            if decodedError.status == OkStatus then Failure(DecodingError)
            else Failure(ApiError(decodedError))
  }

  /** An error payload that says `ok` never reaches the caller as an API
      error. */
  lemma OkStatusNeverReported<T>(
    request: Request, urlBuilds: Request -> bool, send: Request -> Option<Data>,
    decodeBody: Data -> Option<T>, decodeError: Data -> Option<ErrorResponse>)
    ensures var r := SendRequest(request, urlBuilds, send, decodeBody, decodeError);
      r.Failure? && r.error.ApiError? ==> r.error.response.status != OkStatus
  {
  }

  /** When the URL cannot be built, the transport is never consulted: the
      result is the same whatever it would have answered. */
  lemma NoTransportWithoutUrl<T>(
    request: Request, urlBuilds: Request -> bool,
    send1: Request -> Option<Data>, send2: Request -> Option<Data>,
    decodeBody: Data -> Option<T>, decodeError: Data -> Option<ErrorResponse>)
    requires !urlBuilds(request)
    ensures SendRequest(request, urlBuilds, send1, decodeBody, decodeError)
         == SendRequest(request, urlBuilds, send2, decodeBody, decodeError)
  {
  }

  /** When the expected shape decodes, the error decoder is never consulted. */
  lemma NoErrorDecodeOnSuccess<T>(
    request: Request, urlBuilds: Request -> bool, send: Request -> Option<Data>,
    decodeBody: Data -> Option<T>,
    decodeError1: Data -> Option<ErrorResponse>, decodeError2: Data -> Option<ErrorResponse>)
    requires urlBuilds(request) && send(request).Some?
    requires decodeBody(send(request).value).Some?
    ensures SendRequest(request, urlBuilds, send, decodeBody, decodeError1)
         == SendRequest(request, urlBuilds, send, decodeBody, decodeError2)
  {
  }

  /** The five situations `sendRequest` distinguishes cover every input, and
      no input is in two of them, so each call has one well-defined outcome. */
  lemma ConditionsPartitionInputs<T>(
    request: Request, urlBuilds: Request -> bool, send: Request -> Option<Data>,
    decodeBody: Data -> Option<T>, decodeError: Data -> Option<ErrorResponse>)
    ensures var c1 := NoUrl(request, urlBuilds);
      var c2 := NoReply(request, urlBuilds, send);
      var c3 := BodyDecodes(request, urlBuilds, send, decodeBody);
      var c4 := ErrorReported(request, urlBuilds, send, decodeBody, decodeError);
      var c5 := Undecodable(request, urlBuilds, send, decodeBody, decodeError);
      && (c1 || c2 || c3 || c4 || c5)
      && !(c1 && c2) && !(c1 && c3) && !(c1 && c4) && !(c1 && c5)
      && !(c2 && c3) && !(c2 && c4) && !(c2 && c5)
      && !(c3 && c4) && !(c3 && c5)
      && !(c4 && c5)
  {
  }
}
