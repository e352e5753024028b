/** `HttpRequestError`: the three-way classification of a transport failure
    (server error with status and body, network error, anything else). The
    transport's error classes are given as a datatype; the classified error is a
    value whose fields are set once, by the classifying constructor. */
module RequestErrors {
  import opened Base

  /** The Volley error class a failure was raised as. `NoConnectionError` is a
      subclass of `NetworkError`; every other class (timeouts, authentication
      failures, parse errors, a plain `VolleyError`) is `OtherErrorKind`. */
  datatype ErrorKind = ServerErrorKind | NoConnectionErrorKind | NetworkErrorKind | OtherErrorKind

  /** The HTTP response a failure may carry; `data` is the body, already
      decoded to text, and may be absent. */
  datatype NetworkResponse = NetworkResponse(statusCode: int32, data: Option<string>)

  /** A transport failure: its class, the response it carries if any, and its
      own (possibly null) message. */
  datatype VolleyError = VolleyError(kind: ErrorKind, networkResponse: Option<NetworkResponse>, message: Option<string>)

  const ERROR_TYPE_SERVER: int32 := 1
  const ERROR_TYPE_NETWORK: int32 := 2
  const ERROR_TYPE_OTHER: int32 := 3

  const OFFLINE_MESSAGE: string := "Offline, check your internet connection"

  datatype HttpRequestError = HttpRequestError(errorType: int32, message: Option<string>, statusCode: int32)
  {
    /** What the classifying constructor guarantees of every error it builds:
        one of the three types, status -1 unless a server error, and the
        offline message on a network error. */
    predicate WellFormed()
    {
      && (errorType == ERROR_TYPE_SERVER || errorType == ERROR_TYPE_NETWORK || errorType == ERROR_TYPE_OTHER)
      && (errorType != ERROR_TYPE_SERVER ==> statusCode == -1)
      && (errorType == ERROR_TYPE_NETWORK ==> message == Some(OFFLINE_MESSAGE))
    }

    /** `isServerError`: never true together with `isNetworkError`. */
    predicate IsServerError(): (b: bool)
      ensures b ==> !IsNetworkError()
    {
      errorType == ERROR_TYPE_SERVER
    }

    /** `isNetworkError`: never true of a server error. */
    predicate IsNetworkError(): (b: bool)
      ensures b ==> errorType != ERROR_TYPE_SERVER
    {
      errorType == ERROR_TYPE_NETWORK
    }

    /** `getMessage`: on a network error, the fixed offline message. */
    function GetMessage(): (m: Option<string>)
      ensures WellFormed() && IsNetworkError() ==> m == Some(OFFLINE_MESSAGE)
    {
      message
    }

    /** `returnStatusCode`: the HTTP status of a server error, -1 otherwise. */
    function ReturnStatusCode(): (s: int32)
      ensures WellFormed() && !IsServerError() ==> s == -1
    {
      statusCode
    }
  }

  /** The failure is a `ServerError` that carries a response with a body. */
  predicate CarriesServerResponse(error: VolleyError)
  {
    && error.kind == ServerErrorKind
    && error.networkResponse.Some?
    && error.networkResponse.value.data.Some?
  }

  /** The failure is a `NoConnectionError` or a `NetworkError`. */
  predicate IsConnectivityFailure(error: VolleyError)
  {
    error.kind == NoConnectionErrorKind || error.kind == NetworkErrorKind
  }

  /** The constructor `HttpRequestError(VolleyError)`. */
  function FromVolleyError(error: VolleyError): (r: HttpRequestError)
    ensures r.WellFormed()
    // exactly one of the three types
    ensures r.errorType == ERROR_TYPE_SERVER || r.errorType == ERROR_TYPE_NETWORK || r.errorType == ERROR_TYPE_OTHER
    ensures !(r.IsServerError() && r.IsNetworkError())
    // which one
    ensures r.IsServerError() <==> CarriesServerResponse(error)
    ensures r.IsNetworkError() <==> !CarriesServerResponse(error) && IsConnectivityFailure(error)
    // what it carries
    ensures r.IsServerError() ==>
              && r.GetMessage() == error.networkResponse.value.data
              && r.ReturnStatusCode() == error.networkResponse.value.statusCode
    ensures r.IsNetworkError() ==> r.GetMessage() == Some(OFFLINE_MESSAGE)
    ensures !r.IsServerError() && !r.IsNetworkError() ==> r.GetMessage() == error.message
    ensures !r.IsServerError() ==> r.ReturnStatusCode() == -1
  {
    if CarriesServerResponse(error) then
      HttpRequestError(ERROR_TYPE_SERVER, error.networkResponse.value.data, error.networkResponse.value.statusCode)
    else if IsConnectivityFailure(error) then
      HttpRequestError(ERROR_TYPE_NETWORK, Some(OFFLINE_MESSAGE), -1)
    else
      HttpRequestError(ERROR_TYPE_OTHER, error.message, -1)
  }

  /** A server error whose response or body is missing is not a server error:
      it falls through to the later cases. */
  lemma ServerErrorWithoutBody(error: VolleyError)
    requires error.kind == ServerErrorKind
    requires error.networkResponse.None? || error.networkResponse.value.data.None?
    ensures !FromVolleyError(error).IsServerError() && !FromVolleyError(error).IsNetworkError()
    ensures FromVolleyError(error).GetMessage() == error.message
    ensures FromVolleyError(error).ReturnStatusCode() == -1
  {
  }
}
