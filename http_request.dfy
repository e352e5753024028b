/** `HttpRequest` of the `http-requests` module: process-wide configuration
    (timeout, retries, backoff, encoding, persistent headers and URL
    parameters), the request registry, and the request / cancel / deliver
    lifecycle. The static fields of the Java class are the fields of one object
    of the class below. The transport (Volley's queue) is a log of submissions
    and of cancellations; the application's callbacks are a log of fired events. */
module Http {
  import opened Base
  import opened RequestCodes
  import opened RequestErrors
  import opened UrlParams
  import opened Registry
  import opened Charsets

  const DEFAULT_REQUEST_TIMEOUT: int32 := 10 * 1000
  const DEFAULT_REQUEST_RETRIES: int32 := 0
  /** 1.5f */
  const DEFAULT_RETRY_BACKOFF: Float := Float(0x3FC0_0000)
  const DEFAULT_ENCODING: string := "UTF-8"

  const NOT_INITIALISED: Exception := IllegalStateException("HttpRequest needs to be initialised before used.")

  /** The timeout a request is submitted with: the explicit one, or the
      configured default for the overloads that take none. */
  function TimeoutOr(timeout: Option<int32>, default: int32): (t: int32)
    ensures timeout.None? ==> t == default
    ensures timeout.Some? ==> t == timeout.value
  {
    if timeout.Some? then timeout.value else default
  }

  class HttpRequest {
    // retry policy and encoding
    var requestTimeout: int32
    var requestRetries: int32
    var retryBackoff: Float
    var encoding: string

    // persistent headers and URL parameters, created on first use
    var requestHeaders: Option<map<string, string>>
    var requestUrlParams: Option<map<string, string>>

    /** `sRequestMap`: request code to in-flight request. */
    var requestMap: map<int32, Entry>
    /** `sRequestQueue != null`. */
    var initialised: bool
    /** The process-wide `RequestCodeGenerator`. */
    const generator: RequestCodeGenerator

    /** What the transport has been handed, and asked to cancel. */
    var submissions: seq<Submission>
    var cancelled: seq<int32>
    /** The callbacks invoked so far. */
    var fired: seq<Event>

    ghost predicate Valid()
      reads this, generator
    {
      generator.Valid()
    }

    /** The registry part of the state, as the lifecycle semantics sees it. */
    function Lifecycle(): State
      reads this
    {
      State(requestMap, fired, cancelled)
    }

    function UrlParameters(): map<string, string>
      reads this
    {
      MapOf(requestUrlParams)
    }

    /** `getHeaders()` of every submitted request: the live header map. */
    function Headers(): map<string, string>
      reads this
    {
      MapOf(requestHeaders)
    }

    /** The static initial state. */
    constructor (generator: RequestCodeGenerator)
      requires generator.Valid()
      ensures Valid() && this.generator == generator
      ensures requestTimeout == DEFAULT_REQUEST_TIMEOUT && requestRetries == DEFAULT_REQUEST_RETRIES
      ensures retryBackoff == DEFAULT_RETRY_BACKOFF && encoding == DEFAULT_ENCODING
      ensures requestHeaders.None? && requestUrlParams.None?
      ensures !initialised && Lifecycle() == Initial && submissions == []
    {
      this.generator := generator;
      requestTimeout := DEFAULT_REQUEST_TIMEOUT;
      requestRetries := DEFAULT_REQUEST_RETRIES;
      retryBackoff := DEFAULT_RETRY_BACKOFF;
      encoding := DEFAULT_ENCODING;
      requestHeaders := None;
      requestUrlParams := None;
      requestMap := map[];
      initialised := false;
      submissions := [];
      cancelled := [];
      fired := [];
    }

    method SetRequestTimeout(requestTimeout: int32)
      modifies this`requestTimeout
      ensures this.requestTimeout == requestTimeout
    {
      this.requestTimeout := requestTimeout;
    }

    method SetRequestRetries(requestRetries: int32)
      modifies this`requestRetries
      ensures this.requestRetries == requestRetries
    {
      this.requestRetries := requestRetries;
    }

    method SetRetryBackoff(retryBackoff: Float)
      modifies this`retryBackoff
      ensures this.retryBackoff == retryBackoff
    {
      this.retryBackoff := retryBackoff;
    }

    /** `setEncoding`: only a name of an available charset, in any case, is
        taken, and it is kept as given. */
    method SetEncoding(encoding: string, availableCharsets: set<string>)
      modifies this`encoding
      ensures CharsetAvailable(encoding, availableCharsets) ==> this.encoding == encoding
      ensures !CharsetAvailable(encoding, availableCharsets) ==> this.encoding == old(this.encoding)
    {
      if CharsetAvailable(encoding, availableCharsets) {
        this.encoding := encoding;
      }
    }

    /** `init`: creates the transport queue unless it exists already. */
    method Init()
      modifies this`initialised
      ensures initialised
    {
      if !initialised {
        initialised := true;
      }
    }

    /** `isInitialised`: whether `init` has created the transport queue. */
    predicate IsInitialised(): (b: bool)
      reads this
      ensures b <==> initialised
    {
      initialised
    }

    /** `checkInitialisation`. */
    function CheckInitialisation(): (r: Outcome)
      reads this
      ensures r.Normal? <==> IsInitialised()
      ensures r.Thrown? ==> r.exception == NOT_INITIALISED
    {
      if !IsInitialised() then Thrown(NOT_INITIALISED) else Normal
    }

    method AddHeader(header: string, value: string)
      modifies this`requestHeaders
      ensures requestHeaders.Some?
      ensures Headers() == old(Headers())[header := value]
    {
      if requestHeaders.None? {
        requestHeaders := Some(map[]);
      }
      requestHeaders := Some(requestHeaders.value[header := value]);
    }

    /** `removeHeader`: true exactly when the header was there. */
    method RemoveHeader(header: string) returns (removed: bool)
      modifies this`requestHeaders
      ensures removed <==> header in old(Headers())
      ensures Headers() == old(Headers()) - {header}
      ensures requestHeaders.None? <==> old(requestHeaders).None?
    {
      if requestHeaders.None? {
        return false;
      }
      removed := header in requestHeaders.value;
      requestHeaders := Some(requestHeaders.value - {header});
    }

    method AddUrlParameter(parameter: string, value: string)
      modifies this`requestUrlParams
      ensures requestUrlParams.Some?
      ensures UrlParameters() == old(UrlParameters())[parameter := value]
    {
      if requestUrlParams.None? {
        requestUrlParams := Some(map[]);
      }
      requestUrlParams := Some(requestUrlParams.value[parameter := value]);
    }

    /** `removeUrlParameter`: true exactly when the parameter was there. */
    method RemoveUrlParameter(parameter: string) returns (removed: bool)
      modifies this`requestUrlParams
      ensures removed <==> parameter in old(UrlParameters())
      ensures UrlParameters() == old(UrlParameters()) - {parameter}
      ensures requestUrlParams.None? <==> old(requestUrlParams).None?
    {
      if requestUrlParams.None? {
        return false;
      }
      removed := parameter in requestUrlParams.value;
      requestUrlParams := Some(requestUrlParams.value - {parameter});
    }

    /** `cancel`: true exactly when the code is registered; the entry is
        removed and the transport is asked to cancel it. */
    method Cancel(code: int32) returns (ok: bool)
      modifies this`requestMap, this`cancelled
      ensures ok <==> code in old(requestMap)
      ensures requestMap == old(requestMap) - {code}
      ensures cancelled == old(cancelled) + (if ok then [code] else [])
      ensures Lifecycle() == Step(old(Lifecycle()), Op.Cancel(code))
    {
      if code in requestMap {
        requestMap := requestMap - {code};
        cancelled := cancelled + [code];
        return true;
      }
      return false;
    }

    /** `processUrl`: appends every persistent URL parameter, visited in the
        hash map's order `order`. */
    method ProcessUrl(url: string, order: seq<string>) returns (r: string)
      requires IsEnumeration(order, UrlParameters().Keys)
      ensures r == ProcessedUrl(url, Entries(UrlParameters(), order))
    {
      r := url;
      if requestUrlParams.Some? {
        var params := Entries(requestUrlParams.value, order);
        for i := 0 to |params|
          invariant r == ProcessedUrl(url, params[..i])
        {
          ProcessedUrlAppend(url, params[..i], params[i]);
          assert params[..i + 1] == params[..i] + [params[i]];
          ghost var before := r;
          var sep := if '?' !in r then '?' else '&';
          r := r + [sep];
          r := r + params[i].0 + "=" + params[i].1;
          assert r == before + Segment(sep, params[i]);
        }
        assert params[..|params|] == params;
      } else {
        EmptyEnumeration(order, UrlParameters().Keys);
      }
    }

    /** What `request(method, callback, url, body[, timeout])` does: before
        `init` it throws and changes nothing; afterwards it registers a fresh
        code and hands the transport the method, the processed URL, the
        timeout, and the configured retries and backoff. */
    twostate predicate Requested(httpMethod: Method, callback: Option<Callback>, url: string, body: Option<Json>,
                                 timeout: Option<int32>, order: seq<string>, new r: Result<int32>)
      requires IsEnumeration(order, old(UrlParameters()).Keys)
      reads this, generator
    {
      if !old(initialised) then
        && r == Failure(NOT_INITIALISED)
        && generator.lastRequestCode == old(generator.lastRequestCode)
        && Lifecycle() == old(Lifecycle())
        && submissions == old(submissions)
      else
        && r.Success?
        && r.value == generator.lastRequestCode == NextCode(old(generator.lastRequestCode))
        && requestMap == old(requestMap)[r.value := NewEntry(callback, body)]
        && Lifecycle() == Step(old(Lifecycle()), Register(r.value, NewEntry(callback, body)))
        && submissions == old(submissions) +
             [Submission(r.value, httpMethod, ProcessedUrl(url, Entries(old(UrlParameters()), order)),
                         TimeoutOr(timeout, old(requestTimeout)), old(requestRetries), old(retryBackoff))]
    }

    /** `request`, both overloads: `timeout` is None for the one that uses the
        configured default. */
    method Request(httpMethod: Method, callback: Option<Callback>, url: string, body: Option<Json>,
                   timeout: Option<int32>, order: seq<string>) returns (r: Result<int32>)
      requires Valid()
      requires IsEnumeration(order, UrlParameters().Keys)
      modifies this`requestMap, this`submissions, generator
      ensures Valid()
      ensures Requested(httpMethod, callback, url, body, timeout, order, r)
      ensures r.Success? ==> 1 <= r.value <= MAX_REQUEST_CODE
    {
      var t := TimeoutOr(timeout, requestTimeout);
      var check := CheckInitialisation();
      if check.Thrown? {
        return Failure(check.exception);
      }
      var code := generator.Generate();
      requestMap := requestMap[code := NewEntry(callback, body)];
      var processed := ProcessUrl(url, order);
      submissions := submissions + [Submission(code, httpMethod, processed, t, requestRetries, retryBackoff)];
      r := Success(code);
    }

    /** `get`, both overloads. */
    method Get(callback: Option<Callback>, url: string, timeout: Option<int32>, order: seq<string>)
      returns (r: Result<int32>)
      requires Valid()
      requires IsEnumeration(order, UrlParameters().Keys)
      modifies this`requestMap, this`submissions, generator
      ensures Valid()
      ensures Requested(GET, callback, url, None, timeout, order, r)
    {
      r := Request(GET, callback, url, None, timeout, order);
    }

    /** `post`, both overloads. */
    method Post(callback: Option<Callback>, url: string, body: Json, timeout: Option<int32>, order: seq<string>)
      returns (r: Result<int32>)
      requires Valid()
      requires IsEnumeration(order, UrlParameters().Keys)
      modifies this`requestMap, this`submissions, generator
      ensures Valid()
      ensures Requested(POST, callback, url, Some(body), timeout, order, r)
    {
      r := Request(POST, callback, url, Some(body), timeout, order);
    }

    /** `put`, both overloads. */
    method Put(callback: Option<Callback>, url: string, body: Json, timeout: Option<int32>, order: seq<string>)
      returns (r: Result<int32>)
      requires Valid()
      requires IsEnumeration(order, UrlParameters().Keys)
      modifies this`requestMap, this`submissions, generator
      ensures Valid()
      ensures Requested(PUT, callback, url, Some(body), timeout, order, r)
    {
      r := Request(PUT, callback, url, Some(body), timeout, order);
    }

    /** `delete`, both overloads. */
    method Delete(callback: Option<Callback>, url: string, timeout: Option<int32>, order: seq<string>)
      returns (r: Result<int32>)
      requires Valid()
      requires IsEnumeration(order, UrlParameters().Keys)
      modifies this`requestMap, this`submissions, generator
      ensures Valid()
      ensures Requested(DELETE, callback, url, None, timeout, order, r)
    {
      r := Request(DELETE, callback, url, None, timeout, order);
    }

    /** The success listener: removes the entry and hands the response to the
        callback, if there is one. With no entry (already cancelled or
        delivered) it throws, as the source dereferences the missing entry. */
    method OnResponse(code: int32, response: string) returns (o: Outcome)
      modifies this`requestMap, this`fired
      ensures Lifecycle() == Step(old(Lifecycle()), Respond(code, response))
      ensures code !in requestMap
      ensures o == if code in old(requestMap) then Normal else Thrown(NullPointerException)
      ensures code in old(requestMap) && old(requestMap)[code].callback.Some? ==>
                fired == old(fired) + [RequestComplete(old(requestMap)[code].callback.value, code, response)]
      ensures code !in old(requestMap) || old(requestMap)[code].callback.None? ==> fired == old(fired)
    {
      if code !in requestMap {
        return Thrown(NullPointerException);
      }
      var request := requestMap[code];
      requestMap := requestMap - {code};
      if request.callback.Some? {
        fired := fired + [RequestComplete(request.callback.value, code, response)];
      }
      o := Normal;
    }

    /** `handleError`: removes the entry and hands the classified error to the
        callback, if there is one; throws when there is no entry. */
    method HandleError(code: int32, error: VolleyError) returns (o: Outcome)
      modifies this`requestMap, this`fired
      ensures Lifecycle() == Step(old(Lifecycle()), Fail(code, error))
      ensures code !in requestMap
      ensures o == if code in old(requestMap) then Normal else Thrown(NullPointerException)
      ensures code in old(requestMap) && old(requestMap)[code].callback.Some? ==>
                fired == old(fired) + [RequestFailed(old(requestMap)[code].callback.value, code, FromVolleyError(error))]
      ensures code !in old(requestMap) || old(requestMap)[code].callback.None? ==> fired == old(fired)
    {
      if code !in requestMap {
        return Thrown(NullPointerException);
      }
      var request := requestMap[code];
      requestMap := requestMap - {code};
      if request.callback.Some? {
        fired := fired + [RequestFailed(request.callback.value, code, FromVolleyError(error))];
      }
      o := Normal;
    }
  }
}
