/** `HttpRequest` of the `library` module: the same registry and lifecycle as
    in `http-requests`, but with no configuration of its own. Every request uses
    the constant defaults (timeout 10 000 ms, no retries, backoff 1.5), sends no
    headers, and `processUrl` returns the URL unchanged. */
module Library {
  import opened Base
  import opened RequestCodes
  import opened RequestErrors
  import opened UrlParams
  import opened Registry

  const DEFAULT_REQUEST_TIMEOUT: int32 := 10 * 1000
  const DEFAULT_REQUEST_RETRIES: int32 := 0
  /** 1.5f */
  const DEFAULT_RETRY_BACKOFF: Float := Float(0x3FC0_0000)
  const DEFAULT_ENCODING: string := "UTF-8"

  const NOT_INITIALISED: Exception := IllegalStateException("HttpRequest needs to be initialised before used.")

  /** `processUrl`: the parameter loop is commented out, so the URL comes back
      as it went in — what the `http-requests` version does with no
      parameters. */
  function ProcessUrl(url: string): (r: string)
    ensures r == ProcessedUrl(url, [])
  {
    url
  }

  /** The timeout of a request: the explicit one, or the constant default for
      the overloads that take none. */
  function TimeoutOrDefault(timeout: Option<int32>): (t: int32)
    ensures timeout.None? ==> t == DEFAULT_REQUEST_TIMEOUT
    ensures timeout.Some? ==> t == timeout.value
  {
    if timeout.Some? then timeout.value else DEFAULT_REQUEST_TIMEOUT
  }

  class HttpRequest {
    /** `sRequestMap`: request code to in-flight request. */
    var requestMap: map<int32, Entry>
    /** `sRequestQueue != null`. */
    var initialised: bool
    /** This module's own `RequestCodeGenerator`. */
    const generator: RequestCodeGenerator

    var submissions: seq<Submission>
    var cancelled: seq<int32>
    var fired: seq<Event>

    ghost predicate Valid()
      reads this, generator
    {
      generator.Valid()
    }

    function Lifecycle(): State
      reads this
    {
      State(requestMap, fired, cancelled)
    }

    constructor (generator: RequestCodeGenerator)
      requires generator.Valid()
      ensures Valid() && this.generator == generator
      ensures !initialised && Lifecycle() == Initial && submissions == []
    {
      this.generator := generator;
      requestMap := map[];
      initialised := false;
      submissions := [];
      cancelled := [];
      fired := [];
    }

    /** `init`: creates the transport queue unless it exists already. */
    method Init()
      modifies this`initialised
      ensures initialised
    {
      if !initialised {
        initialised := true;
      }
    }

    /** `isInitialised`: whether `init` has created the transport queue. */
    predicate IsInitialised(): (b: bool)
      reads this
      ensures b <==> initialised
    {
      initialised
    }

    /** `checkInitialisation`. */
    function CheckInitialisation(): (r: Outcome)
      reads this
      ensures r.Normal? <==> IsInitialised()
      ensures r.Thrown? ==> r.exception == NOT_INITIALISED
    {
      if !IsInitialised() then Thrown(NOT_INITIALISED) else Normal
    }

    /** `cancel`: true exactly when the code is registered. */
    method Cancel(code: int32) returns (ok: bool)
      modifies this`requestMap, this`cancelled
      ensures ok <==> code in old(requestMap)
      ensures requestMap == old(requestMap) - {code}
      ensures cancelled == old(cancelled) + (if ok then [code] else [])
      ensures Lifecycle() == Step(old(Lifecycle()), Op.Cancel(code))
    {
      if code in requestMap {
        requestMap := requestMap - {code};
        cancelled := cancelled + [code];
        return true;
      }
      return false;
    }

    /** What `request` does: before `init` it throws and changes nothing;
        afterwards it registers a fresh code and submits the URL unchanged with
        the constant retry policy. */
    twostate predicate Requested(httpMethod: Method, callback: Option<Callback>, url: string, body: Option<Json>,
                                 timeout: Option<int32>, new r: Result<int32>)
      reads this, generator
    {
      if !old(initialised) then
        && r == Failure(NOT_INITIALISED)
        && generator.lastRequestCode == old(generator.lastRequestCode)
        && Lifecycle() == old(Lifecycle())
        && submissions == old(submissions)
      else
        && r.Success?
        && r.value == generator.lastRequestCode == NextCode(old(generator.lastRequestCode))
        && requestMap == old(requestMap)[r.value := NewEntry(callback, body)]
        && Lifecycle() == Step(old(Lifecycle()), Register(r.value, NewEntry(callback, body)))
        && submissions == old(submissions) +
             [Submission(r.value, httpMethod, url, TimeoutOrDefault(timeout), DEFAULT_REQUEST_RETRIES, DEFAULT_RETRY_BACKOFF)]
    }

    /** `request`, both overloads: `timeout` is None for the one that uses the
        default. */
    method Request(httpMethod: Method, callback: Option<Callback>, url: string, body: Option<Json>,
                   timeout: Option<int32>) returns (r: Result<int32>)
      requires Valid()
      modifies this`requestMap, this`submissions, generator
      ensures Valid()
      ensures Requested(httpMethod, callback, url, body, timeout, r)
      ensures r.Success? ==> 1 <= r.value <= MAX_REQUEST_CODE
    {
      var check := CheckInitialisation();
      if check.Thrown? {
        return Failure(check.exception);
      }
      var code := generator.Generate();
      requestMap := requestMap[code := NewEntry(callback, body)];
      var processed := ProcessUrl(url);
      submissions := submissions + [Submission(code, httpMethod, processed, TimeoutOrDefault(timeout),
                                               DEFAULT_REQUEST_RETRIES, DEFAULT_RETRY_BACKOFF)];
      r := Success(code);
    }

    /** `get`, both overloads. */
    method Get(callback: Option<Callback>, url: string, timeout: Option<int32>) returns (r: Result<int32>)
      requires Valid()
      modifies this`requestMap, this`submissions, generator
      ensures Valid()
      ensures Requested(GET, callback, url, None, timeout, r)
    {
      r := Request(GET, callback, url, None, timeout);
    }

    /** `post`, both overloads. */
    method Post(callback: Option<Callback>, url: string, body: Json, timeout: Option<int32>) returns (r: Result<int32>)
      requires Valid()
      modifies this`requestMap, this`submissions, generator
      ensures Valid()
      ensures Requested(POST, callback, url, Some(body), timeout, r)
    {
      r := Request(POST, callback, url, Some(body), timeout);
    }

    /** `put`, both overloads. */
    method Put(callback: Option<Callback>, url: string, body: Json, timeout: Option<int32>) returns (r: Result<int32>)
      requires Valid()
      modifies this`requestMap, this`submissions, generator
      ensures Valid()
      ensures Requested(PUT, callback, url, Some(body), timeout, r)
    {
      r := Request(PUT, callback, url, Some(body), timeout);
    }

    /** `delete`, both overloads. */
    method Delete(callback: Option<Callback>, url: string, timeout: Option<int32>) returns (r: Result<int32>)
      requires Valid()
      modifies this`requestMap, this`submissions, generator
      ensures Valid()
      ensures Requested(DELETE, callback, url, None, timeout, r)
    {
      r := Request(DELETE, callback, url, None, timeout);
    }

    /** The success listener; throws when the entry is gone. */
    method OnResponse(code: int32, response: string) returns (o: Outcome)
      modifies this`requestMap, this`fired
      ensures Lifecycle() == Step(old(Lifecycle()), Respond(code, response))
      ensures code !in requestMap
      ensures o == if code in old(requestMap) then Normal else Thrown(NullPointerException)
      ensures code in old(requestMap) && old(requestMap)[code].callback.Some? ==>
                fired == old(fired) + [RequestComplete(old(requestMap)[code].callback.value, code, response)]
      ensures code !in old(requestMap) || old(requestMap)[code].callback.None? ==> fired == old(fired)
    {
      if code !in requestMap {
        return Thrown(NullPointerException);
      }
      var request := requestMap[code];
      requestMap := requestMap - {code};
      if request.callback.Some? {
        fired := fired + [RequestComplete(request.callback.value, code, response)];
      }
      o := Normal;
    }

    /** `handleError`; throws when the entry is gone. */
    method HandleError(code: int32, error: VolleyError) returns (o: Outcome)
      modifies this`requestMap, this`fired
      ensures Lifecycle() == Step(old(Lifecycle()), Fail(code, error))
      ensures code !in requestMap
      ensures o == if code in old(requestMap) then Normal else Thrown(NullPointerException)
      ensures code in old(requestMap) && old(requestMap)[code].callback.Some? ==>
                fired == old(fired) + [RequestFailed(old(requestMap)[code].callback.value, code, FromVolleyError(error))]
      ensures code !in old(requestMap) || old(requestMap)[code].callback.None? ==> fired == old(fired)
    {
      if code !in requestMap {
        return Thrown(NullPointerException);
      }
      var request := requestMap[code];
      requestMap := requestMap - {code};
      if request.callback.Some? {
        fired := fired + [RequestFailed(request.callback.value, code, FromVolleyError(error))];
      }
      o := Normal;
    }
  }
}
