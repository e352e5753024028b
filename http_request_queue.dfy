/** `HttpRequestQueue` of the `http-requests` module: requests queued up
    before `execute` and then sent one at a time, each after the previous one
    completed, through `HttpRequest`. The results are collected in order and
    handed to the queue's own callback once the queue runs dry.

    The queue registers itself as the callback of every request it sends, and
    `HttpRequest` routes a success to the queue's `onRequestComplete`. As
    written, only the queue's `onRequestFailed(int, String)` does not
    implement the callback interface's `onRequestFailed(int, HttpRequestError)`.
    Here the two classes are not chained: the completion and failure events
    are methods of the queue, called beside the transport's own delivery. */
module Queue {
  import opened Base
  import opened RequestCodes
  import opened UrlParams
  import opened Registry
  import Http

  /** The timeout of a model that was given none. */
  const DEFAULT_TIMEOUT_SENTINEL: int32 := -1

  /** `RequestModel`: one queued request. */
  datatype RequestModel = RequestModel(httpMethod: Method, url: string, body: Json, timeout: int32)

  /** The four `RequestModel` constructors: a missing body is a fresh empty
      JSON object, a missing timeout the sentinel -1. */
  function NewModel(httpMethod: Method, url: string, body: Option<Json>, timeout: Option<int32>): (m: RequestModel)
    ensures m.httpMethod == httpMethod && m.url == url
    ensures m.body == if body.Some? then body.value else EMPTY_JSON
    ensures m.timeout == if timeout.Some? then timeout.value else DEFAULT_TIMEOUT_SENTINEL
  {
    RequestModel(httpMethod, url, if body.Some? then body.value else EMPTY_JSON,
                 if timeout.Some? then timeout.value else DEFAULT_TIMEOUT_SENTINEL)
  }

  /** Which `HttpRequest.request` overload `serveNextRequest` calls: the
      sentinel selects the one with the configured default timeout, any other
      value is passed on. An explicit timeout of -1 is therefore taken for
      "no timeout given". */
  function TimeoutArgument(m: RequestModel): (t: Option<int32>)
    ensures t.None? <==> m.timeout == DEFAULT_TIMEOUT_SENTINEL
    ensures t.Some? ==> t.value == m.timeout
  {
    if m.timeout == DEFAULT_TIMEOUT_SENTINEL then None else Some(m.timeout)
  }

  /** The timeout a model is submitted with, given the configured default. */
  lemma SubmittedTimeout(m: RequestModel, default: int32, timeout: Option<int32>)
    requires m.timeout == if timeout.Some? then timeout.value else DEFAULT_TIMEOUT_SENTINEL
    ensures timeout.None? ==> Http.TimeoutOr(TimeoutArgument(m), default) == default
    ensures timeout.Some? && timeout.value != DEFAULT_TIMEOUT_SENTINEL ==>
              Http.TimeoutOr(TimeoutArgument(m), default) == timeout.value
  {
  }

  /** What the queue reports to its own callback. */
  datatype QueueEvent =
    | QueueCompleted(requestCode: int32, results: seq<string>)
    | QueueRequestFailed(requestCode: int32, which: int, message: string)

  /** The record the transport receives when `m` is sent under `code`. */
  function SubmissionOf(m: RequestModel, code: int32, params: map<string, string>, order: seq<string>,
                        defaultTimeout: int32, retries: int32, backoff: Float): Submission
    requires forall k :: k in order ==> k in params
  {
    Submission(code, m.httpMethod, ProcessedUrl(m.url, Entries(params, order)),
               Http.TimeoutOr(TimeoutArgument(m), defaultTimeout), retries, backoff)
  }

  class HttpRequestQueue {
    var queue: seq<RequestModel>
    var results: seq<string>
    var requestCode: int32
    var executed: bool
    var currentRequest: int
    /** The calls made on the queue's `RequestQueueCallback`. */
    var notifications: seq<QueueEvent>

    /** This queue, as the callback its requests are registered with. */
    const identity: Callback
    /** The process-wide `HttpRequest` state the queue sends through. */
    const http: Http.HttpRequest

    /** Every model accepted, and how many of them have been taken off. */
    ghost var added: seq<RequestModel>
    ghost var served: nat

    ghost predicate Valid()
      reads this, http, http.generator
    {
      && http.Valid()
      && currentRequest == |results|
      && served <= |added|
      && queue == added[served..]
    }

    constructor (http: Http.HttpRequest, identity: Callback)
      requires http.Valid()
      ensures Valid() && this.http == http && this.identity == identity
      ensures queue == [] && results == [] && notifications == [] && added == []
      ensures !executed && currentRequest == 0 && requestCode == 0
    {
      this.http := http;
      this.identity := identity;
      queue := [];
      results := [];
      requestCode := 0;
      executed := false;
      currentRequest := 0;
      notifications := [];
      added := [];
      served := 0;
    }

    /** The common body of the `add*` methods: append before `execute`,
        ignore afterwards. */
    method Enqueue(m: RequestModel)
      requires Valid()
      modifies this`queue, this`added
      ensures Valid()
      ensures !executed ==> queue == old(queue) + [m] && added == old(added) + [m]
      ensures executed ==> queue == old(queue) && added == old(added)
    {
      if !executed {
        queue := queue + [m];
        added := added + [m];
      }
    }

    /** `addGet`, both overloads. */
    method AddGet(url: string, timeout: Option<int32>)
      requires Valid()
      modifies this`queue, this`added
      ensures Valid()
      ensures queue == old(queue) + (if executed then [] else [NewModel(GET, url, None, timeout)])
      ensures !executed ==> added == old(added) + [NewModel(GET, url, None, timeout)]
      ensures executed ==> added == old(added)
    {
      Enqueue(NewModel(GET, url, None, timeout));
    }

    /** `addPost`, both overloads. */
    method AddPost(url: string, body: Json, timeout: Option<int32>)
      requires Valid()
      modifies this`queue, this`added
      ensures Valid()
      ensures queue == old(queue) + (if executed then [] else [NewModel(POST, url, Some(body), timeout)])
      ensures !executed ==> added == old(added) + [NewModel(POST, url, Some(body), timeout)]
      ensures executed ==> added == old(added)
    {
      Enqueue(NewModel(POST, url, Some(body), timeout));
    }

    /** `addPut`, both overloads. */
    method AddPut(url: string, body: Json, timeout: Option<int32>)
      requires Valid()
      modifies this`queue, this`added
      ensures Valid()
      ensures queue == old(queue) + (if executed then [] else [NewModel(PUT, url, Some(body), timeout)])
      ensures !executed ==> added == old(added) + [NewModel(PUT, url, Some(body), timeout)]
      ensures executed ==> added == old(added)
    {
      Enqueue(NewModel(PUT, url, Some(body), timeout));
    }

    /** `addDelete`, both overloads. As written they queue a POST. */
    method AddDelete(url: string, timeout: Option<int32>)
      requires Valid()
      modifies this`queue, this`added
      ensures Valid()
      ensures queue == old(queue) + (if executed then [] else [NewModel(POST, url, None, timeout)])
      ensures !executed ==> added == old(added) + [NewModel(POST, url, None, timeout)]
      ensures executed ==> added == old(added)
    {
      Enqueue(NewModel(POST, url, None, timeout));
    }

    /** `serveNextRequest`: with an empty queue, report completion with the
        current code and results; otherwise take the head off and send it, this
        queue being its callback. Sending throws before `HttpRequest.init`. */
    method ServeNextRequest(order: seq<string>) returns (o: Outcome)
      requires Valid()
      requires IsEnumeration(order, http.UrlParameters().Keys)
      modifies this`queue, this`served, this`notifications, http`requestMap, http`submissions, http.generator
      ensures Valid()
      ensures old(queue) == [] ==>
                && o == Normal
                && notifications == old(notifications) + [QueueCompleted(requestCode, results)]
                && queue == [] && served == old(served)
                && http.requestMap == old(http.requestMap) && http.submissions == old(http.submissions)
                && http.generator.lastRequestCode == old(http.generator.lastRequestCode)
      ensures old(queue) != [] ==>
                && queue == old(queue)[1..] && served == old(served) + 1
                && notifications == old(notifications)
                && (if old(http.initialised) then
                      && o == Normal
                      && http.generator.lastRequestCode == NextCode(old(http.generator.lastRequestCode))
                      && http.requestMap == old(http.requestMap)[http.generator.lastRequestCode :=
                                                                   NewEntry(Some(identity), Some(old(queue)[0].body))]
                      && http.submissions == old(http.submissions) +
                           [SubmissionOf(old(queue)[0], http.generator.lastRequestCode, http.UrlParameters(), order,
                                         http.requestTimeout, http.requestRetries, http.retryBackoff)]
                    else
                      && o == Thrown(Http.NOT_INITIALISED)
                      && http.requestMap == old(http.requestMap) && http.submissions == old(http.submissions)
                      && http.generator.lastRequestCode == old(http.generator.lastRequestCode))
    {
      if queue == [] {
        notifications := notifications + [QueueCompleted(requestCode, results)];
        return Normal;
      }
      var request := queue[0];
      queue := queue[1..];
      served := served + 1;
      var r := http.Request(request.httpMethod, Some(identity), request.url, Some(request.body),
                            TimeoutArgument(request), order);
      o := if r.Failure? then Thrown(r.exception) else Normal;
    }

    /** `execute`: has an effect only the first time. It serves the head (or,
        for an empty queue, reports completion with the code it holds, still
        0) and only THEN draws the queue's own request code. Later calls
        return that code and change nothing. */
    method Execute(order: seq<string>) returns (r: Result<int32>)
      requires Valid()
      requires IsEnumeration(order, http.UrlParameters().Keys)
      modifies this`executed, this`queue, this`served, this`notifications, this`requestCode,
               http`requestMap, http`submissions, http.generator
      ensures Valid()
      ensures old(executed) ==>
                && r == Success(old(requestCode))
                && unchanged(this) && unchanged(http) && unchanged(http.generator)
      ensures !old(executed) ==> executed
      ensures !old(executed) && old(queue) == [] ==>
                && queue == [] && served == old(served)
                && notifications == old(notifications) + [QueueCompleted(old(requestCode), old(results))]
                && requestCode == NextCode(old(http.generator.lastRequestCode)) == http.generator.lastRequestCode
                && r == Success(requestCode)
                && http.requestMap == old(http.requestMap) && http.submissions == old(http.submissions)
      ensures !old(executed) && old(queue) != [] ==>
                && queue == old(queue)[1..] && served == old(served) + 1
                && notifications == old(notifications)
                && (if old(http.initialised) then
                      && requestCode == NextCode(NextCode(old(http.generator.lastRequestCode)))
                      && requestCode == http.generator.lastRequestCode
                      && r == Success(requestCode)
                      && http.requestMap == old(http.requestMap)[NextCode(old(http.generator.lastRequestCode)) :=
                                                                   NewEntry(Some(identity), Some(old(queue)[0].body))]
                      && http.submissions == old(http.submissions) +
                           [SubmissionOf(old(queue)[0], NextCode(old(http.generator.lastRequestCode)),
                                         http.UrlParameters(), order,
                                         http.requestTimeout, http.requestRetries, http.retryBackoff)]
                    else
                      && r == Failure(Http.NOT_INITIALISED)
                      && requestCode == old(requestCode)
                      && http.generator.lastRequestCode == old(http.generator.lastRequestCode)
                      && http.requestMap == old(http.requestMap) && http.submissions == old(http.submissions))
    {
      if !executed {
        executed := true;
        var o := ServeNextRequest(order);
        if o.Thrown? {
          return Failure(o.exception);
        }
        requestCode := http.generator.Generate();
      }
      r := Success(requestCode);
    }

    /** `onRequestComplete`: record the result, count it, serve the next. */
    method OnRequestComplete(code: int32, result: string, order: seq<string>) returns (o: Outcome)
      requires Valid()
      requires IsEnumeration(order, http.UrlParameters().Keys)
      modifies this`currentRequest, this`results, this`queue, this`served, this`notifications,
               http`requestMap, http`submissions, http.generator
      ensures Valid()
      ensures results == old(results) + [result]
      ensures currentRequest == old(currentRequest) + 1 == |results|
      ensures old(queue) == [] ==>
                && o == Normal
                && notifications == old(notifications) + [QueueCompleted(requestCode, old(results) + [result])]
                && queue == [] && served == old(served)
                && http.requestMap == old(http.requestMap) && http.submissions == old(http.submissions)
                && http.generator.lastRequestCode == old(http.generator.lastRequestCode)
      ensures old(queue) != [] ==>
                && queue == old(queue)[1..] && served == old(served) + 1
                && notifications == old(notifications)
                && (if old(http.initialised) then
                      && o == Normal
                      && http.generator.lastRequestCode == NextCode(old(http.generator.lastRequestCode))
                      && http.requestMap == old(http.requestMap)[http.generator.lastRequestCode :=
                                                                   NewEntry(Some(identity), Some(old(queue)[0].body))]
                      && http.submissions == old(http.submissions) +
                           [SubmissionOf(old(queue)[0], http.generator.lastRequestCode, http.UrlParameters(), order,
                                         http.requestTimeout, http.requestRetries, http.retryBackoff)]
                    else
                      && o == Thrown(Http.NOT_INITIALISED)
                      && http.requestMap == old(http.requestMap) && http.submissions == old(http.submissions)
                      && http.generator.lastRequestCode == old(http.generator.lastRequestCode))
    {
      currentRequest := currentRequest + 1;
      results := results + [result];
      o := ServeNextRequest(order);
    }

    /** `onRequestFailed`: report which request failed — its index is the
        number completed so far — and stop: nothing more is served. */
    method OnRequestFailed(code: int32, message: string)
      requires Valid()
      modifies this`notifications
      ensures Valid()
      ensures notifications == old(notifications) + [QueueRequestFailed(requestCode, currentRequest, message)]
    {
      notifications := notifications + [QueueRequestFailed(requestCode, currentRequest, message)];
    }
  }
}
