# HTTP-Requests: a verified model of the request bookkeeping

HTTP-Requests is a small Android HTTP helper built on Volley. It comes as two
near-duplicate modules, `http-requests/` and `library/`. Under the Android
and Volley plumbing, each module keeps some sequential bookkeeping, and this
project models that bookkeeping in Dafny and proves properties of it:

- **Request codes** (`request_codes.dfy`). `RequestCodeGenerator` is a
  counter that hands out 1, 2, …, 999 999 and then starts again at 1. The two
  copies in the repository are identical, so one class models both.
- **Error classification** (`request_errors.dfy`). `HttpRequestError` turns a
  Volley failure into a server, network or other error. Each kind carries its
  message and status code.
- **URL parameters** (`url_params.dfy`). `processUrl` appends
  `?key=value` / `&key=value` segments, one per persistent URL parameter. Java
  hash maps iterate in an unspecified order, so the order is an explicit
  enumeration of the keys, and every property holds for every enumeration.
- **The request registry** (`registry.dfy`). This is `sRequestMap`, from
  request code to in-flight request, together with what `request`, `cancel`,
  the success listener and `handleError` do to it. These steps are written as
  a pure transition function. A lemma over arbitrary event sequences shows
  that a code registered once ends in at most one outcome: a completion
  callback, a failure callback, or a cancellation.
- **`HttpRequest` of `http-requests`** (`http_request.dfy`). This covers:
  - the process-wide configuration and its setters;
  - the persistent headers and URL parameters;
  - initialisation;
  - request, cancel and delivery.

  The class's static fields become the fields of one object. The Volley queue
  is a log of submissions (code, method, final URL, timeout, retries, backoff)
  and a log of cancellations. The application's callbacks are a log of fired
  events. Each state-changing method states its new state as one step of the
  registry semantics above.
- **`HttpRequest` of `library`** (`library_http_request.dfy`). It has the same
  lifecycle but no configuration of its own. Timeout, retries and backoff are
  constants, no headers are sent, and `processUrl` is the identity.
- **`HttpRequests` of `library`** (`library_defaults.dfy`). It holds the
  default settings, persistent URL parameters and headers, and the lazily
  created map getters.
- **`HttpRequestQueue`** (`http_request_queue.dfy`). Requests are queued
  before `execute` and then sent one after another, each one after the
  previous one completes. Results are collected in order.

Behaviour kept as written:

- **Late deliveries throw.** A success or error delivered for a code no longer
  in the registry dereferences the missing entry. It is modelled as a thrown
  `NullPointerException` that changes nothing and fires no callback.
- **`addDelete` queues a POST.**
- **`execute` serves before it draws the queue's own code.** With an empty
  queue, the completion is reported with the code the queue still holds,
  which is 0.
- **A model timeout of -1 is treated as "no timeout given".**
- **Only the queue's failure method misses the callback interface.** The
  queue passes itself as the callback of each request it sends, and
  `HttpRequest` delivers a success to the queue's
  `onRequestComplete(int, String)`. The queue's `onRequestFailed(int, String)`
  does not implement
  `HttpRequest.RequestCallback.onRequestFailed(int, HttpRequestError)`.
- **`setEncoding` ignores case.** The available charsets are looked up by
  name regardless of letter case, and the name is stored as the caller
  spelt it, so "utf-8" is accepted and kept in lower case.

## Model

| member | source | states |
|---|---|---|
| RequestCodes.NextCode | http-requests/src/main/java/es/sandwatch/httprequests/RequestCodeGenerator.java:22-27 | from a non-negative counter the code is in [1, 999999] and is either the counter's successor or the wrapped-around 1 |
| RequestCodes.RequestCodeGenerator.Generate | library/src/main/java/es/sandwatch/httprequests/RequestCodeGenerator.java:22-27 | the returned code is stored as the new counter; below 999999 it is the successor, at or above it the counter resets and 1 is returned; the invariant 0 <= counter <= 999999 is preserved and the code lies in [1, 999999] |
| RequestCodes.RequestCodeGenerator.constructor | library/src/main/java/es/sandwatch/httprequests/RequestCodeGenerator.java:14 | the counter starts at 0 and satisfies the invariant |
| RequestCodes.CodesFromZero | library/src/main/java/es/sandwatch/httprequests/RequestCodeGenerator.java:14-27 | starting from 0, the k-th call returns k for every 1 <= k <= 999999 |
| RequestCodes.CodesWrapAround | http-requests/src/main/java/es/sandwatch/httprequests/RequestCodeGenerator.java:22-27 | call 999999 + k returns what call k returned: the codes repeat with period 999999 |
| RequestCodes.CodesDistinctWithinCycle | http-requests/src/main/java/es/sandwatch/httprequests/RequestCodeGenerator.java:22-27 | two different calls within the first cycle return different codes |
| RequestCodes.ConsecutiveCodes | http-requests/src/main/java/es/sandwatch/httprequests/RequestCodeGenerator.java:23-26 | two consecutive calls without wrap-around return codes differing by exactly 1 |
| RequestErrors.FromVolleyError | http-requests/src/main/java/es/sandwatch/httprequests/HttpRequestError.java:35-53 | the result is well formed (one of the three types, status -1 unless server, the offline message on network); server and network are never both true; server iff a ServerError with a response and body, then carrying that body and status; network iff not server and a NoConnectionError or NetworkError; otherwise the error's own message |
| RequestErrors.HttpRequestError.IsServerError | http-requests/src/main/java/es/sandwatch/httprequests/HttpRequestError.java:61-63 | true for the server type, and never together with `isNetworkError` |
| RequestErrors.HttpRequestError.IsNetworkError | http-requests/src/main/java/es/sandwatch/httprequests/HttpRequestError.java:70-72 | true for the network type, which is never the server type |
| RequestErrors.HttpRequestError.GetMessage | http-requests/src/main/java/es/sandwatch/httprequests/HttpRequestError.java:79-81 | on a classified network error, the fixed offline message |
| RequestErrors.HttpRequestError.ReturnStatusCode | http-requests/src/main/java/es/sandwatch/httprequests/HttpRequestError.java:86-90 | on a classified error, -1 unless it is a server error |
| RequestErrors.ServerErrorWithoutBody | http-requests/src/main/java/es/sandwatch/httprequests/HttpRequestError.java:38-53 | a ServerError whose response or body is missing is classified other, with the error's own message and status -1 |
| UrlParams.EmptyEnumeration | http-requests/src/main/java/es/sandwatch/httprequests/HttpRequest.java:423-424 | an iteration over a map with no parameters visits nothing |
| UrlParams.ProcessedUrlAppend | http-requests/src/main/java/es/sandwatch/httprequests/HttpRequest.java:425-426 | one turn of the loop, choosing `?` when the URL built so far has none and `&` otherwise, appends exactly the next parameter's segment |
| UrlParams.Entries | http-requests/src/main/java/es/sandwatch/httprequests/HttpRequest.java:424 | the parameters visited, one per key of the enumeration, each paired with its value in the map |
| UrlParams.QueryAppend | http-requests/src/main/java/es/sandwatch/httprequests/HttpRequest.java:424-427 | visiting one more parameter appends exactly its segment, after `?`/the first separator for the first one and `&` afterwards |
| UrlParams.QuerySplit | http-requests/src/main/java/es/sandwatch/httprequests/HttpRequest.java:424-427 | the text appended for two runs of parameters is the text of the first followed by the text of the second |
| UrlParams.SegmentAt | http-requests/src/main/java/es/sandwatch/httprequests/HttpRequest.java:424-427 | the appended text holds the `sep + key + "=" + value` segment of every parameter at its position |
| UrlParams.ProcessedUrlNoParameters | http-requests/src/main/java/es/sandwatch/httprequests/HttpRequest.java:423-429 | with no parameters the URL is returned unchanged |
| UrlParams.ProcessedUrlShape | http-requests/src/main/java/es/sandwatch/httprequests/HttpRequest.java:422-430 | the original URL is a prefix of the result, and each parameter's segment follows at its offset |
| UrlParams.ProcessedUrlFirstSeparator | http-requests/src/main/java/es/sandwatch/httprequests/HttpRequest.java:425 | with at least one parameter, the first separator is `?` iff the original URL had none, and the result holds a `?` |
| UrlParams.ParameterAppended | http-requests/src/main/java/es/sandwatch/httprequests/HttpRequest.java:423-428 | for every iteration order of the map, every parameter of the map is appended as `key=value` after its separator |
| Registry.NewEntry | http-requests/src/main/java/es/sandwatch/httprequests/HttpRequest.java:462-468 | the entry keeps the callback, and a missing body becomes the empty JSON object |
| Registry.Step | http-requests/src/main/java/es/sandwatch/httprequests/HttpRequest.java:289-298 | one lifecycle event: only a registration adds an entry; cancel and the deliveries remove the code they act on and no other entry; the logs only grow, by at most one callback or one cancellation; a cancellation is logged iff the code was registered; a delivery that throws changes nothing |
| Registry.Run | http-requests/src/main/java/es/sandwatch/httprequests/HttpRequest.java:339-346 | over a sequence of events the logs only grow, and a code is registered at the end only if it was at the start or some event registered it |
| Registry.StepOutcomes | http-requests/src/main/java/es/sandwatch/httprequests/HttpRequest.java:289-298 | no lifecycle event adds an outcome for a code beyond the one its registration allows: cancel, completion and failure each remove the entry they act on |
| Registry.RunOutcomes | http-requests/src/main/java/es/sandwatch/httprequests/HttpRequest.java:339-346 | over any sequence of events, the outcomes of a code grow by at most one per registration of that code |
| Registry.AtMostOneOutcome | http-requests/src/main/java/es/sandwatch/httprequests/HttpRequest.java:358-362 | a code registered at most once gets at most one of completion callback, failure callback and cancellation, whatever events are delivered |
| Registry.NoSecondOutcome | http-requests/src/main/java/es/sandwatch/httprequests/HttpRequest.java:438-443 | after a cancel or delivery for a code, a second cancel returns false, a second delivery throws, and neither changes anything |
| Http.TimeoutOr | http-requests/src/main/java/es/sandwatch/httprequests/HttpRequest.java:315-319 | the overloads without a timeout use the configured one, the others the given one |
| Http.HttpRequest.constructor | http-requests/src/main/java/es/sandwatch/httprequests/HttpRequest.java:35-56 | timeout 10000, retries 0, backoff 1.5, encoding UTF-8, no header or parameter map, not initialised, empty registry |
| Http.HttpRequest.SetRequestTimeout | http-requests/src/main/java/es/sandwatch/httprequests/HttpRequest.java:64-66 | the timeout becomes the given one and nothing else changes |
| Http.HttpRequest.SetRequestRetries | http-requests/src/main/java/es/sandwatch/httprequests/HttpRequest.java:73-75 | the retry count becomes the given one and nothing else changes |
| Http.HttpRequest.SetRetryBackoff | http-requests/src/main/java/es/sandwatch/httprequests/HttpRequest.java:84-86 | the backoff becomes the given one and nothing else changes |
| Http.HttpRequest.SetEncoding | http-requests/src/main/java/es/sandwatch/httprequests/HttpRequest.java:93-97 | the encoding becomes the given name, as spelt, iff it names an available charset in any letter case, otherwise it is unchanged |
| Charsets.CanonicalNameAvailable | http-requests/src/main/java/es/sandwatch/httprequests/HttpRequest.java:94 | every canonical charset name is found as spelt |
| Charsets.CaseVariantsAgree | http-requests/src/main/java/es/sandwatch/httprequests/HttpRequest.java:94 | two spellings differing only in letter case are both found or both missing |
| Charsets.CharsetAvailableByFoldedName | library/src/main/java/es/sandwatch/httprequests/HttpRequests.java:127 | a name is found exactly when its lower-cased form is that of some canonical name |
| Charsets.LowerCaseUtf8Available | library/src/main/java/es/sandwatch/httprequests/HttpRequests.java:127 | "utf-8" is found when "UTF-8" is available |
| Http.HttpRequest.Init | http-requests/src/main/java/es/sandwatch/httprequests/HttpRequest.java:104-108 | afterwards the class is initialised; once initialised, further calls change nothing |
| Http.HttpRequest.IsInitialised | http-requests/src/main/java/es/sandwatch/httprequests/HttpRequest.java:115-117 | true exactly when `init` has created the transport queue |
| Http.HttpRequest.CheckInitialisation | http-requests/src/main/java/es/sandwatch/httprequests/HttpRequest.java:122-126 | throws the initialisation error exactly when not initialised |
| Http.HttpRequest.AddHeader | http-requests/src/main/java/es/sandwatch/httprequests/HttpRequest.java:134-139 | the header map exists and sends the header to the value, replacing any earlier value; other headers and the URL parameters are untouched |
| Http.HttpRequest.RemoveHeader | http-requests/src/main/java/es/sandwatch/httprequests/HttpRequest.java:147-149 | true iff the header was present; afterwards it is absent and other headers are untouched |
| Http.HttpRequest.AddUrlParameter | http-requests/src/main/java/es/sandwatch/httprequests/HttpRequest.java:157-162 | the parameter map exists and sends the key to the value, replacing any earlier value; other keys and the headers are untouched |
| Http.HttpRequest.RemoveUrlParameter | http-requests/src/main/java/es/sandwatch/httprequests/HttpRequest.java:170-172 | true iff the parameter was present; afterwards it is absent and other parameters are untouched |
| Http.HttpRequest.Cancel | http-requests/src/main/java/es/sandwatch/httprequests/HttpRequest.java:289-298 | true iff the code is registered; removes only that entry and asks the transport to cancel it; otherwise false and no change; one step of the registry semantics |
| Http.HttpRequest.ProcessUrl | http-requests/src/main/java/es/sandwatch/httprequests/HttpRequest.java:422-430 | the loop's result is the URL followed by one segment per parameter in the iteration order, the separators as the URL lemmas describe |
| Http.HttpRequest.Request | http-requests/src/main/java/es/sandwatch/httprequests/HttpRequest.java:331-414 | before init: fails with the initialisation error, generator, registry and transport unchanged; after: returns the next code in [1, 999999], registers exactly that code, and submits the method, processed URL, given or configured timeout, retries and backoff |
| Http.HttpRequest.Get | http-requests/src/main/java/es/sandwatch/httprequests/HttpRequest.java:186-200 | a request with method GET and no body, with or without explicit timeout |
| Http.HttpRequest.Post | http-requests/src/main/java/es/sandwatch/httprequests/HttpRequest.java:210-229 | a request with method POST and the given body |
| Http.HttpRequest.Put | http-requests/src/main/java/es/sandwatch/httprequests/HttpRequest.java:239-258 | a request with method PUT and the given body |
| Http.HttpRequest.Delete | http-requests/src/main/java/es/sandwatch/httprequests/HttpRequest.java:267-281 | a request with method DELETE and no body |
| Http.HttpRequest.OnResponse | http-requests/src/main/java/es/sandwatch/httprequests/HttpRequest.java:356-363 | removes the code's entry and fires one completion callback with the response if the entry has a callback, none otherwise; throws and changes nothing when the entry is gone |
| Http.HttpRequest.HandleError | http-requests/src/main/java/es/sandwatch/httprequests/HttpRequest.java:438-443 | removes the code's entry and fires one failure callback with the classified error if the entry has a callback, none otherwise; throws and changes nothing when the entry is gone |
| Library.ProcessUrl | library/src/main/java/es/sandwatch/httprequests/HttpRequest.java:321-329 | the identity: the `http-requests` URL processing with no parameters |
| Library.TimeoutOrDefault | library/src/main/java/es/sandwatch/httprequests/HttpRequest.java:217-221 | the overloads without a timeout use the constant 10000 ms |
| Library.HttpRequest.constructor | library/src/main/java/es/sandwatch/httprequests/HttpRequest.java:42-44 | not initialised, empty registry, nothing submitted |
| Library.HttpRequest.Init | library/src/main/java/es/sandwatch/httprequests/HttpRequest.java:52-56 | afterwards initialised; once initialised, further calls change nothing |
| Library.HttpRequest.IsInitialised | library/src/main/java/es/sandwatch/httprequests/HttpRequest.java:63-65 | true exactly when `init` has created the transport queue |
| Library.HttpRequest.CheckInitialisation | library/src/main/java/es/sandwatch/httprequests/HttpRequest.java:70-74 | throws the initialisation error exactly when not initialised |
| Library.HttpRequest.Cancel | library/src/main/java/es/sandwatch/httprequests/HttpRequest.java:191-200 | true iff the code is registered, removing only that entry; otherwise false and no change |
| Library.HttpRequest.Request | library/src/main/java/es/sandwatch/httprequests/HttpRequest.java:233-313 | before init: fails, no code generated, registry unchanged; after: registers exactly the new code and returns it, submitting the URL unchanged with retries 0 and backoff 1.5 |
| Library.HttpRequest.Get | library/src/main/java/es/sandwatch/httprequests/HttpRequest.java:88-102 | a GET request; without a timeout it uses 10000 ms |
| Library.HttpRequest.Post | library/src/main/java/es/sandwatch/httprequests/HttpRequest.java:112-131 | a POST request with the given body; without a timeout it uses 10000 ms |
| Library.HttpRequest.Put | library/src/main/java/es/sandwatch/httprequests/HttpRequest.java:141-160 | a PUT request with the given body; without a timeout it uses 10000 ms |
| Library.HttpRequest.Delete | library/src/main/java/es/sandwatch/httprequests/HttpRequest.java:169-183 | a DELETE request; without a timeout it uses 10000 ms |
| Library.HttpRequest.OnResponse | library/src/main/java/es/sandwatch/httprequests/HttpRequest.java:258-266 | removes the entry and fires at most one completion callback; throws when the entry is gone |
| Library.HttpRequest.HandleError | library/src/main/java/es/sandwatch/httprequests/HttpRequest.java:337-342 | removes the entry and fires at most one failure callback; throws when the entry is gone |
| Defaults.HttpRequests.constructor | library/src/main/java/es/sandwatch/httprequests/HttpRequests.java:21-38 | timeout 10000, retries 0, backoff 1.5, encoding UTF-8, both maps absent and read as empty |
| Defaults.HttpRequests.SetDefaultRequestTimeout | library/src/main/java/es/sandwatch/httprequests/HttpRequests.java:46-48 | the timeout getter returns the value last set |
| Defaults.HttpRequests.SetDefaultRequestRetries | library/src/main/java/es/sandwatch/httprequests/HttpRequests.java:55-57 | the retries getter returns the value last set |
| Defaults.HttpRequests.SetDefaultRetryBackoff | library/src/main/java/es/sandwatch/httprequests/HttpRequests.java:66-68 | the backoff getter returns the value last set |
| Defaults.HttpRequests.AddPersistingUrlParameter | library/src/main/java/es/sandwatch/httprequests/HttpRequests.java:77-82 | the parameter maps to the value, replacing any earlier one; other parameters and the headers are untouched |
| Defaults.HttpRequests.RemovePersistingUrlParameter | library/src/main/java/es/sandwatch/httprequests/HttpRequests.java:89-93 | the parameter is absent afterwards; a no-op when it or the map is missing |
| Defaults.HttpRequests.AddPersistingHeader | library/src/main/java/es/sandwatch/httprequests/HttpRequests.java:102-107 | the header maps to the value, replacing any earlier one; other headers and the parameters are untouched |
| Defaults.HttpRequests.RemovePersistingHeader | library/src/main/java/es/sandwatch/httprequests/HttpRequests.java:114-118 | the header is absent afterwards; a no-op when it or the map is missing |
| Defaults.HttpRequests.SetEncoding | library/src/main/java/es/sandwatch/httprequests/HttpRequests.java:126-132 | true and the encoding set to the name as spelt iff it names an available charset in any letter case; otherwise false and the encoding unchanged |
| Defaults.HttpRequests.GetDefaultRequestTimeout | library/src/main/java/es/sandwatch/httprequests/HttpRequests.java:139-141 | the timeout held, the value last set or 10000 initially |
| Defaults.HttpRequests.GetDefaultRequestRetries | library/src/main/java/es/sandwatch/httprequests/HttpRequests.java:149-151 | the retry count held, the value last set or 0 initially |
| Defaults.HttpRequests.GetDefaultRetryBackoff | library/src/main/java/es/sandwatch/httprequests/HttpRequests.java:158-160 | the backoff held, the value last set or 1.5 initially |
| Defaults.HttpRequests.GetDefaultEncoding | library/src/main/java/es/sandwatch/httprequests/HttpRequests.java:183-185 | the encoding held, the name last accepted or UTF-8 initially |
| Defaults.HttpRequests.GetPersistentRequestUrlParameters | library/src/main/java/es/sandwatch/httprequests/HttpRequests.java:162-168 | never null: creates the map when missing and returns it with its contents unchanged, empty before any add |
| Defaults.HttpRequests.GetPersistentRequestHeaders | library/src/main/java/es/sandwatch/httprequests/HttpRequests.java:170-176 | never null: creates the map when missing and returns it with its contents unchanged, empty before any add |
| Queue.NewModel | http-requests/src/main/java/es/sandwatch/httprequests/HttpRequestQueue.java:137-154 | a model keeps method and URL; a missing body is the empty JSON object and a missing timeout the sentinel -1 |
| Queue.TimeoutArgument | http-requests/src/main/java/es/sandwatch/httprequests/HttpRequestQueue.java:107-113 | the sentinel -1 selects the default-timeout overload; any other timeout is passed explicitly |
| Queue.SubmittedTimeout | http-requests/src/main/java/es/sandwatch/httprequests/HttpRequestQueue.java:137-146 | a model added without timeout is submitted with the configured default, one with a timeout other than -1 with that timeout |
| Queue.HttpRequestQueue.constructor | http-requests/src/main/java/es/sandwatch/httprequests/HttpRequestQueue.java:36-42 | empty queue and results, not executed, current request 0, request code 0 |
| Queue.HttpRequestQueue.Enqueue | http-requests/src/main/java/es/sandwatch/httprequests/HttpRequestQueue.java:44-90 | before execute exactly one model is appended at the tail; afterwards nothing changes; remaining plus dequeued models equal the models added |
| Queue.HttpRequestQueue.AddGet | http-requests/src/main/java/es/sandwatch/httprequests/HttpRequestQueue.java:44-54 | before execute, queues a GET model with no body; afterwards a no-op |
| Queue.HttpRequestQueue.AddPost | http-requests/src/main/java/es/sandwatch/httprequests/HttpRequestQueue.java:56-66 | before execute, queues a POST model with the body; afterwards a no-op |
| Queue.HttpRequestQueue.AddPut | http-requests/src/main/java/es/sandwatch/httprequests/HttpRequestQueue.java:68-78 | before execute, queues a PUT model with the body; afterwards a no-op |
| Queue.HttpRequestQueue.AddDelete | http-requests/src/main/java/es/sandwatch/httprequests/HttpRequestQueue.java:80-90 | before execute, queues a model with method POST, as written; afterwards a no-op |
| Queue.HttpRequestQueue.ServeNextRequest | http-requests/src/main/java/es/sandwatch/httprequests/HttpRequestQueue.java:101-115 | an empty queue reports completion with the current code and the results in order; otherwise the head is removed and submitted (FIFO) with this queue as callback, and submitting before init throws |
| Queue.HttpRequestQueue.Execute | http-requests/src/main/java/es/sandwatch/httprequests/HttpRequestQueue.java:92-99 | the first call marks the queue executed and serves the head, then draws the queue's code: on an empty queue it reports completion with the old code, leaves registry and submissions unchanged and returns the next code; on a non-empty queue after init the head is registered under the next code and submitted, and the queue's code is the one after; before init it fails with registry, generator and submissions unchanged; every later call returns the stored code and changes nothing |
| Queue.HttpRequestQueue.OnRequestComplete | http-requests/src/main/java/es/sandwatch/httprequests/HttpRequestQueue.java:117-122 | appends the result and advances the current request, keeping it equal to the number of results, then serves the next model: on an empty queue it reports completion with all results and leaves registry, generator and submissions unchanged; otherwise the head is removed, registered under the next code and submitted after init, or nothing changes in the registry and generator before init |
| Queue.HttpRequestQueue.OnRequestFailed | http-requests/src/main/java/es/sandwatch/httprequests/HttpRequestQueue.java:124-127 | reports the queue's code, the number completed so far and the message, and does not advance the queue |

## Left out

- Volley. `StringRequest`, `RequestQueue.add` and `Request.cancel()` are the transport. They become a log of submissions and a log of cancelled codes.
- Volley's retry and backoff arithmetic. It lives in `DefaultRetryPolicy`, outside the repository. Retries and backoff are only recorded as submitted.
- Float values. The backoff is carried as the bit pattern of the Java `float` (1.5f is 0x3FC00000). Nothing is computed with it.
- `Charset.availableCharsets()`. Both `setEncoding` methods take the set of the available charsets' canonical names as a parameter; the lookup folds only ASCII letters, which is all a charset name may hold.
- Chaining of the two classes: `Http.HttpRequest.OnResponse` for a code the queue registered logs the completion but does not call `Queue.HttpRequestQueue.OnRequestComplete`; the caller makes both calls, because the model keeps the queue's callback as an identity in the registry rather than an object reference.
- Response decoding. `parseNetworkResponse` and `HttpHeaderParser` are not modelled, so the configured encoding is stored but never used. The error model takes the response body as already-decoded text.
- JSON bodies. A body is an opaque value, and `getBody()` serialisation is not modelled. The body is read from the registry when the request is sent; the model keeps it in the entry and does not model the read.
- Headers at send time. `getHeaders()` reads the live header map when Volley sends the request. A submission therefore does not record headers, and `Http.HttpRequest.Headers` is the live map.
- Android plumbing. `Context` and `Volley.newRequestQueue` are replaced by an `initialised` flag. `Log.d` is not modelled.
- Threading and asynchronous delivery. Every event is one sequential method call, and the caller chooses the order of events.
- Hash-map iteration order. `processUrl` takes the order as a parameter, required to enumerate the keys.
- Null map values and null keys. Java maps allow null values, and `removeHeader` / `removeUrlParameter` then return false for a key that is present. The model's maps hold only strings.
- Aliasing of returned maps. `getPersistentRequestUrlParameters` and `getPersistentRequestHeaders` return the live map, which a caller could then mutate. The model returns its contents as a value.
- Lazy creation of `sRequestMap`. A registry that was never created behaves like an empty one, because `cancel` checks for null. The model starts with an empty map.
- `Queue.HttpRequestQueue.OnRequestComplete`: `mCurrentRequest` is an unbounded integer, so its 32-bit overflow after 2^31 completions is not modelled.
- The Volley method codes. `Method.getMethod()` maps each method to Volley's integer constant. The queue stores those integers and passes them where `HttpRequest.Method` is expected, which does not compile. The model uses one method type throughout.
- The queue's `RequestQueueCallback` and the applications' `RequestCallback`s are logs of events. `RequestCallback.java`, `RequestBodySender.java`, `RequestClient.java`, the sample app and the instrumentation tests are not part of this model.
