/** The request registry shared by both `HttpRequest` classes: the map from
    request code to the in-flight request, and what each lifecycle event does to
    it. `request()` inserts the fresh code; `cancel()`, the success listener and
    `handleError()` remove it. The listeners dereference the removed entry
    without a null check, so a delivery for a code no longer registered throws
    and fires no callback. The lemmas here show that, whatever sequence of
    events is delivered, a code issued once ends in at most one of: a completion
    callback, a failure callback, a cancellation. */
module Registry {
  import opened Base
  import opened RequestErrors

  /** The in-flight `HttpRequest` object: its callback (may be null) and body. */
  datatype Entry = Entry(callback: Option<Callback>, body: Json)

  /** A callback the library invoked. */
  datatype Event =
    | RequestComplete(callback: Callback, code: int32, result: string)
    | RequestFailed(callback: Callback, code: int32, error: HttpRequestError)
  {
    function Code(): int32
    {
      match this
      case RequestComplete(_, c, _) => c
      case RequestFailed(_, c, _) => c
    }
  }

  /** What the transport receives for one request. The headers are not part of
      it: the transport reads them from the live header map when it sends. */
  datatype Submission = Submission(code: int32, httpMethod: Method, url: string, timeout: int32, retries: int32, backoff: Float)

  /** The registry (`sRequestMap`), the callbacks fired so far and the requests
      cancelled on the transport so far. */
  datatype State = State(requests: map<int32, Entry>, fired: seq<Event>, cancelled: seq<int32>)

  /** The constructor `HttpRequest(callback, body)`: a null body becomes `{}`. */
  function NewEntry(callback: Option<Callback>, body: Option<Json>): (e: Entry)
    ensures e.callback == callback
    ensures body.Some? ==> e.body == body.value
    ensures body.None? ==> e.body == EMPTY_JSON
  {
    Entry(callback, if body.Some? then body.value else EMPTY_JSON)
  }

  /** The callbacks a terminal event fires for an entry: none when the
      callback is null. */
  function Notify(entry: Entry, event: Callback -> Event): seq<Event>
  {
    if entry.callback.Some? then [event(entry.callback.value)] else []
  }

  /** The lifecycle events. */
  datatype Op =
    | Register(code: int32, entry: Entry)       // request()
    | Cancel(code: int32)                       // cancel()
    | Respond(code: int32, response: string)    // the success listener
    | Fail(code: int32, error: VolleyError)     // the error listener, handleError()

  /** A delivery throws (a NullPointerException) exactly when it finds no
      entry. */
  predicate Throws(s: State, op: Op)
  {
    (op.Respond? || op.Fail?) && op.code !in s.requests
  }

  /** `cancel(code)` returns true exactly when the code is registered. */
  predicate Cancels(s: State, op: Op)
  {
    op.Cancel? && op.code in s.requests
  }

  /** One lifecycle event. Only a registration adds an entry; cancel and the
      deliveries remove the code they act on and touch no other entry; the
      logs only grow, by at most one callback or one cancellation; a delivery
      that throws changes nothing. */
  function Step(s: State, op: Op): (t: State)
    ensures op.Register? ==> t == s.(requests := s.requests[op.code := op.entry])
    ensures !op.Register? ==> op.code !in t.requests
    ensures !op.Register? ==> forall c :: c != op.code ==> (c in t.requests <==> c in s.requests)
    ensures !op.Register? ==> forall c :: c in t.requests ==> t.requests[c] == s.requests[c]
    ensures s.fired <= t.fired && |t.fired| <= |s.fired| + 1
    ensures s.cancelled <= t.cancelled && |t.cancelled| <= |s.cancelled| + 1
    ensures Cancels(s, op) <==> t.cancelled == s.cancelled + [op.code]
    ensures Throws(s, op) ==> t == s
  {
    match op
    case Register(code, entry) =>
      s.(requests := s.requests[code := entry])
    case Cancel(code) =>
      if code in s.requests then
        State(s.requests - {code}, s.fired, s.cancelled + [code])
      else s
    case Respond(code, response) =>
      if code in s.requests then
        State(s.requests - {code},
              s.fired + Notify(s.requests[code], cb => RequestComplete(cb, code, response)),
              s.cancelled)
      else s
    case Fail(code, error) =>
      if code in s.requests then
        State(s.requests - {code},
              s.fired + Notify(s.requests[code], cb => RequestFailed(cb, code, FromVolleyError(error))),
              s.cancelled)
      else s
  }

  /** A sequence of events, in order. The logs only grow, and a code is
      registered at the end only if it was at the start or some event
      registered it. */
  function Run(s: State, ops: seq<Op>): (t: State)
    ensures s.fired <= t.fired && s.cancelled <= t.cancelled
    ensures forall c :: c in t.requests ==> c in s.requests || Registrations(ops, c) > 0
    decreases |ops|
  {
    if ops == [] then s else Run(Step(s, ops[0]), ops[1..])
  }

  /** How often `c` was registered in `ops`. */
  function Registrations(ops: seq<Op>, c: int32): nat
  {
    if ops == [] then 0
    else (if ops[0].Register? && ops[0].code == c then 1 else 0) + Registrations(ops[1..], c)
  }

  function FiredFor(evs: seq<Event>, c: int32): nat
  {
    if evs == [] then 0
    else (if evs[|evs| - 1].Code() == c then 1 else 0) + FiredFor(evs[..|evs| - 1], c)
  }

  function CancelledFor(cs: seq<int32>, c: int32): nat
  {
    if cs == [] then 0
    else (if cs[|cs| - 1] == c then 1 else 0) + CancelledFor(cs[..|cs| - 1], c)
  }

  /** The terminal transitions `c` has taken, plus one while it is registered. */
  function Outcomes(s: State, c: int32): nat
  {
    FiredFor(s.fired, c) + CancelledFor(s.cancelled, c) + (if c in s.requests then 1 else 0)
  }

  lemma {:induction false} FiredForAppend(evs: seq<Event>, more: seq<Event>, c: int32)
    ensures FiredFor(evs + more, c) == FiredFor(evs, c) + FiredFor(more, c)
    decreases |more|
  {
    if more == [] {
      assert evs + more == evs;
    } else {
      var last := |more| - 1;
      assert (evs + more)[..|evs + more| - 1] == evs + more[..last];
      FiredForAppend(evs, more[..last], c);
    }
  }

  lemma CancelledForAppend(cs: seq<int32>, d: int32, c: int32)
    ensures CancelledFor(cs + [d], c) == CancelledFor(cs, c) + (if d == c then 1 else 0)
  {
    assert (cs + [d])[..|cs|] == cs;
  }

  /** Each event fires at most one callback, for its own code, and a
      registered code stops being registered when it does. */
  lemma StepOutcomes(s: State, op: Op, c: int32)
    ensures Outcomes(Step(s, op), c) <= Outcomes(s, c) + (if op.Register? && op.code == c then 1 else 0)
  {
    match op
    case Register(code, entry) =>
    case Cancel(code) =>
      if code in s.requests {
        CancelledForAppend(s.cancelled, code, c);
      }
    case Respond(code, response) =>
      if code in s.requests {
        var n := Notify(s.requests[code], cb => RequestComplete(cb, code, response));
        FiredForAppend(s.fired, n, c);
        assert FiredFor(n, c) <= (if code == c then 1 else 0) by {
          if n != [] {
            assert n[..0] == [];
          }
        }
      }
    case Fail(code, error) =>
      if code in s.requests {
        var n := Notify(s.requests[code], cb => RequestFailed(cb, code, FromVolleyError(error)));
        FiredForAppend(s.fired, n, c);
        assert FiredFor(n, c) <= (if code == c then 1 else 0) by {
          if n != [] {
            assert n[..0] == [];
          }
        }
      }
  }

  /** Over any sequence of events, the outcomes of `c` grow by at most one per
      registration of `c`. */
  lemma {:induction false} RunOutcomes(s: State, ops: seq<Op>, c: int32)
    ensures Outcomes(Run(s, ops), c) <= Outcomes(s, c) + Registrations(ops, c)
    decreases |ops|
  {
    if ops != [] {
      StepOutcomes(s, ops[0], c);
      RunOutcomes(Step(s, ops[0]), ops[1..], c);
    }
  }

  /** The registry the library starts with. */
  const Initial: State := State(map[], [], [])

  /** A code registered at most once gets at most one of: a completion
      callback, a failure callback, a cancellation. */
  lemma AtMostOneOutcome(ops: seq<Op>, c: int32)
    requires Registrations(ops, c) <= 1
    ensures FiredFor(Run(Initial, ops).fired, c) + CancelledFor(Run(Initial, ops).cancelled, c) <= 1
  {
    RunOutcomes(Initial, ops, c);
  }

  /** Once a code has been cancelled or has been delivered, a later delivery
      for it throws and fires nothing, and `cancel` returns false. */
  lemma NoSecondOutcome(s: State, first: Op, second: Op)
    requires first.Cancel? || first.Respond? || first.Fail?
    requires !second.Register? && second.code == first.code
    ensures !Cancels(Step(s, first), second)
    ensures second.Respond? || second.Fail? ==> Throws(Step(s, first), second)
    ensures Step(Step(s, first), second) == Step(s, first)
  {
  }
}
