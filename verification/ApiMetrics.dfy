/** Request metrics gathered by the client's lifecycle hooks. The library delivers,
    for one request: a request hook per attempt; before each retry a retry hook,
    preceded for a 429 by an error hook without an error; and for the final answer
    a response hook, together with an error hook when it is not a 2xx, or an error
    hook alone when the transport failed. */
module ApiMetricsModel {

  datatype HookEvent =
    | OnRequest
    | OnResponse(code: int)
    | OnError(status: int, terminal: bool, transient: bool)
    | OnRetry(status: int)

  datatype Metrics = Metrics(requests: nat, networkErrors: nat, throttling: nat, codes: map<int, nat>)

  const NO_METRICS := Metrics(0, 0, 0, map[])

  predicate IsSuccess(code: int) {
    200 <= code < 300
  }

  predicate IsThrottle(code: int) {
    code == 429 || code == 503
  }

  function CountOf(m: Metrics, code: int): nat {
    if code in m.codes then m.codes[code] else 0
  }

  function RecordCode(m: Metrics, code: int): Metrics {
    m.(codes := m.codes[code := CountOf(m, code) + 1])
  }

  function HandleError(m: Metrics, status: int, terminal: bool, transient: bool): Metrics {
    var m1 := if status > 0 then RecordCode(m, status) else m;
    if IsThrottle(status) then m1.(throttling := m1.throttling + 1)
    else if terminal && transient then m1.(networkErrors := m1.networkErrors + 1)
    else m1
  }

  function HandleRetry(m: Metrics, status: int): Metrics {
    if status == 429 then m
    else
      var m1 := RecordCode(m, status);
      if status == 503 then m1.(throttling := m1.throttling + 1) else m1
  }

  function Handle(m: Metrics, e: HookEvent): Metrics {
    match e
    case OnRequest => m.(requests := m.requests + 1)
    case OnResponse(code) => if IsSuccess(code) then RecordCode(m, code) else m
    case OnError(status, terminal, transient) => HandleError(m, status, terminal, transient)
    case OnRetry(status) => HandleRetry(m, status)
  }

  // ---- One request's lifecycle ---------------------------------------------

  datatype Final = Answered(code: int) | TransportFailed(transient: bool)

  /** The answers that were retried, in order, and how the request ended. Retried
      answers are not successes; every HTTP status is positive. */
  datatype Execution = Execution(retried: seq<int>, end: Final)

  predicate Deliverable(x: Execution) {
    && (forall i :: 0 <= i < |x.retried| ==> x.retried[i] > 0 && !(200 <= x.retried[i] < 300))
    && (x.end.Answered? ==> x.end.code > 0)
  }

  function RetryHooks(code: int): seq<HookEvent> {
    [OnRequest] + (if code == 429 then [OnError(429, false, false)] else []) + [OnRetry(code)]
  }

  function FinalHooks(end: Final): seq<HookEvent> {
    match end
    case Answered(code) =>
      if 200 <= code < 300 then [OnRequest, OnResponse(code)]
      else [OnRequest, OnError(code, true, false), OnResponse(code)]
    case TransportFailed(transient) => [OnRequest, OnError(0, true, transient)]
  }

  function Hooks(x: Execution): seq<HookEvent>
    decreases |x.retried|
  {
    if x.retried == [] then FinalHooks(x.end)
    else RetryHooks(x.retried[0]) + Hooks(x.(retried := x.retried[1..]))
  }

  /** The HTTP responses a request received. */
  function Responses(x: Execution): seq<int> {
    x.retried + (if x.end.Answered? then [x.end.code] else [])
  }

  // ---- What an event contributes -------------------------------------------

  function Records(e: HookEvent, code: int): nat {
    match e
    case OnRequest => 0
    case OnResponse(c) => if IsSuccess(c) && c == code then 1 else 0
    case OnError(status, _, _) => if status > 0 && status == code then 1 else 0
    case OnRetry(status) => if status != 429 && status == code then 1 else 0
  }

  function Throttles(e: HookEvent): nat {
    match e
    case OnError(status, _, _) => if IsThrottle(status) then 1 else 0
    case OnRetry(status) => if status == 503 then 1 else 0
    case _ => 0
  }

  function NetworkFails(e: HookEvent): nat {
    if e.OnError? && !IsThrottle(e.status) && e.terminal && e.transient then 1 else 0
  }

  function Requests(e: HookEvent): nat {
    if e.OnRequest? then 1 else 0
  }

  /** Handlers only add, so hooks of different requests commute. */
  lemma HandleAdds(m: Metrics, e: HookEvent)
    ensures forall code :: CountOf(Handle(m, e), code) == CountOf(m, code) + Records(e, code)
    ensures Handle(m, e).throttling == m.throttling + Throttles(e)
    ensures Handle(m, e).networkErrors == m.networkErrors + NetworkFails(e)
    ensures Handle(m, e).requests == m.requests + Requests(e)
  {
  }

  function Recorded(es: seq<HookEvent>, code: int): nat {
    if es == [] then 0 else Records(es[0], code) + Recorded(es[1..], code)
  }

  function Throttled(es: seq<HookEvent>): nat {
    if es == [] then 0 else Throttles(es[0]) + Throttled(es[1..])
  }

  function NetworkFailed(es: seq<HookEvent>): nat {
    if es == [] then 0 else NetworkFails(es[0]) + NetworkFailed(es[1..])
  }

  function Requested(es: seq<HookEvent>): nat {
    if es == [] then 0 else Requests(es[0]) + Requested(es[1..])
  }

  lemma {:induction false} CountsAppend(xs: seq<HookEvent>, ys: seq<HookEvent>, code: int)
    ensures Recorded(xs + ys, code) == Recorded(xs, code) + Recorded(ys, code)
    ensures Throttled(xs + ys) == Throttled(xs) + Throttled(ys)
    ensures NetworkFailed(xs + ys) == NetworkFailed(xs) + NetworkFailed(ys)
    ensures Requested(xs + ys) == Requested(xs) + Requested(ys)
  {
    if xs == [] {
      assert xs + ys == ys;
    } else {
      assert (xs + ys)[1..] == xs[1..] + ys;
      CountsAppend(xs[1..], ys, code);
    }
  }

  function Occurs(codes: seq<int>, code: int): nat {
    if codes == [] then 0 else (if codes[0] == code then 1 else 0) + Occurs(codes[1..], code)
  }

  lemma OneHook(e: HookEvent, rest: seq<HookEvent>, code: int)
    ensures Recorded([e] + rest, code) == Records(e, code) + Recorded(rest, code)
    ensures Throttled([e] + rest) == Throttles(e) + Throttled(rest)
    ensures NetworkFailed([e] + rest) == NetworkFails(e) + NetworkFailed(rest)
    ensures Requested([e] + rest) == Requests(e) + Requested(rest)
  {
    assert ([e] + rest)[1..] == rest;
  }

  /** For one retried answer, whichever hooks report it count it once. */
  lemma RetryHooksCountOnce(retried: int, code: int)
    requires retried > 0 && !(200 <= retried < 300)
    ensures Recorded(RetryHooks(retried), code) == if retried == code then 1 else 0
    ensures Throttled(RetryHooks(retried)) == if IsThrottle(retried) then 1 else 0
    ensures NetworkFailed(RetryHooks(retried)) == 0
    ensures Requested(RetryHooks(retried)) == 1
  {
    var retry := [OnRetry(retried)];
    OneHook(OnRetry(retried), [], code);
    assert retry + [] == retry;
    if retried == 429 {
      var report := OnError(429, false, false);
      OneHook(report, retry, code);
      OneHook(OnRequest, [report] + retry, code);
      assert RetryHooks(retried) == [OnRequest] + ([report] + retry);
    } else {
      OneHook(OnRequest, retry, code);
      assert RetryHooks(retried) == [OnRequest] + retry;
    }
  }

  lemma FinalHooksCountOnce(end: Final, code: int)
    requires end.Answered? ==> end.code > 0
    ensures Recorded(FinalHooks(end), code) == if end.Answered? && end.code == code then 1 else 0
    ensures Throttled(FinalHooks(end)) == if end.Answered? && IsThrottle(end.code) then 1 else 0
    ensures NetworkFailed(FinalHooks(end)) == if end.TransportFailed? && end.transient then 1 else 0
    ensures Requested(FinalHooks(end)) == 1
  {
    var hooks := FinalHooks(end);
    var last := hooks[|hooks| - 1];
    OneHook(last, [], code);
    assert [last] + [] == [last];
    if |hooks| == 3 {
      OneHook(hooks[1], [last], code);
      OneHook(OnRequest, [hooks[1]] + [last], code);
      assert hooks == [OnRequest] + ([hooks[1]] + [last]);
    } else {
      OneHook(OnRequest, [last], code);
      assert hooks == [OnRequest] + [last];
    }
  }

  /** Each HTTP response of a request is counted exactly once under its code, every
      429 and 503 once as throttling, a final transient transport failure once as a
      network error, and every attempt as a request. */
  lemma {:induction false} HooksCountResponsesOnce(x: Execution, code: int)
    requires Deliverable(x)
    ensures Recorded(Hooks(x), code) == Occurs(Responses(x), code)
    ensures Throttled(Hooks(x)) == Occurs(Responses(x), 429) + Occurs(Responses(x), 503)
    ensures NetworkFailed(Hooks(x)) == if x.end.TransportFailed? && x.end.transient then 1 else 0
    ensures Requested(Hooks(x)) == |x.retried| + 1
    decreases |x.retried|
  {
    if x.retried == [] {
      FinalHooksCountOnce(x.end, code);
      assert x.end.Answered? ==> Responses(x) == [x.end.code] && Responses(x)[1..] == [];
    } else {
      var rest := x.(retried := x.retried[1..]);
      HooksCountResponsesOnce(rest, code);
      RetryHooksCountOnce(x.retried[0], code);
      CountsAppend(RetryHooks(x.retried[0]), Hooks(rest), code);
      assert Responses(x)[0] == x.retried[0] && Responses(x)[1..] == Responses(rest);
    }
  }

  // ---- Many requests at once -----------------------------------------------

  /** Each request's undelivered hooks. A schedule names whose hook comes next. */
  datatype State = State(metrics: Metrics, pending: seq<seq<HookEvent>>)

  predicate Runs(s: State, schedule: seq<nat>)
    decreases |schedule|
  {
    schedule == [] ||
    (schedule[0] < |s.pending| && s.pending[schedule[0]] != [] && Runs(Deliver(s, schedule[0]), schedule[1..]))
  }

  function Deliver(s: State, i: nat): State
    requires i < |s.pending| && s.pending[i] != []
  {
    State(Handle(s.metrics, s.pending[i][0]), s.pending[i := s.pending[i][1..]])
  }

  function Exec(s: State, schedule: seq<nat>): State
    requires Runs(s, schedule)
    decreases |schedule|
  {
    if schedule == [] then s else Exec(Deliver(s, schedule[0]), schedule[1..])
  }

  function PendingRecords(pending: seq<seq<HookEvent>>, code: int): nat {
    if pending == [] then 0 else Recorded(pending[0], code) + PendingRecords(pending[1..], code)
  }

  function PendingThrottles(pending: seq<seq<HookEvent>>): nat {
    if pending == [] then 0 else Throttled(pending[0]) + PendingThrottles(pending[1..])
  }

  function PendingFailures(pending: seq<seq<HookEvent>>): nat {
    if pending == [] then 0 else NetworkFailed(pending[0]) + PendingFailures(pending[1..])
  }

  function PendingRequests(pending: seq<seq<HookEvent>>): nat {
    if pending == [] then 0 else Requested(pending[0]) + PendingRequests(pending[1..])
  }

  lemma {:induction false} PendingAfterDelivery(pending: seq<seq<HookEvent>>, i: nat, code: int)
    requires i < |pending| && pending[i] != []
    ensures PendingRecords(pending[i := pending[i][1..]], code) + Records(pending[i][0], code) == PendingRecords(pending, code)
    ensures PendingThrottles(pending[i := pending[i][1..]]) + Throttles(pending[i][0]) == PendingThrottles(pending)
    ensures PendingFailures(pending[i := pending[i][1..]]) + NetworkFails(pending[i][0]) == PendingFailures(pending)
    ensures PendingRequests(pending[i := pending[i][1..]]) + Requests(pending[i][0]) == PendingRequests(pending)
  {
    if i == 0 {
      assert pending[i := pending[i][1..]][1..] == pending[1..];
    } else {
      assert pending[i := pending[i][1..]][1..] == pending[1..][i - 1 := pending[1..][i - 1][1..]];
      PendingAfterDelivery(pending[1..], i - 1, code);
    }
  }

  lemma {:induction false} DeliveryConserves(s: State, schedule: seq<nat>, code: int)
    requires Runs(s, schedule)
    ensures var t := Exec(s, schedule);
            && CountOf(t.metrics, code) + PendingRecords(t.pending, code)
               == CountOf(s.metrics, code) + PendingRecords(s.pending, code)
            && t.metrics.throttling + PendingThrottles(t.pending)
               == s.metrics.throttling + PendingThrottles(s.pending)
            && t.metrics.networkErrors + PendingFailures(t.pending) == s.metrics.networkErrors + PendingFailures(s.pending)
            && t.metrics.requests + PendingRequests(t.pending) == s.metrics.requests + PendingRequests(s.pending)
            && |t.pending| == |s.pending|
    decreases |schedule|
  {
    if schedule != [] {
      var i := schedule[0];
      HandleAdds(s.metrics, s.pending[i][0]);
      PendingAfterDelivery(s.pending, i, code);
      DeliveryConserves(Deliver(s, i), schedule[1..], code);
    }
  }

  function AllHooks(xs: seq<Execution>): seq<seq<HookEvent>> {
    seq(|xs|, i requires 0 <= i < |xs| => Hooks(xs[i]))
  }

  function AllResponses(xs: seq<Execution>): seq<int> {
    if xs == [] then [] else Responses(xs[0]) + AllResponses(xs[1..])
  }

  /** Requests that ended without an answer, in a way that might pass. */
  function TransientFailures(xs: seq<Execution>): nat {
    if xs == [] then 0
    else (if xs[0].end.TransportFailed? && xs[0].end.transient then 1 else 0) + TransientFailures(xs[1..])
  }

  /** Attempts made: one per retried answer and one that ended the request. */
  function Attempts(xs: seq<Execution>): nat {
    if xs == [] then 0 else |xs[0].retried| + 1 + Attempts(xs[1..])
  }

  lemma {:induction false} OccursAppend(xs: seq<int>, ys: seq<int>, code: int)
    ensures Occurs(xs + ys, code) == Occurs(xs, code) + Occurs(ys, code)
  {
    if xs == [] {
      assert xs + ys == ys;
    } else {
      assert (xs + ys)[1..] == xs[1..] + ys;
      OccursAppend(xs[1..], ys, code);
    }
  }

  lemma {:induction false} PendingIsResponses(xs: seq<Execution>, code: int)
    requires forall i :: 0 <= i < |xs| ==> Deliverable(xs[i])
    ensures PendingRecords(AllHooks(xs), code) == Occurs(AllResponses(xs), code)
    ensures PendingThrottles(AllHooks(xs)) == Occurs(AllResponses(xs), 429) + Occurs(AllResponses(xs), 503)
    ensures PendingFailures(AllHooks(xs)) == TransientFailures(xs)
    ensures PendingRequests(AllHooks(xs)) == Attempts(xs)
    decreases |xs|
  {
    if xs != [] {
      assert AllHooks(xs)[1..] == AllHooks(xs[1..]);
      PendingIsResponses(xs[1..], code);
      HooksCountResponsesOnce(xs[0], code);
      OccursAppend(Responses(xs[0]), AllResponses(xs[1..]), code);
      OccursAppend(Responses(xs[0]), AllResponses(xs[1..]), 429);
      OccursAppend(Responses(xs[0]), AllResponses(xs[1..]), 503);
    }
  }

  lemma {:induction false} NothingPending(pending: seq<seq<HookEvent>>, code: int)
    requires forall i :: 0 <= i < |pending| ==> pending[i] == []
    ensures PendingRecords(pending, code) == 0 && PendingThrottles(pending) == 0
    ensures PendingFailures(pending) == 0 && PendingRequests(pending) == 0
  {
    if pending != [] {
      NothingPending(pending[1..], code);
    }
  }

  /** For any requests and any interleaving of their hooks: once all hooks have been
      delivered, the counter of every code is the number of responses with that
      code, the throttling count is the number of 429 and 503 responses, the network
      errors are the requests that ended in a transient failure, and the requests are
      the attempts. */
  lemma ResponsesCountedOnce(xs: seq<Execution>, schedule: seq<nat>, code: int)
    requires forall i :: 0 <= i < |xs| ==> Deliverable(xs[i])
    requires Runs(State(NO_METRICS, AllHooks(xs)), schedule)
    requires var t := Exec(State(NO_METRICS, AllHooks(xs)), schedule);
             forall i :: 0 <= i < |t.pending| ==> t.pending[i] == []
    ensures var t := Exec(State(NO_METRICS, AllHooks(xs)), schedule);
            && CountOf(t.metrics, code) == Occurs(AllResponses(xs), code)
            && t.metrics.throttling == Occurs(AllResponses(xs), 429) + Occurs(AllResponses(xs), 503)
            && t.metrics.networkErrors == TransientFailures(xs)
            && t.metrics.requests == Attempts(xs)
  {
    var s := State(NO_METRICS, AllHooks(xs));
    DeliveryConserves(s, schedule, code);
    PendingIsResponses(xs, code);
    NothingPending(Exec(s, schedule).pending, code);
  }
}

/** The client's counters and lifecycle hooks, updated in place. */
module ApiClients {
  import opened ApiMetricsModel

  class Client {
    var requestCount: nat
    var networkErrors: nat
    var throttlingCount: nat
    var statusCodes: map<int, nat>

    ghost function State(): Metrics
      reads this
    {
      Metrics(requestCount, networkErrors, throttlingCount, statusCodes)
    }

    constructor ()
      ensures State() == NO_METRICS
    {
      requestCount, networkErrors, throttlingCount, statusCodes := 0, 0, 0, map[];
    }

    method RecordStatusCode(code: int)
      modifies this`statusCodes
      ensures State() == RecordCode(old(State()), code)
    {
      statusCodes := statusCodes[code := (if code in statusCodes then statusCodes[code] else 0) + 1];
    }

    method HandleOnRequest()
      modifies this`requestCount
      ensures State() == Handle(old(State()), OnRequest)
    {
      requestCount := requestCount + 1;
    }

    method HandleOnResponse(code: int)
      modifies this`statusCodes
      ensures State() == Handle(old(State()), OnResponse(code))
      ensures statusCodes == if 200 <= code < 300
                             then old(statusCodes)[code := CountOf(old(State()), code) + 1] else old(statusCodes)
    {
      if code >= 200 && code < 300 {
        RecordStatusCode(code);
      }
    }

    method HandleOnError(status: int, terminal: bool, transient: bool)
      modifies this`statusCodes, this`throttlingCount, this`networkErrors
      ensures State() == Handle(old(State()), OnError(status, terminal, transient))
      ensures statusCodes == if status > 0
                             then old(statusCodes)[status := CountOf(old(State()), status) + 1] else old(statusCodes)
      ensures throttlingCount == old(throttlingCount) + (if status == 429 || status == 503 then 1 else 0)
      ensures networkErrors == old(networkErrors) + (if status != 429 && status != 503 && terminal && transient then 1 else 0)
    {
      if status > 0 {
        RecordStatusCode(status);
      }
      if status == 429 || status == 503 {
        throttlingCount := throttlingCount + 1;
        return;
      }
      if !terminal {
        return;
      }
      if transient {
        networkErrors := networkErrors + 1;
      }
    }

    method HandleOnRetry(status: int)
      modifies this`statusCodes, this`throttlingCount
      ensures State() == Handle(old(State()), OnRetry(status))
      ensures statusCodes == if status != 429
                             then old(statusCodes)[status := CountOf(old(State()), status) + 1] else old(statusCodes)
      ensures throttlingCount == old(throttlingCount) + (if status == 503 then 1 else 0)
    {
      if status != 429 {
        RecordStatusCode(status);
        if status == 503 {
          throttlingCount := throttlingCount + 1;
        }
      }
    }
  }
}
