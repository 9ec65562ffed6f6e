/** The throttled transport: a backoff gate shared by all requests, and a bounded
    retry loop beneath it. */
module TransportModel {
  import opened Sums

  type Time = int

  /** The Retry-After header: absent, delay-seconds that parse as an integer, or
      anything else (section 10.2.3 of RFC 9110). */
  datatype RetryAfter = NoHeader | DelaySeconds(seconds: int) | Unparsed

  /** What one base round trip gives. */
  datatype BaseResult = NetError(transient: bool) | Response(code: int, retryAfter: RetryAfter)

  /** One possible attempt: its result, whether the context is done when the retry
      is considered, and whether it ends while the loop sleeps. */
  datatype Attempt = Attempt(result: BaseResult, cancelledBefore: bool, cancelledAsleep: bool)

  datatype TripResult = Result(base: BaseResult) | Cancelled

  const SECOND: int := 1_000_000_000

  predicate IsThrottle(r: BaseResult) {
    r.Response? && (r.code == 429 || r.code == 503)
  }

  /** How long a throttled response asks to pause: the header's seconds if there are
      any, the configured pause otherwise. */
  function PauseFor(r: BaseResult, defaultPause: int): int {
    if r.Response? && r.retryAfter.DelaySeconds? && r.retryAfter.seconds > 0 then r.retryAfter.seconds * SECOND
    else defaultPause
  }

  // ---- Retry loop ----------------------------------------------------------

  predicate Retryable(r: BaseResult, idempotent: bool) {
    r.NetError? && r.transient && idempotent
  }

  /** The index of the last attempt made, from attempt `i` on. */
  function LastAttempt(script: seq<Attempt>, i: nat, maxRetries: nat, idempotent: bool): (last: nat)
    requires i <= maxRetries < |script|
    ensures i <= last <= maxRetries
    decreases maxRetries - i
  {
    var a := script[i];
    if !Retryable(a.result, idempotent) || i == maxRetries || a.cancelledBefore || a.cancelledAsleep then i
    else LastAttempt(script, i + 1, maxRetries, idempotent)
  }

  /** What the loop returns when attempt `last` is its last. */
  function LoopResult(script: seq<Attempt>, last: nat, maxRetries: nat, idempotent: bool): TripResult
    requires last <= maxRetries < |script|
  {
    var a := script[last];
    if Retryable(a.result, idempotent) && last < maxRetries && (a.cancelledBefore || a.cancelledAsleep)
    then Cancelled
    else Result(a.result)
  }

  /** A retry is counted once the context was still live, even if the sleep that
      follows is cut short. */
  function RetriesCounted(script: seq<Attempt>, last: nat, maxRetries: nat, idempotent: bool): nat
    requires last <= maxRetries < |script|
  {
    var a := script[last];
    if Retryable(a.result, idempotent) && last < maxRetries && !a.cancelledBefore && a.cancelledAsleep
    then last + 1 else last
  }

  /** A transient network error of a request that may be sent again. */
  predicate SendsAgain(a: Attempt, idempotent: bool) {
    a.result.NetError? && a.result.transient && idempotent && !a.cancelledBefore && !a.cancelledAsleep
  }

  /** Every attempt before the last was a transient error on an idempotent request
      and was retried under a live context; the last one was not retryable, or the
      budget was spent, or the context was done. */
  lemma {:induction false} LastAttemptIsFirstStop(script: seq<Attempt>, i: nat, maxRetries: nat, idempotent: bool)
    requires i <= maxRetries < |script|
    ensures var last := LastAttempt(script, i, maxRetries, idempotent);
            && (forall j :: i <= j < last ==> SendsAgain(script[j], idempotent))
            && (last == maxRetries || !SendsAgain(script[last], idempotent))
    decreases maxRetries - i
  {
    var a := script[i];
    if !(!Retryable(a.result, idempotent) || i == maxRetries || a.cancelledBefore || a.cancelledAsleep) {
      LastAttemptIsFirstStop(script, i + 1, maxRetries, idempotent);
    }
  }

  /** The loop's calls, result and count of retries, from the attempts themselves: it
      stops at the first attempt that is not sent again, and reports a cancellation
      only where a retry was due. */
  lemma LoopExactly(script: seq<Attempt>, maxRetries: nat, idempotent: bool)
    requires maxRetries < |script|
    ensures var last := LastAttempt(script, 0, maxRetries, idempotent);
            var due := script[last].result.NetError? && script[last].result.transient && idempotent && last < maxRetries;
            && (forall j :: 0 <= j < last ==> SendsAgain(script[j], idempotent))
            && (last == maxRetries || !SendsAgain(script[last], idempotent))
            && LoopResult(script, last, maxRetries, idempotent) == (if due then Cancelled else Result(script[last].result))
            && RetriesCounted(script, last, maxRetries, idempotent)
               == last + (if due && !script[last].cancelledBefore then 1 else 0)
  {
    LastAttemptIsFirstStop(script, 0, maxRetries, idempotent);
  }

  /** A request that may not be retried is sent exactly once, and no request more
      than `maxRetries + 1` times; without cancellation the calls are one more than
      the retries counted and the loop returns the last attempt's own result. */
  lemma RetryBudget(script: seq<Attempt>, maxRetries: nat, idempotent: bool)
    requires maxRetries < |script|
    ensures var last := LastAttempt(script, 0, maxRetries, idempotent);
            var calls := last + 1;
            && calls <= maxRetries + 1
            && (!idempotent ==> calls == 1)
            && ((forall j :: 0 <= j < |script| ==> !script[j].cancelledBefore && !script[j].cancelledAsleep) ==>
                  && calls == 1 + RetriesCounted(script, last, maxRetries, idempotent)
                  && LoopResult(script, last, maxRetries, idempotent) == Result(script[last].result)
                  && (script[last].result.NetError? && script[last].result.transient && idempotent ==> calls == maxRetries + 1))
  {
    LoopExactly(script, maxRetries, idempotent);
  }

  // ---- The gate under concurrency ------------------------------------------

  datatype Gate = Gate(pauseUntil: Time, activations: nat)

  /** The locked section at the end of a throttled round trip. */
  function Close(g: Gate, now: Time, pause: int): Gate {
    if now + pause > g.pauseUntil then Gate(now + pause, g.activations + 1) else g
  }

  /** A 429 or 503 and when it was handled. */
  datatype Throttled = Throttled(at: Time, response: BaseResult)

  function Deadline(t: Throttled, defaultPause: int): Time {
    t.at + PauseFor(t.response, defaultPause)
  }

  /** A round trip's progress. `length` is the sleep it computed at the gate; `seen`,
      the deadline it read there, is history: the program keeps only the length. */
  datatype Trip =
    | Idle
    | Computed(length: int, seen: Time)               // about to sleep
    | Sleeping(since: Time, length: int, seen: Time)
    | Ready(seen: Time)                               // past the gate
    | Called(at: Time, seen: Time)                    // first base call made

  datatype State = State(gate: Gate, defaultPause: int, trips: seq<Trip>, clock: Time, handled: seq<Throttled>)

  datatype Event =
    | ReadGate(i: nat, now: Time)
    | StartSleep(i: nat, now: Time)
    | Wake(i: nat, now: Time)
    | CancelAsleep(i: nat)
    | FirstCall(i: nat, now: Time)
    | Finish(i: nat, now: Time, result: BaseResult)

  predicate TimedEnabled(s: State, i: nat, now: Time) {
    i < |s.trips| && s.clock <= now
  }

  predicate Enabled(s: State, e: Event) {
    match e
    case ReadGate(i, now) => TimedEnabled(s, i, now) && s.trips[i].Idle?
    case StartSleep(i, now) => TimedEnabled(s, i, now) && s.trips[i].Computed?
    // all that is known of a sleep: it lasts at least its length
    case Wake(i, now) => TimedEnabled(s, i, now) && s.trips[i].Sleeping? && s.trips[i].since + s.trips[i].length <= now
    case CancelAsleep(i) => i < |s.trips| && s.trips[i].Sleeping?
    case FirstCall(i, now) => TimedEnabled(s, i, now) && s.trips[i].Ready?
    case Finish(i, now, _) => TimedEnabled(s, i, now) && s.trips[i].Called?
  }

  function Advance(s: State, i: nat, trip: Trip, now: Time): State
    requires i < |s.trips|
  {
    s.(trips := s.trips[i := trip], clock := now)
  }

  function Apply(s: State, e: Event): State
    requires Enabled(s, e)
  {
    match e
    case ReadGate(i, now) =>
      var wait := s.gate.pauseUntil - now;
      Advance(s, i, if wait > 0 then Computed(wait, s.gate.pauseUntil) else Ready(s.gate.pauseUntil), now)
    case StartSleep(i, now) => Advance(s, i, Sleeping(now, s.trips[i].length, s.trips[i].seen), now)
    case Wake(i, now) => Advance(s, i, Ready(s.trips[i].seen), now)
    case CancelAsleep(i) => s.(trips := s.trips[i := Idle])
    case FirstCall(i, now) => Advance(s, i, Called(now, s.trips[i].seen), now)
    case Finish(i, now, result) =>
      var done := Advance(s, i, Idle, now);
      if IsThrottle(result)
      then done.(gate := Close(s.gate, now, PauseFor(result, s.defaultPause)), handled := s.handled + [Throttled(now, result)])
      else done
  }

  predicate Runs(s: State, es: seq<Event>)
    decreases |es|
  {
    es == [] || (Enabled(s, es[0]) && Runs(Apply(s, es[0]), es[1..]))
  }

  function Exec(s: State, es: seq<Event>): State
    requires Runs(s, es)
    decreases |es|
  {
    if es == [] then s else Exec(Apply(s, es[0]), es[1..])
  }

  /** The greatest deadline so far, and how many deadlines were greater than all
      before them. */
  function Latest(start: Time, handled: seq<Throttled>, pause: int): Time {
    if handled == [] then start
    else Max(Latest(start, handled[..|handled| - 1], pause), Deadline(handled[|handled| - 1], pause))
  }

  function Records(start: Time, handled: seq<Throttled>, pause: int): nat {
    if handled == [] then 0
    else
      var before := handled[..|handled| - 1];
      Records(start, before, pause) + (if Deadline(handled[|handled| - 1], pause) > Latest(start, before, pause) then 1 else 0)
  }

  /** What is known of a deadline read at the gate: it lies no later than the end of
      the sleep, and after the sleep it has passed. */
  predicate TripFits(trip: Trip, clock: Time) {
    match trip
    case Idle => true
    case Computed(length, seen) => seen <= clock + length
    case Sleeping(since, length, seen) => seen <= since + length
    case Ready(seen) => seen <= clock
    case Called(at, seen) => seen <= at
  }

  predicate Inv(s: State, start: Time) {
    && s.gate == Gate(Latest(start, s.handled, s.defaultPause), Records(start, s.handled, s.defaultPause))
    && forall i :: 0 <= i < |s.trips| ==> TripFits(s.trips[i], s.clock)
  }

  lemma StepKeepsTrips(s: State, start: Time, e: Event)
    requires Inv(s, start) && Enabled(s, e)
    ensures forall i :: 0 <= i < |Apply(s, e).trips| ==> TripFits(Apply(s, e).trips[i], Apply(s, e).clock)
  {
    forall i | 0 <= i < |Apply(s, e).trips| ensures TripFits(Apply(s, e).trips[i], Apply(s, e).clock) {
      assert TripFits(s.trips[i], s.clock);
    }
  }

  lemma StepKeepsInv(s: State, start: Time, e: Event)
    requires Inv(s, start) && Enabled(s, e)
    ensures Inv(Apply(s, e), start) && Apply(s, e).defaultPause == s.defaultPause
    ensures s.gate.pauseUntil <= Apply(s, e).gate.pauseUntil && s.gate.activations <= Apply(s, e).gate.activations
    ensures Apply(s, e).gate.activations > s.gate.activations <==> Apply(s, e).gate.pauseUntil > s.gate.pauseUntil
  {
    StepKeepsTrips(s, start, e);
    if e.Finish? && IsThrottle(e.result) {
      var t := Throttled(e.now, e.result);
      assert (s.handled + [t])[..|s.handled + [t]| - 1] == s.handled;
    }
  }

  /** Over any interleaving of round trips: the gate stands at the latest deadline
      that a throttled response's Retry-After, or the configured pause, has set; it
      never moves back, and its activations count exactly the times it moved; no first
      call came before the deadline its trip had read. */
  lemma {:induction false} GateIsMaximum(s: State, start: Time, es: seq<Event>)
    requires Inv(s, start) && Runs(s, es)
    ensures var t := Exec(s, es);
            && t.gate.pauseUntil == Latest(start, t.handled, t.defaultPause)
            && t.gate.activations == Records(start, t.handled, t.defaultPause)
            && s.gate.pauseUntil <= t.gate.pauseUntil
            && (forall i :: 0 <= i < |t.trips| && t.trips[i].Called? ==> t.trips[i].seen <= t.trips[i].at)
            && Inv(t, start) && t.defaultPause == s.defaultPause
            && s.handled <= t.handled
    decreases |es|
  {
    if es != [] {
      StepKeepsInv(s, start, es[0]);
      GateIsMaximum(Apply(s, es[0]), start, es[1..]);
    } else {
      assert forall i :: 0 <= i < |s.trips| ==> TripFits(s.trips[i], s.clock);
    }
  }

  // ---- From the responses ------------------------------------------------------

  /** The event ends a trip with a 429 or 503 that asks to pause until then: for as many
      seconds as its Retry-After says if that is a positive number, else for the
      configured pause. */
  predicate AsksUntil(e: Event, defaultPause: int, until: Time) {
    && e.Finish? && e.result.Response? && (e.result.code == 429 || e.result.code == 503)
    && until == e.now + (match e.result.retryAfter
                         case DelaySeconds(n) => if n > 0 then n * 1_000_000_000 else defaultPause
                         case NoHeader => defaultPause
                         case Unparsed => defaultPause)
  }

  lemma StepObeysRequests(s: State, e: Event, until: Time)
    requires Enabled(s, e)
    ensures Apply(s, e).defaultPause == s.defaultPause
    ensures AsksUntil(e, s.defaultPause, until) ==> until <= Apply(s, e).gate.pauseUntil
    ensures s.gate.pauseUntil <= Apply(s, e).gate.pauseUntil
    ensures Apply(s, e).gate.pauseUntil == s.gate.pauseUntil || AsksUntil(e, s.defaultPause, Apply(s, e).gate.pauseUntil)
  {
  }

  /** Over any interleaving of round trips the gate stands at the latest time that a
      throttled response has asked to pause until, and nowhere else. */
  lemma {:induction false} GateObeysResponses(s: State, es: seq<Event>)
    requires Runs(s, es)
    ensures var t := Exec(s, es);
            && t.defaultPause == s.defaultPause
            && s.gate.pauseUntil <= t.gate.pauseUntil
            && (forall j, until :: 0 <= j < |es| && AsksUntil(es[j], s.defaultPause, until) ==> until <= t.gate.pauseUntil)
            && (t.gate.pauseUntil == s.gate.pauseUntil
                || exists j :: 0 <= j < |es| && AsksUntil(es[j], s.defaultPause, t.gate.pauseUntil))
    decreases |es|
  {
    if es != [] {
      var t := Apply(s, es[0]);
      StepObeysRequests(s, es[0], t.gate.pauseUntil);
      GateObeysResponses(t, es[1..]);
      var last := Exec(s, es).gate.pauseUntil;
      forall j, until | 0 <= j < |es| && AsksUntil(es[j], s.defaultPause, until) ensures until <= last {
        if j == 0 {
          StepObeysRequests(s, es[0], until);
        } else {
          assert es[1..][j - 1] == es[j];
        }
      }
      if last != t.gate.pauseUntil {
        var j :| 0 <= j < |es[1..]| && AsksUntil(es[1..][j], s.defaultPause, last);
        assert es[j + 1] == es[1..][j];
      } else if last != s.gate.pauseUntil {
        assert AsksUntil(es[0], s.defaultPause, last);
      }
    }
  }

  lemma {:induction false} LatestBounds(start: Time, handled: seq<Throttled>, pause: int)
    ensures start <= Latest(start, handled, pause)
    ensures forall i :: 0 <= i < |handled| ==> Deadline(handled[i], pause) <= Latest(start, handled, pause)
    ensures Latest(start, handled, pause) == start
            || exists i :: 0 <= i < |handled| && Deadline(handled[i], pause) == Latest(start, handled, pause)
    decreases |handled|
  {
    if handled != [] {
      var n := |handled| - 1;
      LatestBounds(start, handled[..n], pause);
      assert forall i :: 0 <= i < n ==> handled[..n][i] == handled[i];
    }
  }

  /** Until it reads the gate again a trip keeps the deadline it has read. */
  lemma {:induction false} SeenIsKept(s: State, es: seq<Event>, i: nat)
    requires Runs(s, es) && i < |s.trips|
    requires forall j :: 0 <= j < |es| ==> !(es[j].ReadGate? && es[j].i == i)
    ensures |Exec(s, es).trips| == |s.trips|
    ensures Exec(s, es).trips[i].Idle? || (!s.trips[i].Idle? && Exec(s, es).trips[i].seen == s.trips[i].seen)
    decreases |es|
  {
    if es != [] {
      assert !(es[0].ReadGate? && es[0].i == i);
      SeenIsKept(Apply(s, es[0]), es[1..], i);
    }
  }

  /** A trip that reads the gate after a 429 or 503 makes its first call no earlier than
      that response asked for: its Retry-After seconds, or the configured pause, after
      it was handled. All that is assumed is that no sleep is shorter than its
      length. */
  lemma {:induction false} LaterTripsWait(s: State, start: Time, es: seq<Event>, read: Event, es': seq<Event>, call: Event, d: nat)
    requires Inv(s, start) && Runs(s, es)
    requires d < |es| && es[d].Finish? && es[d].result.Response? && (es[d].result.code == 429 || es[d].result.code == 503)
    requires read.ReadGate? && Enabled(Exec(s, es), read)
    requires Runs(Apply(Exec(s, es), read), es')
    requires forall j :: 0 <= j < |es'| ==> !(es'[j].ReadGate? && es'[j].i == read.i)
    requires call.FirstCall? && call.i == read.i && Enabled(Exec(Apply(Exec(s, es), read), es'), call)
    ensures match es[d].result.retryAfter
            case DelaySeconds(n) =>
              if n > 0 then call.now >= es[d].now + n * 1_000_000_000 else call.now >= es[d].now + s.defaultPause
            case NoHeader => call.now >= es[d].now + s.defaultPause
            case Unparsed => call.now >= es[d].now + s.defaultPause
  {
    GateObeysResponses(s, es);
    var until := es[d].now + (match es[d].result.retryAfter
                              case DelaySeconds(n) => if n > 0 then n * 1_000_000_000 else s.defaultPause
                              case NoHeader => s.defaultPause
                              case Unparsed => s.defaultPause);
    assert AsksUntil(es[d], s.defaultPause, until);
    ReadersWait(s, start, es, read, es', call);
  }

  /** A trip's first call comes no earlier than the deadline it read at the gate. */
  lemma {:induction false} ReadersWait(s: State, start: Time, es: seq<Event>, read: Event, es': seq<Event>, call: Event)
    requires Inv(s, start) && Runs(s, es)
    requires read.ReadGate? && Enabled(Exec(s, es), read)
    requires Runs(Apply(Exec(s, es), read), es')
    requires forall j :: 0 <= j < |es'| ==> !(es'[j].ReadGate? && es'[j].i == read.i)
    requires call.FirstCall? && call.i == read.i && Enabled(Exec(Apply(Exec(s, es), read), es'), call)
    ensures call.now >= Exec(s, es).gate.pauseUntil
  {
    var s1 := Exec(s, es);
    var s2 := Apply(s1, read);
    GateIsMaximum(s, start, es);
    StepKeepsInv(s1, start, read);
    GateIsMaximum(s2, start, es');
    SeenIsKept(s2, es', read.i);
    assert TripFits(Exec(s2, es').trips[read.i], Exec(s2, es').clock);
  }
}

/** The transport with its shared gate and counters, updated in place. */
module ThrottledTransports {
  import opened Sums
  import opened Failures
  import opened TransportModel

  class ThrottledTransport {
    var pauseUntil: Time
    var gateActivations: nat
    var totalGateWait: int
    var transportRetries: nat
    const maxRetries: nat
    const retryBackoffs: seq<int>
    const throttlePause: int

    constructor (maxRetries: nat, retryBackoffs: seq<int>, throttlePause: int)
      ensures this.maxRetries == maxRetries && this.retryBackoffs == retryBackoffs && this.throttlePause == throttlePause
      ensures (pauseUntil, gateActivations, totalGateWait, transportRetries) == (0, 0, 0, 0)
    {
      this.maxRetries, this.retryBackoffs, this.throttlePause := maxRetries, retryBackoffs, throttlePause;
      pauseUntil, gateActivations, totalGateWait, transportRetries := 0, 0, 0, 0;
    }

    /** Sleeps out the backoff window. The length is computed under the lock at `read`,
        the sleep begins at `began` and overshoots by some amount, unless the context
        ends it `cut` after it began. */
    method WaitAtGate(read: Time, began: Time, overshoot: nat, cut: Option<nat>) returns (passed: bool, resumed: Time)
      requires read <= began
      modifies this`totalGateWait
      ensures passed <==> pauseUntil <= read || cut == None
      ensures totalGateWait == old(totalGateWait) + (if pauseUntil > read then resumed - began else 0)
      ensures passed ==> resumed >= pauseUntil
      ensures pauseUntil <= read ==> resumed == began
      ensures pauseUntil > read && cut != None ==> resumed == began + cut.value
      ensures pauseUntil > read && cut == None ==> resumed == began + (pauseUntil - read) + overshoot
    {
      var wait := pauseUntil - read;
      if wait <= 0 {
        return true, began;
      }
      match cut
      case Some(after) =>
        totalGateWait := totalGateWait + after;
        return false, began + after;
      case None =>
        totalGateWait := totalGateWait + (wait + overshoot);
        return true, began + wait + overshoot;
    }

    /** Retries transient network errors of idempotent requests. */
    method Attempts(script: seq<Attempt>, idempotent: bool) returns (r: TripResult, calls: nat, slept: seq<int>)
      requires |script| > maxRetries && |retryBackoffs| > 0
      modifies this`transportRetries
      ensures var last := LastAttempt(script, 0, maxRetries, idempotent);
              && calls == last + 1
              && r == LoopResult(script, last, maxRetries, idempotent)
              && transportRetries == old(transportRetries) + RetriesCounted(script, last, maxRetries, idempotent)
              && |slept| == RetriesCounted(script, last, maxRetries, idempotent)
              && forall j :: 0 <= j < |slept| ==> slept[j] == retryBackoffs[j % |retryBackoffs|]
      ensures 1 <= calls <= maxRetries + 1
      ensures var a := script[calls - 1];
              var due := a.result.NetError? && a.result.transient && idempotent && calls <= maxRetries;
              && (forall j :: 0 <= j < calls - 1 ==> SendsAgain(script[j], idempotent))
              && (calls == maxRetries + 1 || !SendsAgain(a, idempotent))
              && r == (if due then Cancelled else Result(a.result))
              && transportRetries == old(transportRetries) + calls - (if due && !a.cancelledBefore then 0 else 1)
    {
      LoopExactly(script, maxRetries, idempotent);
      calls, slept := 0, [];
      ghost var last := LastAttempt(script, 0, maxRetries, idempotent);
      r := Cancelled;
      for attempt := 0 to maxRetries + 1
        invariant calls == attempt == |slept|
        invariant attempt <= maxRetries && LastAttempt(script, attempt, maxRetries, idempotent) == last
        invariant transportRetries == old(transportRetries) + attempt
        invariant forall j :: 0 <= j < |slept| ==> slept[j] == retryBackoffs[j % |retryBackoffs|]
      {
        var a := script[attempt];
        calls := calls + 1;
        r := Result(a.result);
        if a.result.Response? {
          break;
        }
        if !a.result.transient || !idempotent {
          break;
        }
        if attempt >= maxRetries {
          break;
        }
        if a.cancelledBefore {
          return Cancelled, calls, slept;
        }
        transportRetries := transportRetries + 1;
        slept := slept + [retryBackoffs[attempt % |retryBackoffs|]];
        if a.cancelledAsleep {
          return Cancelled, calls, slept;
        }
      }
    }

    /** On 429 or 503, moves the gate forward, never back. */
    method UpdateGate(r: BaseResult, now: Time)
      modifies this`pauseUntil, this`gateActivations
      ensures Gate(pauseUntil, gateActivations) ==
              if IsThrottle(r) then Close(old(Gate(pauseUntil, gateActivations)), now, PauseFor(r, throttlePause))
              else old(Gate(pauseUntil, gateActivations))
      ensures pauseUntil ==
              if r.Response? && (r.code == 429 || r.code == 503) then
                Max(old(pauseUntil), now + (match r.retryAfter
                                            case DelaySeconds(n) => if n > 0 then n * 1_000_000_000 else throttlePause
                                            case NoHeader => throttlePause
                                            case Unparsed => throttlePause))
              else old(pauseUntil)
      ensures gateActivations == old(gateActivations) + (if pauseUntil > old(pauseUntil) then 1 else 0)
    {
      if r.Response? && (r.code == 429 || r.code == 503) {
        var pauseDuration := throttlePause;
        match r.retryAfter {
          case DelaySeconds(seconds) =>
            if seconds > 0 {
              pauseDuration := seconds * SECOND;
            }
          case NoHeader =>
          case Unparsed =>
        }
        var newPause := now + pauseDuration;
        if newPause > pauseUntil {
          pauseUntil := newPause;
          gateActivations := gateActivations + 1;
        }
      }
    }

    /** One round trip from gate to gate. Without cancellation the request makes
        between one and maxRetries + 1 base calls, none before the deadline read at
        the gate, and returns what the last of them returned. */
    method RoundTrip(script: seq<Attempt>, idempotent: bool, read: Time, began: Time, overshoot: nat, cut: Option<nat>, handled: Time)
      returns (r: TripResult, calls: nat, firstCall: Time)
      requires |script| > maxRetries && |retryBackoffs| > 0
      requires read <= began
      modifies this
      ensures calls > 0 ==> firstCall >= old(pauseUntil)
      ensures calls == 0 <==> old(pauseUntil) > read && cut != None
      ensures calls <= maxRetries + 1
      ensures calls == 0 ==> r == Cancelled && pauseUntil == old(pauseUntil) && transportRetries == old(transportRetries)
      ensures calls > 0 ==>
                var last := LastAttempt(script, 0, maxRetries, idempotent);
                && calls == last + 1
                && r == LoopResult(script, last, maxRetries, idempotent)
                && transportRetries == old(transportRetries) + RetriesCounted(script, last, maxRetries, idempotent)
                && Gate(pauseUntil, gateActivations) ==
                   if r.Result? && IsThrottle(r.base)
                   then Close(old(Gate(pauseUntil, gateActivations)), handled, PauseFor(r.base, throttlePause))
                   else old(Gate(pauseUntil, gateActivations))
      ensures pauseUntil ==
              if r.Result? && r.base.Response? && (r.base.code == 429 || r.base.code == 503) then
                Max(old(pauseUntil), handled + (match r.base.retryAfter
                                                case DelaySeconds(n) => if n > 0 then n * 1_000_000_000 else throttlePause
                                                case NoHeader => throttlePause
                                                case Unparsed => throttlePause))
              else old(pauseUntil)
    {
      var passed;
      passed, firstCall := WaitAtGate(read, began, overshoot, cut);
      if !passed {
        return Cancelled, 0, firstCall;
      }
      var slept;
      r, calls, slept := Attempts(script, idempotent);
      if r.Result? {
        UpdateGate(r.base, handled);
      }
    }
  }
}
