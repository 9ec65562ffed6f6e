/** The scaler at the grain of single atomic operations: any number of workers in
    the middle of Acquire and Release, interleaved with one monitor in the middle
    of a tick. */
module ThrottleAtomic {
  import opened Sums
  import T = ThrottleModel
  import ThrottleSafety

  type Time = T.Time

  /** Where a worker is. `at` is the number of changes `live` had seen when the
      worker loaded it. */
  datatype Pc =
    | Outside
    | Holding
    | LoadedLive(live: int, at: nat)
    | LoadedBoth(live: int, limit: int, at: nat)

  datatype Worker = Worker(pc: Pc, failedCas: nat)

  /** Where the monitor is; `left` loop iterations remain. */
  datatype Monitor =
    | MIdle
    | Draining(left: nat)
    | Drained(left: nat)   // token received, liveTokens.Add(-1) still to come
    | Adding(left: nat)
    | Added(left: nat)     // token sent, liveTokens.Add(1) still to come

  /** What the monitor alone reads and writes: its signals and the last tick's time. */
  datatype Tuner = Tuner(signals: seq<T.SignalState>, clock: Time)

  datatype Atomics = Atomics(max: int, limit: int, live: int, sem: int,
                             workers: seq<Worker>, monitor: Monitor, changes: nat, tuner: Tuner)

  datatype Event =
    | Acquire(w: nat) | LoadLive(w: nat) | LoadLimit(w: nat) | Cas(w: nat) | Send(w: nat)
    | Tick(now: Time, counts: seq<int>) | Drain | SubtractLive | Add | AddLive | FinishTick

  predicate IsWorkerStep(e: Event) {
    e.Acquire? || e.LoadLive? || e.LoadLimit? || e.Cas? || e.Send?
  }

  function HoldsToken(w: Worker): nat {
    if w.pc.Outside? then 0 else 1
  }

  function Held(s: Atomics): nat {
    Sum(s.workers, HoldsToken)
  }

  // ---- The monitor's decision ------------------------------------------------

  datatype Decision = Keep | Lower(to: int) | Raise

  predicate Quiet(signals: seq<T.SignalState>, now: Time, counts: seq<int>)
    requires |counts| == |signals|
  {
    && !T.AnyFires(signals, counts)
    && T.AllQuiet(T.Observe(signals, counts, now), now) && T.EverFired(T.Observe(signals, counts, now))
  }

  function Decide(s: Atomics, now: Time, counts: seq<int>): Decision
    requires |counts| == |s.tuner.signals|
  {
    if T.AnyFires(s.tuner.signals, counts) then
      var to := T.LoweredLimit(s.limit, T.HalveFires(s.tuner.signals, counts));
      if to < s.limit then Lower(to) else Keep
    else if s.limit < s.max && Quiet(s.tuner.signals, now, counts) then Raise
    else Keep
  }

  /** A tick up to its store of the new limit; the loop over tokens follows. */
  function ApplyTick(s: Atomics, now: Time, counts: seq<int>): Atomics
    requires |counts| == |s.tuner.signals|
  {
    var seen := T.Observe(s.tuner.signals, counts, now);
    match Decide(s, now, counts)
    case Keep => s.(tuner := Tuner(seen, now))
    case Lower(to) => s.(limit := to, monitor := Draining(Max(0, s.limit - to)), tuner := Tuner(seen, now))
    case Raise => s.(limit := s.limit + 1, monitor := Adding(1), tuner := Tuner(T.Restart(seen, now), now))
  }

  // ---- Steps ---------------------------------------------------------------

  predicate Enabled(s: Atomics, e: Event) {
    match e
    case Acquire(w) => w < |s.workers| && s.workers[w].pc.Outside? && s.sem > 0
    case LoadLive(w) => w < |s.workers| && s.workers[w].pc.Holding?
    case LoadLimit(w) => w < |s.workers| && s.workers[w].pc.LoadedLive?
    case Cas(w) => ReadyToSwallow(s, w)
    case Send(w) => ReadyToSend(s, w) && s.sem < s.max
    case Tick(now, counts) =>
      s.monitor.MIdle? && |counts| == |s.tuner.signals| && now > 0 && s.tuner.clock <= now
    case Drain => s.monitor.Draining? && s.monitor.left > 0
    case SubtractLive => s.monitor.Drained?
    case Add => s.monitor.Adding? && s.monitor.left > 0
    case AddLive => s.monitor.Added?
    case FinishTick => (s.monitor.Draining? || s.monitor.Adding?) && s.monitor.left == 0
  }

  /** A worker that decided to return its token and is at the channel send. */
  predicate ReadyToSend(s: Atomics, w: nat) {
    w < |s.workers| && s.workers[w].pc.LoadedBoth? && s.workers[w].pc.live <= s.workers[w].pc.limit
  }

  /** A worker that decided to swallow its token and is at the compare-and-swap. */
  predicate ReadyToSwallow(s: Atomics, w: nat) {
    w < |s.workers| && s.workers[w].pc.LoadedBoth? && s.workers[w].pc.live > s.workers[w].pc.limit
  }

  predicate CasFails(s: Atomics, w: nat) {
    ReadyToSwallow(s, w) && s.workers[w].pc.live != s.live
  }

  function Move(s: Atomics, w: nat, pc: Pc): Atomics
    requires w < |s.workers|
  {
    s.(workers := s.workers[w := s.workers[w].(pc := pc)])
  }

  function Apply(s: Atomics, e: Event): Atomics
    requires Enabled(s, e)
  {
    match e
    case Acquire(w) => Move(s, w, Holding).(sem := s.sem - 1)
    case LoadLive(w) => Move(s, w, LoadedLive(s.live, s.changes))
    case LoadLimit(w) => Move(s, w, LoadedBoth(s.workers[w].pc.live, s.limit, s.workers[w].pc.at))
    case Cas(w) =>
      if s.workers[w].pc.live == s.live
      then Move(s, w, Outside).(live := s.live - 1, changes := s.changes + 1)
      else s.(workers := s.workers[w := Worker(Holding, s.workers[w].failedCas + 1)])
    case Send(w) => Move(s, w, Outside).(sem := s.sem + 1)
    case Tick(now, counts) => ApplyTick(s, now, counts)
    case Drain =>
      if s.sem > 0
      then s.(sem := s.sem - 1, monitor := Drained(s.monitor.left - 1))
      else s.(monitor := Draining(s.monitor.left - 1))
    case SubtractLive => s.(live := s.live - 1, changes := s.changes + 1, monitor := Draining(s.monitor.left))
    case Add =>
      if s.sem < s.max
      then s.(sem := s.sem + 1, monitor := Added(s.monitor.left - 1))
      else s.(monitor := Adding(s.monitor.left - 1))
    case AddLive => s.(live := s.live + 1, changes := s.changes + 1, monitor := Adding(s.monitor.left))
    case FinishTick => s.(monitor := MIdle)
  }

  function Initial(max: int, workers: nat, actions: seq<(T.ScaleAction, int)>, counts: seq<int>): Atomics
    requires |counts| == |actions|
  {
    Atomics(max, max, max, max, seq(workers, _ => Worker(Outside, 0)), MIdle, 0,
            Tuner(T.Initial(max, actions, counts).signals, 0))
  }

  predicate Runs(s: Atomics, es: seq<Event>)
    decreases |es|
  {
    es == [] || (Enabled(s, es[0]) && Runs(Apply(s, es[0]), es[1..]))
  }

  function Exec(s: Atomics, es: seq<Event>): Atomics
    requires Runs(s, es)
    decreases |es|
  {
    if es == [] then s else Exec(Apply(s, es[0]), es[1..])
  }

  // ---- Token conservation --------------------------------------------------

  /** What the monitor has done to the channel but not yet to `live`. */
  function InFlight(m: Monitor): int {
    if m.Drained? then 1 else if m.Added? then -1 else 0
  }

  predicate LoadsAreHonest(s: Atomics, w: Worker) {
    match w.pc
    case Outside => w.failedCas <= s.changes
    case Holding => w.failedCas <= s.changes
    case LoadedLive(live, at) => w.failedCas <= at <= s.changes && (at == s.changes ==> live == s.live)
    case LoadedBoth(live, limit, at) =>
      w.failedCas <= at <= s.changes && (at == s.changes ==> live == s.live) && 1 <= limit <= s.max
  }

  predicate Counts(s: Atomics) {
    && 1 <= s.limit <= s.max
    && 0 <= s.sem <= s.max
    && 0 <= s.live
    && s.live == s.sem + Held(s) + InFlight(s.monitor)
    && (s.monitor.Draining? || s.monitor.Drained? ==> s.limit < s.max)
    // no live token is left only while the limit can still rise, or is just rising
    && (s.live == 0 ==> s.limit < s.max || s.monitor.Added? || (s.monitor.Adding? && s.monitor.left > 0))
    && (s.limit < s.max ==> T.EverFired(s.tuner.signals))
  }

  predicate Inv(s: Atomics) {
    Counts(s) && forall w :: 0 <= w < |s.workers| ==> LoadsAreHonest(s, s.workers[w])
  }

  lemma HeldAfterMove(s: Atomics, w: nat, x: Worker)
    requires w < |s.workers|
    ensures Sum(s.workers[w := x], HoldsToken) == Held(s) - HoldsToken(s.workers[w]) + HoldsToken(x)
    ensures HoldsToken(s.workers[w]) <= Held(s)
  {
    SumUpdate(s.workers, w, x, HoldsToken);
    SumMember(s.workers, w, HoldsToken);
  }

  /** A worker's step moves only that worker; the monitor's move none. */
  lemma StepFrame(s: Atomics, e: Event)
    requires Enabled(s, e)
    ensures var t := Apply(s, e);
            && |t.workers| == |s.workers| && t.max == s.max && |t.tuner.signals| == |s.tuner.signals|
            && (IsWorkerStep(e) ==> t.workers == s.workers[e.w := t.workers[e.w]]
                                    && t.limit == s.limit && t.monitor == s.monitor && t.tuner == s.tuner)
            && (!IsWorkerStep(e) ==> t.workers == s.workers)
  {
  }

  lemma WorkerStepKeepsCounts(s: Atomics, e: Event)
    requires Inv(s) && Enabled(s, e) && IsWorkerStep(e)
    ensures Counts(Apply(s, e))
  {
    StepFrame(s, e);
    assert LoadsAreHonest(s, s.workers[e.w]);
    HeldAfterMove(s, e.w, Apply(s, e).workers[e.w]);
  }

  lemma TickKeepsCounts(s: Atomics, now: Time, counts: seq<int>)
    requires Inv(s) && Enabled(s, Tick(now, counts))
    ensures Counts(ApplyTick(s, now, counts))
  {
    ThrottleSafety.ObserveKeepsFired(s.tuner.signals, counts, now);
    ThrottleSafety.ObserveKeepsFired(T.Observe(s.tuner.signals, counts, now), counts, now);
  }

  lemma MonitorStepKeepsCounts(s: Atomics, e: Event)
    requires Inv(s) && Enabled(s, e) && !IsWorkerStep(e) && !e.Tick?
    ensures Counts(Apply(s, e))
  {
  }

  lemma StepKeepsHonest(s: Atomics, e: Event)
    requires Inv(s) && Enabled(s, e)
    ensures forall w :: 0 <= w < |Apply(s, e).workers| ==> LoadsAreHonest(Apply(s, e), Apply(s, e).workers[w])
  {
    var t := Apply(s, e);
    StepFrame(s, e);
    forall w | 0 <= w < |t.workers| ensures LoadsAreHonest(t, t.workers[w]) {
      assert LoadsAreHonest(s, s.workers[w]);
    }
  }

  lemma StepKeepsInv(s: Atomics, e: Event)
    requires Inv(s) && Enabled(s, e)
    ensures Inv(Apply(s, e))
  {
    StepKeepsHonest(s, e);
    if IsWorkerStep(e) {
      WorkerStepKeepsCounts(s, e);
    } else if e.Tick? {
      TickKeepsCounts(s, e.now, e.counts);
    } else {
      MonitorStepKeepsCounts(s, e);
    }
  }

  lemma InitialInv(max: int, workers: nat, actions: seq<(T.ScaleAction, int)>, counts: seq<int>)
    requires max >= 1 && |counts| == |actions|
    ensures Inv(Initial(max, workers, actions, counts))
    ensures Held(Initial(max, workers, actions, counts)) == 0
  {
    SumZero(Initial(max, workers, actions, counts).workers, HoldsToken);
  }

  /** Under every interleaving: `live` is the tokens in the channel plus the tokens
      held, corrected by at most one drain or add in flight, and the limit stays
      between 1 and the maximum. */
  lemma {:induction false} RunConservesTokens(s: Atomics, es: seq<Event>)
    requires Inv(s) && Runs(s, es)
    ensures var t := Exec(s, es);
            && Inv(t)
            && t.live == t.sem + Held(t) + InFlight(t.monitor)
            && -1 <= InFlight(t.monitor) <= 1
            && 1 <= t.limit <= t.max
            && |t.workers| == |s.workers| && t.max == s.max && |t.tuner.signals| == |s.tuner.signals|
    decreases |es|
  {
    if es != [] {
      StepKeepsInv(s, es[0]);
      StepFrame(s, es[0]);
      RunConservesTokens(Apply(s, es[0]), es[1..]);
    }
  }

  ghost predicate Reachable(s: Atomics) {
    exists max: int, workers: nat, actions: seq<(T.ScaleAction, int)>, counts: seq<int>, es: seq<Event> ::
      && max >= 1 && |counts| == |actions| && Runs(Initial(max, workers, actions, counts), es)
      && s == Exec(Initial(max, workers, actions, counts), es)
  }

  lemma ReachableInv(s: Atomics)
    requires Reachable(s)
    ensures Inv(s)
  {
    var max: int, workers: nat, actions: seq<(T.ScaleAction, int)>, counts: seq<int>, es: seq<Event> :|
      && max >= 1 && |counts| == |actions| && Runs(Initial(max, workers, actions, counts), es)
      && s == Exec(Initial(max, workers, actions, counts), es);
    InitialInv(max, workers, actions, counts);
    RunConservesTokens(Initial(max, workers, actions, counts), es);
  }

  // ---- Failed compare-and-swaps --------------------------------------------

  /** `changes` counts exactly the steps that change `live`. */
  lemma ChangesCountLiveChanges(s: Atomics, e: Event)
    requires Enabled(s, e)
    ensures Apply(s, e).changes == s.changes + (if Apply(s, e).live != s.live then 1 else 0)
  {
  }

  /** A failed compare-and-swap is explained by another step that changed `live`
      after this worker loaded it, and over a whole run no worker fails more
      often than `live` changed. */
  lemma FailedCasIsExplained(s: Atomics, w: nat)
    requires Reachable(s) && w < |s.workers|
    ensures s.workers[w].failedCas <= s.changes
    ensures CasFails(s, w) ==> s.workers[w].pc.at < s.changes
  {
    ReachableInv(s);
    assert LoadsAreHonest(s, s.workers[w]);
  }

  // ---- Runs in pieces --------------------------------------------------------

  lemma RunCons(s: Atomics, e: Event, es: seq<Event>)
    requires Enabled(s, e) && Runs(Apply(s, e), es)
    ensures Runs(s, [e] + es) && Exec(s, [e] + es) == Exec(Apply(s, e), es)
  {
    assert ([e] + es)[1..] == es;
  }

  lemma {:induction false} RunConcat(s: Atomics, first: seq<Event>, second: seq<Event>)
    requires Runs(s, first) && Runs(Exec(s, first), second)
    ensures Runs(s, first + second) && Exec(s, first + second) == Exec(Exec(s, first), second)
    decreases |first|
  {
    if first == [] {
      assert first + second == second;
    } else {
      assert (first + second)[1..] == first[1..] + second;
      RunConcat(Apply(s, first[0]), first[1..], second);
    }
  }
}
