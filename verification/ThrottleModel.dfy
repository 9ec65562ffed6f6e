/** The throttle scaler as a state and its three steps: a worker acquires a token,
    a worker releases one, and the monitor ticks. Each step is atomic here;
    ThrottleAtomic splits them into single memory and channel operations. */
module ThrottleModel {
  import opened Sums

  datatype ScaleAction = ScaleHalve | ScaleReduceOne

  /** A point in time; 0 is the zero value that `IsZero` tests for. */
  type Time = int

  datatype SignalState = SignalState(action: ScaleAction, cooldown: int, lastCount: int, lastSeen: Time)

  datatype Stats = Stats(scaleDowns: int, scaleUps: int, minLimit: int, reducedSince: Time, timeReduced: int)

  /** `held` counts the tokens workers have acquired and not yet released; the
      scaler itself does not store it. */
  datatype Scaler = Scaler(maxWorkers: int, limit: int, live: int, sem: int, held: int,
                           signals: seq<SignalState>, stats: Stats)

  // ---- Signals -------------------------------------------------------------

  predicate Fires(st: SignalState, count: int) {
    count - st.lastCount > 0
  }

  predicate AnyFires(signals: seq<SignalState>, counts: seq<int>)
    requires |counts| == |signals|
  {
    exists i :: 0 <= i < |signals| && Fires(signals[i], counts[i])
  }

  predicate HalveFires(signals: seq<SignalState>, counts: seq<int>)
    requires |counts| == |signals|
  {
    exists i :: 0 <= i < |signals| && Fires(signals[i], counts[i]) && signals[i].action == ScaleHalve
  }

  function ObserveOne(st: SignalState, count: int, now: Time): SignalState {
    st.(lastCount := count, lastSeen := if Fires(st, count) then now else st.lastSeen)
  }

  function Observe(signals: seq<SignalState>, counts: seq<int>, now: Time): (r: seq<SignalState>)
    requires |counts| == |signals|
  {
    seq(|signals|, i requires 0 <= i < |signals| => ObserveOne(signals[i], counts[i], now))
  }

  predicate QuietOne(st: SignalState, now: Time) {
    st.lastSeen == 0 || now - st.lastSeen >= st.cooldown
  }

  predicate AllQuiet(signals: seq<SignalState>, now: Time) {
    forall i :: 0 <= i < |signals| ==> QuietOne(signals[i], now)
  }

  predicate EverFired(signals: seq<SignalState>) {
    exists i :: 0 <= i < |signals| && signals[i].lastSeen != 0
  }

  function RestartOne(st: SignalState, now: Time): SignalState {
    if st.lastSeen != 0 then st.(lastSeen := now) else st
  }

  function Restart(signals: seq<SignalState>, now: Time): seq<SignalState> {
    seq(|signals|, i requires 0 <= i < |signals| => RestartOne(signals[i], now))
  }

  // ---- Steps ---------------------------------------------------------------

  function Acquire(s: Scaler): Scaler {
    s.(sem := s.sem - 1, held := s.held + 1)
  }

  function Release(s: Scaler): Scaler {
    if s.live > s.limit
    then s.(live := s.live - 1, held := s.held - 1)
    else s.(sem := s.sem + 1, held := s.held - 1)
  }

  function LoweredLimit(limit: int, halve: bool): int {
    Max(1, if halve then limit / 2 else limit - 1)
  }

  function ScaleDown(s: Scaler, to: int): Scaler {
    var drained := Min(s.sem, s.limit - to);
    s.(limit := to, sem := s.sem - drained, live := s.live - drained)
  }

  function ScaleUp(s: Scaler, to: int): Scaler {
    var added := Min(s.maxWorkers - s.sem, to - s.limit);
    s.(limit := to, sem := s.sem + added, live := s.live + added)
  }

  function TickDown(s: Scaler, now: Time, halve: bool): Scaler {
    var to := LoweredLimit(s.limit, halve);
    if to < s.limit then
      var t := s.stats;
      ScaleDown(s, to).(stats := t.(scaleDowns := t.scaleDowns + 1,
                                    minLimit := Min(t.minLimit, to),
                                    reducedSince := if t.reducedSince == 0 then now else t.reducedSince))
    else s
  }

  function TickUp(s: Scaler, now: Time): Scaler {
    if s.limit < s.maxWorkers && AllQuiet(s.signals, now) && EverFired(s.signals) then
      var to := Min(s.limit + 1, s.maxWorkers);
      var t := s.stats.(scaleUps := s.stats.scaleUps + 1);
      var closes := to >= s.maxWorkers && t.reducedSince != 0;
      ScaleUp(s, to).(
      stats := if closes then t.(timeReduced := t.timeReduced + now - t.reducedSince, reducedSince := 0) else t,
      signals := Restart(s.signals, now))
    else s
  }

  function Tick(s: Scaler, now: Time, counts: seq<int>): Scaler
    requires |counts| == |s.signals|
  {
    var seen := s.(signals := Observe(s.signals, counts, now));
    if AnyFires(s.signals, counts)
    then TickDown(seen, now, HalveFires(s.signals, counts))
    else TickUp(seen, now)
  }

  function Initial(maxWorkers: int, actions: seq<(ScaleAction, int)>, counts: seq<int>): Scaler
    requires |counts| == |actions|
  {
    var m := if maxWorkers < 1 then 1 else maxWorkers;
    Scaler(m, m, m, m, 0,
           seq(|actions|, i requires 0 <= i < |actions| => SignalState(actions[i].0, actions[i].1, counts[i], 0)),
           Stats(0, 0, m, 0, 0))
  }

  /** The total the summary reports: closed reduced periods plus the open one. */
  function TimeBelowMax(s: Scaler, now: Time): int {
    s.stats.timeReduced + (if s.stats.reducedSince != 0 then now - s.stats.reducedSince else 0)
  }

  // ---- Runs ----------------------------------------------------------------

  datatype Event = EAcquire | ERelease | ETick(now: Time, counts: seq<int>)

  /** `clock` is the time of the latest tick: tick times are positive and do not
      decrease. A release belongs to an earlier successful acquire. */
  predicate Enabled(s: Scaler, clock: Time, e: Event) {
    match e
    case EAcquire => s.sem > 0
    case ERelease => s.held > 0
    case ETick(now, counts) => |counts| == |s.signals| && now > 0 && clock <= now
  }

  function Apply(s: Scaler, e: Event): Scaler
    requires e.ETick? ==> |e.counts| == |s.signals|
  {
    match e
    case EAcquire => Acquire(s)
    case ERelease => Release(s)
    case ETick(now, counts) => Tick(s, now, counts)
  }

  function ClockAfter(clock: Time, e: Event): Time {
    if e.ETick? then e.now else clock
  }

  /** `es` can happen from `s`, one enabled step after another. */
  predicate Runs(s: Scaler, clock: Time, es: seq<Event>)
    decreases |es|
  {
    es == [] || (Enabled(s, clock, es[0]) && Runs(Apply(s, es[0]), ClockAfter(clock, es[0]), es[1..]))
  }

  function Exec(s: Scaler, clock: Time, es: seq<Event>): Scaler
    requires Runs(s, clock, es)
    decreases |es|
  {
    if es == [] then s else Exec(Apply(s, es[0]), ClockAfter(clock, es[0]), es[1..])
  }

  /** Did this step raise the limit? */
  predicate RaisesLimit(s: Scaler, clock: Time, e: Event)
    requires Enabled(s, clock, e)
  {
    Apply(s, e).limit > s.limit
  }
}
