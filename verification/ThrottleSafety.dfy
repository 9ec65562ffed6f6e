/** What every run of the scaler keeps: token accounting, the limit's range,
    non-blocking releases, and how many workers an acquire can let through. */
module ThrottleSafety {
  import opened ThrottleModel

  predicate Inv(s: Scaler) {
    && 1 <= s.limit <= s.maxWorkers
    && 0 <= s.sem <= s.limit <= s.live
    && 0 <= s.held
    && s.live == s.sem + s.held
    && (s.limit < s.maxWorkers ==> EverFired(s.signals))
  }

  lemma InitialInv(maxWorkers: int, actions: seq<(ScaleAction, int)>, counts: seq<int>)
    requires |counts| == |actions|
    ensures Inv(Initial(maxWorkers, actions, counts))
    ensures maxWorkers >= 1 ==> Initial(maxWorkers, actions, counts).limit == maxWorkers
  {
  }

  lemma ObserveKeepsFired(signals: seq<SignalState>, counts: seq<int>, now: Time)
    requires |counts| == |signals| && now > 0
    ensures EverFired(signals) || AnyFires(signals, counts) ==> EverFired(Observe(signals, counts, now))
    ensures EverFired(signals) ==> EverFired(Restart(signals, now))
  {
    var seen := Observe(signals, counts, now);
    var restarted := Restart(signals, now);
    if i :| 0 <= i < |signals| && signals[i].lastSeen != 0 {
      assert seen[i].lastSeen != 0;
      assert restarted[i].lastSeen != 0;
    }
    if i :| 0 <= i < |signals| && Fires(signals[i], counts[i]) {
      assert seen[i].lastSeen == now;
    }
  }

  lemma StepKeepsInv(s: Scaler, clock: Time, e: Event)
    requires Inv(s) && Enabled(s, clock, e)
    ensures Inv(Apply(s, e))
    ensures Apply(s, e).maxWorkers == s.maxWorkers && |Apply(s, e).signals| == |s.signals|
  {
    match e
    case EAcquire =>
    case ERelease =>
    case ETick(now, counts) =>
      ObserveKeepsFired(s.signals, counts, now);
      ObserveKeepsFired(Observe(s.signals, counts, now), counts, now);
  }

  /** The run invariant: it holds after every sequence of enabled steps, hence in
      every reachable state. */
  lemma {:induction false} RunKeepsInv(s: Scaler, clock: Time, es: seq<Event>)
    requires Inv(s) && Runs(s, clock, es)
    ensures Inv(Exec(s, clock, es)) && Exec(s, clock, es).maxWorkers == s.maxWorkers
    decreases |es|
  {
    if es != [] {
      StepKeepsInv(s, clock, es[0]);
      RunKeepsInv(Apply(s, es[0]), ClockAfter(clock, es[0]), es[1..]);
    }
  }

  /** From construction on, along every run: with no token held exactly `limit`
      are available; a release that returns its token finds buffer space; and a
      scale-up finds buffer space for the token it adds, so its full-buffer
      branch is never taken. */
  lemma ReachableGuarantees(maxWorkers: int, actions: seq<(ScaleAction, int)>, counts: seq<int>, es: seq<Event>)
    requires |counts| == |actions|
    requires Runs(Initial(maxWorkers, actions, counts), 0, es)
    ensures var s := Exec(Initial(maxWorkers, actions, counts), 0, es);
            && Inv(s)
            && (s.held == 0 ==> s.sem == s.limit == s.live)
            && (s.held > 0 && s.live <= s.limit ==> s.sem < s.maxWorkers)
            && (s.limit < s.maxWorkers ==> s.sem < s.maxWorkers && ScaleUp(s, s.limit + 1).live == s.live + 1)
            && s.sem + s.held >= 1
  {
    InitialInv(maxWorkers, actions, counts);
    RunKeepsInv(Initial(maxWorkers, actions, counts), 0, es);
  }

  // ---- Admission -----------------------------------------------------------

  /** Scale-ups since `live` last equalled `limit`. */
  function Debt(s: Scaler, clock: Time, e: Event, debt: nat): nat
    requires Enabled(s, clock, e)
  {
    var t := Apply(s, e);
    if t.live == t.limit then 0 else if RaisesLimit(s, clock, e) then debt + 1 else debt
  }

  function DebtAfter(s: Scaler, clock: Time, es: seq<Event>, debt: nat): nat
    requires Runs(s, clock, es)
    decreases |es|
  {
    if es == [] then debt
    else DebtAfter(Apply(s, es[0]), ClockAfter(clock, es[0]), es[1..], Debt(s, clock, es[0], debt))
  }

  /** While more tokens are live than the limit allows, the free ones are at most
      the scale-ups since the two were last equal. */
  predicate FreeBounded(s: Scaler, debt: nat) {
    s.live > s.limit ==> s.sem <= debt
  }

  lemma StepKeepsFreeBounded(s: Scaler, clock: Time, e: Event, debt: nat)
    requires Inv(s) && Enabled(s, clock, e) && FreeBounded(s, debt)
    ensures FreeBounded(Apply(s, e), Debt(s, clock, e, debt))
  {
  }

  lemma {:induction false} RunKeepsFreeBounded(s: Scaler, clock: Time, es: seq<Event>, debt: nat)
    requires Inv(s) && Runs(s, clock, es) && FreeBounded(s, debt)
    ensures FreeBounded(Exec(s, clock, es), DebtAfter(s, clock, es, debt))
    decreases |es|
  {
    if es != [] {
      StepKeepsInv(s, clock, es[0]);
      StepKeepsFreeBounded(s, clock, es[0], debt);
      RunKeepsFreeBounded(Apply(s, es[0]), ClockAfter(clock, es[0]), es[1..], Debt(s, clock, es[0], debt));
    }
  }

  /** Every scale-up of the run happened while `live` equalled `limit`. */
  predicate CalmScaleUps(s: Scaler, clock: Time, es: seq<Event>)
    requires Runs(s, clock, es)
    decreases |es|
  {
    es == [] ||
    (&& (RaisesLimit(s, clock, es[0]) ==> s.live == s.limit)
     && CalmScaleUps(Apply(s, es[0]), ClockAfter(clock, es[0]), es[1..]))
  }

  lemma {:induction false} CalmRunsOweNothing(s: Scaler, clock: Time, es: seq<Event>)
    requires Inv(s) && Runs(s, clock, es) && CalmScaleUps(s, clock, es)
    ensures DebtAfter(s, clock, es, 0) == 0
    decreases |es|
  {
    if es != [] {
      StepKeepsInv(s, clock, es[0]);
      assert Debt(s, clock, es[0], 0) == 0;
      CalmRunsOweNothing(Apply(s, es[0]), ClockAfter(clock, es[0]), es[1..]);
    }
  }

  /** Admission guarantee: after a calm run, an excess of live tokens means an
      empty semaphore, and whenever an acquire succeeds no more than `limit`
      workers run afterwards. */
  lemma AdmissionGuarantee(maxWorkers: int, actions: seq<(ScaleAction, int)>, counts: seq<int>, es: seq<Event>)
    requires |counts| == |actions|
    requires Runs(Initial(maxWorkers, actions, counts), 0, es)
    requires CalmScaleUps(Initial(maxWorkers, actions, counts), 0, es)
    ensures var s := Exec(Initial(maxWorkers, actions, counts), 0, es);
            && (s.live > s.limit ==> s.sem == 0)
            && (s.sem > 0 ==> Acquire(s).held <= s.limit)
  {
    var s0 := Initial(maxWorkers, actions, counts);
    InitialInv(maxWorkers, actions, counts);
    RunKeepsInv(s0, 0, es);
    CalmRunsOweNothing(s0, 0, es);
    RunKeepsFreeBounded(s0, 0, es, 0);
  }

  function Acquires(n: nat): seq<Event> {
    if n == 0 then [] else [EAcquire] + Acquires(n - 1)
  }

  lemma {:induction false} AcquiresRun(s: Scaler, clock: Time, n: nat)
    requires s.sem >= 0
    ensures Runs(s, clock, Acquires(n)) <==> n <= s.sem
    ensures n <= s.sem ==> Exec(s, clock, Acquires(n)) == s.(sem := s.sem - n, held := s.held + n)
    decreases n
  {
    if n > 0 {
      assert Acquires(n)[1..] == Acquires(n - 1);
      if s.sem > 0 {
        AcquiresRun(Acquire(s), clock, n - 1);
      }
    }
  }

  /** After `n` more acquires, and at least one, more workers run than the limit. */
  predicate AcquiresPassLimit(s: Scaler, clock: Time, n: nat) {
    n >= 1 && Runs(s, clock, Acquires(n)) && Exec(s, clock, Acquires(n)).held > s.limit
  }

  /** In a reachable state acquires alone can take the running workers past the limit
      if and only if more tokens than the limit are live and one of them is free. */
  lemma AdmissionExact(maxWorkers: int, actions: seq<(ScaleAction, int)>, counts: seq<int>, es: seq<Event>, clock: Time)
    requires |counts| == |actions| && Runs(Initial(maxWorkers, actions, counts), 0, es)
    ensures var s := Exec(Initial(maxWorkers, actions, counts), 0, es);
            (exists n: nat :: AcquiresPassLimit(s, clock, n)) <==> s.live > s.limit && s.sem > 0
  {
    var s := Exec(Initial(maxWorkers, actions, counts), 0, es);
    InitialInv(maxWorkers, actions, counts);
    RunKeepsInv(Initial(maxWorkers, actions, counts), 0, es);
    if n: nat :| AcquiresPassLimit(s, clock, n) {
      AcquiresRun(s, clock, n);
    }
    if s.live > s.limit && s.sem > 0 {
      AcquiresRun(s, clock, s.sem);
      assert AcquiresPassLimit(s, clock, s.sem);
    }
  }

  lemma RunCons(s: Scaler, clock: Time, e: Event, es: seq<Event>)
    requires Enabled(s, clock, e) && Runs(Apply(s, e), ClockAfter(clock, e), es)
    ensures Runs(s, clock, [e] + es)
    ensures Exec(s, clock, [e] + es) == Exec(Apply(s, e), ClockAfter(clock, e), es)
    ensures CalmScaleUps(s, clock, [e] + es) ==
            ((RaisesLimit(s, clock, e) ==> s.live == s.limit) && CalmScaleUps(Apply(s, e), ClockAfter(clock, e), es))
  {
    assert ([e] + es)[1..] == es;
  }

  /** A scaler with one halving signal: the states of the run below. */
  function Witness(limit: int, live: int, sem: int, held: int, count: int, seen: Time, stats: Stats): Scaler {
    Scaler(4, limit, live, sem, held, [SignalState(ScaleHalve, 10, count, seen)], stats)
  }

  const FRESH := Stats(0, 0, 4, 0, 0)

  lemma OneSignalTick(s: Scaler, st: SignalState, count: int, now: Time)
    requires s.signals == [st] && st.action == ScaleHalve
    ensures Tick(s, now, [count]) ==
            var seen := s.(signals := [ObserveOne(st, count, now)]);
            if Fires(st, count) then TickDown(seen, now, true) else TickUp(seen, now)
  {
    assert Observe(s.signals, [count], now) == [ObserveOne(st, count, now)];
    assert AnyFires(s.signals, [count]) == Fires(st, count) by {
      assert Fires(s.signals[0], [count][0]) == Fires(st, count);
    }
    assert HalveFires(s.signals, [count]) == Fires(st, count) by {
      assert Fires(s.signals[0], [count][0]) == Fires(st, count);
    }
  }

  lemma HalveFourHeld(s: Scaler)
    requires s.sem == 0 && s.limit == 4 && s.stats == FRESH
    ensures TickDown(s, 1, true) == s.(limit := 2, stats := Stats(1, 0, 2, 1, 0))
  {
    assert LoweredLimit(4, true) == 2;
  }

  lemma WitnessHalves(s: Scaler)
    requires s == Witness(4, 4, 0, 4, 0, 0, FRESH)
    ensures Tick(s, 1, [1]) == Witness(2, 4, 0, 4, 1, 1, Stats(1, 0, 2, 1, 0))
  {
    var st := SignalState(ScaleHalve, 10, 0, 0);
    OneSignalTick(s, st, 1, 1);
    HalveFourHeld(s.(signals := [ObserveOne(st, 1, 1)]));
  }

  lemma WitnessRaises()
    ensures Tick(Witness(2, 4, 0, 4, 1, 1, Stats(1, 0, 2, 1, 0)), 11, [1])
         == Witness(3, 5, 1, 4, 1, 11, Stats(1, 1, 2, 1, 0))
  {
    var st := SignalState(ScaleHalve, 10, 1, 1);
    OneSignalTick(Witness(2, 4, 0, 4, 1, 1, Stats(1, 0, 2, 1, 0)), st, 1, 11);
    assert [st][0].lastSeen != 0;
    assert Restart([st], 11) == [SignalState(ScaleHalve, 10, 1, 11)];
  }

  /** A scale-up while four held tokens exceed the limit lets the live tokens
      pass `maxWorkers`, and lets an acquire pass the limit. */
  lemma LiveCanExceedMax() returns (es: seq<Event>)
    ensures var s0 := Initial(4, [(ScaleHalve, 10)], [0]);
            && Runs(s0, 0, es) && !CalmScaleUps(s0, 0, es)
            && var s := Exec(s0, 0, es);
            s.live == 5 && s.maxWorkers == 4 && s.limit == 3 && s.sem == 1 && Acquire(s).held == 5
  {
    var s0 := Initial(4, [(ScaleHalve, 10)], [0]);
    assert s0 == Witness(4, 4, 4, 0, 0, 0, FRESH);
    WitnessHalves(Witness(4, 4, 0, 4, 0, 0, FRESH));
    WitnessRaises();
    es := [];
    RunCons(Witness(2, 4, 0, 4, 1, 1, Stats(1, 0, 2, 1, 0)), 1, ETick(11, [1]), es);
    es := [ETick(11, [1])] + es;
    RunCons(Witness(4, 4, 0, 4, 0, 0, FRESH), 0, ETick(1, [1]), es);
    es := [ETick(1, [1])] + es;
    RunCons(Witness(4, 4, 1, 3, 0, 0, FRESH), 0, EAcquire, es);
    es := [EAcquire] + es;
    RunCons(Witness(4, 4, 2, 2, 0, 0, FRESH), 0, EAcquire, es);
    es := [EAcquire] + es;
    RunCons(Witness(4, 4, 3, 1, 0, 0, FRESH), 0, EAcquire, es);
    es := [EAcquire] + es;
    RunCons(Witness(4, 4, 4, 0, 0, 0, FRESH), 0, EAcquire, es);
    es := [EAcquire] + es;
  }
}
