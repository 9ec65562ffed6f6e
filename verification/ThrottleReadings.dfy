/** The limit as a function of the monitor's readings alone: a reference that knows
    neither tokens nor workers, and that the scaler follows at both grains. */
module ThrottleReadings {
  import opened Sums
  import opened ThrottleModel
  import ThrottleSafety
  import ThrottleTiming
  import Atomic = ThrottleAtomic

  type Actions = seq<(ScaleAction, int)>

  /** What one tick read, and when. */
  datatype Reading = Reading(now: Time, counts: seq<int>)

  /** The limit, the counts last read, and when each signal last rose or had its
      cooldown restarted; 0 stands for never. */
  datatype Known = Known(limit: int, counts: seq<int>, seen: seq<Time>)

  predicate Fits(actions: Actions, k: Known) {
    |k.counts| == |actions| && |k.seen| == |actions|
  }

  function Start(maxWorkers: int, counts: seq<int>): Known {
    Known(if maxWorkers < 1 then 1 else maxWorkers, counts, seq(|counts|, _ => 0))
  }

  /** A risen count lowers the limit, by half if a halving signal is among those that
      rose; without one a spell in which every signal ever seen has been quiet for its
      cooldown raises it by one. */
  function After(max: int, actions: Actions, k: Known, r: Reading): Known
    requires Fits(actions, k) && |r.counts| == |actions|
  {
    var n := |actions|;
    var rose := exists i :: 0 <= i < n && r.counts[i] > k.counts[i];
    var halves := exists i :: 0 <= i < n && r.counts[i] > k.counts[i] && actions[i].0 == ScaleHalve;
    var quiet := forall i :: 0 <= i < n && k.seen[i] != 0 ==> k.seen[i] + actions[i].1 <= r.now;
    var raises := !rose && k.limit < max && quiet;
    Known(if rose then Max(1, if halves then k.limit / 2 else k.limit - 1) else if raises then k.limit + 1 else k.limit,
          r.counts,
          seq(n, i requires 0 <= i < n =>
            if r.counts[i] > k.counts[i] || (raises && k.seen[i] != 0) then r.now else k.seen[i]))
  }

  function AfterAll(max: int, actions: Actions, k: Known, rs: seq<Reading>): Known
    requires Fits(actions, k) && forall i :: 0 <= i < |rs| ==> |rs[i].counts| == |actions|
    decreases |rs|
  {
    if rs == [] then k else AfterAll(max, actions, After(max, actions, k, rs[0]), rs[1..])
  }

  /** The scaler's signals and limit are what is known. */
  predicate Matches(actions: Actions, k: Known, limit: int, signals: seq<SignalState>) {
    && Fits(actions, k) && |signals| == |actions|
    && limit == k.limit
    && forall i :: 0 <= i < |signals| ==> signals[i] == SignalState(actions[i].0, actions[i].1, k.counts[i], k.seen[i])
  }

  lemma StartMatches(maxWorkers: int, actions: Actions, counts: seq<int>)
    requires |counts| == |actions|
    ensures var s := Initial(maxWorkers, actions, counts);
            Matches(actions, Start(maxWorkers, counts), s.limit, s.signals) && s.maxWorkers == Start(maxWorkers, counts).limit
  {
  }

  // ---- One tick ----------------------------------------------------------------

  lemma FiringIsRising(actions: Actions, k: Known, limit: int, signals: seq<SignalState>, counts: seq<int>)
    requires Matches(actions, k, limit, signals) && |counts| == |actions|
    ensures AnyFires(signals, counts) <==> exists i :: 0 <= i < |actions| && counts[i] > k.counts[i]
    ensures HalveFires(signals, counts) <==>
              exists i :: 0 <= i < |actions| && counts[i] > k.counts[i] && actions[i].0 == ScaleHalve
  {
    assert forall i :: 0 <= i < |signals| ==> (Fires(signals[i], counts[i]) <==> counts[i] > k.counts[i]);
    if i :| 0 <= i < |actions| && counts[i] > k.counts[i] {
      assert Fires(signals[i], counts[i]);
    }
    if i :| 0 <= i < |actions| && counts[i] > k.counts[i] && actions[i].0 == ScaleHalve {
      assert Fires(signals[i], counts[i]) && signals[i].action == ScaleHalve;
    }
  }

  lemma QuietIsCooledDown(actions: Actions, k: Known, limit: int, signals: seq<SignalState>, r: Reading)
    requires Matches(actions, k, limit, signals) && |r.counts| == |actions| && !AnyFires(signals, r.counts)
    ensures AllQuiet(Observe(signals, r.counts, r.now), r.now) <==>
              forall i :: 0 <= i < |actions| && k.seen[i] != 0 ==> k.seen[i] + actions[i].1 <= r.now
  {
    var seen := Observe(signals, r.counts, r.now);
    forall i | 0 <= i < |signals|
      ensures QuietOne(seen[i], r.now) <==> (k.seen[i] != 0 ==> k.seen[i] + actions[i].1 <= r.now)
    {
      assert !Fires(signals[i], r.counts[i]);
    }
    if AllQuiet(seen, r.now) {
      assert forall i :: 0 <= i < |actions| ==> QuietOne(seen[i], r.now);
    }
  }

  lemma LowerMatches(max: int, actions: Actions, k: Known, s: Scaler, r: Reading)
    requires Matches(actions, k, s.limit, s.signals) && |r.counts| == |actions| && AnyFires(s.signals, r.counts)
    requires s.maxWorkers == max && 1 <= s.limit
    ensures var t := Tick(s, r.now, r.counts);
            Matches(actions, After(max, actions, k, r), t.limit, t.signals)
  {
    FiringIsRising(actions, k, s.limit, s.signals, r.counts);
  }

  lemma QuietMatches(max: int, actions: Actions, k: Known, s: Scaler, r: Reading)
    requires Matches(actions, k, s.limit, s.signals) && |r.counts| == |actions| && !AnyFires(s.signals, r.counts)
    requires s.maxWorkers == max && (s.limit < max ==> EverFired(s.signals)) && r.now > 0
    ensures var t := Tick(s, r.now, r.counts);
            Matches(actions, After(max, actions, k, r), t.limit, t.signals)
  {
    FiringIsRising(actions, k, s.limit, s.signals, r.counts);
    QuietIsCooledDown(actions, k, s.limit, s.signals, r);
    ThrottleSafety.ObserveKeepsFired(s.signals, r.counts, r.now);
    forall i | 0 <= i < |actions| ensures !(r.counts[i] > k.counts[i]) {
      assert !Fires(s.signals[i], r.counts[i]);
    }
  }

  lemma TickMatches(max: int, actions: Actions, k: Known, s: Scaler, r: Reading)
    requires Matches(actions, k, s.limit, s.signals) && |r.counts| == |actions|
    requires s.maxWorkers == max && 1 <= s.limit && (s.limit < max ==> EverFired(s.signals)) && r.now > 0
    ensures var t := Tick(s, r.now, r.counts);
            Matches(actions, After(max, actions, k, r), t.limit, t.signals)
  {
    if AnyFires(s.signals, r.counts) {
      LowerMatches(max, actions, k, s, r);
    } else {
      QuietMatches(max, actions, k, s, r);
    }
  }

  function ActionsOf(signals: seq<SignalState>): Actions {
    seq(|signals|, i requires 0 <= i < |signals| => (signals[i].action, signals[i].cooldown))
  }

  function KnownOf(limit: int, signals: seq<SignalState>): Known {
    Known(limit, seq(|signals|, i requires 0 <= i < |signals| => signals[i].lastCount),
          seq(|signals|, i requires 0 <= i < |signals| => signals[i].lastSeen))
  }

  /** The limit after a tick, from what the signals hold and the counts read. */
  lemma TickExactly(s: Scaler, now: Time, counts: seq<int>)
    requires ThrottleSafety.Inv(s) && |counts| == |s.signals| && now > 0
    ensures var rose := exists i :: 0 <= i < |counts| && counts[i] > s.signals[i].lastCount;
            var halves := exists i :: 0 <= i < |counts| && counts[i] > s.signals[i].lastCount && s.signals[i].action == ScaleHalve;
            var quiet := forall i :: 0 <= i < |counts| && s.signals[i].lastSeen != 0 ==>
                                       s.signals[i].lastSeen + s.signals[i].cooldown <= now;
            Tick(s, now, counts).limit ==
            if rose then Max(1, if halves then s.limit / 2 else s.limit - 1)
            else if s.limit < s.maxWorkers && quiet then s.limit + 1 else s.limit
  {
    var actions, k := ActionsOf(s.signals), KnownOf(s.limit, s.signals);
    TickMatches(s.maxWorkers, actions, k, s, Reading(now, counts));
    assert forall i :: 0 <= i < |counts| ==> actions[i] == (s.signals[i].action, s.signals[i].cooldown)
                                             && k.counts[i] == s.signals[i].lastCount && k.seen[i] == s.signals[i].lastSeen;
    LimitKnownAfter(s.maxWorkers, actions, k, Reading(now, counts), s.signals);
  }

  lemma LimitKnownAfter(max: int, actions: Actions, k: Known, r: Reading, signals: seq<SignalState>)
    requires Matches(actions, k, k.limit, signals) && |r.counts| == |signals|
    ensures var rose := exists i :: 0 <= i < |signals| && r.counts[i] > signals[i].lastCount;
            var halves := exists i :: 0 <= i < |signals| && r.counts[i] > signals[i].lastCount && signals[i].action == ScaleHalve;
            var quiet := forall i :: 0 <= i < |signals| && signals[i].lastSeen != 0 ==>
                                       signals[i].lastSeen + signals[i].cooldown <= r.now;
            After(max, actions, k, r).limit ==
            if rose then Max(1, if halves then k.limit / 2 else k.limit - 1)
            else if k.limit < max && quiet then k.limit + 1 else k.limit
  {
    if i :| 0 <= i < |signals| && r.counts[i] > signals[i].lastCount {
      assert r.counts[i] > k.counts[i];
    }
    if i :| 0 <= i < |signals| && r.counts[i] > signals[i].lastCount && signals[i].action == ScaleHalve {
      assert r.counts[i] > k.counts[i] && actions[i].0 == ScaleHalve;
    }
    assert forall i :: 0 <= i < |signals| && r.counts[i] > k.counts[i] ==> r.counts[i] > signals[i].lastCount;
    assert forall i :: 0 <= i < |signals| && r.counts[i] > k.counts[i] && actions[i].0 == ScaleHalve ==> signals[i].action == ScaleHalve;
    assert forall i :: 0 <= i < |signals| && k.seen[i] != 0 ==> signals[i].lastSeen + signals[i].cooldown == k.seen[i] + actions[i].1;
    assert forall i :: 0 <= i < |signals| && signals[i].lastSeen != 0 ==> signals[i].lastSeen + signals[i].cooldown == k.seen[i] + actions[i].1;
  }

  // ---- Whole runs ----------------------------------------------------------------

  function Readings(es: seq<Event>): seq<Reading> {
    if es == [] then []
    else (if es[0].ETick? then [Reading(es[0].now, es[0].counts)] else []) + Readings(es[1..])
  }

  lemma {:induction false} ReadingsFit(s: Scaler, clock: Time, es: seq<Event>)
    requires ThrottleSafety.Inv(s) && Runs(s, clock, es)
    ensures forall i :: 0 <= i < |Readings(es)| ==> |Readings(es)[i].counts| == |s.signals|
    decreases |es|
  {
    if es != [] {
      ThrottleSafety.StepKeepsInv(s, clock, es[0]);
      ReadingsFit(Apply(s, es[0]), ClockAfter(clock, es[0]), es[1..]);
    }
  }

  lemma {:induction false} RunMatches(actions: Actions, k: Known, s: Scaler, clock: Time, es: seq<Event>)
    requires ThrottleSafety.Inv(s) && Runs(s, clock, es) && Matches(actions, k, s.limit, s.signals)
    requires forall i :: 0 <= i < |Readings(es)| ==> |Readings(es)[i].counts| == |actions|
    ensures var t := Exec(s, clock, es);
            Matches(actions, AfterAll(s.maxWorkers, actions, k, Readings(es)), t.limit, t.signals)
    decreases |es|
  {
    if es != [] {
      var t, c := Apply(s, es[0]), ClockAfter(clock, es[0]);
      ThrottleSafety.StepKeepsInv(s, clock, es[0]);
      assert Readings(es) == (if es[0].ETick? then [Reading(es[0].now, es[0].counts)] else []) + Readings(es[1..]);
      if es[0].ETick? {
        var r := Reading(es[0].now, es[0].counts);
        TickMatches(s.maxWorkers, actions, k, s, r);
        assert Readings(es)[1..] == Readings(es[1..]);
        RunMatches(actions, After(s.maxWorkers, actions, k, r), t, c, es[1..]);
      } else {
        assert Readings(es) == Readings(es[1..]);
        RunMatches(actions, k, t, c, es[1..]);
      }
    }
  }

  /** Along every run, whatever workers acquire and release: the limit is the reference
      computed from the readings, and each signal compares the next count with the one
      last read. */
  lemma LimitFollowsReadings(maxWorkers: int, actions: Actions, counts: seq<int>, es: seq<Event>)
    requires |counts| == |actions| && Runs(Initial(maxWorkers, actions, counts), 0, es)
    ensures forall i :: 0 <= i < |Readings(es)| ==> |Readings(es)[i].counts| == |actions|
    ensures var s0, s := Initial(maxWorkers, actions, counts), Exec(Initial(maxWorkers, actions, counts), 0, es);
            Matches(actions, AfterAll(s0.maxWorkers, actions, Start(maxWorkers, counts), Readings(es)), s.limit, s.signals)
  {
    var s0 := Initial(maxWorkers, actions, counts);
    ThrottleSafety.InitialInv(maxWorkers, actions, counts);
    StartMatches(maxWorkers, actions, counts);
    ReadingsFit(s0, 0, es);
    RunMatches(actions, Start(maxWorkers, counts), s0, 0, es);
  }

  /** The counts passed to the last tick, or to the constructor. */
  function LastCounts(counts: seq<int>, rs: seq<Reading>): seq<int> {
    if rs == [] then counts else rs[|rs| - 1].counts
  }

  lemma {:induction false} AfterAllKnowsLast(max: int, actions: Actions, k: Known, rs: seq<Reading>)
    requires Fits(actions, k) && forall i :: 0 <= i < |rs| ==> |rs[i].counts| == |actions|
    ensures AfterAll(max, actions, k, rs).counts == LastCounts(k.counts, rs)
    decreases |rs|
  {
    if rs != [] {
      AfterAllKnowsLast(max, actions, After(max, actions, k, rs[0]), rs[1..]);
    }
  }

  /** At any tick a signal fires if and only if its count exceeds the one read by the
      tick before, or by the constructor if there was none. */
  lemma FiresExactly(maxWorkers: int, actions: Actions, counts: seq<int>, es: seq<Event>, next: seq<int>, i: nat)
    requires |counts| == |actions| == |next| && Runs(Initial(maxWorkers, actions, counts), 0, es) && i < |actions|
    ensures var s := Exec(Initial(maxWorkers, actions, counts), 0, es);
            && |s.signals| == |LastCounts(counts, Readings(es))| == |actions|
            && (Fires(s.signals[i], next[i]) <==> next[i] > LastCounts(counts, Readings(es))[i])
  {
    LimitFollowsReadings(maxWorkers, actions, counts, es);
    AfterAllKnowsLast(Initial(maxWorkers, actions, counts).maxWorkers, actions, Start(maxWorkers, counts), Readings(es));
  }

  /** Every tick of the run reads the same counts. */
  predicate StandStill(es: seq<Event>, counts: seq<int>) {
    forall i :: 0 <= i < |es| && es[i].ETick? ==> es[i].counts == counts
  }

  lemma {:induction false} ReadAgainNeverLowers(actions: Actions, k: Known, s: Scaler, clock: Time, es: seq<Event>)
    requires ThrottleSafety.Inv(s) && Runs(s, clock, es) && Matches(actions, k, s.limit, s.signals)
    requires StandStill(es, k.counts)
    ensures ThrottleTiming.Lowers(s, clock, es) == 0
    decreases |es|
  {
    if es != [] {
      var t, c := Apply(s, es[0]), ClockAfter(clock, es[0]);
      ThrottleSafety.StepKeepsInv(s, clock, es[0]);
      assert StandStill(es[1..], k.counts) by {
        assert forall i :: 0 <= i < |es| - 1 ==> es[1..][i] == es[i + 1];
      }
      if es[0].ETick? {
        var r := Reading(es[0].now, es[0].counts);
        TickMatches(s.maxWorkers, actions, k, s, r);
        ReadAgainNeverLowers(actions, After(s.maxWorkers, actions, k, r), t, c, es[1..]);
      } else {
        ReadAgainNeverLowers(actions, k, t, c, es[1..]);
      }
    }
  }

  /** While the counts stand still no tick after the first lowers the limit. */
  lemma StandingCountsLowerOnce(maxWorkers: int, actions: Actions, counts: seq<int>, es: seq<Event>, clock: Time, rest: seq<Event>)
    requires |counts| == |actions| && Runs(Initial(maxWorkers, actions, counts), 0, es)
    requires Runs(Exec(Initial(maxWorkers, actions, counts), 0, es), clock, rest)
    requires StandStill(rest, LastCounts(counts, Readings(es)))
    ensures ThrottleTiming.Lowers(Exec(Initial(maxWorkers, actions, counts), 0, es), clock, rest) == 0
  {
    var s0 := Initial(maxWorkers, actions, counts);
    ThrottleSafety.InitialInv(maxWorkers, actions, counts);
    ThrottleSafety.RunKeepsInv(s0, 0, es);
    LimitFollowsReadings(maxWorkers, actions, counts, es);
    var k := AfterAll(s0.maxWorkers, actions, Start(maxWorkers, counts), Readings(es));
    AfterAllKnowsLast(s0.maxWorkers, actions, Start(maxWorkers, counts), Readings(es));
    ReadAgainNeverLowers(actions, k, Exec(s0, 0, es), clock, rest);
  }

  // ---- Single operations -----------------------------------------------------------

  /** Tokens aside, a tick decides at the grain of single operations what it decides as
      one step. */
  lemma TickDecidesAlike(a: Atomic.Atomics, s: Scaler, r: Reading)
    requires Atomic.Inv(a) && Atomic.Enabled(a, Atomic.Tick(r.now, r.counts))
    requires s.limit == a.limit && s.maxWorkers == a.max && s.signals == a.tuner.signals
    ensures var t := Atomic.Apply(a, Atomic.Tick(r.now, r.counts));
            t.limit == Tick(s, r.now, r.counts).limit && t.tuner.signals == Tick(s, r.now, r.counts).signals
  {
  }

  function AtomicReadings(es: seq<Atomic.Event>): seq<Reading> {
    if es == [] then []
    else (if es[0].Tick? then [Reading(es[0].now, es[0].counts)] else []) + AtomicReadings(es[1..])
  }

  lemma AtomicStepMatches(actions: Actions, k: Known, a: Atomic.Atomics, e: Atomic.Event)
    requires Atomic.Inv(a) && Atomic.Enabled(a, e) && Matches(actions, k, a.limit, a.tuner.signals)
    ensures var b := Atomic.Apply(a, e);
            && (e.Tick? ==> Matches(actions, After(a.max, actions, k, Reading(e.now, e.counts)), b.limit, b.tuner.signals))
            && (!e.Tick? ==> Matches(actions, k, b.limit, b.tuner.signals))
            && b.max == a.max
  {
    if e.Tick? {
      var r := Reading(e.now, e.counts);
      var s := Scaler(a.max, a.limit, a.live, a.sem, 0, a.tuner.signals, Stats(0, 0, 0, 0, 0));
      TickDecidesAlike(a, s, r);
      TickMatches(a.max, actions, k, s, r);
    }
  }

  lemma {:induction false} AtomicReadingsFit(a: Atomic.Atomics, es: seq<Atomic.Event>)
    requires Atomic.Inv(a) && Atomic.Runs(a, es)
    ensures forall i :: 0 <= i < |AtomicReadings(es)| ==> |AtomicReadings(es)[i].counts| == |a.tuner.signals|
    decreases |es|
  {
    if es != [] {
      Atomic.StepKeepsInv(a, es[0]);
      Atomic.StepFrame(a, es[0]);
      AtomicReadingsFit(Atomic.Apply(a, es[0]), es[1..]);
    }
  }

  lemma {:induction false} AtomicRunMatches(actions: Actions, k: Known, a: Atomic.Atomics, es: seq<Atomic.Event>)
    requires Atomic.Inv(a) && Atomic.Runs(a, es) && Matches(actions, k, a.limit, a.tuner.signals)
    requires forall i :: 0 <= i < |AtomicReadings(es)| ==> |AtomicReadings(es)[i].counts| == |actions|
    ensures var b := Atomic.Exec(a, es);
            Matches(actions, AfterAll(a.max, actions, k, AtomicReadings(es)), b.limit, b.tuner.signals)
    decreases |es|
  {
    if es != [] {
      var b := Atomic.Apply(a, es[0]);
      Atomic.StepKeepsInv(a, es[0]);
      AtomicStepMatches(actions, k, a, es[0]);
      if es[0].Tick? {
        assert AtomicReadings(es)[0] == Reading(es[0].now, es[0].counts) && AtomicReadings(es)[1..] == AtomicReadings(es[1..]);
        AtomicRunMatches(actions, After(a.max, actions, k, Reading(es[0].now, es[0].counts)), b, es[1..]);
      } else {
        assert AtomicReadings(es) == AtomicReadings(es[1..]);
        AtomicRunMatches(actions, k, b, es[1..]);
      }
    }
  }

  /** The same holds under every interleaving of single operations: swallowed, drained
      and added tokens have no say in the limit. */
  lemma AtomicLimitFollowsReadings(max: int, workers: nat, actions: Actions, counts: seq<int>, es: seq<Atomic.Event>)
    requires max >= 1 && |counts| == |actions| && Atomic.Runs(Atomic.Initial(max, workers, actions, counts), es)
    ensures forall i :: 0 <= i < |AtomicReadings(es)| ==> |AtomicReadings(es)[i].counts| == |actions|
    ensures var a := Atomic.Exec(Atomic.Initial(max, workers, actions, counts), es);
            Matches(actions, AfterAll(max, actions, Start(max, counts), AtomicReadings(es)), a.limit, a.tuner.signals)
  {
    var a0 := Atomic.Initial(max, workers, actions, counts);
    Atomic.InitialInv(max, workers, actions, counts);
    StartMatches(max, actions, counts);
    AtomicReadingsFit(a0, es);
    AtomicRunMatches(actions, Start(max, counts), a0, es);
  }
}
