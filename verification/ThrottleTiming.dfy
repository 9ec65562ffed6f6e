/** What the monitor's arithmetic adds up to over whole runs: repeated halving,
    the pace of recovery, and the summary statistics. */
module ThrottleTiming {
  import opened Sums
  import opened ThrottleModel
  import opened ThrottleSafety

  function Pow2(k: nat): (p: nat)
    ensures p >= 1
  {
    if k == 0 then 1 else 2 * Pow2(k - 1)
  }

  function Ticks(es: seq<Event>): nat {
    if es == [] then 0 else (if es[0].ETick? then 1 else 0) + Ticks(es[1..])
  }

  function Raises(s: Scaler, clock: Time, es: seq<Event>): nat
    requires Runs(s, clock, es)
    decreases |es|
  {
    if es == [] then 0
    else (if RaisesLimit(s, clock, es[0]) then 1 else 0) + Raises(Apply(s, es[0]), ClockAfter(clock, es[0]), es[1..])
  }

  function Lowers(s: Scaler, clock: Time, es: seq<Event>): nat
    requires Runs(s, clock, es)
    decreases |es|
  {
    if es == [] then 0
    else (if Apply(s, es[0]).limit < s.limit then 1 else 0)
         + Lowers(Apply(s, es[0]), ClockAfter(clock, es[0]), es[1..])
  }

  function ClockAfterAll(clock: Time, es: seq<Event>): Time
    decreases |es|
  {
    if es == [] then clock else ClockAfterAll(ClockAfter(clock, es[0]), es[1..])
  }

  // ---- Back-off ------------------------------------------------------------

  /** Every tick of the run finds a halving signal that fired. */
  predicate EveryTickHalves(s: Scaler, clock: Time, es: seq<Event>)
    requires Runs(s, clock, es)
    decreases |es|
  {
    es == [] ||
    (&& (es[0].ETick? ==> HalveFires(s.signals, es[0].counts))
     && EveryTickHalves(Apply(s, es[0]), ClockAfter(clock, es[0]), es[1..]))
  }

  lemma TwiceProduct(p: int, q: int)
    ensures 2 * p * q == 2 * (p * q)
  {
  }

  lemma DivTwice(n: int, p: int)
    requires n >= 0 && p >= 1
    ensures n / 2 / p == n / (2 * p)
  {
    var h := n / 2;
    var q, r := h / p, h % p;
    TwiceProduct(p, q);
    DivUnique(n, 2 * p, q, 2 * r + n % 2);
  }

  lemma HalvingOnce(limit: int, p: int)
    requires limit >= 1 && p >= 1
    ensures Max(1, LoweredLimit(limit, true) / p) == Max(1, limit / (2 * p))
  {
    if limit == 1 {
      DivUnique(1, 2 * p, 0, 1);
      if p > 1 {
        DivUnique(1, p, 0, 1);
      }
    } else {
      DivTwice(limit, p);
    }
  }

  lemma AtLeastOneDivisor(d: int, x: int)
    requires d > 0
    ensures x >= 1 ==> d * x >= d
    ensures x <= -1 ==> d * x <= -d
  {
    if x >= 1 {
      assert d * (x - 1) >= 0;
    } else if x <= -1 {
      assert d * (-x - 1) >= 0;
    }
  }

  lemma DivUnique(n: int, d: int, q: int, r: int)
    requires d > 0 && n == d * q + r && 0 <= r < d
    ensures n / d == q
  {
    var k, m := n / d, n % d;
    assert n == d * k + m && 0 <= m < d;
    assert d * (k - q) == d * k - d * q;
    AtLeastOneDivisor(d, k - q);
  }

  /** k ticks that halve take a limit L to max(1, L / 2^k), whatever acquires and
      releases happen between them. */
  lemma {:induction false} RepeatedHalving(s: Scaler, clock: Time, es: seq<Event>)
    requires Inv(s) && Runs(s, clock, es) && EveryTickHalves(s, clock, es)
    ensures Exec(s, clock, es).limit == Max(1, s.limit / Pow2(Ticks(es)))
    decreases |es|
  {
    if es != [] {
      var s', c' := Apply(s, es[0]), ClockAfter(clock, es[0]);
      StepKeepsInv(s, clock, es[0]);
      RepeatedHalving(s', c', es[1..]);
      if es[0].ETick? {
        assert AnyFires(s.signals, es[0].counts) by {
          var i :| 0 <= i < |s.signals| && Fires(s.signals[i], es[0].counts[i]);
        }
        assert s'.limit == LoweredLimit(s.limit, true);
        HalvingOnce(s.limit, Pow2(Ticks(es[1..])));
      }
    }
  }

  /** Every tick of the run finds signals that fired, none of them halving. */
  predicate EveryTickReduces(s: Scaler, clock: Time, es: seq<Event>)
    requires Runs(s, clock, es)
    decreases |es|
  {
    es == [] ||
    (&& (es[0].ETick? ==> AnyFires(s.signals, es[0].counts) && !HalveFires(s.signals, es[0].counts))
     && EveryTickReduces(Apply(s, es[0]), ClockAfter(clock, es[0]), es[1..]))
  }

  /** k ticks that reduce by one take a limit L to max(1, L - k). */
  lemma {:induction false} RepeatedReduction(s: Scaler, clock: Time, es: seq<Event>)
    requires Inv(s) && Runs(s, clock, es) && EveryTickReduces(s, clock, es)
    ensures Exec(s, clock, es).limit == Max(1, s.limit - Ticks(es))
    decreases |es|
  {
    if es != [] {
      StepKeepsInv(s, clock, es[0]);
      RepeatedReduction(Apply(s, es[0]), ClockAfter(clock, es[0]), es[1..]);
    }
  }

  // ---- Recovery ------------------------------------------------------------

  lemma StepKeepsFloor(s: Scaler, clock: Time, e: Event, i: nat)
    requires Inv(s) && Enabled(s, clock, e) && i < |s.signals|
    requires 0 < s.signals[i].lastSeen <= clock
    ensures var t := Apply(s, e);
            && i < |t.signals| && t.signals[i].cooldown == s.signals[i].cooldown
            && 0 < t.signals[i].lastSeen <= ClockAfter(clock, e)
            && s.signals[i].lastSeen <= t.signals[i].lastSeen
            && (RaisesLimit(s, clock, e) ==>
                  e.ETick? && t.signals[i].lastSeen == e.now && s.signals[i].lastSeen + s.signals[i].cooldown <= e.now)
  {
    if e.ETick? {
      var seen := Observe(s.signals, e.counts, e.now);
      assert seen[i].lastSeen == if Fires(s.signals[i], e.counts[i]) then e.now else s.signals[i].lastSeen;
      if RaisesLimit(s, clock, e) {
        assert !AnyFires(s.signals, e.counts);
        assert !Fires(s.signals[i], e.counts[i]);
        assert QuietOne(seen[i], e.now);
      }
    }
  }

  /** `n` cooldowns after `t0`. */
  function Paced(t0: Time, n: nat, cooldown: int): Time {
    t0 + n * cooldown
  }

  lemma PacedSucc(t0: Time, n: nat, cooldown: int)
    ensures Paced(t0, n + 1, cooldown) == Paced(t0 + cooldown, n, cooldown) == Paced(t0, n, cooldown) + cooldown
  {
    assert (n + 1) * cooldown == n * cooldown + cooldown;
  }

  lemma PacedMonotone(t0: Time, t1: Time, n: nat, cooldown: int)
    requires t0 <= t1
    ensures Paced(t0, n, cooldown) <= Paced(t1, n, cooldown)
  {
  }

  lemma {:induction false} RunKeepsFloor(s: Scaler, clock: Time, es: seq<Event>, i: nat)
    requires Inv(s) && Runs(s, clock, es) && i < |s.signals|
    requires 0 < s.signals[i].lastSeen <= clock
    ensures var t := Exec(s, clock, es);
            && i < |t.signals| && t.signals[i].cooldown == s.signals[i].cooldown
            && Paced(s.signals[i].lastSeen, Raises(s, clock, es), s.signals[i].cooldown) <= t.signals[i].lastSeen
            && 0 < t.signals[i].lastSeen <= ClockAfterAll(clock, es)
    decreases |es|
  {
    var t0, cd := s.signals[i].lastSeen, s.signals[i].cooldown;
    if es != [] {
      var s', c' := Apply(s, es[0]), ClockAfter(clock, es[0]);
      StepKeepsInv(s, clock, es[0]);
      StepKeepsFloor(s, clock, es[0], i);
      var n := Raises(s', c', es[1..]);
      RunKeepsFloor(s', c', es[1..], i);
      if RaisesLimit(s, clock, es[0]) {
        PacedSucc(t0, n, cd);
        PacedMonotone(t0 + cd, s'.signals[i].lastSeen, n, cd);
      } else {
        PacedMonotone(t0, s'.signals[i].lastSeen, n, cd);
      }
    }
  }

  /** Once signal `i` fires at `fire.now`, the n-th scale-up after that happens no
      earlier than n cooldowns of `i` later, whatever the other signals do. */
  lemma RecoveryPace(s: Scaler, clock: Time, fire: Event, es: seq<Event>, i: nat, up: Event)
    requires Inv(s) && i < |s.signals|
    requires fire.ETick? && Enabled(s, clock, fire) && Fires(s.signals[i], fire.counts[i])
    requires Runs(Apply(s, fire), fire.now, es)
    requires var t := Exec(Apply(s, fire), fire.now, es);
             Enabled(t, ClockAfterAll(fire.now, es), up) && RaisesLimit(t, ClockAfterAll(fire.now, es), up)
    ensures up.ETick?
    ensures up.now >= fire.now + (Raises(Apply(s, fire), fire.now, es) + 1) * s.signals[i].cooldown
  {
    var s1 := Apply(s, fire);
    StepKeepsInv(s, clock, fire);
    FiringIsSeen(s, clock, fire, i);
    RunKeepsInv(s1, fire.now, es);
    RunKeepsFloor(s1, fire.now, es, i);
    StepKeepsFloor(Exec(s1, fire.now, es), ClockAfterAll(fire.now, es), up, i);
    PacedSucc(fire.now, Raises(s1, fire.now, es), s.signals[i].cooldown);
  }

  lemma FiringIsSeen(s: Scaler, clock: Time, fire: Event, i: nat)
    requires Inv(s) && i < |s.signals|
    requires fire.ETick? && Enabled(s, clock, fire) && Fires(s.signals[i], fire.counts[i])
    ensures |Apply(s, fire).signals| == |s.signals|
    ensures Apply(s, fire).signals[i].lastSeen == fire.now
    ensures Apply(s, fire).signals[i].cooldown == s.signals[i].cooldown
  {
    assert AnyFires(s.signals, fire.counts);
  }

  /** Exactly when a tick raises the limit: below the maximum, with no signal
      firing, and every signal that ever fired quiet for its cooldown. It then
      raises it by one. That some signal fired before needs no check. */
  lemma RaisesExactly(s: Scaler, clock: Time, up: Event)
    requires Inv(s) && up.ETick? && Enabled(s, clock, up)
    ensures RaisesLimit(s, clock, up) <==>
            && s.limit < s.maxWorkers && !AnyFires(s.signals, up.counts)
            && forall i :: 0 <= i < |s.signals| && s.signals[i].lastSeen != 0 ==>
                             s.signals[i].lastSeen + s.signals[i].cooldown <= up.now
    ensures RaisesLimit(s, clock, up) ==> Apply(s, up).limit == s.limit + 1
  {
    var seen := Observe(s.signals, up.counts, up.now);
    if !AnyFires(s.signals, up.counts) {
      forall i | 0 <= i < |s.signals| ensures seen[i].lastSeen == s.signals[i].lastSeen {
        assert !Fires(s.signals[i], up.counts[i]);
      }
      assert AllQuiet(seen, up.now) <==> forall i :: 0 <= i < |seen| ==> QuietOne(seen[i], up.now);
      ObserveKeepsFired(s.signals, up.counts, up.now);
    }
  }

  /** No tick of the run finds a signal that fired, and each comes at least `gap`
      after the one before. */
  predicate QuietRun(s: Scaler, clock: Time, es: seq<Event>, gap: int)
    requires Runs(s, clock, es)
    decreases |es|
  {
    es == [] ||
    (&& (es[0].ETick? ==> !AnyFires(s.signals, es[0].counts) && clock + gap <= es[0].now)
     && QuietRun(Apply(s, es[0]), ClockAfter(clock, es[0]), es[1..], gap))
  }

  /** No signal has been seen after `clock` or needs a longer cooldown than `gap`. */
  predicate Settled(s: Scaler, clock: Time, gap: int) {
    forall i :: 0 <= i < |s.signals| ==> s.signals[i].lastSeen <= clock && s.signals[i].cooldown <= gap
  }

  lemma QuietTickKeepsSettled(s: Scaler, clock: Time, e: Event, gap: int)
    requires Inv(s) && Enabled(s, clock, e) && Settled(s, clock, gap)
    ensures Settled(Apply(s, e), ClockAfter(clock, e), gap)
  {
    if e.ETick? {
      var seen := Observe(s.signals, e.counts, e.now);
      assert forall i :: 0 <= i < |seen| ==> seen[i].lastSeen <= e.now && seen[i].cooldown <= gap;
    }
  }

  /** Full recovery: when nothing fires and ticks are a cooldown apart, k ticks raise
      a limit L to min(max, L + k), whatever acquires and releases come between. */
  lemma {:induction false} QuietTicksRecover(s: Scaler, clock: Time, es: seq<Event>, gap: int)
    requires Inv(s) && Runs(s, clock, es) && Settled(s, clock, gap) && QuietRun(s, clock, es, gap)
    ensures Exec(s, clock, es).limit == Min(s.maxWorkers, s.limit + Ticks(es))
    decreases |es|
  {
    if es != [] {
      StepKeepsInv(s, clock, es[0]);
      QuietTickKeepsSettled(s, clock, es[0], gap);
      QuietTicksRecover(Apply(s, es[0]), ClockAfter(clock, es[0]), es[1..], gap);
      if es[0].ETick? {
        RaisesExactly(s, clock, es[0]);
        assert !RaisesLimit(s, clock, es[0]) ==> Apply(s, es[0]).limit == s.limit;
      }
    }
  }

  // ---- Statistics ----------------------------------------------------------

  /** The gaps between ticks that followed a tick leaving the limit below the
      maximum. */
  function ReducedGaps(s: Scaler, clock: Time, es: seq<Event>): int
    requires Runs(s, clock, es)
    decreases |es|
  {
    if es == [] then 0
    else (if es[0].ETick? && s.limit < s.maxWorkers then es[0].now - clock else 0)
         + ReducedGaps(Apply(s, es[0]), ClockAfter(clock, es[0]), es[1..])
  }

  /** The smallest limit in force at any moment of the run. */
  function LowestLimit(s: Scaler, clock: Time, es: seq<Event>): int
    requires Runs(s, clock, es)
    decreases |es|
  {
    if es == [] then s.limit
    else Min(s.limit, LowestLimit(Apply(s, es[0]), ClockAfter(clock, es[0]), es[1..]))
  }

  predicate StatsInv(s: Scaler, clock: Time) {
    && (s.stats.reducedSince == 0 <==> s.limit == s.maxWorkers)
    && 0 <= s.stats.reducedSince <= clock
    && s.stats.minLimit <= s.limit
  }

  lemma StepKeepsStats(s: Scaler, clock: Time, e: Event)
    requires Inv(s) && StatsInv(s, clock) && Enabled(s, clock, e)
    ensures var t, c := Apply(s, e), ClockAfter(clock, e);
            && StatsInv(t, c)
            && TimeBelowMax(t, c) == TimeBelowMax(s, clock)
                                     + (if e.ETick? && s.limit < s.maxWorkers then e.now - clock else 0)
            && t.stats.minLimit == Min(s.stats.minLimit, t.limit)
            && t.stats.scaleUps == s.stats.scaleUps + (if RaisesLimit(s, clock, e) then 1 else 0)
            && t.stats.scaleDowns == s.stats.scaleDowns + (if t.limit < s.limit then 1 else 0)
  {
  }

  lemma {:induction false} RunKeepsStats(s: Scaler, clock: Time, es: seq<Event>)
    requires Inv(s) && StatsInv(s, clock) && Runs(s, clock, es)
    ensures var t, c := Exec(s, clock, es), ClockAfterAll(clock, es);
            && StatsInv(t, c)
            && TimeBelowMax(t, c) == TimeBelowMax(s, clock) + ReducedGaps(s, clock, es)
            && t.stats.minLimit == Min(s.stats.minLimit, LowestLimit(s, clock, es))
            && t.stats.scaleUps == s.stats.scaleUps + Raises(s, clock, es)
            && t.stats.scaleDowns == s.stats.scaleDowns + Lowers(s, clock, es)
    decreases |es|
  {
    if es != [] {
      StepKeepsInv(s, clock, es[0]);
      StepKeepsStats(s, clock, es[0]);
      RunKeepsStats(Apply(s, es[0]), ClockAfter(clock, es[0]), es[1..]);
    }
  }

  /** The summary of a whole run: time below the maximum is the sum of the gaps
      that followed a reduced tick, the minimum is the smallest limit ever in
      force, the event counts are the limit changes, and a reduced limit means
      some signal has fired. */
  lemma StatisticsAreExact(maxWorkers: int, actions: seq<(ScaleAction, int)>, counts: seq<int>, es: seq<Event>)
    requires |counts| == |actions|
    requires Runs(Initial(maxWorkers, actions, counts), 0, es)
    ensures var s0 := Initial(maxWorkers, actions, counts);
            var s := Exec(s0, 0, es);
            && (s.stats.reducedSince == 0 <==> s.limit == s.maxWorkers)
            && TimeBelowMax(s, ClockAfterAll(0, es)) == ReducedGaps(s0, 0, es)
            && s.stats.minLimit == LowestLimit(s0, 0, es)
            && s.stats.scaleUps == Raises(s0, 0, es) && s.stats.scaleDowns == Lowers(s0, 0, es)
            && (s.limit < s.maxWorkers ==> EverFired(s.signals))
  {
    var s0 := Initial(maxWorkers, actions, counts);
    InitialInv(maxWorkers, actions, counts);
    RunKeepsInv(s0, 0, es);
    RunKeepsStats(s0, 0, es);
    LowestAtMostStart(s0, 0, es);
  }

  lemma LowestAtMostStart(s: Scaler, clock: Time, es: seq<Event>)
    requires Runs(s, clock, es)
    ensures LowestLimit(s, clock, es) <= s.limit
  {
  }
}
