/** What the interleaving of single operations does to the scaler's informal
    promises: when the limit stays within the live tokens, when a returned token is
    above the limit, when a return blocks, and how a system without tokens gets one
    back. */
module AtomicLimits {
  import opened Sums
  import opened ThrottleAtomic
  import T = ThrottleModel
  import ThrottleSafety

  /** What the steps of a run did, counted where they happened. `raised` and
      `lowered` add up changes of the limit; `empty` counts drains that found the
      channel empty, `full` adds that found it full. */
  datatype Tally = Tally(acquired: nat, returned: nat, swallowed: nat, drained: nat, filled: nat,
                         gained: nat, lost: nat, raised: nat, lowered: nat, empty: nat, full: nat)

  const NONE := Tally(0, 0, 0, 0, 0, 0, 0, 0, 0, 0, 0)

  function OneStep(s: Atomics, e: Event): Tally
    requires Inv(s) && Enabled(s, e)
  {
    match e
    case Acquire(_) => NONE.(acquired := 1)
    case LoadLive(_) => NONE
    case LoadLimit(_) => NONE
    case Cas(w) => if CasFails(s, w) then NONE else NONE.(swallowed := 1)
    case Send(_) => NONE.(returned := 1)
    case Tick(now, counts) =>
      (match Decide(s, now, counts)
       case Keep => NONE
       case Lower(to) => NONE.(lowered := s.limit - to)
       case Raise => NONE.(raised := 1))
    case Drain => if s.sem > 0 then NONE.(drained := 1) else NONE.(empty := 1)
    case SubtractLive => NONE.(lost := 1)
    case Add => if s.sem < s.max then NONE.(filled := 1) else NONE.(full := 1)
    case AddLive => NONE.(gained := 1)
    case FinishTick => NONE
  }

  function Plus(a: Tally, b: Tally): Tally {
    Tally(a.acquired + b.acquired, a.returned + b.returned, a.swallowed + b.swallowed, a.drained + b.drained,
          a.filled + b.filled, a.gained + b.gained, a.lost + b.lost, a.raised + b.raised, a.lowered + b.lowered,
          a.empty + b.empty, a.full + b.full)
  }

  ghost function TallyOf(s: Atomics, es: seq<Event>): Tally
    requires Inv(s) && Runs(s, es)
    decreases |es|
  {
    if es == [] then NONE
    else
      StepKeepsInv(s, es[0]);
      Plus(OneStep(s, es[0]), TallyOf(Apply(s, es[0]), es[1..]))
  }

  /** What the monitor's current tick has still to take from `live`. */
  function StillToTake(m: Monitor): int {
    match m
    case MIdle => 0
    case Draining(left) => left
    case Drained(left) => left + 1
    case Adding(left) => -(left as int)
    case Added(left) => -(left as int) - 1
  }

  lemma StepBalance(s: Atomics, e: Event)
    requires Inv(s) && Enabled(s, e)
    ensures var t, c := Apply(s, e), OneStep(s, e);
            && t.sem == s.sem - c.acquired + c.returned - c.drained + c.filled
            && t.live == s.live + c.gained - c.lost - c.swallowed
            && t.limit == s.limit + c.raised - c.lowered
            && t.live - t.limit - StillToTake(t.monitor)
               == s.live - s.limit - StillToTake(s.monitor) + c.empty - c.swallowed - c.full
  {
  }

  /** Channel, live tokens and limit move only by what the run's steps did; and a
      tick's effect on `live - limit` is undone only by empty drains, swallowed
      tokens and vain adds. */
  lemma {:induction false} RunBalance(s: Atomics, es: seq<Event>)
    requires Inv(s) && Runs(s, es)
    ensures var t, c := Exec(s, es), TallyOf(s, es);
            && Inv(t) && t.max == s.max && |t.workers| == |s.workers|
            && t.sem == s.sem - c.acquired + c.returned - c.drained + c.filled
            && t.live == s.live + c.gained - c.lost - c.swallowed
            && t.limit == s.limit + c.raised - c.lowered
            && t.live - t.limit - StillToTake(t.monitor)
               == s.live - s.limit - StillToTake(s.monitor) + c.empty - c.swallowed - c.full
    decreases |es|
  {
    if es != [] {
      StepKeepsInv(s, es[0]);
      StepFrame(s, es[0]);
      StepBalance(s, es[0]);
      RunBalance(Apply(s, es[0]), es[1..]);
    }
  }

  /** Exactly when the limit is within the live tokens between two ticks: when no
      more tokens have been swallowed, or added in vain to a full channel, than
      drains have come up empty. */
  lemma LimitWithinLiveExactly(max: int, workers: nat, actions: seq<(T.ScaleAction, int)>, counts: seq<int>, es: seq<Event>)
    requires max >= 1 && |counts| == |actions|
    requires Inv(Initial(max, workers, actions, counts)) && Runs(Initial(max, workers, actions, counts), es)
    requires Exec(Initial(max, workers, actions, counts), es).monitor.MIdle?
    ensures var s := Exec(Initial(max, workers, actions, counts), es);
            var c := TallyOf(Initial(max, workers, actions, counts), es);
            && s.live - s.limit == c.empty - c.swallowed - c.full
            && (s.limit <= s.live <==> c.swallowed + c.full <= c.empty)
  {
    RunBalance(Initial(max, workers, actions, counts), es);
  }

  // ---- Between a worker's loads and its send ---------------------------------

  /** Worker `w` takes no step in the run. */
  predicate Leaves(es: seq<Event>, w: nat) {
    forall i :: 0 <= i < |es| && IsWorkerStep(es[i]) ==> es[i].w != w
  }

  lemma {:induction false} LeftAlone(s: Atomics, es: seq<Event>, w: nat)
    requires Runs(s, es) && Leaves(es, w) && w < |s.workers|
    ensures |Exec(s, es).workers| == |s.workers| && Exec(s, es).workers[w] == s.workers[w]
    decreases |es|
  {
    if es != [] {
      StepFrame(s, es[0]);
      assert Leaves(es[1..], w) by {
        assert forall i :: 0 <= i < |es| - 1 ==> es[1..][i] == es[i + 1];
      }
      LeftAlone(Apply(s, es[0]), es[1..], w);
    }
  }

  /** A release's history up to its send or its compare-and-swap: it loads `live` in
      `start`, then the limit, and now stands in the last state. */
  ghost predicate Deciding(start: Atomics, w: nat, es: seq<Event>, es': seq<Event>) {
    && Inv(start) && Enabled(start, LoadLive(w)) && Leaves(es, w) && Leaves(es', w)
    && Runs(Apply(start, LoadLive(w)), es)
    && Enabled(Exec(Apply(start, LoadLive(w)), es), LoadLimit(w))
    && Runs(Apply(Exec(Apply(start, LoadLive(w)), es), LoadLimit(w)), es')
  }

  /** The state in which it loads the limit, and the state it stands in. */
  ghost function Middle(start: Atomics, w: nat, es: seq<Event>, es': seq<Event>): Atomics
    requires Deciding(start, w, es, es')
  {
    Exec(Apply(start, LoadLive(w)), es)
  }

  ghost function Now(start: Atomics, w: nat, es: seq<Event>, es': seq<Event>): Atomics
    requires Deciding(start, w, es, es')
  {
    Exec(Apply(Middle(start, w, es, es'), LoadLimit(w)), es')
  }

  ghost function SinceLive(start: Atomics, w: nat, es: seq<Event>, es': seq<Event>): Tally
    requires Deciding(start, w, es, es')
  {
    StepKeepsInv(start, LoadLive(w));
    RunBalance(Apply(start, LoadLive(w)), es);
    StepKeepsInv(Middle(start, w, es, es'), LoadLimit(w));
    Plus(TallyOf(Apply(start, LoadLive(w)), es), TallyOf(Apply(Middle(start, w, es, es'), LoadLimit(w)), es'))
  }

  ghost function SinceLimit(start: Atomics, w: nat, es: seq<Event>, es': seq<Event>): Tally
    requires Deciding(start, w, es, es')
  {
    StepKeepsInv(start, LoadLive(w));
    RunBalance(Apply(start, LoadLive(w)), es);
    StepKeepsInv(Middle(start, w, es, es'), LoadLimit(w));
    TallyOf(Apply(Middle(start, w, es, es'), LoadLimit(w)), es')
  }

  lemma DecisionBalance(start: Atomics, w: nat, es: seq<Event>, es': seq<Event>)
    requires Deciding(start, w, es, es')
    ensures var mid, now := Middle(start, w, es, es'), Now(start, w, es, es');
            var c, c' := SinceLive(start, w, es, es'), SinceLimit(start, w, es, es');
            && Inv(now) && now.max == mid.max == start.max && 1 <= mid.limit <= mid.max
            && w < |now.workers| && now.workers[w].pc == LoadedBoth(start.live, mid.limit, start.changes)
            && now.live == start.live + c.gained - c.lost - c.swallowed
            && now.limit == mid.limit + c'.raised - c'.lowered
            && now.sem == mid.sem - c'.acquired + c'.returned - c'.drained + c'.filled
  {
    var s1 := Apply(start, LoadLive(w));
    StepKeepsInv(start, LoadLive(w));
    RunBalance(s1, es);
    LeftAlone(s1, es, w);
    var mid := Exec(s1, es);
    StepKeepsInv(mid, LoadLimit(w));
    var s2 := Apply(mid, LoadLimit(w));
    RunBalance(s2, es');
    LeftAlone(s2, es', w);
  }

  /** Exactly when a release returns its token at or below the limit: what `live`
      gained since it was loaded, over what it lost, is within the margin of the
      decision plus what the limit gained since it was loaded. */
  lemma ReturnsWithinLimitExactly(start: Atomics, w: nat, es: seq<Event>, es': seq<Event>)
    requires Deciding(start, w, es, es') && ReadyToSend(Now(start, w, es, es'), w)
    ensures var mid, now := Middle(start, w, es, es'), Now(start, w, es, es');
            var c, c' := SinceLive(start, w, es, es'), SinceLimit(start, w, es, es');
            && (now.live <= now.limit <==>
                  c.gained - c.lost - c.swallowed <= (mid.limit - start.live) + (c'.raised - c'.lowered))
            && (c.gained == 0 && c'.lowered == 0 ==> now.live <= now.limit)
  {
    DecisionBalance(start, w, es, es');
  }

  /** A swallow is above the limit in force exactly when the limit has not risen to
      the live tokens since it was loaded; `live` itself is current, since the
      compare-and-swap succeeds. */
  lemma SwallowsAboveLimitExactly(start: Atomics, w: nat, es: seq<Event>, es': seq<Event>)
    requires Deciding(start, w, es, es') && ReadyToSwallow(Now(start, w, es, es'), w)
    requires !CasFails(Now(start, w, es, es'), w)
    ensures var mid, now, c' := Middle(start, w, es, es'), Now(start, w, es, es'), SinceLimit(start, w, es, es');
            && now.live > now.limit <==> c'.raised - c'.lowered < start.live - mid.limit
  {
    DecisionBalance(start, w, es, es');
  }

  /** A return blocks exactly when the circulating tokens are the channel's capacity
      and the tokens held together. */
  lemma BlockedExactly(s: Atomics, w: nat)
    requires Inv(s) && ReadyToSend(s, w)
    ensures !Enabled(s, Send(w)) <==> s.live - InFlight(s.monitor) == s.max + Held(s)
    ensures !Enabled(s, Send(w)) ==> s.live - InFlight(s.monitor) > s.max
  {
    SumMember(s.workers, w, HoldsToken);
  }

  /** Exactly which steps after the decision make the return block: when the tokens
      put into the channel since, by other returns and scale-ups, outnumber those
      taken from it by the space there was. And a return can block only if a
      scale-up has added a token since `live` was loaded. */
  lemma BlocksExactlyWhen(start: Atomics, w: nat, es: seq<Event>, es': seq<Event>)
    requires Deciding(start, w, es, es') && ReadyToSend(Now(start, w, es, es'), w)
    ensures var mid, now := Middle(start, w, es, es'), Now(start, w, es, es');
            var c, c' := SinceLive(start, w, es, es'), SinceLimit(start, w, es, es');
            && (!Enabled(now, Send(w)) <==>
                  (c'.returned + c'.filled) - (c'.acquired + c'.drained) == mid.max - mid.sem)
            && (!Enabled(now, Send(w)) ==> c.gained > 0 || now.monitor.Added?)
  {
    DecisionBalance(start, w, es, es');
    BlockedExactly(Now(start, w, es, es'), w);
  }

  // ---- No token left -----------------------------------------------------------

  predicate NoTokens(s: Atomics) {
    s.monitor.MIdle? && s.sem == 0 && Held(s) == 0
  }

  /** Every signal that has ever fired has been quiet for its cooldown, and none
      fires now. */
  predicate CooledDown(s: Atomics, now: Time, counts: seq<int>)
    requires |counts| == |s.tuner.signals|
  {
    && !T.AnyFires(s.tuner.signals, counts)
    && forall i :: 0 <= i < |s.tuner.signals| && s.tuner.signals[i].lastSeen != 0 ==>
                     s.tuner.signals[i].lastSeen + s.tuner.signals[i].cooldown <= now
  }

  /** A tick raises the limit exactly when it is below the maximum and every signal
      has cooled down. */
  lemma RaiseExactly(s: Atomics, now: Time, counts: seq<int>)
    requires Inv(s) && Enabled(s, Tick(now, counts))
    ensures Decide(s, now, counts).Raise? <==> s.limit < s.max && CooledDown(s, now, counts)
  {
    var signals := s.tuner.signals;
    var seen := T.Observe(signals, counts, now);
    if !T.AnyFires(signals, counts) {
      forall i | 0 <= i < |signals| ensures seen[i].lastSeen == signals[i].lastSeen {
        assert !T.Fires(signals[i], counts[i]);
      }
      assert T.AllQuiet(seen, now) <==> forall i :: 0 <= i < |seen| ==> T.QuietOne(seen[i], now);
      ThrottleSafety.ObserveKeepsFired(signals, counts, now);
    }
  }

  /** Without tokens nobody but the monitor can step, and its next tick brings a
      token back exactly when every signal has cooled down by then; any other tick
      leaves the system as it was, and the limit below the maximum. */
  lemma StarvationEndsExactly(s: Atomics, now: Time, counts: seq<int>)
    requires Inv(s) && NoTokens(s) && Enabled(s, Tick(now, counts))
    ensures forall e :: Enabled(s, e) ==> e.Tick?
    ensures s.limit < s.max
    ensures var t := Apply(s, Tick(now, counts));
            && (t.monitor.Adding? <==> CooledDown(s, now, counts))
            && (t.monitor.Adding? ==>
                  && Runs(t, [Add, AddLive, FinishTick])
                  && Exec(t, [Add, AddLive, FinishTick]).sem == 1
                  && Exec(t, [Add, AddLive, FinishTick]).live == 1)
            && (!t.monitor.Adding? ==> t.sem == 0 && Held(t) == 0)
  {
    forall e | Enabled(s, e) ensures e.Tick? {
      if IsWorkerStep(e) {
        SumMember(s.workers, e.w, HoldsToken);
      }
    }
    RaiseExactly(s, now, counts);
    var t := Apply(s, Tick(now, counts));
    if t.monitor.Adding? {
      OneAdd(t);
    }
  }

  lemma OneAdd(t: Atomics)
    requires t.monitor == Adding(1) && t.sem == 0 && t.live == 0 && t.max >= 1
    ensures Runs(t, [Add, AddLive, FinishTick])
    ensures Exec(t, [Add, AddLive, FinishTick]) == t.(sem := 1, live := 1, changes := t.changes + 1, monitor := MIdle)
  {
    var t1 := Apply(t, Add);
    var t2 := Apply(t1, AddLive);
    RunCons(t2, FinishTick, []);
    RunCons(t1, AddLive, [FinishTick] + []);
    RunCons(t, Add, [AddLive] + ([FinishTick] + []));
    assert [Add] + ([AddLive] + ([FinishTick] + [])) == [Add, AddLive, FinishTick];
  }
}
