/** The throttle scaler as the program has it: fields updated in place and loops
    over the signals, each method tied to the matching step of ThrottleModel. */
module ThrottleScalers {
  import opened Sums
  import opened ThrottleModel
  import ThrottleSafety
  import ThrottleReadings

  class ThrottleScaler {
    const maxWorkers: int
    var currentLimit: int
    var liveTokens: int
    var sem: int             // tokens in the channel, whose capacity is maxWorkers
    const signals: array<SignalState>
    var scaleDownEvents: int
    var scaleUpEvents: int
    var minLimit: int
    var reducedSince: Time
    var timeReduced: int
    ghost var held: int      // tokens with the workers

    ghost function State(): Scaler
      reads this, signals
    {
      Scaler(maxWorkers, currentLimit, liveTokens, sem, held, signals[..],
             Stats(scaleDownEvents, scaleUpEvents, minLimit, reducedSince, timeReduced))
    }

    ghost predicate Valid()
      reads this, signals
    {
      ThrottleSafety.Inv(State())
    }

    constructor (maxWorkers: int, actions: seq<(ScaleAction, int)>, counts: seq<int>)
      requires |counts| == |actions|
      ensures Valid() && fresh(signals)
      ensures State() == Initial(maxWorkers, actions, counts)
    {
      var m := if maxWorkers < 1 then 1 else maxWorkers;
      this.maxWorkers := m;
      signals := new SignalState[|actions|](i requires 0 <= i < |actions| =>
        SignalState(actions[i].0, actions[i].1, counts[i], 0));
      scaleDownEvents, scaleUpEvents, timeReduced, reducedSince := 0, 0, 0, 0;
      minLimit, currentLimit, liveTokens, sem, held := m, m, m, 0, 0;
      new;
      for i := 0 to this.maxWorkers
        invariant sem == i
        invariant currentLimit == liveTokens == minLimit == this.maxWorkers && held == 0
        invariant scaleDownEvents == scaleUpEvents == timeReduced == reducedSince == 0
        invariant signals[..] == Initial(maxWorkers, actions, counts).signals
      {
        sem := sem + 1;
      }
    }

    /** Takes a token, unless the context is done and is chosen instead. With no
        token and a live context the call would block. */
    method Acquire(cancelled: bool, preferCancel: bool) returns (acquired: bool)
      requires Valid() && (sem > 0 || cancelled)
      modifies this
      ensures Valid()
      ensures acquired <==> sem != old(sem)
      ensures State() == if acquired then ThrottleModel.Acquire(old(State())) else old(State())
      ensures !cancelled ==> acquired
    {
      if sem > 0 && !(cancelled && preferCancel) {
        sem := sem - 1;
        held := held + 1;
        return true;
      }
      return false;
    }

    method CompareAndSwapLive(expected: int, replacement: int) returns (swapped: bool)
      modifies this`liveTokens
      ensures swapped <==> old(liveTokens) == expected
      ensures liveTokens == if swapped then replacement else old(liveTokens)
    {
      swapped := liveTokens == expected;
      if swapped {
        liveTokens := replacement;
      }
    }

    /** Returns a held token, or swallows it when more are live than allowed. */
    method Release()
      requires Valid() && held > 0
      modifies this
      ensures Valid()
      ensures State() == ThrottleModel.Release(old(State()))
      ensures old(liveTokens) <= currentLimit ==> old(sem) < maxWorkers
    {
      var done := false;
      while !done
        invariant !done ==> State() == old(State())
        invariant done ==> State() == ThrottleModel.Release(old(State())).(held := old(held))
        decreases !done
      {
        var live := liveTokens;
        var limit := currentLimit;
        if live > limit {
          done := CompareAndSwapLive(live, live - 1);
        } else {
          sem := sem + 1;
          done := true;
        }
      }
      held := held - 1;
    }

    method CurrentLimit() returns (limit: int)
      requires Valid()
      ensures limit == currentLimit && 1 <= limit <= maxWorkers
    {
      limit := currentLimit;
    }

    method GetStats(now: Time) returns (downs: int, ups: int, lowest: int, reduced: int)
      ensures (downs, ups, lowest) == (scaleDownEvents, scaleUpEvents, minLimit)
      ensures reduced == TimeBelowMax(State(), now)
    {
      reduced := timeReduced;
      if reducedSince != 0 {
        reduced := reduced + (now - reducedSince);
      }
      return scaleDownEvents, scaleUpEvents, minLimit, reduced;
    }

    /** Stores the new limit and drains up to the difference without blocking. */
    method ScaleDown(from: int, to: int)
      requires Valid() && from == currentLimit && 1 <= to <= from
      modifies this`currentLimit, this`sem, this`liveTokens
      ensures State() == ThrottleModel.ScaleDown(old(State()), to)
    {
      currentLimit := to;
      for i := 0 to from - to
        invariant sem == old(sem) - Min(old(sem), i)
        invariant liveTokens == old(liveTokens) - Min(old(sem), i)
        invariant currentLimit == to
      {
        if sem > 0 {
          sem := sem - 1;
          liveTokens := liveTokens - 1;
        }
      }
    }

    /** Stores the new limit and adds up to the difference while there is room. */
    method ScaleUp(from: int, to: int)
      requires Valid() && from == currentLimit && from <= to <= maxWorkers
      modifies this`currentLimit, this`sem, this`liveTokens
      ensures State() == ThrottleModel.ScaleUp(old(State()), to)
    {
      currentLimit := to;
      for i := 0 to to - from
        invariant sem == old(sem) + Min(maxWorkers - old(sem), i)
        invariant liveTokens == old(liveTokens) + Min(maxWorkers - old(sem), i)
        invariant currentLimit == to
      {
        if sem < maxWorkers {
          sem := sem + 1;
          liveTokens := liveTokens + 1;
        }
      }
    }

    /** Reads every signal, remembers what it saw, and reports whether any fired
        and how hard to react. */
    method Observe(now: Time, counts: seq<int>) returns (fired: bool, bestAction: ScaleAction)
      requires |counts| == signals.Length
      modifies signals
      ensures signals[..] == ThrottleModel.Observe(old(signals[..]), counts, now)
      ensures fired == AnyFires(old(signals[..]), counts)
      ensures bestAction == if HalveFires(old(signals[..]), counts) then ScaleHalve else ScaleReduceOne
      ensures forall i :: 0 <= i < signals.Length ==> signals[i] == old(signals[..])[i].(lastCount := counts[i],
                lastSeen := if counts[i] > old(signals[..])[i].lastCount then now else old(signals[..])[i].lastSeen)
      ensures fired <==> exists i :: 0 <= i < |counts| && counts[i] > old(signals[..])[i].lastCount
      ensures bestAction == ScaleHalve <==>
                exists i :: 0 <= i < |counts| && counts[i] > old(signals[..])[i].lastCount && old(signals[..])[i].action == ScaleHalve
    {
      ghost var before := signals[..];
      bestAction := ScaleReduceOne;
      fired := false;
      for i := 0 to signals.Length
        invariant forall j :: 0 <= j < i ==> signals[j] == ObserveOne(before[j], counts[j], now)
        invariant forall j :: i <= j < signals.Length ==> signals[j] == before[j]
        invariant fired == AnyFires(before[..i], counts[..i])
        invariant bestAction == if HalveFires(before[..i], counts[..i]) then ScaleHalve else ScaleReduceOne
      {
        var delta := counts[i] - signals[i].lastCount;
        FiresSnoc(before, counts, i);
        signals[i] := signals[i].(lastCount := counts[i]);
        if delta > 0 {
          signals[i] := signals[i].(lastSeen := now);
          fired := true;
          if signals[i].action == ScaleHalve && bestAction == ScaleReduceOne {
            bestAction := signals[i].action;
          }
        }
      }
      assert before[..signals.Length] == before && counts[..signals.Length] == counts;
      RisesFire(before, counts);
    }

    method IsQuiet(now: Time) returns (allQuiet: bool)
      ensures allQuiet == AllQuiet(signals[..], now)
    {
      allQuiet := true;
      for i := 0 to signals.Length
        invariant allQuiet == forall j :: 0 <= j < i ==> QuietOne(signals[j], now)
      {
        var st := signals[i];
        if st.lastSeen != 0 && now - st.lastSeen < st.cooldown {
          allQuiet := false;
          break;
        }
      }
    }

    method HasEverFired() returns (anyEverFired: bool)
      ensures anyEverFired == EverFired(signals[..])
    {
      anyEverFired := false;
      for i := 0 to signals.Length
        invariant !anyEverFired && forall j :: 0 <= j < i ==> signals[j].lastSeen == 0
      {
        if signals[i].lastSeen != 0 {
          assert signals[..][i].lastSeen != 0;
          return true;
        }
      }
    }

    method RestartCooldowns(now: Time)
      modifies signals
      ensures signals[..] == Restart(old(signals[..]), now)
    {
      ghost var before := signals[..];
      for i := 0 to signals.Length
        invariant forall j :: 0 <= j < i ==> signals[j] == RestartOne(before[j], now)
        invariant forall j :: i <= j < signals.Length ==> signals[j] == before[j]
      {
        if signals[i].lastSeen != 0 {
          signals[i] := signals[i].(lastSeen := now);
        }
      }
    }

    method ReactToSignals(now: Time, bestAction: ScaleAction)
      requires Valid()
      modifies this
      ensures State() == TickDown(old(State()), now, bestAction == ScaleHalve)
    {
      var current := currentLimit;
      var newLimit := match bestAction
        case ScaleHalve => current / 2
        case ScaleReduceOne => current - 1;
      if newLimit < 1 {
        newLimit := 1;
      }
      if newLimit < current {
        ScaleDown(current, newLimit);
        scaleDownEvents := scaleDownEvents + 1;
        if newLimit < minLimit {
          minLimit := newLimit;
        }
        if reducedSince == 0 {
          reducedSince := now;
        }
      }
    }

    method Recover(now: Time)
      requires Valid()
      modifies this, signals
      ensures State() == TickUp(old(State()), now)
    {
      var current := currentLimit;
      if current >= maxWorkers {
        return;
      }
      var allQuiet := IsQuiet(now);
      var anyEverFired := HasEverFired();
      if allQuiet && anyEverFired {
        var newLimit := current + 1;
        if newLimit > maxWorkers {
          newLimit := maxWorkers;
        }
        ScaleUp(current, newLimit);
        scaleUpEvents := scaleUpEvents + 1;
        if newLimit >= maxWorkers && reducedSince != 0 {
          timeReduced := timeReduced + (now - reducedSince);
          reducedSince := 0;
        }
        RestartCooldowns(now);
      }
    }

    /** One monitoring cycle: the most aggressive fired action lowers the limit;
        otherwise a quiet spell raises it by one. */
    method Tick(now: Time, counts: seq<int>)
      requires Valid() && |counts| == signals.Length && now > 0
      modifies this, signals
      ensures Valid()
      ensures State() == ThrottleModel.Tick(old(State()), now, counts)
      ensures var before := old(signals[..]);
              var rose := exists i :: 0 <= i < |counts| && counts[i] > before[i].lastCount;
              var halves := exists i :: 0 <= i < |counts| && counts[i] > before[i].lastCount && before[i].action == ScaleHalve;
              var quiet := forall i :: 0 <= i < |counts| && before[i].lastSeen != 0 ==>
                                         before[i].lastSeen + before[i].cooldown <= now;
              currentLimit ==
              if rose then Max(1, if halves then old(currentLimit) / 2 else old(currentLimit) - 1)
              else if old(currentLimit) < maxWorkers && quiet then old(currentLimit) + 1 else old(currentLimit)
    {
      ghost var s0 := State();
      ThrottleSafety.StepKeepsInv(s0, now, ETick(now, counts));
      ThrottleSafety.ObserveKeepsFired(s0.signals, counts, now);
      ThrottleReadings.TickExactly(s0, now, counts);
      var fired, bestAction := Observe(now, counts);
      if fired {
        ReactToSignals(now, bestAction);
      } else {
        Recover(now);
      }
    }
  }

  lemma RisesFire(signals: seq<SignalState>, counts: seq<int>)
    requires |counts| == |signals|
    ensures AnyFires(signals, counts) <==> exists i :: 0 <= i < |counts| && counts[i] > signals[i].lastCount
    ensures HalveFires(signals, counts) <==>
              exists i :: 0 <= i < |counts| && counts[i] > signals[i].lastCount && signals[i].action == ScaleHalve
  {
    assert forall i :: 0 <= i < |signals| ==> (Fires(signals[i], counts[i]) <==> counts[i] > signals[i].lastCount);
    if i :| 0 <= i < |counts| && counts[i] > signals[i].lastCount {
      assert Fires(signals[i], counts[i]);
    }
    if i :| 0 <= i < |counts| && counts[i] > signals[i].lastCount && signals[i].action == ScaleHalve {
      assert Fires(signals[i], counts[i]);
    }
  }

  lemma FiresSnoc(signals: seq<SignalState>, counts: seq<int>, i: nat)
    requires |counts| == |signals| && i < |signals|
    ensures AnyFires(signals[..i + 1], counts[..i + 1]) ==
            (AnyFires(signals[..i], counts[..i]) || Fires(signals[i], counts[i]))
    ensures HalveFires(signals[..i + 1], counts[..i + 1]) ==
            (HalveFires(signals[..i], counts[..i]) || (Fires(signals[i], counts[i]) && signals[i].action == ScaleHalve))
  {
    var s0, c0, s1, c1 := signals[..i], counts[..i], signals[..i + 1], counts[..i + 1];
    assert s1[i] == signals[i] && c1[i] == counts[i];
    assert forall j :: 0 <= j < i ==> s0[j] == s1[j] && c0[j] == c1[j];
    if AnyFires(s0, c0) {
      var j :| 0 <= j < i && Fires(s0[j], c0[j]);
      assert Fires(s1[j], c1[j]);
    }
    if HalveFires(s0, c0) {
      var j :| 0 <= j < i && Fires(s0[j], c0[j]) && s0[j].action == ScaleHalve;
      assert Fires(s1[j], c1[j]) && s1[j].action == ScaleHalve;
    }
    if AnyFires(s1, c1) && !Fires(signals[i], counts[i]) {
      var j :| 0 <= j < i + 1 && Fires(s1[j], c1[j]);
      assert Fires(s0[j], c0[j]);
    }
    if HalveFires(s1, c1) && !(Fires(signals[i], counts[i]) && signals[i].action == ScaleHalve) {
      var j :| 0 <= j < i + 1 && Fires(s1[j], c1[j]) && s1[j].action == ScaleHalve;
      assert Fires(s0[j], c0[j]) && s0[j].action == ScaleHalve;
    }
  }
}
