/** Concrete interleavings of two workers and one halving signal in which the
    scaler's informal promises fail. */
module AtomicWitnesses {
  import opened Sums
  import opened ThrottleAtomic
  import opened AtomicLimits
  import T = ThrottleModel

  ghost predicate Step(s: Atomics, e: Event, t: Atomics) {
    Enabled(s, e) && Apply(s, e) == t
  }

  lemma {:induction false} PathRuns(states: seq<Atomics>, es: seq<Event>)
    requires |states| == |es| + 1
    requires forall i :: 0 <= i < |es| ==> Step(states[i], es[i], states[i + 1])
    ensures Runs(states[0], es) && Exec(states[0], es) == states[|es|]
    decreases |es|
  {
    if es != [] {
      assert Step(states[0], es[0], states[1]);
      forall i | 0 <= i < |es[1..]| ensures Step(states[1..][i], es[1..][i], states[1..][i + 1]) {
        assert Step(states[i + 1], es[i + 1], states[i + 2]);
      }
      PathRuns(states[1..], es[1..]);
    }
  }

  const ACTIONS: seq<(T.ScaleAction, int)> := [(T.ScaleHalve, 10)]

  function Tuned(count: int, seen: Time, clock: Time): Tuner {
    Tuner([T.SignalState(T.ScaleHalve, 10, count, seen)], clock)
  }

  /** A maximum of two, two workers, and the signal's state. */
  function Two(limit: int, live: int, sem: int, pc0: Pc, pc1: Pc, monitor: Monitor, changes: nat, tuner: Tuner): Atomics {
    Atomics(2, limit, live, sem, [Worker(pc0, 0), Worker(pc1, 0)], monitor, changes, tuner)
  }

  lemma InitialIsTwo()
    ensures Initial(2, 2, ACTIONS, [0]) == Two(2, 2, 2, Outside, Outside, MIdle, 0, Tuned(0, 0, 0))
  {
    assert Initial(2, 2, ACTIONS, [0]).workers == [Worker(Outside, 0), Worker(Outside, 0)];
    assert Initial(2, 2, ACTIONS, [0]).tuner.signals == [T.SignalState(T.ScaleHalve, 10, 0, 0)];
  }

  /** The signal fires at time 1: the limit goes from two to one. */
  lemma FireStep(live: int, sem: int, pc0: Pc, pc1: Pc, changes: nat)
    ensures Step(Two(2, live, sem, pc0, pc1, MIdle, changes, Tuned(0, 0, 0)), Tick(1, [1]),
                 Two(1, live, sem, pc0, pc1, Draining(1), changes, Tuned(1, 1, 1)))
  {
    var s := Two(2, live, sem, pc0, pc1, MIdle, changes, Tuned(0, 0, 0));
    var signals := s.tuner.signals;
    assert T.Observe(signals, [1], 1) == Tuned(1, 1, 1).signals;
    assert T.Fires(signals[0], [1][0]) && signals[0].action == T.ScaleHalve;
    assert T.LoweredLimit(2, true) == 1;
    assert Decide(s, 1, [1]) == Lower(1);
  }

  /** Ten time units later, without a new firing, it goes back to two. */
  lemma CoolStep(live: int, sem: int, pc0: Pc, pc1: Pc, changes: nat)
    ensures Step(Two(1, live, sem, pc0, pc1, MIdle, changes, Tuned(1, 1, 1)), Tick(11, [1]),
                 Two(2, live, sem, pc0, pc1, Adding(1), changes, Tuned(1, 11, 11)))
  {
    var s := Two(1, live, sem, pc0, pc1, MIdle, changes, Tuned(1, 1, 1));
    var signals := s.tuner.signals;
    var seen := T.Observe(signals, [1], 11);
    assert seen == signals;
    assert !T.AnyFires(signals, [1]);
    assert seen[0].lastSeen != 0;
    assert Quiet(signals, 11, [1]);
    assert T.Restart(seen, 11) == Tuned(1, 11, 11).signals;
  }

  // ---- All tokens lost -------------------------------------------------------

  lemma SwallowSteps(tuner: Tuner)
    ensures Step(Two(1, 2, 1, Holding, Outside, Draining(1), 0, tuner), LoadLive(0),
                 Two(1, 2, 1, LoadedLive(2, 0), Outside, Draining(1), 0, tuner))
    ensures Step(Two(1, 2, 1, LoadedLive(2, 0), Outside, Draining(1), 0, tuner), LoadLimit(0),
                 Two(1, 2, 1, LoadedBoth(2, 1, 0), Outside, Draining(1), 0, tuner))
    ensures Step(Two(1, 2, 1, LoadedBoth(2, 1, 0), Outside, Draining(1), 0, tuner), Cas(0),
                 Two(1, 1, 1, Outside, Outside, Draining(1), 1, tuner))
  {
    assert [Worker(Holding, 0), Worker(Outside, 0)][0 := Worker(LoadedLive(2, 0), 0)]
        == [Worker(LoadedLive(2, 0), 0), Worker(Outside, 0)];
    assert [Worker(LoadedLive(2, 0), 0), Worker(Outside, 0)][0 := Worker(LoadedBoth(2, 1, 0), 0)]
        == [Worker(LoadedBoth(2, 1, 0), 0), Worker(Outside, 0)];
    assert [Worker(LoadedBoth(2, 1, 0), 0), Worker(Outside, 0)][0 := Worker(Outside, 0)]
        == [Worker(Outside, 0), Worker(Outside, 0)];
  }

  lemma DrainSteps(tuner: Tuner)
    ensures Step(Two(1, 1, 1, Outside, Outside, Draining(1), 1, tuner), Drain,
                 Two(1, 1, 0, Outside, Outside, Drained(0), 1, tuner))
    ensures Step(Two(1, 1, 0, Outside, Outside, Drained(0), 1, tuner), SubtractLive,
                 Two(1, 0, 0, Outside, Outside, Draining(0), 2, tuner))
    ensures Step(Two(1, 0, 0, Outside, Outside, Draining(0), 2, tuner), FinishTick,
                 Two(1, 0, 0, Outside, Outside, MIdle, 2, tuner))
  {
  }

  lemma AcquireStep(limit: int, live: int, sem: int, pc1: Pc, monitor: Monitor, changes: nat, tuner: Tuner)
    requires sem > 0
    ensures Step(Two(limit, live, sem, Outside, pc1, monitor, changes, tuner), Acquire(0),
                 Two(limit, live, sem - 1, Holding, pc1, monitor, changes, tuner))
  {
    assert [Worker(Outside, 0), Worker(pc1, 0)][0 := Worker(Holding, 0)] == [Worker(Holding, 0), Worker(pc1, 0)];
  }

  function LostTokens(): seq<Event> {
    [Acquire(0), Tick(1, [1]), LoadLive(0), LoadLimit(0), Cas(0), Drain, SubtractLive, FinishTick]
  }

  /** Storing the limit before draining lets a release swallow a token that the
      monitor then drains again: `limit <= live` fails, and here every token is
      gone. */
  lemma LimitCanExceedLive()
    ensures Runs(Initial(2, 2, ACTIONS, [0]), LostTokens())
    ensures var s := Exec(Initial(2, 2, ACTIONS, [0]), LostTokens());
            NoTokens(s) && s.limit == 1 && s.live == 0
  {
    var t0, t1 := Tuned(0, 0, 0), Tuned(1, 1, 1);
    InitialIsTwo();
    AcquireStep(2, 2, 2, Outside, MIdle, 0, t0);
    FireStep(2, 1, Holding, Outside, 0);
    SwallowSteps(t1);
    DrainSteps(t1);
    PathRuns([Two(2, 2, 2, Outside, Outside, MIdle, 0, t0), Two(2, 2, 1, Holding, Outside, MIdle, 0, t0),
              Two(1, 2, 1, Holding, Outside, Draining(1), 0, t1), Two(1, 2, 1, LoadedLive(2, 0), Outside, Draining(1), 0, t1),
              Two(1, 2, 1, LoadedBoth(2, 1, 0), Outside, Draining(1), 0, t1), Two(1, 1, 1, Outside, Outside, Draining(1), 1, t1),
              Two(1, 1, 0, Outside, Outside, Drained(0), 1, t1), Two(1, 0, 0, Outside, Outside, Draining(0), 2, t1),
              Two(1, 0, 0, Outside, Outside, MIdle, 2, t1)], LostTokens());
    SumZero(Two(1, 0, 0, Outside, Outside, MIdle, 2, t1).workers, HoldsToken);
  }

  // ---- A blocked return --------------------------------------------------------

  /** Both tokens are held by workers that have loaded two live tokens and a limit of
      two, and will return theirs. */
  const DECIDED: Pc := LoadedBoth(2, 2, 0)

  lemma AcquireBothSteps(tuner: Tuner)
    ensures Step(Two(2, 2, 2, Outside, Outside, MIdle, 0, tuner), Acquire(0), Two(2, 2, 1, Holding, Outside, MIdle, 0, tuner))
    ensures Step(Two(2, 2, 1, Holding, Outside, MIdle, 0, tuner), Acquire(1), Two(2, 2, 0, Holding, Holding, MIdle, 0, tuner))
  {
    AcquireStep(2, 2, 2, Outside, MIdle, 0, tuner);
    assert [Worker(Holding, 0), Worker(Outside, 0)][1 := Worker(Holding, 0)] == [Worker(Holding, 0), Worker(Holding, 0)];
  }

  lemma DecideFirstSteps(tuner: Tuner)
    ensures Step(Two(2, 2, 0, Holding, Holding, MIdle, 0, tuner), LoadLive(0), Two(2, 2, 0, LoadedLive(2, 0), Holding, MIdle, 0, tuner))
    ensures Step(Two(2, 2, 0, LoadedLive(2, 0), Holding, MIdle, 0, tuner), LoadLimit(0), Two(2, 2, 0, DECIDED, Holding, MIdle, 0, tuner))
  {
    assert [Worker(Holding, 0), Worker(Holding, 0)][0 := Worker(LoadedLive(2, 0), 0)]
        == [Worker(LoadedLive(2, 0), 0), Worker(Holding, 0)];
    assert [Worker(LoadedLive(2, 0), 0), Worker(Holding, 0)][0 := Worker(DECIDED, 0)] == [Worker(DECIDED, 0), Worker(Holding, 0)];
  }

  lemma DecideSecondSteps(tuner: Tuner)
    ensures Step(Two(2, 2, 0, DECIDED, Holding, MIdle, 0, tuner), LoadLive(1), Two(2, 2, 0, DECIDED, LoadedLive(2, 0), MIdle, 0, tuner))
    ensures Step(Two(2, 2, 0, DECIDED, LoadedLive(2, 0), MIdle, 0, tuner), LoadLimit(1), Two(2, 2, 0, DECIDED, DECIDED, MIdle, 0, tuner))
  {
    assert [Worker(DECIDED, 0), Worker(Holding, 0)][1 := Worker(LoadedLive(2, 0), 0)]
        == [Worker(DECIDED, 0), Worker(LoadedLive(2, 0), 0)];
    assert [Worker(DECIDED, 0), Worker(LoadedLive(2, 0), 0)][1 := Worker(DECIDED, 0)] == [Worker(DECIDED, 0), Worker(DECIDED, 0)];
  }

  /** A scale-down that finds nothing to drain, then a scale-up. */
  lemma DownAndUpSteps()
    ensures Step(Two(1, 2, 0, DECIDED, DECIDED, Draining(1), 0, Tuned(1, 1, 1)), Drain,
                 Two(1, 2, 0, DECIDED, DECIDED, Draining(0), 0, Tuned(1, 1, 1)))
    ensures Step(Two(1, 2, 0, DECIDED, DECIDED, Draining(0), 0, Tuned(1, 1, 1)), FinishTick,
                 Two(1, 2, 0, DECIDED, DECIDED, MIdle, 0, Tuned(1, 1, 1)))
    ensures Step(Two(2, 2, 0, DECIDED, DECIDED, Adding(1), 0, Tuned(1, 11, 11)), Add,
                 Two(2, 2, 1, DECIDED, DECIDED, Added(0), 0, Tuned(1, 11, 11)))
    ensures Step(Two(2, 2, 1, DECIDED, DECIDED, Added(0), 0, Tuned(1, 11, 11)), AddLive,
                 Two(2, 3, 1, DECIDED, DECIDED, Adding(0), 1, Tuned(1, 11, 11)))
    ensures Step(Two(2, 3, 1, DECIDED, DECIDED, Adding(0), 1, Tuned(1, 11, 11)), FinishTick,
                 Two(2, 3, 1, DECIDED, DECIDED, MIdle, 1, Tuned(1, 11, 11)))
  {
  }

  lemma SendStep(tuner: Tuner)
    ensures Step(Two(2, 3, 1, DECIDED, DECIDED, MIdle, 1, tuner), Send(0), Two(2, 3, 2, Outside, DECIDED, MIdle, 1, tuner))
  {
    assert [Worker(DECIDED, 0), Worker(DECIDED, 0)][0 := Worker(Outside, 0)] == [Worker(Outside, 0), Worker(DECIDED, 0)];
  }

  function BothDecide(): seq<Event> {
    [Acquire(0), Acquire(1), LoadLive(0), LoadLimit(0), LoadLive(1), LoadLimit(1)]
  }

  lemma BothDecidePath(t0: Tuner)
    ensures Runs(Two(2, 2, 2, Outside, Outside, MIdle, 0, t0), BothDecide())
    ensures Exec(Two(2, 2, 2, Outside, Outside, MIdle, 0, t0), BothDecide()) == Two(2, 2, 0, DECIDED, DECIDED, MIdle, 0, t0)
  {
    AcquireBothSteps(t0);
    DecideFirstSteps(t0);
    DecideSecondSteps(t0);
    PathRuns([Two(2, 2, 2, Outside, Outside, MIdle, 0, t0), Two(2, 2, 1, Holding, Outside, MIdle, 0, t0),
              Two(2, 2, 0, Holding, Holding, MIdle, 0, t0), Two(2, 2, 0, LoadedLive(2, 0), Holding, MIdle, 0, t0),
              Two(2, 2, 0, DECIDED, Holding, MIdle, 0, t0), Two(2, 2, 0, DECIDED, LoadedLive(2, 0), MIdle, 0, t0),
              Two(2, 2, 0, DECIDED, DECIDED, MIdle, 0, t0)], BothDecide());
  }

  lemma BothDecideRuns()
    ensures Runs(Initial(2, 2, ACTIONS, [0]), BothDecide())
    ensures Exec(Initial(2, 2, ACTIONS, [0]), BothDecide()) == Two(2, 2, 0, DECIDED, DECIDED, MIdle, 0, Tuned(0, 0, 0))
  {
    InitialIsTwo();
    BothDecidePath(Tuned(0, 0, 0));
  }

  function DownAndUp(): seq<Event> {
    [Tick(1, [1]), Drain, FinishTick, Tick(11, [1]), Add, AddLive, FinishTick, Send(0)]
  }

  lemma DownAndUpRuns()
    ensures Runs(Two(2, 2, 0, DECIDED, DECIDED, MIdle, 0, Tuned(0, 0, 0)), DownAndUp())
    ensures Exec(Two(2, 2, 0, DECIDED, DECIDED, MIdle, 0, Tuned(0, 0, 0)), DownAndUp())
         == Two(2, 3, 2, Outside, DECIDED, MIdle, 1, Tuned(1, 11, 11))
  {
    var t0, t1, t2 := Tuned(0, 0, 0), Tuned(1, 1, 1), Tuned(1, 11, 11);
    FireStep(2, 0, DECIDED, DECIDED, 0);
    CoolStep(2, 0, DECIDED, DECIDED, 0);
    DownAndUpSteps();
    SendStep(t2);
    PathRuns([Two(2, 2, 0, DECIDED, DECIDED, MIdle, 0, t0), Two(1, 2, 0, DECIDED, DECIDED, Draining(1), 0, t1),
              Two(1, 2, 0, DECIDED, DECIDED, Draining(0), 0, t1), Two(1, 2, 0, DECIDED, DECIDED, MIdle, 0, t1),
              Two(2, 2, 0, DECIDED, DECIDED, Adding(1), 0, t2), Two(2, 2, 1, DECIDED, DECIDED, Added(0), 0, t2),
              Two(2, 3, 1, DECIDED, DECIDED, Adding(0), 1, t2), Two(2, 3, 1, DECIDED, DECIDED, MIdle, 1, t2),
              Two(2, 3, 2, Outside, DECIDED, MIdle, 1, t2)], DownAndUp());
  }

  /** Two workers that decided to return their tokens before a scale-down and a
      scale-up fill the channel between them: the second send blocks. */
  lemma ReleaseCanBlock()
    ensures Runs(Initial(2, 2, ACTIONS, [0]), BothDecide() + DownAndUp())
    ensures var s := Exec(Initial(2, 2, ACTIONS, [0]), BothDecide() + DownAndUp());
            s.monitor.MIdle? && ReadyToSend(s, 1) && !Enabled(s, Send(1)) && s.live == 3
  {
    BothDecideRuns();
    DownAndUpRuns();
    RunConcat(Initial(2, 2, ACTIONS, [0]), BothDecide(), DownAndUp());
  }

  /** A worker that decided before a scale-down returns its token above the limit. */
  lemma ReturnCanExceedLimit()
    ensures Runs(Initial(2, 2, ACTIONS, [0]), BothDecide() + [Tick(1, [1])])
    ensures var s := Exec(Initial(2, 2, ACTIONS, [0]), BothDecide() + [Tick(1, [1])]);
            Enabled(s, Send(0)) && s.live > s.limit
  {
    var t0 := Tuned(0, 0, 0);
    BothDecideRuns();
    FireStep(2, 0, DECIDED, DECIDED, 0);
    var s := Two(2, 2, 0, DECIDED, DECIDED, MIdle, 0, t0);
    RunCons(s, Tick(1, [1]), []);
    assert [Tick(1, [1])] + [] == [Tick(1, [1])];
    RunConcat(Initial(2, 2, ACTIONS, [0]), BothDecide(), [Tick(1, [1])]);
  }
}
