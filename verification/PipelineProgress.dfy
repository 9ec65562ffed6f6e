/** When the pipeline can stand still: exactly when it has finished, when no token is
    left for a worker that needs one, or when a release blocks on a full channel. */
module PipelineProgress {
  import opened Sums
  import opened PipelineModel
  import opened PipelineStructure
  import opened PipelineWork
  import Throttle = ThrottleModel
  import Atomic = ThrottleAtomic
  import AtomicLimits

  predicate CanStep(cfg: Config, s: State, e: Event) {
    IsPipelineStep(e) && Enabled(cfg, s, e)
  }

  /** Is this a step of worker `f`? */
  predicate IsOf(e: Event, f: int) {
    (e.Work? || e.End?) && e.w == f
  }

  /** A worker at a channel send that has no room. */
  predicate BlockedAtSend(s: State, i: nat) {
    Atomic.ReadyToSend(s.pool.scaler, i) && s.pool.scaler.sem == s.pool.scaler.max
  }

  /** A worker waits for a token, and there is none, in the channel or held. */
  predicate Starved(s: State) {
    && (exists i :: 0 <= i < |s.pool.workers| && s.pool.workers[i].pc.Waiting?)
    && s.pool.scaler.sem == 0 && Atomic.Held(s.pool.scaler) == 0
  }

  /** A release cannot return its token. */
  predicate Jammed(s: State) {
    exists i: nat :: i < |s.pool.workers| && BlockedAtSend(s, i)
  }

  // ---- Some step is enabled, stage by stage ----------------------------------

  /** A bridge that has nothing to do until its channel is written or closed. */
  predicate BridgeWaits(s: State, k: Kind) {
    || s.down.bridges.Get(k).BDone?
    || (s.down.bridges.Get(k).BReceive? && s.down.out.Get(k).items == [] && !s.down.out.Get(k).closed)
  }

  predicate SinksWait(s: State) {
    s.down.writerIn == [] && forall k: Kind :: BridgeWaits(s, k)
  }

  /** Writer and bridges: either one can step, or nothing is held downstream of the
      entity channels and every channel still read is empty. */
  lemma SinksStepOrWait(cfg: Config, s: State) returns (stepped: bool, e: Event)
    requires cfg.writerCap >= 1
    ensures stepped ==> CanStep(cfg, s, e) && e.Sink?
    ensures !stepped ==> SinksWait(s)
  {
    if s.down.writerIn != [] {
      return true, Sink(WriterTake);
    }
    if k: Kind :| s.down.bridges.Get(k).BHolding? {
      return true, Sink(BridgeEnqueue(k));
    }
    if k: Kind :| s.down.bridges.Get(k).BReceive? && s.down.out.Get(k).items != [] {
      return true, Sink(BridgeTake(k));
    }
    if k: Kind :| s.down.bridges.Get(k).BReceive? && s.down.out.Get(k).closed && s.down.out.Get(k).items == [] {
      return true, Sink(BridgeStop(k));
    }
    stepped := false;
    e := Sink(WriterTake);
  }

  /** The entity channels that workers still write to have room. */
  predicate OutputsHaveRoom(cfg: Config, s: State) {
    && (s.up.dispatcher.DDone? || s.down.out.sites.items == [])
    && (s.down.out.users.closed || forall k: Kind :: k != Sites && Active(cfg, k) ==> s.down.out.Get(k).items == [])
  }

  lemma WaitingSinksHaveRoom(cfg: Config, s: State)
    requires Shape(cfg, s) && SinksWait(s)
    ensures OutputsHaveRoom(cfg, s)
  {
    forall k: Kind | Active(cfg, k) && !s.down.out.Get(k).closed ensures s.down.out.Get(k).items == [] {
      assert BridgeWaits(s, k);
    }
    assert Active(cfg, Sites) && s.down.out.sites == s.down.out.Get(Sites);
    assert forall k: Kind :: k != Sites ==> s.down.out.Get(k).closed == s.down.out.users.closed;
  }

  /** A release can always take its next step, but for a send into a full channel. */
  lemma ReleaseStepsOrBlocks(s: State, i: nat) returns (stepped: bool, e: Event)
    requires Tokens(s) && i < |s.pool.workers| && s.pool.workers[i].pc.Releasing?
    ensures stepped ==> e.End? && e.w == i && EndEnabled(s, i, e.ending)
    ensures !stepped ==> BlockedAtSend(s, i)
  {
    assert Coupled(s.pool.workers[i].pc, s.pool.scaler.workers[i].pc);
    stepped := true;
    match s.pool.scaler.workers[i].pc
    case Holding => e := End(i, Release(LoadLive));
    case LoadedLive(_, _) => e := End(i, Release(LoadLimit));
    case LoadedBoth(live, limit, _) =>
      if live > limit {
        e := End(i, Release(Swallow));
      } else {
        e := End(i, Release(Return));
        stepped := s.pool.scaler.sem < s.pool.scaler.max;
      }
  }

  /** With room downstream, a worker that holds a token can step or is blocked. */
  lemma HolderStepsOrBlocks(cfg: Config, s: State, i: nat) returns (stepped: bool, e: Event)
    requires Shape(cfg, s) && OutputsHaveRoom(cfg, s)
    requires i < |s.pool.workers| && !s.pool.scaler.workers[i].pc.Outside?
    ensures stepped ==> CanStep(cfg, s, e) && (e.Work? || e.End?) && e.w == i
    ensures !stepped ==> BlockedAtSend(s, i)
  {
    var x := s.pool.workers[i];
    assert WorkerFits(cfg, s, x) && Coupled(x.pc, s.pool.scaler.workers[i].pc);
    stepped := true;
    match x.pc
    case LookingUp(_) => e := Work(i, LookUp);
    case Fetching(_) => e := Work(i, Fetch);
    case Sending(_, pending) =>
      if pending == [] {
        e := Work(i, Count);
      } else {
        assert KindFits(cfg, x.role, pending[0].kind);
        e := Work(i, Emit);
      }
    case Finishing(_) => e := Work(i, Decrement);
    case Last(_) => e := End(i, Finish);
    case Closing(_) => e := End(i, Complete);
    case Settling(_) => e := End(i, Settle);
    case Failing(_) => e := End(i, CountFailed);
    case Releasing => stepped, e := ReleaseStepsOrBlocks(s, i);
  }

  predicate WaitsForWork(s: State, i: nat)
    requires i < |s.pool.workers|
  {
    var x := s.pool.workers[i];
    x.pc.Exited? || (x.pc.Idle? && QueueOf(s, x.role).items == [] && !QueueOf(s, x.role).closed)
  }

  /** Every worker but `f` waits for work. */
  predicate OthersWait(s: State, f: int) {
    forall i :: 0 <= i < |s.pool.workers| && i != f ==> WaitsForWork(s, i)
  }

  lemma NobodyHolds(s: State)
    requires Tokens(s) && forall i :: 0 <= i < |s.pool.workers| ==> s.pool.scaler.workers[i].pc.Outside?
    ensures Atomic.Held(s.pool.scaler) == 0
  {
    SumZero(s.pool.scaler.workers, Atomic.HoldsToken);
  }

  /** Either a worker other than `f` can step, or the pool is starved or jammed, or
      all of them wait for work. `f`, if there is one, holds no token. */
  lemma WorkersStepOrWait(cfg: Config, s: State, f: int) returns (stepped: bool, e: Event)
    requires Shape(cfg, s) && OutputsHaveRoom(cfg, s)
    requires 0 <= f < |s.pool.workers| ==> s.pool.scaler.workers[f].pc.Outside?
    ensures stepped ==> CanStep(cfg, s, e) && !IsOf(e, f)
    ensures !stepped ==> Starved(s) || Jammed(s) || OthersWait(s, f)
  {
    if i: nat :| i < |s.pool.workers| && !s.pool.scaler.workers[i].pc.Outside? {
      stepped, e := HolderStepsOrBlocks(cfg, s, i);
      return;
    }
    NobodyHolds(s);
    if i: nat :| i < |s.pool.workers| && i != f && s.pool.workers[i].pc.Waiting? {
      assert Coupled(s.pool.workers[i].pc, s.pool.scaler.workers[i].pc);
      stepped, e := s.pool.scaler.sem > 0, Work(i, Acquire);
      return;
    }
    if i: nat :| i < |s.pool.workers| && i != f && s.pool.workers[i].pc.Idle? && QueueOf(s, s.pool.workers[i].role).items != [] {
      return true, Work(i, Take);
    }
    if i: nat :| i < |s.pool.workers| && i != f && s.pool.workers[i].pc.Idle? && QueueOf(s, s.pool.workers[i].role).closed {
      return true, Work(i, Exit);
    }
    stepped, e := false, Sink(WriterTake);
    forall i | 0 <= i < |s.pool.workers| && i != f ensures WaitsForWork(s, i) {
      assert Coupled(s.pool.workers[i].pc, s.pool.scaler.workers[i].pc);
    }
  }

  /** Is there a worker of this role besides `f`? */
  predicate HasOther(ws: seq<Worker>, f: int, role: Role) {
    exists i :: 0 <= i < |ws| && i != f && ws[i].role == role
  }

  predicate PoolsWithout(cfg: Config, s: State, f: int) {
    HasOther(s.pool.workers, f, UserRole) && (cfg.processGroups ==> HasOther(s.pool.workers, f, GroupRole))
  }

  /** A pool that waits for work has taken everything from its queue. */
  lemma QueueIsEmpty(cfg: Config, s: State, f: int, role: Role)
    requires Pools(cfg, s) && OthersWait(s, f) && HasOther(s.pool.workers, f, role)
    ensures QueueOf(s, role).items == []
  {
    var i :| 0 <= i < |s.pool.workers| && i != f && s.pool.workers[i].role == role;
    assert WaitsForWork(s, i) && WorkerFits(cfg, s, s.pool.workers[i]);
  }

  /** Filter and dispatcher: with waiting workers and room for site metadata, one of
      them can step, or the dispatcher is done. */
  lemma SourcesStepOrDone(cfg: Config, s: State, f: int) returns (stepped: bool, e: Event)
    requires Shape(cfg, s) && OutputsHaveRoom(cfg, s) && OthersWait(s, f) && PoolsWithout(cfg, s, f)
    ensures stepped ==> CanStep(cfg, s, e) && (e.Filter? || e.Dispatch?)
    ensures !stepped ==> s.up.dispatcher.DDone?
  {
    QueueIsEmpty(cfg, s, f, UserRole);
    stepped := true;
    match s.up.dispatcher
    case DSites(_) => e := Dispatch(DispatchSite);
    case DUsers(_) => e := Dispatch(DispatchUser);
    case DGroups(_) =>
      QueueIsEmpty(cfg, s, f, GroupRole);
      e := Dispatch(DispatchGroup);
    case DDone => stepped, e := false, Sink(WriterTake);
    case DReceive =>
      if s.up.filtered.items != [] {
        e := Dispatch(DispatchTake);
      } else if s.up.filtered.closed {
        e := Dispatch(DispatchClose);
      } else {
        match s.up.filter
        case FSend(_) => e := Filter(FilterSend);
        case FReceive => e := Filter(if s.up.raw != [] then FilterTake else FilterClose);
      }
  }

  /** All that is left is worker `f`: the others have exited, the sources are done and
      nothing waits downstream. */
  predicate OnlyLeft(s: State, f: int) {
    && s.up.dispatcher.DDone? && SinksWait(s)
    && forall i :: 0 <= i < |s.pool.workers| && i != f ==> s.pool.workers[i].pc.Exited?
  }

  /** Without worker `f`'s help: a step that is not its own is enabled, unless the
      pool is starved or jammed or only `f` is left. */
  lemma ProgressWithout(cfg: Config, s: State, f: int) returns (stepped: bool, e: Event)
    requires cfg.writerCap >= 1 && Shape(cfg, s) && PoolsWithout(cfg, s, f)
    requires 0 <= f < |s.pool.workers| ==> s.pool.scaler.workers[f].pc.Outside?
    ensures stepped ==> CanStep(cfg, s, e) && !IsOf(e, f)
    ensures !stepped ==> Starved(s) || Jammed(s) || OnlyLeft(s, f)
  {
    stepped, e := SinksStepOrWait(cfg, s);
    if stepped { return; }
    WaitingSinksHaveRoom(cfg, s);
    stepped, e := WorkersStepOrWait(cfg, s, f);
    if stepped || Starved(s) || Jammed(s) { return; }
    stepped, e := SourcesStepOrDone(cfg, s, f);
    if stepped { return; }
    forall i | 0 <= i < |s.pool.workers| && i != f ensures s.pool.workers[i].pc.Exited? {
      assert WaitsForWork(s, i) && WorkerFits(cfg, s, s.pool.workers[i]);
    }
  }

  lemma AllRolesPresent(cfg: Config, s: State)
    requires Pools(cfg, s)
    ensures PoolsWithout(cfg, s, -1)
  {
  }

  lemma NobodyLeftIsFinal(cfg: Config, s: State)
    requires Shape(cfg, s) && OnlyLeft(s, -1) && !SinkEnabled(cfg, s, CloseOutputs)
    ensures Final(s)
  {
    assert AllExited(s.pool.workers);
    forall k: Kind ensures s.down.bridges.Get(k).BDone? {
      assert BridgeWaits(s, k);
      assert s.down.out.Get(k).closed;
    }
  }

  /** In a state that is not final, starved or jammed some pipeline step is enabled. */
  lemma Progress(cfg: Config, s: State) returns (e: Event)
    requires cfg.writerCap >= 1 && Shape(cfg, s) && !Final(s) && !Starved(s) && !Jammed(s)
    ensures CanStep(cfg, s, e)
  {
    AllRolesPresent(cfg, s);
    var stepped;
    stepped, e := ProgressWithout(cfg, s, -1);
    if !stepped {
      e := Sink(CloseOutputs);
      if !SinkEnabled(cfg, s, CloseOutputs) {
        NobodyLeftIsFinal(cfg, s);
        assert false;
      }
    }
  }

  // ---- The final state -------------------------------------------------------

  lemma FinalIsEmpty(cfg: Config, s: State)
    requires Shape(cfg, s) && Final(s)
    ensures s.up.raw == [] && s.up.filter.FDone? && s.up.filtered.items == [] && s.up.dispatcher.DDone?
    ensures s.queues.userSites.items == [] && s.queues.groupSites.items == []
    ensures AllExited(s.pool.workers)
    ensures forall k: Kind :: s.down.out.Get(k).items == [] && s.down.bridges.Get(k).BDone?
  {
    assert Active(cfg, Sites) && Active(cfg, Users);
    assert s.down.bridges.Get(Sites).BDone? && s.down.bridges.Get(Users).BDone?;
    assert s.down.out.Get(Sites).closed && s.down.out.Get(Users).closed;
    var i :| 0 <= i < |s.pool.workers| && s.pool.workers[i].role == UserRole;
    assert WorkerFits(cfg, s, s.pool.workers[i]);
    if cfg.processGroups {
      var j :| 0 <= j < |s.pool.workers| && s.pool.workers[j].role == GroupRole;
      assert WorkerFits(cfg, s, s.pool.workers[j]);
    }
    forall k: Kind ensures s.down.out.Get(k).items == [] && s.down.bridges.Get(k).BDone? {
      assert s.down.bridges.Get(k).BDone?;
    }
  }

  // ---- Standing still ----------------------------------------------------------

  /** No pipeline step is enabled, and no tick is in progress. */
  ghost predicate AtRest(cfg: Config, s: State) {
    && s.pool.scaler.monitor.MIdle?
    && forall e :: IsPipelineStep(e) ==> !Enabled(cfg, s, e)
  }

  /** A tick in progress can always go on. */
  lemma TickGoesOn(cfg: Config, s: State) returns (e: Event)
    requires !s.pool.scaler.monitor.MIdle?
    ensures e.Monitor? && Enabled(cfg, s, e)
  {
    match s.pool.scaler.monitor
    case Draining(left) => e := Monitor(if left > 0 then Atomic.Drain else Atomic.FinishTick);
    case Drained(_) => e := Monitor(Atomic.SubtractLive);
    case Adding(left) => e := Monitor(if left > 0 then Atomic.Add else Atomic.FinishTick);
    case Added(_) => e := Monitor(Atomic.AddLive);
  }

  /** At rest the pipeline has finished if and only if it is neither starved nor
      jammed, and it is never both. A starved pool has no live token and a limit
      below the maximum; in a jammed one every worker that holds a token is blocked
      at its send. */
  lemma StandstillExactly(cfg: Config, s: State)
    requires cfg.writerCap >= 1 && Shape(cfg, s) && AtRest(cfg, s)
    ensures Final(s) <==> !Starved(s) && !Jammed(s)
    ensures !(Starved(s) && Jammed(s))
    ensures Starved(s) ==> AtomicLimits.NoTokens(s.pool.scaler) && s.pool.scaler.live == 0 && s.pool.scaler.limit < s.pool.scaler.max
    ensures Jammed(s) ==> forall i: nat :: i < |s.pool.workers| && !s.pool.scaler.workers[i].pc.Outside? ==> BlockedAtSend(s, i)
  {
    if !Final(s) && !Starved(s) && !Jammed(s) {
      var e := Progress(cfg, s);
    }
    if Final(s) {
      FinalIsEmpty(cfg, s);
      assert forall i :: 0 <= i < |s.pool.workers| ==> Coupled(s.pool.workers[i].pc, s.pool.scaler.workers[i].pc);
    }
    RestingHoldersAreBlocked(cfg, s);
    if Jammed(s) {
      var i: nat :| i < |s.pool.workers| && BlockedAtSend(s, i);
      SumMember(s.pool.scaler.workers, i, Atomic.HoldsToken);
    }
  }

  lemma RestingHoldersAreBlocked(cfg: Config, s: State)
    requires cfg.writerCap >= 1 && Shape(cfg, s) && AtRest(cfg, s)
    ensures forall i: nat :: i < |s.pool.workers| && !s.pool.scaler.workers[i].pc.Outside? ==> BlockedAtSend(s, i)
  {
    var stepped, e := SinksStepOrWait(cfg, s);
    assert !stepped;
    WaitingSinksHaveRoom(cfg, s);
    forall i: nat | i < |s.pool.workers| && !s.pool.scaler.workers[i].pc.Outside? ensures BlockedAtSend(s, i) {
      var moved, e' := HolderStepsOrBlocks(cfg, s, i);
      assert moved ==> IsPipelineStep(e') && Enabled(cfg, s, e');
    }
  }

  lemma OnlyTicksAtRest(cfg: Config, s: State)
    requires AtRest(cfg, s)
    ensures forall e :: Enabled(cfg, s, e) ==> e.Monitor? && e.step.Tick?
  {
  }

  /** A starved standstill ends with the first tick that finds every signal cooled
      down, and with no other: it raises the limit, adds a token, and a waiting
      worker can take it. */
  lemma StarvationEndsExactly(cfg: Config, s: State, now: Throttle.Time, counts: seq<int>)
    requires cfg.writerCap >= 1 && Shape(cfg, s) && AtRest(cfg, s) && Starved(s)
    requires Enabled(cfg, s, Monitor(Atomic.Tick(now, counts)))
    ensures forall e :: Enabled(cfg, s, e) ==> e.Monitor? && e.step.Tick?
    ensures var t := ApplyMonitor(s, Atomic.Tick(now, counts));
            && (t.pool.scaler.monitor.Adding? <==> AtomicLimits.CooledDown(s.pool.scaler, now, counts))
            && (t.pool.scaler.monitor.Adding? ==>
                  && MonitorEnabled(t, Atomic.Add)
                  && exists i: nat :: WorkerEnabled(ApplyMonitor(t, Atomic.Add), i, Acquire))
            && (!t.pool.scaler.monitor.Adding? ==> Starved(t))
  {
    OnlyTicksAtRest(cfg, s);
    StandstillExactly(cfg, s);
    AtomicLimits.StarvationEndsExactly(s.pool.scaler, now, counts);
    var i: nat :| i < |s.pool.workers| && s.pool.workers[i].pc.Waiting?;
    assert Coupled(s.pool.workers[i].pc, s.pool.scaler.workers[i].pc);
    var t := ApplyMonitor(s, Atomic.Tick(now, counts));
    if t.pool.scaler.monitor.Adding? {
      assert WorkerEnabled(ApplyMonitor(t, Atomic.Add), i, Acquire);
    } else {
      assert t.pool.workers[i].pc.Waiting?;
    }
  }

  /** What a tick decides, and what it leaves alone. */
  lemma TickDecides(s: Atomic.Atomics, now: Throttle.Time, counts: seq<int>)
    requires Atomic.Inv(s) && Atomic.Enabled(s, Atomic.Tick(now, counts))
    ensures var t := Atomic.Apply(s, Atomic.Tick(now, counts));
            && (t.monitor.Draining? <==> Throttle.AnyFires(s.tuner.signals, counts) && s.limit > 1)
            && (t.monitor.Draining? || t.monitor.Adding? ==> t.monitor.left > 0)
            && t.workers == s.workers && t.sem == s.sem && t.max == s.max
  {
  }

  /** A drain lets a blocked send go on, and an add does not. */
  lemma DrainUnblocks(s: State, i: nat)
    requires Tokens(s) && i < |s.pool.workers| && BlockedAtSend(s, i)
    ensures MonitorEnabled(s, Atomic.Drain) ==> EndEnabled(ApplyMonitor(s, Atomic.Drain), i, Release(Return))
    ensures MonitorEnabled(s, Atomic.Add) ==> BlockedAtSend(ApplyMonitor(s, Atomic.Add), i)
  {
    assert Coupled(s.pool.workers[i].pc, s.pool.scaler.workers[i].pc);
  }

  /** A jammed standstill ends with the first tick that lowers the limit, and with no
      other: its drain makes room for the blocked send. */
  lemma JamEndsExactly(cfg: Config, s: State, now: Throttle.Time, counts: seq<int>)
    requires cfg.writerCap >= 1 && Shape(cfg, s) && AtRest(cfg, s) && Jammed(s)
    requires Enabled(cfg, s, Monitor(Atomic.Tick(now, counts)))
    ensures forall e :: Enabled(cfg, s, e) ==> e.Monitor? && e.step.Tick?
    ensures var t := ApplyMonitor(s, Atomic.Tick(now, counts));
            && (t.pool.scaler.monitor.Draining? <==>
                  Throttle.AnyFires(s.pool.scaler.tuner.signals, counts) && s.pool.scaler.limit > 1)
            && (t.pool.scaler.monitor.Draining? ==>
                  && MonitorEnabled(t, Atomic.Drain)
                  && exists i: nat :: EndEnabled(ApplyMonitor(t, Atomic.Drain), i, Release(Return)))
            && (!t.pool.scaler.monitor.Draining? ==> Jammed(t))
            && (t.pool.scaler.monitor.Adding? ==> MonitorEnabled(t, Atomic.Add) && Jammed(ApplyMonitor(t, Atomic.Add)))
  {
    OnlyTicksAtRest(cfg, s);
    var i: nat :| i < |s.pool.workers| && BlockedAtSend(s, i);
    var t := ApplyMonitor(s, Atomic.Tick(now, counts));
    TickDecides(s.pool.scaler, now, counts);
    assert Tokens(t) by { MonitorStepKeepsShape(cfg, s, Atomic.Tick(now, counts)); }
    assert BlockedAtSend(t, i);
    DrainUnblocks(t, i);
  }

  // ---- Whole runs --------------------------------------------------------------

  /** A run takes a bounded number of pipeline steps, up to a fixed number more for each
      change of the live tokens by the monitor. */
  lemma StepsAreBounded(cfg: Config, s0: State, es: seq<Event>)
    requires Shape(cfg, s0) && Runs(cfg, s0, es)
    ensures var r := 3 * |s0.pool.workers| + 1;
            PipelineSteps(es) <= Remaining(cfg, r, s0) + r * LiveMoves(es)
  {
    var r := 3 * |s0.pool.workers| + 1;
    RunUsesWork(cfg, r, s0, es);
    MonitorAddsPerMove(r, es);
  }

  /** However the goroutines interleave, down to the scaler's single operations: where
      the pipeline comes to rest it has finished if and only if it is neither starved
      nor jammed, and once finished it stays at rest. With `StepsAreBounded`: it does
      come to rest as soon as the monitor leaves the live tokens alone. */
  lemma AlwaysDrains(cfg: Config, raw: seq<Site>, userWorkers: nat, groupWorkers: nat,
                     signals: seq<(Throttle.ScaleAction, int)>, counts: seq<int>, es: seq<Event>)
    requires cfg.writerCap >= 1
    requires |counts| == |signals| && userWorkers >= 1 && (cfg.processGroups ==> groupWorkers >= 1)
    requires Runs(cfg, Initial(cfg, raw, userWorkers, groupWorkers, signals, counts), es)
    ensures var s0 := Initial(cfg, raw, userWorkers, groupWorkers, signals, counts);
            var s := Exec(cfg, s0, es);
            && (AtRest(cfg, s) ==> (Final(s) <==> !Starved(s) && !Jammed(s)))
            && (Final(s) ==> forall e :: IsPipelineStep(e) ==> !Enabled(cfg, s, e))
  {
    var s0 := Initial(cfg, raw, userWorkers, groupWorkers, signals, counts);
    InitialShape(cfg, raw, userWorkers, groupWorkers, signals, counts);
    RunKeepsShape(cfg, s0, es);
    StopsExactly(cfg, Exec(cfg, s0, es));
  }

  lemma StopsExactly(cfg: Config, s: State)
    requires cfg.writerCap >= 1 && Shape(cfg, s)
    ensures AtRest(cfg, s) ==> (Final(s) <==> !Starved(s) && !Jammed(s))
    ensures Final(s) ==> forall e :: IsPipelineStep(e) ==> !Enabled(cfg, s, e)
  {
    if AtRest(cfg, s) {
      StandstillExactly(cfg, s);
    }
    if Final(s) {
      FinalIsStill(cfg, s);
    }
  }

  lemma FinalIsStill(cfg: Config, s: State)
    requires Shape(cfg, s) && Final(s)
    ensures forall e :: IsPipelineStep(e) ==> !Enabled(cfg, s, e)
  {
    FinalIsEmpty(cfg, s);
    assert s.down.bridges.Get(Users).BDone? && Active(cfg, Users);
    assert s.down.out.Get(Users).closed;
  }
}
