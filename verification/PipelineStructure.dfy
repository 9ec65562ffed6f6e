/** The shape of every reachable pipeline state: which stage is closed, who holds
    a scaler token, and that closing cascades from left to right. */
module PipelineStructure {
  import opened PipelineModel
  import Throttle = ThrottleModel
  import Atomic = ThrottleAtomic

  /** Where a worker stands in the pipeline and in the scaler. */
  predicate Coupled(pc: Pc, at: Atomic.Pc) {
    if pc.Idle? || pc.Waiting? || pc.Exited? then at.Outside?
    else if pc.Releasing? then !at.Outside?
    else at.Holding?
  }

  predicate KindFits(cfg: Config, role: Role, k: Kind) {
    Active(cfg, k) && (if role.UserRole? then k == Users else k == Groups || k == Members)
  }

  predicate PendingFits(cfg: Config, role: Role, pending: seq<Out>) {
    forall i :: 0 <= i < |pending| ==> KindFits(cfg, role, pending[i].kind)
  }

  predicate WorkerFits(cfg: Config, s: State, w: Worker) {
    && (w.role.GroupRole? ==> cfg.processGroups)
    && (w.pc.Sending? ==> PendingFits(cfg, w.role, w.pc.pending))
    && (w.pc.Exited? ==> QueueOf(s, w.role).closed && QueueOf(s, w.role).items == [])
  }

  predicate HasWorker(ws: seq<Worker>, role: Role) {
    exists i :: 0 <= i < |ws| && ws[i].role == role
  }

  ghost predicate Tokens(s: State) {
    && Atomic.Inv(s.pool.scaler)
    && |s.pool.scaler.workers| == |s.pool.workers|
    && forall i :: 0 <= i < |s.pool.workers| ==> Coupled(s.pool.workers[i].pc, s.pool.scaler.workers[i].pc)
  }

  ghost predicate Upstream(cfg: Config, s: State) {
    && (s.up.filter.FDone? <==> s.up.filtered.closed)
    && (s.up.filter.FDone? ==> s.up.raw == [])
    && (s.up.dispatcher.DDone? <==> s.queues.userSites.closed)
    && (s.up.dispatcher.DDone? <==> s.queues.groupSites.closed)
    && (s.up.dispatcher.DDone? <==> s.down.out.sites.closed)
    && (s.up.dispatcher.DDone? ==> s.up.filtered.closed && s.up.filtered.items == [])
    && (s.up.dispatcher.DGroups? ==> cfg.processGroups)
    && (!cfg.processGroups ==> s.queues.groupSites.items == [])
  }

  ghost predicate Pools(cfg: Config, s: State) {
    && HasWorker(s.pool.workers, UserRole)
    && (cfg.processGroups ==> HasWorker(s.pool.workers, GroupRole))
    && forall i :: 0 <= i < |s.pool.workers| ==> WorkerFits(cfg, s, s.pool.workers[i])
  }

  ghost predicate Downstream(cfg: Config, s: State) {
    && s.down.out.users.closed == s.down.out.groups.closed == s.down.out.members.closed
    && (s.down.out.users.closed ==> forall i :: 0 <= i < |s.pool.workers| ==> s.pool.workers[i].pc.Exited?)
    && (forall k: Kind :: !Active(cfg, k) ==> s.down.bridges.Get(k).BDone? && s.down.out.Get(k).items == [])
    && (forall k: Kind :: Active(cfg, k) && s.down.bridges.Get(k).BDone? ==> s.down.out.Get(k).closed && s.down.out.Get(k).items == [])
  }

  ghost predicate Shape(cfg: Config, s: State) {
    Tokens(s) && Upstream(cfg, s) && Pools(cfg, s) && Downstream(cfg, s)
  }

  lemma OutsFit(cfg: Config, role: Role, site: Site)
    requires role.GroupRole? ==> cfg.processGroups
    ensures PendingFits(cfg, role, OutsOf(cfg, role, site))
  {
  }

  /** Of the pool, `t` differs from `s` at most in worker `w` and its place in the
      scaler; sources, bridges and history of dispatches are the same, and no channel
      has been closed. */
  ghost predicate OnlyWorker(s: State, t: State, w: nat) {
    && w < |s.pool.workers| == |t.pool.workers|
    && t.pool.workers == s.pool.workers[w := t.pool.workers[w]]
    && t.pool.workers[w].role == s.pool.workers[w].role
    && t.up == s.up
    && t.down == s.down.(out := t.down.out)
    && t.book.dispatched == s.book.dispatched
    && t.queues.userSites.closed == s.queues.userSites.closed
    && t.queues.groupSites.closed == s.queues.groupSites.closed
    && (forall k: Kind :: t.down.out.Get(k).closed == s.down.out.Get(k).closed)
  }

  /** A worker step touches only its own worker, keeps its role, and leaves the
      other stages' control state alone. */
  lemma WorkerStepFrame(cfg: Config, s: State, w: nat, act: WorkerAct)
    requires WorkerEnabled(s, w, act)
    ensures var t := ApplyWorker(cfg, s, w, act);
            && OnlyWorker(s, t, w)
            && (!act.Take? ==> t.queues == s.queues)
            && (!act.Emit? ==> t.down == s.down)
            && (!act.Acquire? ==> t.pool.scaler == s.pool.scaler)
  {
  }

  lemma EndFrame(s: State, w: nat, ending: EndAct)
    requires EndEnabled(s, w, ending)
    ensures var t := ApplyEnd(s, w, ending);
            && OnlyWorker(s, t, w) && t.queues == s.queues && t.down == s.down
            && (ending.Release? ==>
                  t.pool.scaler == Atomic.Apply(s.pool.scaler, ReleaseStep(w, ending.op)) && t.book == s.book)
            && (!ending.Release? ==> t.pool.scaler == s.pool.scaler)
  {
  }

  lemma EndPc(s: State, w: nat, ending: EndAct)
    requires EndEnabled(s, w, ending)
    ensures var pc := ApplyEnd(s, w, ending).pool.workers[w].pc;
            && !pc.Exited? && !pc.Waiting? && !pc.Sending?
            && (pc.Idle? ==> ending.Release?)
  {
  }

  lemma FilterFrame(cfg: Config, s: State, f: FilterAct)
    requires FilterEnabled(s, f)
    ensures var t := ApplyFilter(cfg, s, f);
            && t == s.(up := t.up, book := t.book)
            && t.up.dispatcher == s.up.dispatcher
            && t.book == s.book.(counters := s.book.counters.(skipTemplate := t.book.counters.skipTemplate,
                                                              skipTenantRoot := t.book.counters.skipTenantRoot))
  {
  }

  lemma DispatchFrame(cfg: Config, s: State, d: DispatchAct)
    requires DispatchEnabled(s, d)
    ensures var t := ApplyDispatch(cfg, s, d);
            && t.pool == s.pool && t.down == s.down.(out := t.down.out)
            && (!d.DispatchTake? ==> t.book == s.book && t.up == s.up.(dispatcher := t.up.dispatcher))
  {
  }

  lemma SinkFrame(cfg: Config, s: State, x: SinkAct)
    requires SinkEnabled(cfg, s, x)
    ensures ApplySink(cfg, s, x) == s.(down := ApplySink(cfg, s, x).down)
  {
  }

  // ---- Tokens ----------------------------------------------------------------

  lemma WorkerStepKeepsTokens(cfg: Config, s: State, w: nat, act: WorkerAct)
    requires Tokens(s) && WorkerEnabled(s, w, act)
    ensures Tokens(ApplyWorker(cfg, s, w, act))
  {
    assert Coupled(s.pool.workers[w].pc, s.pool.scaler.workers[w].pc);
    if act.Acquire? {
      Atomic.StepKeepsInv(s.pool.scaler, Atomic.Acquire(w));
      Atomic.StepFrame(s.pool.scaler, Atomic.Acquire(w));
    } else {
      WorkerStepFrame(cfg, s, w, act);
    }
  }

  lemma ReleaseKeepsTokens(s: State, w: nat, op: ReleaseOp)
    requires Tokens(s) && EndEnabled(s, w, Release(op))
    ensures Tokens(ReleaseOn(s, w, op))
  {
    Atomic.StepKeepsInv(s.pool.scaler, ReleaseStep(w, op));
    Atomic.StepFrame(s.pool.scaler, ReleaseStep(w, op));
  }

  lemma EndStepKeepsTokens(s: State, w: nat, ending: EndAct)
    requires Tokens(s) && EndEnabled(s, w, ending)
    ensures Tokens(ApplyEnd(s, w, ending))
  {
    if ending.Release? {
      ReleaseKeepsTokens(s, w, ending.op);
    } else {
      EndFrame(s, w, ending);
      EndPc(s, w, ending);
      assert Coupled(s.pool.workers[w].pc, s.pool.scaler.workers[w].pc);
    }
  }

  // ---- Pools -----------------------------------------------------------------

  lemma RolesKept(ws: seq<Worker>, i: nat, w: Worker, role: Role)
    requires i < |ws| && w.role == ws[i].role && HasWorker(ws, role)
    ensures HasWorker(ws[i := w], role)
  {
    var j :| 0 <= j < |ws| && ws[j].role == role;
    assert ws[i := w][j].role == role;
  }

  /** The pools fit after a step of one worker if that worker's new place fits. */
  lemma PoolsAfterMove(cfg: Config, s: State, t: State, w: nat)
    requires Pools(cfg, s) && OnlyWorker(s, t, w)
    requires forall role: Role :: QueueOf(s, role).items == [] ==> QueueOf(t, role).items == []
    requires t.pool.workers[w].pc.Sending? ==> PendingFits(cfg, t.pool.workers[w].role, t.pool.workers[w].pc.pending)
    requires t.pool.workers[w].pc.Exited? ==>
               QueueOf(s, t.pool.workers[w].role).closed && QueueOf(s, t.pool.workers[w].role).items == []
    ensures Pools(cfg, t)
  {
    assert WorkerFits(cfg, s, s.pool.workers[w]);
    RolesKept(s.pool.workers, w, t.pool.workers[w], UserRole);
    if cfg.processGroups {
      RolesKept(s.pool.workers, w, t.pool.workers[w], GroupRole);
    }
    forall i | 0 <= i < |t.pool.workers| ensures WorkerFits(cfg, t, t.pool.workers[i]) {
      assert WorkerFits(cfg, s, s.pool.workers[i]);
    }
  }

  lemma WorkerStepKeepsPools(cfg: Config, s: State, w: nat, act: WorkerAct)
    requires Pools(cfg, s) && WorkerEnabled(s, w, act)
    ensures Pools(cfg, ApplyWorker(cfg, s, w, act))
  {
    WorkerStepFrame(cfg, s, w, act);
    NewPcFits(cfg, s, w, act);
    PoolsAfterMove(cfg, s, ApplyWorker(cfg, s, w, act), w);
  }

  lemma NewPcFits(cfg: Config, s: State, w: nat, act: WorkerAct)
    requires WorkerEnabled(s, w, act) && Pools(cfg, s)
    ensures var t := ApplyWorker(cfg, s, w, act);
            var x := t.pool.workers[w];
            && (x.pc.Sending? ==> PendingFits(cfg, x.role, x.pc.pending))
            && (x.pc.Exited? ==> act.Exit?)
            && forall role: Role :: QueueOf(s, role).items == [] ==> QueueOf(t, role).items == []
  {
    assert WorkerFits(cfg, s, s.pool.workers[w]);
    if act.Fetch? {
      OutsFit(cfg, s.pool.workers[w].role, s.pool.workers[w].pc.site);
    }
  }

  lemma EndStepKeepsPools(cfg: Config, s: State, w: nat, ending: EndAct)
    requires Pools(cfg, s) && EndEnabled(s, w, ending)
    ensures Pools(cfg, ApplyEnd(s, w, ending))
  {
    EndFrame(s, w, ending);
    EndPc(s, w, ending);
    PoolsAfterMove(cfg, s, ApplyEnd(s, w, ending), w);
  }

  /** The pools fit as long as workers, and empty queues, stay as they are. */
  lemma PoolsKept(cfg: Config, s: State, t: State)
    requires Pools(cfg, s) && t.pool.workers == s.pool.workers
    requires forall role: Role :: QueueOf(s, role).closed && QueueOf(s, role).items == [] ==>
                                    QueueOf(t, role).closed && QueueOf(t, role).items == []
    ensures Pools(cfg, t)
  {
    forall i | 0 <= i < |t.pool.workers| ensures WorkerFits(cfg, t, t.pool.workers[i]) {
      assert WorkerFits(cfg, s, s.pool.workers[i]);
    }
  }

  // ---- Every step keeps the shape --------------------------------------------

  lemma WorkerStepKeepsRest(cfg: Config, s: State, w: nat, act: WorkerAct)
    requires Upstream(cfg, s) && Pools(cfg, s) && Downstream(cfg, s) && WorkerEnabled(s, w, act)
    ensures Upstream(cfg, ApplyWorker(cfg, s, w, act)) && Downstream(cfg, ApplyWorker(cfg, s, w, act))
  {
    WorkerStepFrame(cfg, s, w, act);
    var x := s.pool.workers[w];
    assert WorkerFits(cfg, s, x);
    if act.Emit? {
      assert KindFits(cfg, x.role, x.pc.pending[0].kind);
    }
  }

  lemma WorkerStepKeepsShape(cfg: Config, s: State, w: nat, act: WorkerAct)
    requires Shape(cfg, s) && WorkerEnabled(s, w, act)
    ensures Shape(cfg, ApplyWorker(cfg, s, w, act))
  {
    WorkerStepKeepsTokens(cfg, s, w, act);
    WorkerStepKeepsPools(cfg, s, w, act);
    WorkerStepKeepsRest(cfg, s, w, act);
  }

  lemma EndStepKeepsShape(cfg: Config, s: State, w: nat, ending: EndAct)
    requires Shape(cfg, s) && EndEnabled(s, w, ending)
    ensures Shape(cfg, ApplyEnd(s, w, ending))
  {
    EndStepKeepsTokens(s, w, ending);
    EndStepKeepsPools(cfg, s, w, ending);
    EndFrame(s, w, ending);
    EndPc(s, w, ending);
  }

  lemma FilterStepKeepsShape(cfg: Config, s: State, f: FilterAct)
    requires Shape(cfg, s) && FilterEnabled(s, f)
    ensures Shape(cfg, ApplyFilter(cfg, s, f))
  {
    FilterFrame(cfg, s, f);
    PoolsKept(cfg, s, ApplyFilter(cfg, s, f));
  }

  lemma DispatchStepKeepsShape(cfg: Config, s: State, d: DispatchAct)
    requires Shape(cfg, s) && DispatchEnabled(s, d)
    ensures Shape(cfg, ApplyDispatch(cfg, s, d))
  {
    DispatchFrame(cfg, s, d);
    PoolsKept(cfg, s, ApplyDispatch(cfg, s, d));
  }

  lemma SinkStepKeepsDownstream(cfg: Config, s: State, x: SinkAct)
    requires Downstream(cfg, s) && SinkEnabled(cfg, s, x)
    ensures Downstream(cfg, ApplySink(cfg, s, x))
  {
  }

  lemma SinkStepKeepsShape(cfg: Config, s: State, x: SinkAct)
    requires Shape(cfg, s) && SinkEnabled(cfg, s, x)
    ensures Shape(cfg, ApplySink(cfg, s, x))
  {
    SinkFrame(cfg, s, x);
    SinkStepKeepsDownstream(cfg, s, x);
    PoolsKept(cfg, s, ApplySink(cfg, s, x));
    assert ApplySink(cfg, s, x).down.out.sites.closed == s.down.out.sites.closed;
  }

  lemma MonitorStepKeepsShape(cfg: Config, s: State, step: Atomic.Event)
    requires Shape(cfg, s) && MonitorEnabled(s, step)
    ensures Shape(cfg, ApplyMonitor(s, step))
  {
    Atomic.StepKeepsInv(s.pool.scaler, step);
    Atomic.StepFrame(s.pool.scaler, step);
    PoolsKept(cfg, s, ApplyMonitor(s, step));
  }

  lemma StepKeepsShape(cfg: Config, s: State, e: Event)
    requires Shape(cfg, s) && Enabled(cfg, s, e)
    ensures Shape(cfg, Apply(cfg, s, e))
  {
    match e
    case Work(w, act) => WorkerStepKeepsShape(cfg, s, w, act);
    case End(w, ending) => EndStepKeepsShape(cfg, s, w, ending);
    case Filter(f) => FilterStepKeepsShape(cfg, s, f);
    case Dispatch(d) => DispatchStepKeepsShape(cfg, s, d);
    case Sink(x) => SinkStepKeepsShape(cfg, s, x);
    case Monitor(step) => MonitorStepKeepsShape(cfg, s, step);
  }

  lemma InitialShape(cfg: Config, raw: seq<Site>, userWorkers: nat, groupWorkers: nat,
                     signals: seq<(Throttle.ScaleAction, int)>, counts: seq<int>)
    requires |counts| == |signals| && userWorkers >= 1 && (cfg.processGroups ==> groupWorkers >= 1)
    ensures Shape(cfg, Initial(cfg, raw, userWorkers, groupWorkers, signals, counts))
  {
    var pool := StartPool(cfg, userWorkers, groupWorkers);
    Atomic.InitialInv(|pool|, |pool|, signals, counts);
    assert pool[0].role == UserRole;
    if cfg.processGroups {
      assert pool[userWorkers].role == GroupRole;
    }
  }
}
