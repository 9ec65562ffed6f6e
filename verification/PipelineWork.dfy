/** Termination of the pipeline: every step but the scaler's monitor's uses up
    remaining work, and only a change of the live tokens by the monitor adds to it. */
module PipelineWork {
  import opened PipelineModel
  import opened PipelineStructure
  import Atomic = ThrottleAtomic
  import AtomicRetries

  /** An entity's remaining steps: channel, bridge, writer. */
  const ENTITY_WORK: nat := 3

  /** A queued site's remaining steps in one worker. */
  function RoleWork(cfg: Config, r: nat, role: Role, site: Site): nat {
    13 + r + 4 * |OutsOf(cfg, role, site)|
  }

  function DispatchWork(cfg: Config, r: nat, site: Site): nat {
    ENTITY_WORK + 1 + RoleWork(cfg, r, UserRole, site) + 1
    + (if cfg.processGroups then RoleWork(cfg, r, GroupRole, site) + 1 else 0)
  }

  function SitesWork(cfg: Config, r: nat, sites: seq<Site>, each: nat): nat {
    if sites == [] then 0 else DispatchWork(cfg, r, sites[0]) + each + SitesWork(cfg, r, sites[1..], each)
  }

  function QueueWork(cfg: Config, r: nat, role: Role, sites: seq<Site>): nat {
    if sites == [] then 0 else RoleWork(cfg, r, role, sites[0]) + QueueWork(cfg, r, role, sites[1..])
  }

  function PcWork(cfg: Config, r: nat, w: Worker): nat {
    match w.pc
    case Exited => 0
    case Idle => 1
    case Releasing => 1 + r
    case Failing(_) => 2 + r
    case Settling(_) => 3 + r
    case Closing(_) => 4 + r
    case Last(_) => 5 + r
    case Finishing(_) => 6 + r
    case Sending(_, pending) => 7 + r + 4 * |pending|
    case Fetching(site) => 8 + r + 4 * |OutsOf(cfg, w.role, site)|
    case LookingUp(site) => 9 + r + 4 * |OutsOf(cfg, w.role, site)|
    case Waiting(site) => 13 + r + 4 * |OutsOf(cfg, w.role, site)|
  }

  function PoolWork(cfg: Config, r: nat, ws: seq<Worker>): nat {
    if ws == [] then 0 else PcWork(cfg, r, ws[0]) + PoolWork(cfg, r, ws[1..])
  }

  function FilterWork(cfg: Config, r: nat, f: FilterPc): nat {
    match f
    case FDone => 0
    case FReceive => 1
    case FSend(site) => 1 + DispatchWork(cfg, r, site) + 2
  }

  function DispatcherWork(cfg: Config, r: nat, d: DispatchPc): nat {
    match d
    case DDone => 0
    case DReceive => 1
    case DGroups(site) => 1 + RoleWork(cfg, r, GroupRole, site) + 1
    case DUsers(site) =>
      1 + RoleWork(cfg, r, UserRole, site) + 1 + (if cfg.processGroups then RoleWork(cfg, r, GroupRole, site) + 1 else 0)
    case DSites(site) => 1 + DispatchWork(cfg, r, site)
  }

  function BridgeWork(b: BridgePc): nat {
    match b
    case BDone => 0
    case BReceive => 1
    case BHolding(_) => 3
  }

  function SinkWork(s: State, k: Kind): nat {
    3 * |s.down.out.Get(k).items| + BridgeWork(s.down.bridges.Get(k))
  }

  function SinksWork(s: State): nat {
    SinkWork(s, Sites) + SinkWork(s, Users) + SinkWork(s, Groups) + SinkWork(s, Members)
  }

  function SourceWork(cfg: Config, r: nat, s: State): nat {
    SitesWork(cfg, r, s.up.raw, 3) + FilterWork(cfg, r, s.up.filter) + SitesWork(cfg, r, s.up.filtered.items, 1)
    + DispatcherWork(cfg, r, s.up.dispatcher)
  }

  /** All the steps the pipeline can still take while `live` does not change; `r` is
      what is set aside for each release, which may send the others round again. */
  function Remaining(cfg: Config, r: nat, s: State): nat {
    SourceWork(cfg, r, s)
    + QueueWork(cfg, r, UserRole, s.queues.userSites.items) + QueueWork(cfg, r, GroupRole, s.queues.groupSites.items)
    + PoolWork(cfg, r, s.pool.workers)
    + (if s.down.out.users.closed then 0 else 1)
    + SinksWork(s)
    + |s.down.writerIn|
    + AtomicRetries.Retries(s.pool.scaler)
  }

  lemma {:induction false} PoolWorkUpdate(cfg: Config, r: nat, ws: seq<Worker>, i: nat, w: Worker)
    requires i < |ws|
    ensures PoolWork(cfg, r, ws[i := w]) + PcWork(cfg, r, ws[i]) == PoolWork(cfg, r, ws) + PcWork(cfg, r, w)
  {
    if i == 0 {
      assert ws[i := w][1..] == ws[1..];
    } else {
      assert ws[i := w][1..] == ws[1..][i - 1 := w];
      PoolWorkUpdate(cfg, r, ws[1..], i - 1, w);
    }
  }

  lemma {:induction false} QueueWorkPut(cfg: Config, r: nat, role: Role, sites: seq<Site>, site: Site)
    ensures QueueWork(cfg, r, role, sites + [site]) == QueueWork(cfg, r, role, sites) + RoleWork(cfg, r, role, site)
  {
    if sites == [] {
      assert sites + [site] == [site];
    } else {
      assert (sites + [site])[1..] == sites[1..] + [site];
      QueueWorkPut(cfg, r, role, sites[1..], site);
    }
  }

  lemma {:induction false} SitesWorkPut(cfg: Config, r: nat, sites: seq<Site>, each: nat, site: Site)
    ensures SitesWork(cfg, r, sites + [site], each) == SitesWork(cfg, r, sites, each) + DispatchWork(cfg, r, site) + each
  {
    if sites == [] {
      assert sites + [site] == [site];
    } else {
      assert (sites + [site])[1..] == sites[1..] + [site];
      SitesWorkPut(cfg, r, sites[1..], each, site);
    }
  }

  lemma OneSinkChanges(s: State, t: State, k: Kind)
    requires forall j: Kind :: j != k ==> SinkWork(t, j) == SinkWork(s, j)
    ensures SinksWork(t) + SinkWork(s, k) == SinksWork(s) + SinkWork(t, k)
  {
  }

  lemma FetchShortensPc(cfg: Config, r: nat, s: State, w: nat)
    requires WorkerEnabled(s, w, Fetch)
    ensures PcWork(cfg, r, FetchSite(cfg, s, w).pool.workers[w]) < PcWork(cfg, r, s.pool.workers[w])
  {
    var pc := FetchSite(cfg, s, w).pool.workers[w].pc;
    assert pc.Finishing? || (pc.Sending? && pc.pending == OutsOf(cfg, s.pool.workers[w].role, s.pool.workers[w].pc.site));
  }

  /** What a step other than a take does to that worker's remaining work. */
  lemma PcWorkChange(cfg: Config, r: nat, s: State, w: nat, act: WorkerAct)
    requires WorkerEnabled(s, w, act) && !act.Take?
    ensures var x, x' := s.pool.workers[w], ApplyWorker(cfg, s, w, act).pool.workers[w];
            && PcWork(cfg, r, x') < PcWork(cfg, r, x)
            && (act.Emit? || act.Acquire? ==> PcWork(cfg, r, x') + 4 == PcWork(cfg, r, x))
  {
    if act.Fetch? {
      FetchShortensPc(cfg, r, s, w);
    }
  }

  /** A step that only moves a worker and the scaler. */
  lemma MoveWork(cfg: Config, r: nat, s: State, t: State, w: nat)
    requires OnlyWorker(s, t, w) && t.queues == s.queues && t.down == s.down
    ensures Remaining(cfg, r, t) + PcWork(cfg, r, s.pool.workers[w]) + AtomicRetries.Retries(s.pool.scaler)
         == Remaining(cfg, r, s) + PcWork(cfg, r, t.pool.workers[w]) + AtomicRetries.Retries(t.pool.scaler)
  {
    PoolWorkUpdate(cfg, r, s.pool.workers, w, t.pool.workers[w]);
  }

  lemma TakeUsesWork(cfg: Config, r: nat, s: State, w: nat)
    requires WorkerEnabled(s, w, Take)
    ensures Remaining(cfg, r, TakeSite(s, w)) < Remaining(cfg, r, s)
  {
    var t := TakeSite(s, w);
    var x := s.pool.workers[w];
    assert PcWork(cfg, r, t.pool.workers[w]) == RoleWork(cfg, r, x.role, QueueOf(s, x.role).items[0]);
    assert t.pool.workers == s.pool.workers[w := t.pool.workers[w]];
    PoolWorkUpdate(cfg, r, s.pool.workers, w, t.pool.workers[w]);
    assert QueueWork(cfg, r, x.role, QueueOf(t, x.role).items) + RoleWork(cfg, r, x.role, QueueOf(s, x.role).items[0])
        == QueueWork(cfg, r, x.role, QueueOf(s, x.role).items);
  }

  lemma EmitUsesWork(cfg: Config, r: nat, s: State, w: nat)
    requires WorkerEnabled(s, w, Emit)
    ensures Remaining(cfg, r, EmitOne(s, w)) < Remaining(cfg, r, s)
  {
    var t := EmitOne(s, w);
    var k := s.pool.workers[w].pc.pending[0].kind;
    WorkerStepFrame(cfg, s, w, Emit);
    PcWorkChange(cfg, r, s, w, Emit);
    PoolWorkUpdate(cfg, r, s.pool.workers, w, t.pool.workers[w]);
    assert SinkWork(t, k) == SinkWork(s, k) + 3;
    OneSinkChanges(s, t, k);
    assert s.down.out.Get(Users) == s.down.out.users && t.down.out.Get(Users) == t.down.out.users;
  }

  lemma AcquireUsesWork(cfg: Config, r: nat, s: State, w: nat)
    requires Tokens(s) && WorkerEnabled(s, w, Acquire)
    ensures Remaining(cfg, r, ApplyWorker(cfg, s, w, Acquire)) < Remaining(cfg, r, s)
  {
    WorkerStepFrame(cfg, s, w, Acquire);
    PcWorkChange(cfg, r, s, w, Acquire);
    AtomicRetries.StepRetries(s.pool.scaler, Atomic.Acquire(w));
    MoveWork(cfg, r, s, ApplyWorker(cfg, s, w, Acquire), w);
  }

  lemma WorkerStepUsesWork(cfg: Config, r: nat, s: State, w: nat, act: WorkerAct)
    requires Tokens(s) && WorkerEnabled(s, w, act)
    ensures Remaining(cfg, r, ApplyWorker(cfg, s, w, act)) < Remaining(cfg, r, s)
  {
    if act.Take? {
      TakeUsesWork(cfg, r, s, w);
    } else if act.Emit? {
      EmitUsesWork(cfg, r, s, w);
    } else if act.Acquire? {
      AcquireUsesWork(cfg, r, s, w);
    } else {
      WorkerStepFrame(cfg, s, w, act);
      PcWorkChange(cfg, r, s, w, act);
      MoveWork(cfg, r, s, ApplyWorker(cfg, s, w, act), w);
    }
  }

  /** A release step shortens the retries, or leaves the scaler and with it all that
      was set aside. */
  lemma ReleaseUsesWork(cfg: Config, r: nat, s: State, w: nat, op: ReleaseOp)
    requires Tokens(s) && EndEnabled(s, w, Release(op)) && 3 * |s.pool.workers| < r
    ensures Remaining(cfg, r, ReleaseOn(s, w, op)) < Remaining(cfg, r, s)
  {
    EndFrame(s, w, Release(op));
    AtomicRetries.StepRetries(s.pool.scaler, ReleaseStep(w, op));
    MoveWork(cfg, r, s, ReleaseOn(s, w, op), w);
  }

  lemma SettlingShortensPc(cfg: Config, r: nat, s: State, w: nat, ending: EndAct)
    requires EndEnabled(s, w, ending) && !ending.Release?
    ensures PcWork(cfg, r, ApplyEnd(s, w, ending).pool.workers[w]) < PcWork(cfg, r, s.pool.workers[w])
  {
  }

  lemma EndStepUsesWork(cfg: Config, r: nat, s: State, w: nat, ending: EndAct)
    requires Tokens(s) && EndEnabled(s, w, ending) && 3 * |s.pool.workers| < r
    ensures Remaining(cfg, r, ApplyEnd(s, w, ending)) < Remaining(cfg, r, s)
  {
    if ending.Release? {
      ReleaseUsesWork(cfg, r, s, w, ending.op);
    } else {
      EndFrame(s, w, ending);
      SettlingShortensPc(cfg, r, s, w, ending);
      MoveWork(cfg, r, s, ApplyEnd(s, w, ending), w);
    }
  }

  lemma FilterStepUsesWork(cfg: Config, r: nat, s: State, f: FilterAct)
    requires FilterEnabled(s, f)
    ensures Remaining(cfg, r, ApplyFilter(cfg, s, f)) < Remaining(cfg, r, s)
  {
    FilterFrame(cfg, s, f);
    if f.FilterSend? {
      SitesWorkPut(cfg, r, s.up.filtered.items, 1, s.up.filter.site);
    }
  }

  lemma DispatchStepUsesWork(cfg: Config, r: nat, s: State, d: DispatchAct)
    requires DispatchEnabled(s, d)
    ensures Remaining(cfg, r, ApplyDispatch(cfg, s, d)) < Remaining(cfg, r, s)
  {
    DispatchFrame(cfg, s, d);
    if d.DispatchUser? {
      QueueWorkPut(cfg, r, UserRole, s.queues.userSites.items, s.up.dispatcher.site);
    } else if d.DispatchGroup? {
      QueueWorkPut(cfg, r, GroupRole, s.queues.groupSites.items, s.up.dispatcher.site);
    }
    var t := ApplyDispatch(cfg, s, d);
    assert forall k: Kind :: k != Sites ==> SinkWork(t, k) == SinkWork(s, k);
  }

  lemma BridgeStepUsesWork(cfg: Config, r: nat, s: State, x: SinkAct)
    requires SinkEnabled(cfg, s, x) && (x.BridgeTake? || x.BridgeEnqueue? || x.BridgeStop?)
    ensures Remaining(cfg, r, ApplySink(cfg, s, x)) < Remaining(cfg, r, s)
  {
    var t := ApplySink(cfg, s, x);
    SinkFrame(cfg, s, x);
    assert forall j: Kind :: j != x.k ==> t.down.out.Get(j) == s.down.out.Get(j) && t.down.bridges.Get(j) == s.down.bridges.Get(j);
    assert SinkWork(t, x.k) + (if x.BridgeEnqueue? then 2 else 1) == SinkWork(s, x.k);
    OneSinkChanges(s, t, x.k);
    assert s.down.out.Get(Users) == s.down.out.users && t.down.out.Get(Users) == t.down.out.users;
    assert t.down.out.Get(x.k).closed == s.down.out.Get(x.k).closed;
  }

  lemma SinkStepUsesWork(cfg: Config, r: nat, s: State, x: SinkAct)
    requires SinkEnabled(cfg, s, x)
    ensures Remaining(cfg, r, ApplySink(cfg, s, x)) < Remaining(cfg, r, s)
  {
    if x.BridgeTake? || x.BridgeEnqueue? || x.BridgeStop? {
      BridgeStepUsesWork(cfg, r, s, x);
    } else {
      SinkFrame(cfg, s, x);
      assert SinksWork(ApplySink(cfg, s, x)) == SinksWork(s);
    }
  }

  /** Does the monitor change the live tokens? */
  predicate MovesLive(e: Event) {
    e.Monitor? && (e.step.SubtractLive? || e.step.AddLive?)
  }

  lemma MonitorStepWork(cfg: Config, r: nat, s: State, step: Atomic.Event)
    requires Tokens(s) && MonitorEnabled(s, step)
    ensures Remaining(cfg, r, ApplyMonitor(s, step))
         <= Remaining(cfg, r, s) + (if MovesLive(Monitor(step)) then 3 * |s.pool.workers| else 0)
  {
    AtomicRetries.StepRetries(s.pool.scaler, step);
  }

  /** Every pipeline step strictly decreases the remaining work. A step of the monitor
      leaves it alone, unless it changes the live tokens: that may send every
      release round its loop once more. */
  lemma StepUsesWork(cfg: Config, r: nat, s: State, e: Event)
    requires Tokens(s) && Enabled(cfg, s, e) && 3 * |s.pool.workers| < r
    ensures IsPipelineStep(e) ==> Remaining(cfg, r, Apply(cfg, s, e)) < Remaining(cfg, r, s)
    ensures !IsPipelineStep(e) ==> Remaining(cfg, r, Apply(cfg, s, e)) <= Remaining(cfg, r, s) + (if MovesLive(e) then r else 0)
  {
    match e
    case Work(w, act) => WorkerStepUsesWork(cfg, r, s, w, act);
    case End(w, ending) => EndStepUsesWork(cfg, r, s, w, ending);
    case Filter(f) => FilterStepUsesWork(cfg, r, s, f);
    case Dispatch(d) => DispatchStepUsesWork(cfg, r, s, d);
    case Sink(x) => SinkStepUsesWork(cfg, r, s, x);
    case Monitor(step) => MonitorStepWork(cfg, r, s, step);
  }

  function PipelineSteps(es: seq<Event>): nat {
    if es == [] then 0 else (if IsPipelineStep(es[0]) then 1 else 0) + PipelineSteps(es[1..])
  }

  function LiveMoves(es: seq<Event>): nat {
    if es == [] then 0 else (if MovesLive(es[0]) then 1 else 0) + LiveMoves(es[1..])
  }

  lemma {:induction false} RunKeepsShape(cfg: Config, s: State, es: seq<Event>)
    requires Shape(cfg, s) && Runs(cfg, s, es)
    ensures Shape(cfg, Exec(cfg, s, es)) && |Exec(cfg, s, es).pool.workers| == |s.pool.workers|
    decreases |es|
  {
    if es != [] {
      StepKeepsShape(cfg, s, es[0]);
      StepKeepsPool(cfg, s, es[0]);
      RunKeepsShape(cfg, Apply(cfg, s, es[0]), es[1..]);
    }
  }

  lemma StepKeepsPool(cfg: Config, s: State, e: Event)
    requires Enabled(cfg, s, e)
    ensures |Apply(cfg, s, e).pool.workers| == |s.pool.workers|
  {
    match e
    case Work(w, act) => WorkerStepFrame(cfg, s, w, act);
    case End(w, ending) => EndFrame(s, w, ending);
    case Filter(f) => FilterFrame(cfg, s, f);
    case Dispatch(d) => DispatchFrame(cfg, s, d);
    case Sink(x) => SinkFrame(cfg, s, x);
    case Monitor(_) =>
  }

  /** What the monitor's changes of the live tokens add to the work. */
  function MonitorAdds(r: nat, es: seq<Event>): nat {
    if es == [] then 0 else (if MovesLive(es[0]) then r else 0) + MonitorAdds(r, es[1..])
  }

  lemma {:induction false} MonitorAddsPerMove(r: nat, es: seq<Event>)
    ensures MonitorAdds(r, es) == r * LiveMoves(es)
  {
    if es != [] {
      MonitorAddsPerMove(r, es[1..]);
    }
  }

  lemma WorkOfOneStep(cfg: Config, r: nat, s: State, e: Event)
    requires Shape(cfg, s) && Enabled(cfg, s, e) && 3 * |s.pool.workers| < r
    ensures Shape(cfg, Apply(cfg, s, e)) && |Apply(cfg, s, e).pool.workers| == |s.pool.workers|
    ensures Remaining(cfg, r, Apply(cfg, s, e)) + (if IsPipelineStep(e) then 1 else 0)
         <= Remaining(cfg, r, s) + (if MovesLive(e) then r else 0)
  {
    StepKeepsShape(cfg, s, e);
    StepKeepsPool(cfg, s, e);
    StepUsesWork(cfg, r, s, e);
  }

  /** A whole run's pipeline steps are bounded by the work at its start and what the
      monitor's changes of the live tokens add. */
  lemma {:induction false} RunUsesWork(cfg: Config, r: nat, s: State, es: seq<Event>)
    requires Shape(cfg, s) && Runs(cfg, s, es) && 3 * |s.pool.workers| < r
    ensures PipelineSteps(es) + Remaining(cfg, r, Exec(cfg, s, es)) <= Remaining(cfg, r, s) + MonitorAdds(r, es)
    decreases |es|
  {
    if es != [] {
      WorkOfOneStep(cfg, r, s, es[0]);
      RunUsesWork(cfg, r, Apply(cfg, s, es[0]), es[1..]);
    }
  }
}
