/** The channels between the stages never hold more than they were made for. */
module PipelineCapacities {
  import opened PipelineModel
  import opened PipelineStructure
  import Throttle = ThrottleModel

  predicate WithinCapacity(cfg: Config, s: State) {
    && |s.up.filtered.items| <= 400
    && |s.queues.userSites.items| <= 400 && |s.queues.groupSites.items| <= 200
    && |s.down.out.sites.items| <= 1000 && |s.down.out.users.items| <= 1000
    && |s.down.out.groups.items| <= 500 && |s.down.out.members.items| <= 1000
    && |s.down.writerIn| <= cfg.writerCap
  }

  lemma OutWithin(out: PerKind<Chan<Entity>>, k: Kind, c: Chan<Entity>)
    requires |out.sites.items| <= 1000 && |out.users.items| <= 1000 && |out.groups.items| <= 500 && |out.members.items| <= 1000
    requires |c.items| <= OutCap(k)
    ensures var t := out.Set(k, c);
            |t.sites.items| <= 1000 && |t.users.items| <= 1000 && |t.groups.items| <= 500 && |t.members.items| <= 1000
  {
  }

  lemma WorkerStepKeepsCapacity(cfg: Config, s: State, w: nat, act: WorkerAct)
    requires WithinCapacity(cfg, s) && WorkerEnabled(s, w, act)
    ensures WithinCapacity(cfg, ApplyWorker(cfg, s, w, act))
  {
    WorkerStepFrame(cfg, s, w, act);
    if act.Emit? {
      var o := s.pool.workers[w].pc.pending[0];
      OutWithin(s.down.out, o.kind, Put(s.down.out.Get(o.kind), o.entity));
    }
  }

  lemma SinkStepKeepsCapacity(cfg: Config, s: State, x: SinkAct)
    requires WithinCapacity(cfg, s) && SinkEnabled(cfg, s, x)
    ensures WithinCapacity(cfg, ApplySink(cfg, s, x))
  {
    SinkFrame(cfg, s, x);
    if x.BridgeTake? {
      var c := s.down.out.Get(x.k);
      OutWithin(s.down.out, x.k, c.(items := c.items[1..]));
    }
  }

  lemma DispatchStepKeepsCapacity(cfg: Config, s: State, d: DispatchAct)
    requires WithinCapacity(cfg, s) && DispatchEnabled(s, d)
    ensures WithinCapacity(cfg, ApplyDispatch(cfg, s, d))
  {
    DispatchFrame(cfg, s, d);
  }

  lemma StepKeepsCapacity(cfg: Config, s: State, e: Event)
    requires WithinCapacity(cfg, s) && Enabled(cfg, s, e)
    ensures WithinCapacity(cfg, Apply(cfg, s, e))
  {
    match e
    case Work(w, act) => WorkerStepKeepsCapacity(cfg, s, w, act);
    case End(w, ending) => EndFrame(s, w, ending);
    case Filter(f) => FilterFrame(cfg, s, f);
    case Dispatch(d) => DispatchStepKeepsCapacity(cfg, s, d);
    case Sink(x) => SinkStepKeepsCapacity(cfg, s, x);
    case Monitor(_) =>
  }

  lemma {:induction false} RunKeepsCapacity(cfg: Config, s: State, es: seq<Event>)
    requires WithinCapacity(cfg, s) && Runs(cfg, s, es)
    ensures WithinCapacity(cfg, Exec(cfg, s, es))
    decreases |es|
  {
    if es != [] {
      StepKeepsCapacity(cfg, s, es[0]);
      RunKeepsCapacity(cfg, Apply(cfg, s, es[0]), es[1..]);
    }
  }

  /** Back-pressure: in every reachable state each channel is within its capacity. */
  lemma ChannelsAreBounded(cfg: Config, raw: seq<Site>, userWorkers: nat, groupWorkers: nat,
                           signals: seq<(Throttle.ScaleAction, int)>, counts: seq<int>, es: seq<Event>)
    requires |counts| == |signals| && Runs(cfg, Initial(cfg, raw, userWorkers, groupWorkers, signals, counts), es)
    ensures WithinCapacity(cfg, Exec(cfg, Initial(cfg, raw, userWorkers, groupWorkers, signals, counts), es))
  {
    RunKeepsCapacity(cfg, Initial(cfg, raw, userWorkers, groupWorkers, signals, counts), es);
  }
}
