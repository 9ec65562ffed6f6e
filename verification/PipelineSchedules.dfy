/** Schedules that exist: with the scaler's monitor left aside the pipeline can always
    be run to its end, and any one worker can be kept waiting for its token until
    everything else is done. */
module PipelineSchedules {
  import opened Sums
  import opened PipelineModel
  import opened PipelineStructure
  import opened PipelineWork
  import opened PipelineProgress
  import opened PipelineTrackers
  import Atomic = ThrottleAtomic

  /** All tokens are live, and every release under way will return its own. */
  predicate Calm(s: State) {
    var c := s.pool.scaler;
    && c.monitor.MIdle? && c.limit == c.live == c.max && c.max >= 1
    && forall i :: 0 <= i < |c.workers| ==>
         match c.workers[i].pc
         case LoadedLive(live, _) => live <= c.max
         case LoadedBoth(live, limit, _) => live <= limit
         case _ => true
  }

  lemma CalmReleaseStaysCalm(s: State, w: nat, op: ReleaseOp)
    requires Tokens(s) && Calm(s) && EndEnabled(s, w, Release(op))
    ensures Calm(ReleaseOn(s, w, op))
  {
    Atomic.StepFrame(s.pool.scaler, ReleaseStep(w, op));
  }

  lemma CalmStaysCalm(cfg: Config, s: State, e: Event)
    requires Tokens(s) && Calm(s) && CanStep(cfg, s, e)
    ensures Calm(Apply(cfg, s, e))
  {
    match e
    case Work(w, act) =>
      WorkerStepFrame(cfg, s, w, act);
      if act.Acquire? {
        Atomic.StepFrame(s.pool.scaler, Atomic.Acquire(w));
      }
    case End(w, ending) =>
      if ending.Release? {
        CalmReleaseStaysCalm(s, w, ending.op);
      } else {
        EndFrame(s, w, ending);
      }
    case Filter(f) => FilterFrame(cfg, s, f);
    case Dispatch(d) => DispatchFrame(cfg, s, d);
    case Sink(x) => SinkFrame(cfg, s, x);
  }

  lemma CalmIsNeitherStarvedNorJammed(s: State)
    requires Tokens(s) && Calm(s)
    ensures !Starved(s) && !Jammed(s)
  {
    if Jammed(s) {
      var i: nat :| i < |s.pool.workers| && BlockedAtSend(s, i);
      SumMember(s.pool.scaler.workers, i, Atomic.HoldsToken);
    }
  }

  ghost predicate Steady(cfg: Config, s: State) {
    cfg.writerCap >= 1 && Shape(cfg, s) && Calm(s)
  }

  function Reserve(s: State): nat {
    3 * |s.pool.workers| + 1
  }

  predicate SameRoles(s: State, t: State) {
    && |t.pool.workers| == |s.pool.workers|
    && forall i :: 0 <= i < |s.pool.workers| ==> t.pool.workers[i].role == s.pool.workers[i].role
  }

  lemma StepKeepsRoles(cfg: Config, s: State, e: Event)
    requires CanStep(cfg, s, e)
    ensures SameRoles(s, Apply(cfg, s, e))
    ensures forall f :: 0 <= f < |s.pool.workers| && !IsOf(e, f) ==> Apply(cfg, s, e).pool.workers[f] == s.pool.workers[f]
  {
    match e
    case Work(w, act) => WorkerStepFrame(cfg, s, w, act);
    case End(w, ending) => EndFrame(s, w, ending);
    case Filter(g) => FilterFrame(cfg, s, g);
    case Dispatch(d) => DispatchFrame(cfg, s, d);
    case Sink(x) => SinkFrame(cfg, s, x);
  }

  /** One step nearer to the end. */
  ghost predicate Onward(cfg: Config, s: State, t: State) {
    Steady(cfg, t) && SameRoles(s, t) && Remaining(cfg, Reserve(t), t) < Remaining(cfg, Reserve(s), s)
  }

  lemma SteadyStep(cfg: Config, s: State, e: Event)
    requires Steady(cfg, s) && CanStep(cfg, s, e)
    ensures Onward(cfg, s, Apply(cfg, s, e))
  {
    var t := Apply(cfg, s, e);
    assert Shape(cfg, t) by { StepKeepsShape(cfg, s, e); }
    assert Calm(t) by { CalmStaysCalm(cfg, s, e); }
    assert SameRoles(s, t) by { StepKeepsRoles(cfg, s, e); }
    assert Remaining(cfg, Reserve(s), t) < Remaining(cfg, Reserve(s), s) by { StepUsesWork(cfg, Reserve(s), s, e); }
    assert Reserve(t) == Reserve(s);
  }

  /** From any calm state the pipeline can be run to its end. */
  lemma {:induction false} RunToEnd(cfg: Config, s: State) returns (es: seq<Event>)
    requires Steady(cfg, s)
    ensures Runs(cfg, s, es) && Final(Exec(cfg, s, es))
    decreases Remaining(cfg, Reserve(s), s)
  {
    if Final(s) {
      return [];
    }
    CalmIsNeitherStarvedNorJammed(s);
    var e := Progress(cfg, s);
    SteadyStep(cfg, s, e);
    es := RunToEnd(cfg, Apply(cfg, s, e));
    RunCons(cfg, s, e, es);
    es := [e] + es;
  }

  // ---- One worker held back ----------------------------------------------------

  /** Worker `f` waits for a token for its site. */
  predicate HeldBack(s: State, f: nat, role: Role, site: Site) {
    f < |s.pool.workers| && s.pool.workers[f] == Worker(role, Waiting(site))
  }

  lemma OthersKeepPools(cfg: Config, s: State, t: State, f: int)
    requires PoolsWithout(cfg, s, f) && SameRoles(s, t)
    ensures PoolsWithout(cfg, t, f)
  {
    var i :| 0 <= i < |s.pool.workers| && i != f && s.pool.workers[i].role == UserRole;
    assert t.pool.workers[i].role == UserRole;
    if cfg.processGroups {
      var j :| 0 <= j < |s.pool.workers| && j != f && s.pool.workers[j].role == GroupRole;
      assert t.pool.workers[j].role == GroupRole;
    }
  }

  /** A step that is not the held-back worker's, unless it is the only one left. */
  lemma StepOfOthers(cfg: Config, s: State, f: nat, role: Role, site: Site) returns (stepped: bool, e: Event)
    requires Steady(cfg, s) && HeldBack(s, f, role, site) && PoolsWithout(cfg, s, f)
    ensures stepped ==> CanStep(cfg, s, e)
                        && Onward(cfg, s, Apply(cfg, s, e)) && HeldBack(Apply(cfg, s, e), f, role, site)
                        && PoolsWithout(cfg, Apply(cfg, s, e), f)
    ensures !stepped ==> OnlyLeft(s, f)
  {
    assert Coupled(s.pool.workers[f].pc, s.pool.scaler.workers[f].pc);
    CalmIsNeitherStarvedNorJammed(s);
    stepped, e := ProgressWithout(cfg, s, f);
    if stepped {
      SteadyStep(cfg, s, e);
      StepKeepsRoles(cfg, s, e);
      OthersKeepPools(cfg, s, Apply(cfg, s, e), f);
    }
  }

  /** While a worker is held back all the others can be run until it is the only one
      left. */
  lemma {:induction false} RunTheOthers(cfg: Config, s: State, f: nat, role: Role, site: Site) returns (es: seq<Event>)
    requires Steady(cfg, s) && HeldBack(s, f, role, site) && PoolsWithout(cfg, s, f)
    ensures Runs(cfg, s, es)
    ensures var t := Exec(cfg, s, es);
            Steady(cfg, t) && HeldBack(t, f, role, site) && PoolsWithout(cfg, t, f) && OnlyLeft(t, f)
    decreases Remaining(cfg, Reserve(s), s)
  {
    var stepped, e := StepOfOthers(cfg, s, f, role, site);
    if !stepped {
      return [];
    }
    es := RunTheOthers(cfg, Apply(cfg, s, e), f, role, site);
    RunCons(cfg, s, e, es);
    es := [e] + es;
  }

  // ---- Until a site is taken -----------------------------------------------------

  predicate Enlisted(cfg: Config, role: Role) {
    role.GroupRole? ==> cfg.processGroups
  }

  predicate DispatcherHas(cfg: Config, d: DispatchPc, role: Role, site: Site) {
    match d
    case DSites(x) => x == site
    case DUsers(x) => x == site
    case DGroups(x) => x == site && role.GroupRole?
    case _ => false
  }

  /** No worker of the role has taken the site yet. */
  predicate Untaken(cfg: Config, s: State, role: Role, site: Site) {
    || site in Ahead(cfg, s.up)
    || DispatcherHas(cfg, s.up.dispatcher, role, site)
    || site in QueueOf(s, role).items
  }

  lemma FinalHasNothingUntaken(cfg: Config, s: State, role: Role, site: Site)
    requires Shape(cfg, s) && Final(s)
    ensures !Untaken(cfg, s, role, site)
  {
    FinalIsEmpty(cfg, s);
    assert Ahead(cfg, s.up) == [];
  }

  lemma TakeStepTaken(cfg: Config, s: State, w: nat, role: Role, site: Site)
    requires WorkerEnabled(s, w, Take) && Untaken(cfg, s, role, site)
    ensures Untaken(cfg, TakeSite(s, w), role, site) || HeldBack(TakeSite(s, w), w, role, site)
  {
    var q := QueueOf(s, s.pool.workers[w].role).items;
    assert q == [q[0]] + q[1..];
  }

  lemma DispatchStepTaken(cfg: Config, s: State, d: DispatchAct, role: Role, site: Site)
    requires Upstream(cfg, s) && Enlisted(cfg, role) && DispatchEnabled(s, d) && Untaken(cfg, s, role, site)
    ensures Untaken(cfg, ApplyDispatch(cfg, s, d), role, site)
  {
    if d.DispatchTake? {
      assert Ahead(cfg, s.up) == [s.up.filtered.items[0]] + Ahead(cfg, ApplyDispatch(cfg, s, d).up);
    }
  }

  /** A step leaves the site untaken, or a worker of the role takes it. */
  lemma UntakenStep(cfg: Config, s: State, e: Event, role: Role, site: Site)
    requires Upstream(cfg, s) && Enlisted(cfg, role) && CanStep(cfg, s, e) && Untaken(cfg, s, role, site)
    ensures var t := Apply(cfg, s, e);
            Untaken(cfg, t, role, site) || exists f: nat :: HeldBack(t, f, role, site)
  {
    match e
    case Work(w, act) =>
      if act.Take? {
        TakeStepTaken(cfg, s, w, role, site);
      } else {
        WorkerStepFrame(cfg, s, w, act);
      }
    case End(w, ending) => EndFrame(s, w, ending);
    case Filter(g) =>
      FilterFrame(cfg, s, g);
      FilterStepKeepsAhead(cfg, s, g);
    case Dispatch(d) => DispatchStepTaken(cfg, s, d, role, site);
    case Sink(x) => SinkFrame(cfg, s, x);
  }

  /** A step after which the site is still untaken, or a worker of the role has it. */
  lemma StepTowardsTaking(cfg: Config, s: State, role: Role, site: Site) returns (e: Event)
    requires Steady(cfg, s) && Enlisted(cfg, role) && Untaken(cfg, s, role, site)
    ensures CanStep(cfg, s, e) && Onward(cfg, s, Apply(cfg, s, e))
    ensures Untaken(cfg, Apply(cfg, s, e), role, site) || exists f: nat :: HeldBack(Apply(cfg, s, e), f, role, site)
  {
    CalmIsNeitherStarvedNorJammed(s);
    if Final(s) {
      FinalHasNothingUntaken(cfg, s, role, site);
      assert false;
    }
    e := Progress(cfg, s);
    SteadyStep(cfg, s, e);
    UntakenStep(cfg, s, e, role, site);
  }

  /** The pipeline can be run until a worker of the role has taken the site. */
  lemma {:induction false} RunUntilTaken(cfg: Config, s: State, role: Role, site: Site) returns (es: seq<Event>, f: nat)
    requires Steady(cfg, s) && Enlisted(cfg, role) && Untaken(cfg, s, role, site)
    ensures Runs(cfg, s, es)
    ensures var t := Exec(cfg, s, es);
            Steady(cfg, t) && HeldBack(t, f, role, site) && SameRoles(s, t)
    decreases Remaining(cfg, Reserve(s), s)
  {
    var e := StepTowardsTaking(cfg, s, role, site);
    var t := Apply(cfg, s, e);
    if f': nat :| HeldBack(t, f', role, site) {
      es, f := [], f';
    } else {
      es, f := RunUntilTaken(cfg, t, role, site);
    }
    RunCons(cfg, s, e, es);
    es := [e] + es;
  }
}
