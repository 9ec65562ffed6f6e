/** Conservation: weigh every entity by an arbitrary function, wherever it is or is
    still to come, and no step changes the total. */
module PipelineLedger {
  import opened Sums
  import opened PipelineModel
  import opened PipelineStructure
  import opened PipelineTrackers

  type Weight = Out -> nat

  function SiteOut(cfg: Config, site: Site): Out {
    Out(Sites, cfg.entityOf(site))
  }

  function RoleDue(cfg: Config, g: Weight, role: Role, site: Site): nat {
    Sum(OutsOf(cfg, role, site), g)
  }

  function GroupDue(cfg: Config, g: Weight, site: Site): nat {
    if cfg.processGroups then RoleDue(cfg, g, GroupRole, site) else 0
  }

  /** Everything a dispatched site brings: its own record, users, groups, members. */
  function SiteDue(cfg: Config, g: Weight, site: Site): nat {
    g(SiteOut(cfg, site)) + RoleDue(cfg, g, UserRole, site) + GroupDue(cfg, g, site)
  }

  function SitesDue(cfg: Config, g: Weight, sites: seq<Site>): nat {
    if sites == [] then 0 else SiteDue(cfg, g, sites[0]) + SitesDue(cfg, g, sites[1..])
  }

  function QueueDue(cfg: Config, g: Weight, role: Role, sites: seq<Site>): nat {
    if sites == [] then 0 else RoleDue(cfg, g, role, sites[0]) + QueueDue(cfg, g, role, sites[1..])
  }

  function DispatcherDue(cfg: Config, g: Weight, d: DispatchPc): nat {
    match d
    case DSites(site) => SiteDue(cfg, g, site)
    case DUsers(site) => RoleDue(cfg, g, UserRole, site) + GroupDue(cfg, g, site)
    case DGroups(site) => RoleDue(cfg, g, GroupRole, site)
    case _ => 0
  }

  /** What a worker has yet to put on an entity channel. */
  function WorkerDue(cfg: Config, g: Weight, w: Worker): nat {
    match w.pc
    case Waiting(site) => RoleDue(cfg, g, w.role, site)
    case LookingUp(site) => RoleDue(cfg, g, w.role, site)
    case Fetching(site) => RoleDue(cfg, g, w.role, site)
    case Sending(_, pending) => Sum(pending, g)
    case _ => 0
  }

  function PoolDue(cfg: Config, g: Weight, ws: seq<Worker>): nat {
    if ws == [] then 0 else WorkerDue(cfg, g, ws[0]) + PoolDue(cfg, g, ws[1..])
  }

  function ChannelDue(g: Weight, k: Kind, es: seq<Entity>): nat {
    if es == [] then 0 else g(Out(k, es[0])) + ChannelDue(g, k, es[1..])
  }

  function BridgeDue(g: Weight, k: Kind, b: BridgePc): nat {
    if b.BHolding? then g(Out(k, b.entity)) else 0
  }

  function SinkDue(g: Weight, s: State, k: Kind): nat {
    ChannelDue(g, k, s.down.out.Get(k).items) + BridgeDue(g, k, s.down.bridges.Get(k))
  }

  function SinksDue(g: Weight, s: State): nat {
    SinkDue(g, s, Sites) + SinkDue(g, s, Users) + SinkDue(g, s, Groups) + SinkDue(g, s, Members)
  }

  function UpstreamDue(cfg: Config, g: Weight, s: State): nat {
    SitesDue(cfg, g, Ahead(cfg, s.up)) + DispatcherDue(cfg, g, s.up.dispatcher)
    + QueueDue(cfg, g, UserRole, s.queues.userSites.items) + QueueDue(cfg, g, GroupRole, s.queues.groupSites.items)
  }

  function Total(cfg: Config, g: Weight, s: State): nat {
    UpstreamDue(cfg, g, s) + PoolDue(cfg, g, s.pool.workers) + SinksDue(g, s) + Sum(s.down.enqueued, g)
  }

  // ---- Laws ----------------------------------------------------------------

  lemma {:induction false} QueueDuePut(cfg: Config, g: Weight, role: Role, sites: seq<Site>, site: Site)
    ensures QueueDue(cfg, g, role, sites + [site]) == QueueDue(cfg, g, role, sites) + RoleDue(cfg, g, role, site)
  {
    if sites == [] {
      assert sites + [site] == [site];
    } else {
      assert (sites + [site])[1..] == sites[1..] + [site];
      QueueDuePut(cfg, g, role, sites[1..], site);
    }
  }

  lemma {:induction false} ChannelDuePut(g: Weight, k: Kind, es: seq<Entity>, e: Entity)
    ensures ChannelDue(g, k, es + [e]) == ChannelDue(g, k, es) + g(Out(k, e))
  {
    if es == [] {
      assert es + [e] == [e];
    } else {
      assert (es + [e])[1..] == es[1..] + [e];
      ChannelDuePut(g, k, es[1..], e);
    }
  }

  lemma {:induction false} PoolDueUpdate(cfg: Config, g: Weight, ws: seq<Worker>, i: nat, w: Worker)
    requires i < |ws|
    ensures PoolDue(cfg, g, ws[i := w]) + WorkerDue(cfg, g, ws[i]) == PoolDue(cfg, g, ws) + WorkerDue(cfg, g, w)
  {
    if i == 0 {
      assert ws[i := w][1..] == ws[1..];
    } else {
      assert ws[i := w][1..] == ws[1..][i - 1 := w];
      PoolDueUpdate(cfg, g, ws[1..], i - 1, w);
    }
  }

  lemma OneSinkDueChanges(g: Weight, s: State, t: State, k: Kind)
    requires forall j: Kind :: j != k ==> SinkDue(g, t, j) == SinkDue(g, s, j)
    ensures SinksDue(g, t) + SinkDue(g, s, k) == SinksDue(g, s) + SinkDue(g, t, k)
  {
  }

  // ---- Every step conserves the total --------------------------------------

  lemma TakeConserves(cfg: Config, g: Weight, s: State, w: nat)
    requires WorkerEnabled(s, w, Take)
    ensures Total(cfg, g, TakeSite(s, w)) == Total(cfg, g, s)
  {
    var t := TakeSite(s, w);
    var role := s.pool.workers[w].role;
    assert t.pool.workers == s.pool.workers[w := t.pool.workers[w]];
    PoolDueUpdate(cfg, g, s.pool.workers, w, t.pool.workers[w]);
    assert QueueDue(cfg, g, role, QueueOf(s, role).items)
        == WorkerDue(cfg, g, t.pool.workers[w]) + QueueDue(cfg, g, role, QueueOf(t, role).items);
  }

  lemma EmitConserves(cfg: Config, g: Weight, s: State, w: nat)
    requires WorkerEnabled(s, w, Emit)
    ensures Total(cfg, g, EmitOne(s, w)) == Total(cfg, g, s)
  {
    var t := EmitOne(s, w);
    var o := s.pool.workers[w].pc.pending[0];
    WorkerStepFrame(cfg, s, w, Emit);
    PoolDueUpdate(cfg, g, s.pool.workers, w, t.pool.workers[w]);
    ChannelDuePut(g, o.kind, s.down.out.Get(o.kind).items, o.entity);
    OneSinkDueChanges(g, s, t, o.kind);
  }

  lemma FetchKeepsDue(cfg: Config, g: Weight, s: State, w: nat)
    requires WorkerEnabled(s, w, Fetch)
    ensures WorkerDue(cfg, g, FetchSite(cfg, s, w).pool.workers[w]) == WorkerDue(cfg, g, s.pool.workers[w])
  {
    var pc, role, site := FetchSite(cfg, s, w).pool.workers[w].pc, s.pool.workers[w].role, s.pool.workers[w].pc.site;
    assert (pc.Finishing? && OutsOf(cfg, role, site) == []) || (pc.Sending? && pc.pending == OutsOf(cfg, role, site));
  }

  /** Steps between taking and emitting leave the worker's dues alone. */
  lemma InnerStepKeepsDue(cfg: Config, g: Weight, s: State, w: nat, act: WorkerAct)
    requires WorkerEnabled(s, w, act) && Tracked(cfg, s) && !act.Take? && !act.Emit?
    ensures WorkerDue(cfg, g, ApplyWorker(cfg, s, w, act).pool.workers[w]) == WorkerDue(cfg, g, s.pool.workers[w])
  {
    if act.LookUp? {
      LookUpSucceeds(cfg, s, w);
    } else if act.Fetch? {
      FetchKeepsDue(cfg, g, s, w);
    }
  }

  lemma WorkerStepConserves(cfg: Config, g: Weight, s: State, w: nat, act: WorkerAct)
    requires WorkerEnabled(s, w, act) && Tracked(cfg, s)
    ensures Total(cfg, g, ApplyWorker(cfg, s, w, act)) == Total(cfg, g, s)
  {
    if act.Take? {
      TakeConserves(cfg, g, s, w);
    } else if act.Emit? {
      EmitConserves(cfg, g, s, w);
    } else {
      WorkerStepFrame(cfg, s, w, act);
      PoolDueUpdate(cfg, g, s.pool.workers, w, ApplyWorker(cfg, s, w, act).pool.workers[w]);
      InnerStepKeepsDue(cfg, g, s, w, act);
    }
  }

  lemma EndStepConserves(cfg: Config, g: Weight, s: State, w: nat, ending: EndAct)
    requires EndEnabled(s, w, ending)
    ensures Total(cfg, g, ApplyEnd(s, w, ending)) == Total(cfg, g, s)
  {
    EndFrame(s, w, ending);
    EndPc(s, w, ending);
    PoolDueUpdate(cfg, g, s.pool.workers, w, ApplyEnd(s, w, ending).pool.workers[w]);
    EndOwesNothing(cfg, g, s, w, ending);
  }

  lemma EndOwesNothing(cfg: Config, g: Weight, s: State, w: nat, ending: EndAct)
    requires EndEnabled(s, w, ending)
    ensures WorkerDue(cfg, g, s.pool.workers[w]) == 0 && WorkerDue(cfg, g, ApplyEnd(s, w, ending).pool.workers[w]) == 0
    ensures WorkerUncounted(cfg, g, s.pool.workers[w]) == 0
            && WorkerUncounted(cfg, g, ApplyEnd(s, w, ending).pool.workers[w]) == 0
  {
  }

  lemma FilterStepConserves(cfg: Config, g: Weight, s: State, f: FilterAct)
    requires FilterEnabled(s, f)
    ensures Total(cfg, g, ApplyFilter(cfg, s, f)) == Total(cfg, g, s)
  {
    FilterStepKeepsAhead(cfg, s, f);
    FilterFrame(cfg, s, f);
  }

  /** A dispatcher step passes its site's dues on; sending the site's record takes
      that record's weight out of the upstream. */
  lemma DispatchPassesDue(cfg: Config, g: Weight, s: State, d: DispatchAct)
    requires DispatchEnabled(s, d) && Upstream(cfg, s)
    ensures UpstreamDue(cfg, g, ApplyDispatch(cfg, s, d))
            + (if d.DispatchSite? then g(SiteOut(cfg, s.up.dispatcher.site)) else 0)
         == UpstreamDue(cfg, g, s)
  {
    var t := ApplyDispatch(cfg, s, d);
    if d.DispatchTake? {
      assert Ahead(cfg, s.up)[0] == s.up.filtered.items[0] && Ahead(cfg, s.up)[1..] == Ahead(cfg, t.up);
    } else {
      assert Ahead(cfg, t.up) == Ahead(cfg, s.up);
      if d.DispatchUser? {
        QueueDuePut(cfg, g, UserRole, s.queues.userSites.items, s.up.dispatcher.site);
      } else if d.DispatchGroup? {
        QueueDuePut(cfg, g, GroupRole, s.queues.groupSites.items, s.up.dispatcher.site);
      }
    }
  }

  lemma DispatchStepConserves(cfg: Config, g: Weight, s: State, d: DispatchAct)
    requires DispatchEnabled(s, d) && Upstream(cfg, s)
    ensures Total(cfg, g, ApplyDispatch(cfg, s, d)) == Total(cfg, g, s)
  {
    var t := ApplyDispatch(cfg, s, d);
    DispatchFrame(cfg, s, d);
    DispatchPassesDue(cfg, g, s, d);
    if d.DispatchSite? {
      assert s.down.out.Get(Sites) == s.down.out.sites;
      ChannelDuePut(g, Sites, s.down.out.sites.items, cfg.entityOf(s.up.dispatcher.site));
      OneSinkDueChanges(g, s, t, Sites);
    } else {
      assert SinksDue(g, t) == SinksDue(g, s);
    }
  }

  lemma SinkStepConserves(cfg: Config, g: Weight, s: State, x: SinkAct)
    requires SinkEnabled(cfg, s, x)
    ensures Total(cfg, g, ApplySink(cfg, s, x)) == Total(cfg, g, s)
  {
    var t := ApplySink(cfg, s, x);
    SinkFrame(cfg, s, x);
    if x.BridgeTake? || x.BridgeEnqueue? || x.BridgeStop? {
      if x.BridgeEnqueue? {
        SumSnoc(s.down.enqueued, Out(x.k, s.down.bridges.Get(x.k).entity), g);
      }
      assert forall j: Kind :: j != x.k ==>
        t.down.out.Get(j) == s.down.out.Get(j) && t.down.bridges.Get(j) == s.down.bridges.Get(j);
      OneSinkDueChanges(g, s, t, x.k);
    } else {
      assert SinksDue(g, t) == SinksDue(g, s);
    }
  }

  lemma StepConserves(cfg: Config, g: Weight, s: State, e: Event)
    requires Enabled(cfg, s, e) && Upstream(cfg, s) && Tracked(cfg, s)
    ensures Total(cfg, g, Apply(cfg, s, e)) == Total(cfg, g, s)
  {
    match e
    case Work(w, act) => WorkerStepConserves(cfg, g, s, w, act);
    case End(w, ending) => EndStepConserves(cfg, g, s, w, ending);
    case Filter(f) => FilterStepConserves(cfg, g, s, f);
    case Dispatch(d) => DispatchStepConserves(cfg, g, s, d);
    case Sink(x) => SinkStepConserves(cfg, g, s, x);
    case Monitor(_) =>
  }

  // ---- Sites: kept, skipped, dispatched ------------------------------------

  /** The sites in the pipeline are in order the kept sites of the input, and the
      skip counters hold the rest. */
  predicate SitesConserved(cfg: Config, s: State, raw0: seq<Site>) {
    && Line(cfg, s) == KeepAll(cfg, raw0)
    && s.book.counters.skipTemplate + CountSkip(cfg, s.up.raw, SkipTemplate) == CountSkip(cfg, raw0, SkipTemplate)
    && s.book.counters.skipTenantRoot + CountSkip(cfg, s.up.raw, SkipTenantRoot) == CountSkip(cfg, raw0, SkipTenantRoot)
  }

  predicate SameSkips(s: State, t: State) {
    && t.up.raw == s.up.raw
    && t.book.counters.skipTemplate == s.book.counters.skipTemplate
    && t.book.counters.skipTenantRoot == s.book.counters.skipTenantRoot
  }

  lemma WorkerStepKeepsSkips(cfg: Config, s: State, w: nat, act: WorkerAct)
    requires WorkerEnabled(s, w, act)
    ensures SameSkips(s, ApplyWorker(cfg, s, w, act))
  {
    WorkerStepFrame(cfg, s, w, act);
  }

  lemma EndStepKeepsSkips(s: State, w: nat, ending: EndAct)
    requires EndEnabled(s, w, ending)
    ensures SameSkips(s, ApplyEnd(s, w, ending))
  {
    EndFrame(s, w, ending);
  }

  lemma StepKeepsSitesConserved(cfg: Config, s: State, e: Event, raw0: seq<Site>)
    requires Enabled(cfg, s, e) && SitesConserved(cfg, s, raw0)
    ensures SitesConserved(cfg, Apply(cfg, s, e), raw0)
  {
    StepKeepsLine(cfg, s, e);
    match e
    case Work(w, act) => WorkerStepKeepsSkips(cfg, s, w, act);
    case End(w, ending) => EndStepKeepsSkips(s, w, ending);
    case Filter(_) =>
    case Dispatch(d) => DispatchFrame(cfg, s, d);
    case Sink(x) => SinkFrame(cfg, s, x);
    case Monitor(_) =>
  }

  lemma {:induction false} KeptPlusSkipped(cfg: Config, raw: seq<Site>)
    ensures |KeepAll(cfg, raw)| + CountSkip(cfg, raw, SkipTemplate) + CountSkip(cfg, raw, SkipTenantRoot) == |raw|
  {
    if raw != [] {
      KeptPlusSkipped(cfg, raw[1..]);
    }
  }

  // ---- Counters ------------------------------------------------------------

  function IsUsers(o: Out): nat { if o.kind.Users? then 1 else 0 }
  function IsGroups(o: Out): nat { if o.kind.Groups? then 1 else 0 }
  function IsMembers(o: Out): nat { if o.kind.Members? then 1 else 0 }
  function IsSites(o: Out): nat { if o.kind.Sites? then 1 else 0 }

  function KindWeight(k: Kind): Weight {
    match k
    case Sites => IsSites
    case Users => IsUsers
    case Groups => IsGroups
    case Members => IsMembers
  }

  function CounterOf(c: Counters, k: Kind): nat {
    match k
    case Sites => c.dispatched
    case Users => c.users
    case Groups => c.groups
    case Members => c.members
  }

  /** What a worker has yet to add to the counters: everything until it counts. */
  function WorkerUncounted(cfg: Config, g: Weight, w: Worker): nat {
    match w.pc
    case Waiting(site) => RoleDue(cfg, g, w.role, site)
    case LookingUp(site) => RoleDue(cfg, g, w.role, site)
    case Fetching(site) => RoleDue(cfg, g, w.role, site)
    case Sending(site, _) => RoleDue(cfg, g, w.role, site)
    case _ => 0
  }

  function PoolUncounted(cfg: Config, g: Weight, ws: seq<Worker>): nat {
    if ws == [] then 0 else WorkerUncounted(cfg, g, ws[0]) + PoolUncounted(cfg, g, ws[1..])
  }

  /** A counter plus everything of its kind not yet counted. */
  function CountTotal(cfg: Config, k: Kind, s: State): nat {
    CounterOf(s.book.counters, k) + UpstreamDue(cfg, KindWeight(k), s) + PoolUncounted(cfg, KindWeight(k), s.pool.workers)
  }

  lemma {:induction false} PoolUncountedUpdate(cfg: Config, g: Weight, ws: seq<Worker>, i: nat, w: Worker)
    requires i < |ws|
    ensures PoolUncounted(cfg, g, ws[i := w]) + WorkerUncounted(cfg, g, ws[i])
         == PoolUncounted(cfg, g, ws) + WorkerUncounted(cfg, g, w)
  {
    if i == 0 {
      assert ws[i := w][1..] == ws[1..];
    } else {
      assert ws[i := w][1..] == ws[1..][i - 1 := w];
      PoolUncountedUpdate(cfg, g, ws[1..], i - 1, w);
    }
  }

  lemma {:induction false} LabelledWeight(j: Kind, k: Kind, es: seq<Entity>)
    ensures Sum(Labelled(j, es), KindWeight(k)) == if j == k then |es| else 0
    decreases |es|
  {
    if es != [] {
      assert Labelled(j, es)[1..] == Labelled(j, es[1..]);
      LabelledWeight(j, k, es[1..]);
      assert Labelled(j, es)[0] == Out(j, es[0]);
    }
  }

  /** The counter increments of one worker are the entities it emitted, by kind. */
  lemma CountSiteCounts(cfg: Config, s: State, w: nat, k: Kind)
    requires WorkerEnabled(s, w, Count) && k != Sites
    ensures CounterOf(CountSite(cfg, s, w).book.counters, k)
         == CounterOf(s.book.counters, k) + RoleDue(cfg, KindWeight(k), s.pool.workers[w].role, s.pool.workers[w].pc.site)
  {
    var site := s.pool.workers[w].pc.site;
    if s.pool.workers[w].role.UserRole? {
      if cfg.users(site).UsersFetched? {
        LabelledWeight(Users, k, cfg.users(site).users);
      }
    } else if cfg.groups(site).GroupsFetched? {
      var r := cfg.groups(site);
      LabelledWeight(Groups, k, r.groups);
      LabelledWeight(Members, k, r.members);
      SumAppend(Labelled(Groups, r.groups), if cfg.processMembers then Labelled(Members, r.members) else [], KindWeight(k));
    }
  }

  lemma TakeMovesUncounted(cfg: Config, g: Weight, s: State, w: nat)
    requires WorkerEnabled(s, w, Take)
    ensures var t := TakeSite(s, w);
            && WorkerUncounted(cfg, g, s.pool.workers[w]) == 0
            && UpstreamDue(cfg, g, s) == WorkerUncounted(cfg, g, t.pool.workers[w]) + UpstreamDue(cfg, g, t)
  {
    var t, role := TakeSite(s, w), s.pool.workers[w].role;
    assert QueueDue(cfg, g, role, QueueOf(s, role).items)
        == WorkerUncounted(cfg, g, t.pool.workers[w]) + QueueDue(cfg, g, role, QueueOf(t, role).items);
  }

  lemma TakeKeepsCountTotal(cfg: Config, k: Kind, s: State, w: nat)
    requires WorkerEnabled(s, w, Take)
    ensures CountTotal(cfg, k, TakeSite(s, w)) == CountTotal(cfg, k, s)
  {
    var t := TakeSite(s, w);
    TakeMovesUncounted(cfg, KindWeight(k), s, w);
    assert t.pool.workers == s.pool.workers[w := t.pool.workers[w]] && t.book == s.book;
    PoolUncountedUpdate(cfg, KindWeight(k), s.pool.workers, w, t.pool.workers[w]);
  }

  lemma WorkerStepKeepsUpstream(cfg: Config, g: Weight, s: State, w: nat, act: WorkerAct)
    requires WorkerEnabled(s, w, act) && !act.Take?
    ensures UpstreamDue(cfg, g, ApplyWorker(cfg, s, w, act)) == UpstreamDue(cfg, g, s)
  {
    WorkerStepFrame(cfg, s, w, act);
  }

  /** A step other than a take counts exactly what it takes off the uncounted. */
  lemma CountingStep(cfg: Config, k: Kind, s: State, w: nat, act: WorkerAct)
    requires WorkerEnabled(s, w, act) && Tracked(cfg, s) && k != Sites && !act.Take?
    ensures var t := ApplyWorker(cfg, s, w, act);
            CounterOf(t.book.counters, k) + WorkerUncounted(cfg, KindWeight(k), t.pool.workers[w])
            == CounterOf(s.book.counters, k) + WorkerUncounted(cfg, KindWeight(k), s.pool.workers[w])
  {
    if act.Count? {
      CountSiteCounts(cfg, s, w, k);
    } else {
      UncountedStep(cfg, k, s, w, act);
    }
  }

  lemma WorkerStepKeepsCountTotal(cfg: Config, k: Kind, s: State, w: nat, act: WorkerAct)
    requires WorkerEnabled(s, w, act) && Tracked(cfg, s) && k != Sites
    ensures CountTotal(cfg, k, ApplyWorker(cfg, s, w, act)) == CountTotal(cfg, k, s)
  {
    if act.Take? {
      TakeKeepsCountTotal(cfg, k, s, w);
    } else {
      var t := ApplyWorker(cfg, s, w, act);
      WorkerStepKeepsUpstream(cfg, KindWeight(k), s, w, act);
      CountingStep(cfg, k, s, w, act);
      assert t.pool.workers == s.pool.workers[w := t.pool.workers[w]] by {
        WorkerStepFrame(cfg, s, w, act);
      }
      PoolUncountedUpdate(cfg, KindWeight(k), s.pool.workers, w, t.pool.workers[w]);
    }
  }

  /** Other worker steps neither count nor change what is uncounted. */
  lemma UncountedStep(cfg: Config, k: Kind, s: State, w: nat, act: WorkerAct)
    requires WorkerEnabled(s, w, act) && Tracked(cfg, s) && k != Sites && !act.Take? && !act.Count?
    ensures var t := ApplyWorker(cfg, s, w, act);
            && WorkerUncounted(cfg, KindWeight(k), t.pool.workers[w]) == WorkerUncounted(cfg, KindWeight(k), s.pool.workers[w])
            && CounterOf(t.book.counters, k) == CounterOf(s.book.counters, k)
  {
    if act.LookUp? {
      LookUpSucceeds(cfg, s, w);
    } else if act.Fetch? {
      var role, site := s.pool.workers[w].role, s.pool.workers[w].pc.site;
      var pc := FetchSite(cfg, s, w).pool.workers[w].pc;
      assert (pc.Finishing? && OutsOf(cfg, role, site) == []) || (pc.Sending? && pc.site == site);
    }
  }

  lemma EndStepKeepsCounters(s: State, w: nat, ending: EndAct, k: Kind)
    requires EndEnabled(s, w, ending)
    ensures CounterOf(ApplyEnd(s, w, ending).book.counters, k) == CounterOf(s.book.counters, k)
  {
    EndFrame(s, w, ending);
  }

  lemma EndStepKeepsCountTotal(cfg: Config, k: Kind, s: State, w: nat, ending: EndAct)
    requires EndEnabled(s, w, ending)
    ensures CountTotal(cfg, k, ApplyEnd(s, w, ending)) == CountTotal(cfg, k, s)
  {
    EndFrame(s, w, ending);
    EndOwesNothing(cfg, KindWeight(k), s, w, ending);
    EndStepKeepsCounters(s, w, ending, k);
    PoolUncountedUpdate(cfg, KindWeight(k), s.pool.workers, w, ApplyEnd(s, w, ending).pool.workers[w]);
  }

  /** Dispatching counts sites only. */
  lemma DispatchKeepsCounters(cfg: Config, s: State, d: DispatchAct, k: Kind)
    requires DispatchEnabled(s, d) && k != Sites
    ensures CounterOf(ApplyDispatch(cfg, s, d).book.counters, k) == CounterOf(s.book.counters, k)
  {
    DispatchFrame(cfg, s, d);
  }

  lemma StepKeepsCountTotal(cfg: Config, k: Kind, s: State, e: Event)
    requires Enabled(cfg, s, e) && Upstream(cfg, s) && Tracked(cfg, s) && k != Sites
    ensures CountTotal(cfg, k, Apply(cfg, s, e)) == CountTotal(cfg, k, s)
  {
    match e
    case Work(w, act) => WorkerStepKeepsCountTotal(cfg, k, s, w, act);
    case End(w, ending) => EndStepKeepsCountTotal(cfg, k, s, w, ending);
    case Filter(f) =>
      FilterFrame(cfg, s, f);
      FilterStepKeepsAhead(cfg, s, f);
    case Dispatch(d) =>
      DispatchFrame(cfg, s, d);
      DispatchKeepsCounters(cfg, s, d, k);
      DispatchPassesDue(cfg, KindWeight(k), s, d);
      assert d.DispatchSite? ==> KindWeight(k)(SiteOut(cfg, s.up.dispatcher.site)) == 0;
    case Sink(x) => SinkFrame(cfg, s, x);
    case Monitor(_) =>
  }
}
