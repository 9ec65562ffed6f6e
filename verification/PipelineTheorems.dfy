/** The pipeline's guarantees over whole runs: exactly-once finalisation in every
    reachable state, and end-to-end conservation when the pipeline has finished. */
module PipelineTheorems {
  import opened Sums
  import opened PipelineModel
  import opened PipelineStructure
  import opened PipelineTrackers
  import opened PipelineOutcomes
  import opened PipelineSettlement
  import opened PipelineLedger
  import PipelineProgress
  import Throttle = ThrottleModel

  // ---- Dispatched = tracked + finished -------------------------------------

  ghost predicate Balanced(s: State) {
    && |s.book.dispatched| == |s.book.finished| + |s.book.trackers|
    && (forall u :: u in s.book.trackers ==>
          s.book.trackers[u].site in s.book.dispatched && s.book.trackers[u].site.url == u)
    && (forall site :: site in s.book.finished ==> site in s.book.dispatched)
  }

  /** Steps that keep the tracked sites and what was dispatched and finished. */
  lemma SameTrackersKeepBalanced(s: State, t: State)
    requires Balanced(s) && SameCountdowns(s, t) && t.book.dispatched == s.book.dispatched
    ensures Balanced(t)
  {
    assert |t.book.trackers| == |t.book.trackers.Keys| == |s.book.trackers|;
  }

  lemma DecrementKeepsBalanced(s: State, w: nat)
    requires WorkerEnabled(s, w, Decrement) && AllKnown(s) && Balanced(s)
    ensures Balanced(DecrementSite(s, w))
  {
    var t := DecrementSite(s, w);
    assert WorkerKnown(s, s.pool.workers[w]);
    assert t.book.trackers.Keys == s.book.trackers.Keys;
    assert |t.book.trackers| == |t.book.trackers.Keys| == |s.book.trackers|;
  }

  lemma FinishKeepsBalanced(s: State, w: nat)
    requires EndEnabled(s, w, Finish) && AllKnown(s) && Balanced(s)
    ensures Balanced(FinishSite(s, w))
  {
    var t := FinishSite(s, w);
    assert WorkerKnown(s, s.pool.workers[w]);
    assert t.book.trackers.Keys == s.book.trackers.Keys - {s.pool.workers[w].pc.site.url};
    assert |t.book.trackers| == |t.book.trackers.Keys| && |s.book.trackers| == |s.book.trackers.Keys|;
  }

  lemma WorkerStepKeepsBalanced(cfg: Config, s: State, w: nat, act: WorkerAct)
    requires WorkerEnabled(s, w, act) && AllKnown(s) && Balanced(s)
    ensures Balanced(ApplyWorker(cfg, s, w, act))
  {
    if act.Decrement? {
      DecrementKeepsBalanced(s, w);
    } else if !act.Take? {
      QuietWorkStep(cfg, s, w, act);
      SameTrackersKeepBalanced(s, ApplyWorker(cfg, s, w, act));
    }
  }

  lemma EndStepKeepsBalanced(s: State, w: nat, ending: EndAct)
    requires EndEnabled(s, w, ending) && AllKnown(s) && Balanced(s)
    ensures Balanced(ApplyEnd(s, w, ending))
  {
    if ending.Finish? {
      FinishKeepsBalanced(s, w);
    } else {
      QuietEndStep(s, w, ending);
      SameTrackersKeepBalanced(s, ApplyEnd(s, w, ending));
    }
  }

  lemma DispatchTakeKeepsBalanced(cfg: Config, s: State)
    requires DispatchEnabled(s, DispatchTake) && Tracked(cfg, s) && Balanced(s)
    ensures Balanced(DispatchNext(cfg, s))
  {
    var t := DispatchNext(cfg, s);
    var u := s.up.filtered.items[0].url;
    NextIsNew(cfg, s);
    assert TrackedAt(cfg, s, u);
    assert t.book.trackers.Keys == s.book.trackers.Keys + {u};
    assert |t.book.trackers| == |t.book.trackers.Keys| && |s.book.trackers| == |s.book.trackers.Keys|;
    assert t.book.dispatched == s.book.dispatched + [s.up.filtered.items[0]];
  }

  lemma StepKeepsBalanced(cfg: Config, s: State, e: Event)
    requires Enabled(cfg, s, e) && Tracked(cfg, s) && Balanced(s)
    ensures Balanced(Apply(cfg, s, e))
  {
    match e
    case Work(w, act) => WorkerStepKeepsBalanced(cfg, s, w, act);
    case End(w, ending) => EndStepKeepsBalanced(s, w, ending);
    case Dispatch(d) =>
      if d.DispatchTake? {
        DispatchTakeKeepsBalanced(cfg, s);
      } else {
        DispatchFrame(cfg, s, d);
      }
    case Filter(_) => FarStep(cfg, s, e);
    case Sink(_) => FarStep(cfg, s, e);
    case Monitor(_) => FarStep(cfg, s, e);
  }

  // ---- All invariants together ---------------------------------------------

  ghost predicate Counted(cfg: Config, s: State, raw: seq<Site>) {
    && SitesConserved(cfg, s, raw)
    && (forall k: Kind :: k != Sites ==> CountTotal(cfg, k, s) == SitesDue(cfg, KindWeight(k), KeepAll(cfg, raw)))
  }

  ghost predicate Good(cfg: Config, s: State, raw: seq<Site>) {
    && Shape(cfg, s) && Tracked(cfg, s) && PartsFit(cfg, s)
    && Recorded(cfg, s) && AllHandedOn(s) && Balanced(s) && Counted(cfg, s, raw)
  }

  lemma StepKeepsCounted(cfg: Config, s: State, e: Event, raw: seq<Site>)
    requires Enabled(cfg, s, e) && Upstream(cfg, s) && Tracked(cfg, s) && Counted(cfg, s, raw)
    ensures Counted(cfg, Apply(cfg, s, e), raw)
  {
    StepKeepsSitesConserved(cfg, s, e, raw);
    forall k: Kind | k != Sites
      ensures CountTotal(cfg, k, Apply(cfg, s, e)) == SitesDue(cfg, KindWeight(k), KeepAll(cfg, raw))
    {
      StepKeepsCountTotal(cfg, k, s, e);
    }
  }

  lemma StepKeepsGood(cfg: Config, s: State, e: Event, raw: seq<Site>)
    requires Enabled(cfg, s, e) && Good(cfg, s, raw)
    ensures Good(cfg, Apply(cfg, s, e), raw)
  {
    StepKeepsShape(cfg, s, e);
    StepKeepsTracked(cfg, s, e);
    StepKeepsParts(cfg, s, e);
    StepKeepsRecorded(cfg, s, e);
    StepKeepsBalanced(cfg, s, e);
    StepKeepsCounted(cfg, s, e, raw);
  }

  /** What the source's callers provide: workers to run and room for the writer's
      input; and the kept sites have pairwise distinct URLs. */
  predicate Legal(cfg: Config, raw: seq<Site>, userWorkers: nat, groupWorkers: nat,
                  signals: seq<(Throttle.ScaleAction, int)>, counts: seq<int>) {
    && |counts| == |signals| && userWorkers >= 1 && (cfg.processGroups ==> groupWorkers >= 1)
    && cfg.writerCap >= 1 && DistinctUrls(KeepAll(cfg, raw))
  }

  lemma {:induction false} IdlePoolWeighsNothing(cfg: Config, g: Weight, ws: seq<Worker>)
    requires forall i :: 0 <= i < |ws| ==> ws[i].pc.Idle? || ws[i].pc.Exited?
    ensures PoolDue(cfg, g, ws) == 0 && PoolUncounted(cfg, g, ws) == 0
  {
    if ws != [] {
      IdlePoolWeighsNothing(cfg, g, ws[1..]);
    }
  }

  lemma InitialTotals(cfg: Config, g: Weight, raw: seq<Site>, userWorkers: nat, groupWorkers: nat,
                      signals: seq<(Throttle.ScaleAction, int)>, counts: seq<int>)
    requires |counts| == |signals|
    ensures var s := Initial(cfg, raw, userWorkers, groupWorkers, signals, counts);
            && Ahead(cfg, s.up) == KeepAll(cfg, raw)
            && UpstreamDue(cfg, g, s) == SitesDue(cfg, g, KeepAll(cfg, raw))
            && Total(cfg, g, s) == SitesDue(cfg, g, KeepAll(cfg, raw))
            && PoolUncounted(cfg, g, s.pool.workers) == 0
  {
    var s := Initial(cfg, raw, userWorkers, groupWorkers, signals, counts);
    assert Ahead(cfg, s.up) == KeepAll(cfg, raw);
    IdlePoolWeighsNothing(cfg, g, s.pool.workers);
  }

  lemma InitialCounted(cfg: Config, raw: seq<Site>, userWorkers: nat, groupWorkers: nat,
                       signals: seq<(Throttle.ScaleAction, int)>, counts: seq<int>)
    requires |counts| == |signals|
    ensures Counted(cfg, Initial(cfg, raw, userWorkers, groupWorkers, signals, counts), raw)
  {
    var s := Initial(cfg, raw, userWorkers, groupWorkers, signals, counts);
    forall k: Kind ensures CountTotal(cfg, k, s) == SitesDue(cfg, KindWeight(k), KeepAll(cfg, raw)) {
      InitialTotals(cfg, KindWeight(k), raw, userWorkers, groupWorkers, signals, counts);
    }
    assert SitesConserved(cfg, s, raw) by {
      InitialTotals(cfg, KindWeight(Sites), raw, userWorkers, groupWorkers, signals, counts);
      assert s.book.dispatched + KeepAll(cfg, raw) == KeepAll(cfg, raw);
    }
  }

  lemma InitialGood(cfg: Config, raw: seq<Site>, userWorkers: nat, groupWorkers: nat,
                    signals: seq<(Throttle.ScaleAction, int)>, counts: seq<int>)
    requires Legal(cfg, raw, userWorkers, groupWorkers, signals, counts)
    ensures Good(cfg, Initial(cfg, raw, userWorkers, groupWorkers, signals, counts), raw)
  {
    InitialShape(cfg, raw, userWorkers, groupWorkers, signals, counts);
    InitialTracked(cfg, raw, userWorkers, groupWorkers, signals, counts);
    InitialParts(cfg, raw, userWorkers, groupWorkers, signals, counts);
    InitialRecorded(cfg, raw, userWorkers, groupWorkers, signals, counts);
    InitialCounted(cfg, raw, userWorkers, groupWorkers, signals, counts);
  }

  lemma {:induction false} RunKeepsGood(cfg: Config, s: State, es: seq<Event>, raw: seq<Site>)
    requires Good(cfg, s, raw) && Runs(cfg, s, es)
    ensures Good(cfg, Exec(cfg, s, es), raw)
    decreases |es|
  {
    if es != [] {
      StepKeepsGood(cfg, s, es[0], raw);
      RunKeepsGood(cfg, Apply(cfg, s, es[0]), es[1..], raw);
    }
  }

  lemma {:induction false} RunConserves(cfg: Config, g: Weight, s: State, es: seq<Event>, raw: seq<Site>)
    requires Good(cfg, s, raw) && Runs(cfg, s, es)
    ensures Total(cfg, g, Exec(cfg, s, es)) == Total(cfg, g, s)
    decreases |es|
  {
    if es != [] {
      StepKeepsGood(cfg, s, es[0], raw);
      StepConserves(cfg, g, s, es[0]);
      RunConserves(cfg, g, Apply(cfg, s, es[0]), es[1..], raw);
    }
  }

  // ---- Exactly once --------------------------------------------------------

  lemma {:induction false} DistinctCounts(sites: seq<Site>, u: string)
    requires DistinctUrls(sites)
    ensures CountUrl(sites, u) <= 1
  {
    if sites != [] {
      DistinctCounts(sites[1..], u);
      if sites[0].url == u {
        NoneCount(sites[1..], u);
      }
    }
  }

  lemma DispatchedAreDistinct(cfg: Config, s: State, u: string)
    requires Tracked(cfg, s)
    ensures DistinctUrls(s.book.dispatched) && CountUrl(s.book.dispatched, u) <= 1
  {
    assert forall i :: 0 <= i < |s.book.dispatched| ==> s.book.dispatched[i] == Line(cfg, s)[i];
    DistinctCounts(s.book.dispatched, u);
  }

  /** Exactly-once finalisation, in every reachable state: a site's tracker is dropped
      at most once, and has been exactly when the site was dispatched and no longer has
      one; a worker always finds its site's tracker; a site whose tracker was dropped is
      settled or in one worker's hand; the outcomes recorded are the ones the API
      answers call for, whichever worker came last; and the counters say the same, up
      to the workers in between. */
  lemma FinalisedExactlyOnce(cfg: Config, raw: seq<Site>, userWorkers: nat, groupWorkers: nat,
                             signals: seq<(Throttle.ScaleAction, int)>, counts: seq<int>, es: seq<Event>)
    requires Legal(cfg, raw, userWorkers, groupWorkers, signals, counts)
    requires Runs(cfg, Initial(cfg, raw, userWorkers, groupWorkers, signals, counts), es)
    ensures var s := Exec(cfg, Initial(cfg, raw, userWorkers, groupWorkers, signals, counts), es);
            var b, c := s.book, s.book.counters;
            && (forall u :: CountUrl(b.finished, u) + (if u in b.trackers then 1 else 0) == CountUrl(b.dispatched, u) <= 1)
            && (forall i :: 0 <= i < |s.pool.workers| && s.pool.workers[i].pc.LookingUp? ==>
                  s.pool.workers[i].pc.site.url in b.trackers)
            && (forall site :: multiset(b.finished)[site] == multiset(b.settled)[site] + CountHand(s.pool.workers, site))
            && b.outcomes == ExpectedOutcomes(cfg, b.settled)
            && c.completed == |b.finished| - ClosingCount(s)
            && c.succeeded + c.failed == c.completed - SettlingCount(s) - FailingCount(s)
            && c.failed == |b.outcomes| - FailingCount(s)
  {
    var s0 := Initial(cfg, raw, userWorkers, groupWorkers, signals, counts);
    InitialGood(cfg, raw, userWorkers, groupWorkers, signals, counts);
    RunKeepsGood(cfg, s0, es, raw);
    var s := Exec(cfg, s0, es);
    forall u ensures CountUrl(s.book.finished, u) + (if u in s.book.trackers then 1 else 0) == CountUrl(s.book.dispatched, u) <= 1 {
      assert TrackedAt(cfg, s, u);
      DispatchedAreDistinct(cfg, s, u);
    }
    forall i | 0 <= i < |s.pool.workers| && s.pool.workers[i].pc.LookingUp?
      ensures s.pool.workers[i].pc.site.url in s.book.trackers
    {
      assert WorkerKnown(s, s.pool.workers[i]);
    }
    forall site ensures multiset(s.book.finished)[site] == multiset(s.book.settled)[site] + CountHand(s.pool.workers, site) {
      assert HandedOn(s, site);
    }
  }

  // ---- The final state -----------------------------------------------------

  lemma FinalHasNoTrackers(cfg: Config, s: State)
    requires Shape(cfg, s) && Tracked(cfg, s) && Final(s)
    ensures s.book.trackers == map[]
  {
    PipelineProgress.FinalIsEmpty(cfg, s);
    forall u ensures u !in s.book.trackers {
      assert TrackedAt(cfg, s, u);
      IdlePoolOwesNothing(s.pool.workers, UserRole, u);
      IdlePoolOwesNothing(s.pool.workers, GroupRole, u);
    }
  }

  lemma FinalTotals(cfg: Config, g: Weight, s: State)
    requires Shape(cfg, s) && Final(s)
    ensures Total(cfg, g, s) == Sum(s.down.enqueued, g)
    ensures UpstreamDue(cfg, g, s) == 0 && PoolUncounted(cfg, g, s.pool.workers) == 0
  {
    PipelineProgress.FinalIsEmpty(cfg, s);
    IdlePoolWeighsNothing(cfg, g, s.pool.workers);
    assert Ahead(cfg, s.up) == [];
  }

  /** Everything the dispatched sites bring, in some order. */
  function ItemsOf(cfg: Config, sites: seq<Site>): seq<Out> {
    if sites == [] then []
    else [SiteOut(cfg, sites[0])] + OutsOf(cfg, UserRole, sites[0])
         + (if cfg.processGroups then OutsOf(cfg, GroupRole, sites[0]) else [])
         + ItemsOf(cfg, sites[1..])
  }

  lemma {:induction false} ItemsWeigh(cfg: Config, g: Weight, sites: seq<Site>)
    ensures Sum(ItemsOf(cfg, sites), g) == SitesDue(cfg, g, sites)
  {
    if sites != [] {
      var own := [SiteOut(cfg, sites[0])];
      var users := OutsOf(cfg, UserRole, sites[0]);
      var groups := if cfg.processGroups then OutsOf(cfg, GroupRole, sites[0]) else [];
      var rest := ItemsOf(cfg, sites[1..]);
      ItemsWeigh(cfg, g, sites[1..]);
      SumAppend(own + users + groups, rest, g);
      SumAppend(own + users, groups, g);
      SumAppend(own, users, g);
      assert own[1..] == [];
    }
  }

  function Is(o: Out): Weight {
    (x: Out) => if x == o then 1 else 0
  }

  lemma {:induction false} SumIsMultiplicity(xs: seq<Out>, o: Out)
    ensures Sum(xs, Is(o)) == multiset(xs)[o]
  {
    if xs != [] {
      SumIsMultiplicity(xs[1..], o);
      assert xs == [xs[0]] + xs[1..];
    }
  }

  /** When the pipeline has finished, exactly the entities of the kept sites have
      been handed to the writer: none lost, none twice, none invented. */
  lemma NothingLostOrInvented(cfg: Config, raw: seq<Site>, userWorkers: nat, groupWorkers: nat,
                              signals: seq<(Throttle.ScaleAction, int)>, counts: seq<int>, es: seq<Event>)
    requires Legal(cfg, raw, userWorkers, groupWorkers, signals, counts)
    requires Runs(cfg, Initial(cfg, raw, userWorkers, groupWorkers, signals, counts), es)
    requires Final(Exec(cfg, Initial(cfg, raw, userWorkers, groupWorkers, signals, counts), es))
    ensures var s := Exec(cfg, Initial(cfg, raw, userWorkers, groupWorkers, signals, counts), es);
            multiset(s.down.enqueued) == multiset(ItemsOf(cfg, KeepAll(cfg, raw)))
  {
    var s0 := Initial(cfg, raw, userWorkers, groupWorkers, signals, counts);
    InitialGood(cfg, raw, userWorkers, groupWorkers, signals, counts);
    RunKeepsGood(cfg, s0, es, raw);
    var s := Exec(cfg, s0, es);
    var items := ItemsOf(cfg, KeepAll(cfg, raw));
    forall o: Out ensures multiset(s.down.enqueued)[o] == multiset(items)[o] {
      InitialTotals(cfg, Is(o), raw, userWorkers, groupWorkers, signals, counts);
      RunConserves(cfg, Is(o), s0, es, raw);
      FinalTotals(cfg, Is(o), s);
      ItemsWeigh(cfg, Is(o), KeepAll(cfg, raw));
      SumIsMultiplicity(s.down.enqueued, o);
      SumIsMultiplicity(items, o);
    }
  }

  lemma {:induction false} SitesDueCountsSites(cfg: Config, sites: seq<Site>)
    ensures SitesDue(cfg, IsSites, sites) == |sites|
  {
    if sites != [] {
      SitesDueCountsSites(cfg, sites[1..]);
      NoSiteRecords(cfg, UserRole, sites[0]);
      NoSiteRecords(cfg, GroupRole, sites[0]);
    }
  }

  lemma NoSiteRecords(cfg: Config, role: Role, site: Site)
    ensures Sum(OutsOf(cfg, role, site), IsSites) == 0
  {
    SumZero(OutsOf(cfg, role, site), IsSites);
  }

  lemma {:induction false} SiteWithinUrl(sites: seq<Site>, site: Site)
    ensures multiset(sites)[site] <= CountUrl(sites, site.url)
  {
    if sites != [] {
      SiteWithinUrl(sites[1..], site);
      assert sites == [sites[0]] + sites[1..];
    }
  }

  lemma DispatchedIsFinished(cfg: Config, s: State, site: Site)
    requires Tracked(cfg, s) && Balanced(s) && s.book.trackers == map[] && site in s.book.dispatched
    ensures site in s.book.finished
  {
    var dispatched, finished := s.book.dispatched, s.book.finished;
    var i :| 0 <= i < |dispatched| && dispatched[i] == site;
    assert TrackedAt(cfg, s, site.url);
    CountUrlMember(dispatched, i, site.url);
    if forall j :: 0 <= j < |finished| ==> finished[j].url != site.url {
      NoneCount(finished, site.url);
      assert false;
    }
    var j :| 0 <= j < |finished| && finished[j].url == site.url;
    assert finished[j] in dispatched;
    var k :| 0 <= k < |dispatched| && dispatched[k] == finished[j];
    DispatchedAreDistinct(cfg, s, site.url);
    assert i == k;
  }

  /** With no tracker left, each site was finished as often as it was dispatched. */
  lemma AllFinished(cfg: Config, s: State, site: Site)
    requires Tracked(cfg, s) && Balanced(s) && s.book.trackers == map[]
    ensures multiset(s.book.finished)[site] == multiset(s.book.dispatched)[site]
  {
    assert TrackedAt(cfg, s, site.url);
    DispatchedAreDistinct(cfg, s, site.url);
    SiteWithinUrl(s.book.finished, site);
    SiteWithinUrl(s.book.dispatched, site);
    if site in s.book.dispatched {
      DispatchedIsFinished(cfg, s, site);
      assert site in multiset(s.book.finished) && site in multiset(s.book.dispatched);
    } else {
      assert site !in multiset(s.book.finished) && site !in multiset(s.book.dispatched);
    }
  }

  lemma FinalIsSettled(cfg: Config, s: State, raw: seq<Site>)
    requires Good(cfg, s, raw) && Final(s)
    ensures multiset(s.book.settled) == multiset(s.book.dispatched)
    ensures var c := s.book.counters;
            c.dispatched == c.completed == c.succeeded + c.failed && c.failed == |s.book.outcomes|
  {
    PipelineProgress.FinalIsEmpty(cfg, s);
    FinalHasNoTrackers(cfg, s);
    QuietPoolHasNoneBetween(s);
    forall site ensures multiset(s.book.settled)[site] == multiset(s.book.dispatched)[site] {
      assert HandedOn(s, site);
      AllFinished(cfg, s, site);
    }
  }

  /** In the final state each counter holds what the kept sites bring of its kind. */
  lemma FinalCounter(cfg: Config, s: State, raw: seq<Site>, k: Kind)
    requires Good(cfg, s, raw) && Final(s)
    ensures CounterOf(s.book.counters, k) == SitesDue(cfg, KindWeight(k), KeepAll(cfg, raw))
  {
    if k == Sites {
      PipelineProgress.FinalIsEmpty(cfg, s);
      assert Line(cfg, s) == s.book.dispatched;
      SitesDueCountsSites(cfg, KeepAll(cfg, raw));
    } else {
      FinalTotals(cfg, KindWeight(k), s);
    }
  }

  /** End-to-end conservation when the pipeline has finished: every raw site was
      skipped for one reason or dispatched; every dispatched site was completed,
      as a success or a failure with one recorded outcome; no tracker is left; and
      the entities enqueued per kind are the counters. */
  lemma EndToEndConservation(cfg: Config, raw: seq<Site>, userWorkers: nat, groupWorkers: nat,
                             signals: seq<(Throttle.ScaleAction, int)>, counts: seq<int>, es: seq<Event>)
    requires Legal(cfg, raw, userWorkers, groupWorkers, signals, counts)
    requires Runs(cfg, Initial(cfg, raw, userWorkers, groupWorkers, signals, counts), es)
    requires Final(Exec(cfg, Initial(cfg, raw, userWorkers, groupWorkers, signals, counts), es))
    ensures var s := Exec(cfg, Initial(cfg, raw, userWorkers, groupWorkers, signals, counts), es);
            var b, c := s.book, s.book.counters;
            && b.dispatched == KeepAll(cfg, raw)
            && |raw| == c.skipTemplate + c.skipTenantRoot + c.dispatched
            && c.dispatched == c.completed == c.succeeded + c.failed
            && |b.outcomes| == c.failed
            && b.trackers == map[]
            && multiset(b.settled) == multiset(b.dispatched)
            && b.outcomes == ExpectedOutcomes(cfg, b.settled)
            && (forall k: Kind :: Sum(s.down.enqueued, KindWeight(k)) == CounterOf(c, k))
  {
    var s0 := Initial(cfg, raw, userWorkers, groupWorkers, signals, counts);
    InitialGood(cfg, raw, userWorkers, groupWorkers, signals, counts);
    RunKeepsGood(cfg, s0, es, raw);
    var s := Exec(cfg, s0, es);
    PipelineProgress.FinalIsEmpty(cfg, s);
    FinalHasNoTrackers(cfg, s);
    FinalIsSettled(cfg, s, raw);
    assert Ahead(cfg, s.up) == [];
    KeptPlusSkipped(cfg, raw);
    forall k: Kind ensures Sum(s.down.enqueued, KindWeight(k)) == CounterOf(s.book.counters, k) {
      InitialTotals(cfg, KindWeight(k), raw, userWorkers, groupWorkers, signals, counts);
      RunConserves(cfg, KindWeight(k), s0, es, raw);
      FinalTotals(cfg, KindWeight(k), s);
      FinalCounter(cfg, s, raw, k);
    }
  }
}
