/** Why the kept sites' URLs must be distinct: a run in which the second of two sites
    under one URL finds no tracker. */
module DuplicateSites {
  import Sums
  import opened PipelineModel
  import opened PipelineSettlement
  import opened PipelineWitnesses
  import Atomic = ThrottleAtomic

  /** Both sites are kept under one URL, and neither has users. */
  predicate Collide(cfg: Config, first: Site, second: Site) {
    && first.url == second.url && !cfg.processGroups
    && cfg.skip(first).Keep? && cfg.skip(second).Keep?
    && cfg.users(first) == UsersFetched([]) && cfg.users(second) == UsersFetched([])
  }

  /** One worker, and no signals. */
  function One(sem: int, pc: Atomic.Pc): Atomic.Atomics {
    Atomic.Atomics(1, 1, 1, sem, [Atomic.Worker(pc, 0)], Atomic.MIdle, 0, Atomic.Tuner([], 0))
  }

  function Solo(up: Sources, users: Chan<Site>, pc: Pc, scaler: Atomic.Atomics, sites: Chan<Entity>, book: Book): State {
    var open := Chan([], false);
    State(up, Queues(users, Chan([], up.dispatcher.DDone?)), Pool([Worker(UserRole, pc)], scaler),
          Sinks(PerKind(sites, open, open, open), PerKind(BReceive, BReceive, BDone, BDone), [], []), book)
  }

  function Supplied(second: Site, dispatched: seq<Site>): Book {
    Book(map[second.url := Tracker(second, 1, NO_USERS, NO_GROUPS)], [],
         Counters(|dispatched|, 0, 0, 0, 0, 0, 0, 0, 0), dispatched, [], [])
  }

  // ---- Both sites are dispatched ---------------------------------------------

  const FILTERING_TWO: seq<Event> :=
    [Filter(FilterTake), Filter(FilterSend), Filter(FilterTake), Filter(FilterSend), Filter(FilterClose)]

  function Ready(first: Site, second: Site): State {
    Solo(Sources([], FDone, Chan([first, second], true), DReceive), Chan([], false), Idle, One(1, Atomic.Outside),
         Chan([], false), NO_BOOK)
  }

  lemma FilterLeadsTwo(cfg: Config, first: Site, second: Site)
    requires Collide(cfg, first, second)
    ensures Leads(cfg, Initial(cfg, [first, second], 1, 0, [], []), FILTERING_TWO, Ready(first, second))
  {
    var s0, s5 := Initial(cfg, [first, second], 1, 0, [], []), Ready(first, second);
    assert s0 == s5.(up := Sources([first, second], FReceive, Chan([], false), DReceive)) by {
      assert StartPool(cfg, 1, 0) == [Worker(UserRole, Idle)];
      assert s0.pool.scaler.workers == [Atomic.Worker(Atomic.Outside, 0)];
      assert s0.pool.scaler.tuner.signals == [];
    }
    var s1 := s5.(up := Sources([second], FSend(first), Chan([], false), DReceive));
    var s2 := s5.(up := Sources([second], FReceive, Chan([first], false), DReceive));
    var s3 := s5.(up := Sources([], FSend(second), Chan([first], false), DReceive));
    var s4 := s5.(up := Sources([], FReceive, Chan([first, second], false), DReceive));
    assert [first, second][1..] == [second] && [second][1..] == [] && [] + [first] == [first] && [first] + [second] == [first, second];
    PathLeads(cfg, [s0, s1, s2, s3, s4, s5], FILTERING_TWO);
  }

  const DISPATCHING_TWO: seq<Event> :=
    [Dispatch(DispatchTake), Dispatch(DispatchSite), Dispatch(DispatchUser),
     Dispatch(DispatchTake), Dispatch(DispatchSite), Dispatch(DispatchUser), Dispatch(DispatchClose)]

  /** Both sites are queued; the tracker under their URL is the second one's. */
  function Queued(cfg: Config, users: seq<Site>, pc: Pc, scaler: Atomic.Atomics, first: Site, second: Site, book: Book): State {
    Solo(Sources([], FDone, Chan([], true), DDone), Chan(users, true), pc, scaler,
         Chan([cfg.entityOf(first), cfg.entityOf(second)], true), book)
  }

  lemma DispatchLeadsTwo(cfg: Config, first: Site, second: Site)
    requires Collide(cfg, first, second)
    ensures Leads(cfg, Ready(first, second), DISPATCHING_TWO,
                  Queued(cfg, [first, second], Idle, One(1, Atomic.Outside), first, second, Supplied(second, [first, second])))
  {
    var e1, e2, idle := cfg.entityOf(first), cfg.entityOf(second), One(1, Atomic.Outside);
    var b1, b2 := Supplied(first, [first]), Supplied(second, [first, second]);
    var open: Chan<Site> := Chan([], false);
    var left, none := Chan([second], true), Chan([], true);
    var s0 := Ready(first, second);
    var s1 := Solo(Sources([], FDone, left, DSites(first)), open, Idle, idle, Chan([], false), b1);
    var s2 := Solo(Sources([], FDone, left, DUsers(first)), open, Idle, idle, Chan([e1], false), b1);
    var s3 := Solo(Sources([], FDone, left, DReceive), Chan([first], false), Idle, idle, Chan([e1], false), b1);
    var s4 := Solo(Sources([], FDone, none, DSites(second)), Chan([first], false), Idle, idle, Chan([e1], false), b2);
    var s5 := Solo(Sources([], FDone, none, DUsers(second)), Chan([first], false), Idle, idle, Chan([e1, e2], false), b2);
    var s6 := Solo(Sources([], FDone, none, DReceive), Chan([first, second], false), Idle, idle, Chan([e1, e2], false), b2);
    var s7 := Queued(cfg, [first, second], Idle, idle, first, second, b2);
    assert [first, second][1..] == [second] && [second][1..] == [] && [] + [first] == [first] && [first] + [second] == [first, second];
    assert [] + [e1] == [e1] && [e1] + [e2] == [e1, e2];
    assert map[][first.url := Tracker(first, 1, NO_USERS, NO_GROUPS)] == b1.trackers;
    assert b1.trackers[second.url := Tracker(second, 1, NO_USERS, NO_GROUPS)] == b2.trackers;
    PathLeads(cfg, [s0, s1, s2, s3, s4, s5, s6, s7], DISPATCHING_TWO);
  }

  // ---- The worker takes them in turn -------------------------------------------

  /** The sole worker, and the scaler, after a step. */
  lemma SoloMoves(pc: Pc, to: Pc, at: Atomic.Pc, after: Atomic.Pc)
    ensures [Worker(UserRole, pc)][0 := Worker(UserRole, to)] == [Worker(UserRole, to)]
    ensures [Atomic.Worker(at, 0)][0 := Atomic.Worker(after, 0)] == [Atomic.Worker(after, 0)]
  {
  }

  lemma TakeAndAcquire(cfg: Config, site: Site, rest: seq<Site>, first: Site, second: Site, b: Book)
    ensures Leads(cfg, Queued(cfg, [site] + rest, Idle, One(1, Atomic.Outside), first, second, b), [Work(0, Take), Work(0, Acquire)],
                  Queued(cfg, rest, LookingUp(site), One(0, Atomic.Holding), first, second, b))
  {
    SoloMoves(Idle, Waiting(site), Atomic.Outside, Atomic.Holding);
    SoloMoves(Waiting(site), LookingUp(site), Atomic.Outside, Atomic.Holding);
    assert ([site] + rest)[1..] == rest;
    PathLeads(cfg, [Queued(cfg, [site] + rest, Idle, One(1, Atomic.Outside), first, second, b),
                    Queued(cfg, rest, Waiting(site), One(1, Atomic.Outside), first, second, b),
                    Queued(cfg, rest, LookingUp(site), One(0, Atomic.Holding), first, second, b)],
              [Work(0, Take), Work(0, Acquire)]);
  }

  const TREATING: seq<Event> := [Work(0, LookUp), Work(0, Fetch), Work(0, Count), Work(0, Decrement)]

  function CountedDown(first: Site, second: Site): Book {
    Supplied(second, [first, second]).(trackers := map[second.url := Tracker(second, 0, NO_USERS, NO_GROUPS)])
  }

  lemma TreatingLeads(cfg: Config, first: Site, second: Site, scaler: Atomic.Atomics)
    requires Collide(cfg, first, second)
    ensures Leads(cfg, Queued(cfg, [second], LookingUp(first), scaler, first, second, Supplied(second, [first, second])), TREATING,
                  Queued(cfg, [second], Last(first), scaler, first, second, CountedDown(first, second)))
  {
    var b, b' := Supplied(second, [first, second]), CountedDown(first, second);
    var at := Atomic.Holding;
    SoloMoves(LookingUp(first), Fetching(first), at, at);
    SoloMoves(Fetching(first), Sending(first, []), at, at);
    SoloMoves(Sending(first, []), Finishing(first), at, at);
    SoloMoves(Finishing(first), Last(first), at, at);
    assert OutsOf(cfg, UserRole, first) == [];
    assert b.trackers[first.url := b.trackers[first.url]] == b.trackers;
    assert b.trackers[first.url := b'.trackers[first.url]] == b'.trackers;
    PathLeads(cfg, [Queued(cfg, [second], LookingUp(first), scaler, first, second, b),
                    Queued(cfg, [second], Fetching(first), scaler, first, second, b),
                    Queued(cfg, [second], Sending(first, []), scaler, first, second, b),
                    Queued(cfg, [second], Finishing(first), scaler, first, second, b),
                    Queued(cfg, [second], Last(first), scaler, first, second, b')], TREATING);
  }

  const SETTLING: seq<Event> := [End(0, Finish), End(0, Complete), End(0, Settle)]

  /** The tracker is gone; how many sites have been counted so far. */
  function Gone(first: Site, second: Site, completed: nat, succeeded: nat, failed: nat, settled: seq<Site>): Book {
    Book(map[], [], Counters(2, completed, succeeded, failed, 0, 0, 0, 0, 0), [first, second], [second], settled)
  }

  lemma SettlingLeads(cfg: Config, first: Site, second: Site, scaler: Atomic.Atomics)
    requires Collide(cfg, first, second)
    ensures Leads(cfg, Queued(cfg, [second], Last(first), scaler, first, second, CountedDown(first, second)), SETTLING,
                  Queued(cfg, [second], Releasing, scaler, first, second, Gone(first, second, 1, 1, 0, [second])))
  {
    var t, at := Tracker(second, 0, NO_USERS, NO_GROUPS), Atomic.Holding;
    SoloMoves(Last(first), Closing(t), at, at);
    SoloMoves(Closing(t), Settling(t), at, at);
    SoloMoves(Settling(t), Releasing, at, at);
    assert CountedDown(first, second).trackers - {first.url} == map[] && [] + [second] == [second];
    PathLeads(cfg, [Queued(cfg, [second], Last(first), scaler, first, second, CountedDown(first, second)),
                    Queued(cfg, [second], Closing(t), scaler, first, second, Gone(first, second, 0, 0, 0, [])),
                    Queued(cfg, [second], Settling(t), scaler, first, second, Gone(first, second, 1, 0, 0, [])),
                    Queued(cfg, [second], Releasing, scaler, first, second, Gone(first, second, 1, 1, 0, [second]))], SETTLING);
  }

  const RELEASING: seq<Event> := [End(0, Release(LoadLive)), End(0, Release(LoadLimit)), End(0, Release(Return))]

  lemma ReleasingLeads(cfg: Config, first: Site, second: Site, b: Book)
    ensures Leads(cfg, Queued(cfg, [second], Releasing, One(0, Atomic.Holding), first, second, b), RELEASING,
                  Queued(cfg, [second], Idle, One(1, Atomic.Outside), first, second, b))
  {
    var live, both := Atomic.LoadedLive(1, 0), Atomic.LoadedBoth(1, 1, 0);
    SoloMoves(Releasing, Releasing, Atomic.Holding, live);
    SoloMoves(Releasing, Releasing, live, both);
    SoloMoves(Releasing, Idle, both, Atomic.Outside);
    PathLeads(cfg, [Queued(cfg, [second], Releasing, One(0, Atomic.Holding), first, second, b),
                    Queued(cfg, [second], Releasing, One(0, live), first, second, b),
                    Queued(cfg, [second], Releasing, One(0, both), first, second, b),
                    Queued(cfg, [second], Idle, One(1, Atomic.Outside), first, second, b)], RELEASING);
  }

  const MISSING: seq<Event> := [Work(0, LookUp), End(0, CountFailed)]

  lemma MissingLeads(cfg: Config, first: Site, second: Site, scaler: Atomic.Atomics)
    ensures Leads(cfg, Queued(cfg, [], LookingUp(second), scaler, first, second, Gone(first, second, 1, 1, 0, [second])), MISSING,
                  Queued(cfg, [], Releasing, scaler, first, second, Gone(first, second, 2, 1, 1, [second])))
  {
    SoloMoves(LookingUp(second), Failing(second), Atomic.Holding, Atomic.Holding);
    SoloMoves(Failing(second), Releasing, Atomic.Holding, Atomic.Holding);
    PathLeads(cfg, [Queued(cfg, [], LookingUp(second), scaler, first, second, Gone(first, second, 1, 1, 0, [second])),
                    Queued(cfg, [], Failing(second), scaler, first, second, Gone(first, second, 2, 1, 0, [second])),
                    Queued(cfg, [], Releasing, scaler, first, second, Gone(first, second, 2, 1, 1, [second]))], MISSING);
  }

  const TAKING: seq<Event> := [Work(0, Take), Work(0, Acquire)]

  const FIRST_SITE: seq<Event> := TAKING + TREATING + SETTLING + RELEASING

  lemma FirstSiteLeads(cfg: Config, first: Site, second: Site)
    requires Collide(cfg, first, second)
    ensures Leads(cfg, Queued(cfg, [first, second], Idle, One(1, Atomic.Outside), first, second, Supplied(second, [first, second])),
                  FIRST_SITE,
                  Queued(cfg, [second], Idle, One(1, Atomic.Outside), first, second, Gone(first, second, 1, 1, 0, [second])))
  {
    var free, held := One(1, Atomic.Outside), One(0, Atomic.Holding);
    var b, b', b'' := Supplied(second, [first, second]), CountedDown(first, second), Gone(first, second, 1, 1, 0, [second]);
    var s0 := Queued(cfg, [first, second], Idle, free, first, second, b);
    var s1 := Queued(cfg, [second], LookingUp(first), held, first, second, b);
    var s2 := Queued(cfg, [second], Last(first), held, first, second, b');
    var s3 := Queued(cfg, [second], Releasing, held, first, second, b'');
    assert [first, second] == [first] + [second];
    TakeAndAcquire(cfg, first, [second], first, second, b);
    TreatingLeads(cfg, first, second, held);
    SettlingLeads(cfg, first, second, held);
    ReleasingLeads(cfg, first, second, b'');
    LeadsOn(cfg, s0, TAKING, s1, TREATING, s2);
    LeadsOn(cfg, s0, TAKING + TREATING, s2, SETTLING, s3);
    LeadsOn(cfg, s0, TAKING + TREATING + SETTLING, s3, RELEASING, Queued(cfg, [second], Idle, free, first, second, b''));
  }

  const SECOND_SITE: seq<Event> := TAKING + MISSING

  lemma SecondSiteLeads(cfg: Config, first: Site, second: Site)
    ensures Leads(cfg, Queued(cfg, [second], Idle, One(1, Atomic.Outside), first, second, Gone(first, second, 1, 1, 0, [second])),
                  SECOND_SITE,
                  Queued(cfg, [], Releasing, One(0, Atomic.Holding), first, second, Gone(first, second, 2, 1, 1, [second])))
  {
    var free, held := One(1, Atomic.Outside), One(0, Atomic.Holding);
    var b := Gone(first, second, 1, 1, 0, [second]);
    assert [second] + [] == [second];
    TakeAndAcquire(cfg, second, [], first, second, b);
    MissingLeads(cfg, first, second, held);
    LeadsOn(cfg, Queued(cfg, [second], Idle, free, first, second, b), TAKING,
            Queued(cfg, [], LookingUp(second), held, first, second, b), MISSING,
            Queued(cfg, [], Releasing, held, first, second, Gone(first, second, 2, 1, 1, [second])));
  }

  const COLLIDING: seq<Event> := FILTERING_TWO + DISPATCHING_TWO + FIRST_SITE + SECOND_SITE

  lemma CollidingLeads(cfg: Config, s0: State, first: Site, second: Site)
    requires Collide(cfg, first, second) && Leads(cfg, s0, FILTERING_TWO, Ready(first, second))
    ensures Leads(cfg, s0, COLLIDING, Queued(cfg, [], Releasing, One(0, Atomic.Holding), first, second, Gone(first, second, 2, 1, 1, [second])))
  {
    var s1 := Ready(first, second);
    var s2 := Queued(cfg, [first, second], Idle, One(1, Atomic.Outside), first, second, Supplied(second, [first, second]));
    var s3 := Queued(cfg, [second], Idle, One(1, Atomic.Outside), first, second, Gone(first, second, 1, 1, 0, [second]));
    var s4 := Queued(cfg, [], Releasing, One(0, Atomic.Holding), first, second, Gone(first, second, 2, 1, 1, [second]));
    DispatchLeadsTwo(cfg, first, second);
    FirstSiteLeads(cfg, first, second);
    SecondSiteLeads(cfg, first, second);
    LeadsOn(cfg, s0, FILTERING_TWO, s1, DISPATCHING_TWO, s2);
    LeadsOn(cfg, s0, FILTERING_TWO + DISPATCHING_TWO, s2, FIRST_SITE, s3);
    LeadsOn(cfg, s0, FILTERING_TWO + DISPATCHING_TWO + FIRST_SITE, s3, SECOND_SITE, s4);
  }

  lemma SoloFailing(pc: Pc)
    requires !pc.Failing?
    ensures Sums.Sum([Worker(UserRole, pc)], IsFailing) == 0
  {
    Sums.SumZero([Worker(UserRole, pc)], IsFailing);
  }

  /** Of two sites dispatched under one URL before the first is processed, the second
      finds no tracker: it is counted as completed and failed, with no outcome and no
      worker in between. */
  lemma DuplicateUrlsBreakAccounting(cfg: Config, first: Site, second: Site)
    requires Collide(cfg, first, second)
    ensures var s0 := Initial(cfg, [first, second], 1, 0, [], []);
            && Runs(cfg, s0, COLLIDING)
            && var s := Exec(cfg, s0, COLLIDING);
            && FailingCount(s) == 0 && s.book.counters.failed == 1 && s.book.outcomes == []
            && s.book.counters.completed == 2 && |s.book.finished| == 1
  {
    FilterLeadsTwo(cfg, first, second);
    CollidingLeads(cfg, Initial(cfg, [first, second], 1, 0, [], []), first, second);
    SoloFailing(Releasing);
  }
}
