/** Whole runs of the pipeline, from its initial state, that come to rest unfinished:
    one site, one worker of each role, and a halving signal that fires once. */
module PipelineWitnesses {
  import opened Failures
  import opened PipelineModel
  import opened PipelineProgress
  import Atomic = ThrottleAtomic
  import Scaler = AtomicWitnesses

  /** The events lead from `s` to `t`. */
  ghost predicate Leads(cfg: Config, s: State, es: seq<Event>, t: State) {
    Runs(cfg, s, es) && Exec(cfg, s, es) == t
  }

  ghost predicate OneStep(cfg: Config, s: State, e: Event, t: State) {
    Enabled(cfg, s, e) && Apply(cfg, s, e) == t
  }

  lemma {:induction false} PathLeads(cfg: Config, states: seq<State>, es: seq<Event>)
    requires |states| == |es| + 1
    requires forall i :: 0 <= i < |es| ==> OneStep(cfg, states[i], es[i], states[i + 1])
    ensures Leads(cfg, states[0], es, states[|es|])
    decreases |es|
  {
    if es != [] {
      assert OneStep(cfg, states[0], es[0], states[1]);
      forall i | 0 <= i < |es[1..]| ensures OneStep(cfg, states[1..][i], es[1..][i], states[1..][i + 1]) {
        assert OneStep(cfg, states[i + 1], es[i + 1], states[i + 2]);
      }
      PathLeads(cfg, states[1..], es[1..]);
    }
  }

  lemma LeadsOn(cfg: Config, s: State, first: seq<Event>, t: State, second: seq<Event>, u: State)
    requires Leads(cfg, s, first, t) && Leads(cfg, t, second, u)
    ensures Leads(cfg, s, first + second, u)
  {
    RunConcat(cfg, s, first, second);
  }

  /** Groups are processed, and the API answers both calls for the site with an error. */
  predicate BothFail(cfg: Config, site: Site, failure: Failure) {
    && cfg.processGroups && cfg.writerCap >= 1 && cfg.skip(site).Keep?
    && cfg.users(site) == UsersError(failure) && cfg.groups(site) == GroupsError(failure)
  }

  function Pair(p0: Pc, p1: Pc): seq<Worker> {
    [Worker(UserRole, p0), Worker(GroupRole, p1)]
  }

  lemma PairMoves(p0: Pc, p1: Pc, p: Pc)
    ensures Pair(p0, p1)[0 := Pair(p0, p1)[0].(pc := p)] == Pair(p, p1)
    ensures Pair(p0, p1)[1 := Pair(p0, p1)[1].(pc := p)] == Pair(p0, p)
  {
  }

  // ---- The sources run dry -----------------------------------------------------

  /** The books while the site has its tracker. */
  function Open(site: Site, remaining: int, user: Option<Failure>, group: Option<Failure>): Book {
    Book(map[site.url := Tracker(site, remaining, UserPart(user, 0), GroupPart(group, 0, 0, 0, 0))], [],
         Counters(1, 0, 0, 0, 0, 0, 0, 0, 0), [site], [], [])
  }

  const NO_BOOK := Book(map[], [], Counters(0, 0, 0, 0, 0, 0, 0, 0, 0), [], [], [])

  function SinksWith(cfg: Config, sites: Chan<Entity>, bridge: BridgePc, writerIn: seq<Out>, enqueued: seq<Out>): Sinks {
    var open := Chan([], false);
    Sinks(PerKind(sites, open, open, open),
          PerKind(bridge, StartBridge(cfg, Users), StartBridge(cfg, Groups), StartBridge(cfg, Members)), writerIn, enqueued)
  }

  function Early(up: Sources, users: Chan<Site>, groups: Chan<Site>, down: Sinks, book: Book, scaler: Atomic.Atomics): State {
    State(up, Queues(users, groups), Pool(Pair(Idle, Idle), scaler), down, book)
  }

  function Start(cfg: Config, site: Site, scaler: Atomic.Atomics): State {
    Early(Sources([site], FReceive, Chan([], false), DReceive), Chan([], false), Chan([], false),
          SinksWith(cfg, Chan([], false), BReceive, [], []), NO_BOOK, scaler)
  }

  lemma InitialIsStart(cfg: Config, site: Site)
    requires cfg.processGroups
    ensures Initial(cfg, [site], 1, 1, Scaler.ACTIONS, [0])
         == Start(cfg, site, Scaler.Two(2, 2, 2, Atomic.Outside, Atomic.Outside, Atomic.MIdle, 0, Scaler.Tuned(0, 0, 0)))
  {
    assert StartPool(cfg, 1, 1) == Pair(Idle, Idle);
    Scaler.InitialIsTwo();
  }

  /** After the filter. */
  function Filtered(cfg: Config, site: Site, scaler: Atomic.Atomics): State {
    Early(Sources([], FDone, Chan([site], true), DReceive), Chan([], false), Chan([], false),
          SinksWith(cfg, Chan([], false), BReceive, [], []), NO_BOOK, scaler)
  }

  const FILTERING: seq<Event> := [Filter(FilterTake), Filter(FilterSend), Filter(FilterClose)]

  lemma FilterLeads(cfg: Config, site: Site, scaler: Atomic.Atomics)
    requires cfg.skip(site).Keep?
    ensures Leads(cfg, Start(cfg, site, scaler), FILTERING, Filtered(cfg, site, scaler))
  {
    var s := Start(cfg, site, scaler);
    var taken := s.(up := Sources([], FSend(site), Chan([], false), DReceive));
    var sent := s.(up := Sources([], FReceive, Chan([site], false), DReceive));
    PathLeads(cfg, [s, taken, sent, Filtered(cfg, site, scaler)], FILTERING);
  }

  /** After the dispatcher. */
  function Dispatched(cfg: Config, site: Site, scaler: Atomic.Atomics): State {
    Early(Sources([], FDone, Chan([], true), DDone), Chan([site], true), Chan([site], true),
          SinksWith(cfg, Chan([cfg.entityOf(site)], true), BReceive, [], []), Open(site, 2, None, None), scaler)
  }

  const DISPATCHING: seq<Event> :=
    [Dispatch(DispatchTake), Dispatch(DispatchSite), Dispatch(DispatchUser), Dispatch(DispatchGroup), Dispatch(DispatchClose)]

  lemma DispatchLeads(cfg: Config, site: Site, scaler: Atomic.Atomics)
    requires cfg.processGroups
    ensures Leads(cfg, Filtered(cfg, site, scaler), DISPATCHING, Dispatched(cfg, site, scaler))
  {
    var s := Filtered(cfg, site, scaler);
    var up := Sources([], FDone, Chan([], true), DSites(site));
    var taken := s.(up := up, book := Open(site, 2, None, None));
    var passed := taken.(up := up.(dispatcher := DUsers(site)),
                         down := SinksWith(cfg, Chan([cfg.entityOf(site)], false), BReceive, [], []));
    var toUsers := passed.(up := up.(dispatcher := DGroups(site)), queues := Queues(Chan([site], false), Chan([], false)));
    var toGroups := toUsers.(up := up.(dispatcher := DReceive), queues := Queues(Chan([site], false), Chan([site], false)));
    assert map[][site.url := Tracker(site, 2, NO_USERS, NO_GROUPS)] == taken.book.trackers;
    assert OneStep(cfg, s, Dispatch(DispatchTake), taken);
    assert [] + [cfg.entityOf(site)] == [cfg.entityOf(site)] && [] + [site] == [site];
    assert OneStep(cfg, taken, Dispatch(DispatchSite), passed);
    assert OneStep(cfg, passed, Dispatch(DispatchUser), toUsers);
    assert OneStep(cfg, toUsers, Dispatch(DispatchGroup), toGroups);
    assert OneStep(cfg, toGroups, Dispatch(DispatchClose), Dispatched(cfg, site, scaler));
    PathLeads(cfg, [s, taken, passed, toUsers, toGroups, Dispatched(cfg, site, scaler)], DISPATCHING);
  }

  /** Sources and queues are done, and the site's own record has been stored. */
  function Late(cfg: Config, site: Site, p0: Pc, p1: Pc, scaler: Atomic.Atomics, book: Book): State {
    State(Sources([], FDone, Chan([], true), DDone), Queues(Chan([], true), Chan([], true)), Pool(Pair(p0, p1), scaler),
          SinksWith(cfg, Chan([], true), BDone, [], [Out(Sites, cfg.entityOf(site))]), book)
  }

  const STORING: seq<Event> :=
    [Sink(BridgeTake(Sites)), Sink(BridgeEnqueue(Sites)), Sink(WriterTake), Sink(BridgeStop(Sites)), Work(0, Take), Work(1, Take)]

  lemma StoreLeads(cfg: Config, site: Site, scaler: Atomic.Atomics)
    requires cfg.writerCap >= 1
    ensures Leads(cfg, Dispatched(cfg, site, scaler), STORING,
                  Late(cfg, site, Waiting(site), Waiting(site), scaler, Open(site, 2, None, None)))
  {
    var s := Dispatched(cfg, site, scaler);
    var e, o := cfg.entityOf(site), Out(Sites, cfg.entityOf(site));
    var held := s.(down := SinksWith(cfg, Chan([], true), BHolding(e), [], []));
    var queued := s.(down := SinksWith(cfg, Chan([], true), BReceive, [o], [o]));
    var stored := s.(down := SinksWith(cfg, Chan([], true), BReceive, [], [o]));
    var stopped := s.(down := SinksWith(cfg, Chan([], true), BDone, [], [o]));
    var first := stopped.(queues := Queues(Chan([], true), Chan([site], true)), pool := Pool(Pair(Waiting(site), Idle), scaler));
    PairMoves(Idle, Idle, Waiting(site));
    PairMoves(Waiting(site), Idle, Waiting(site));
    assert [e][1..] == [] && [] + [o] == [o] && [o][1..] == [] && [site][1..] == [];
    assert OneStep(cfg, s, Sink(BridgeTake(Sites)), held);
    assert OneStep(cfg, held, Sink(BridgeEnqueue(Sites)), queued);
    assert OneStep(cfg, queued, Sink(WriterTake), stored);
    assert OneStep(cfg, stored, Sink(BridgeStop(Sites)), stopped);
    assert OneStep(cfg, stopped, Work(0, Take), first);
    assert OneStep(cfg, first, Work(1, Take), Late(cfg, site, Waiting(site), Waiting(site), scaler, Open(site, 2, None, None)));
    PathLeads(cfg, [s, held, queued, stored, stopped, first,
                    Late(cfg, site, Waiting(site), Waiting(site), scaler, Open(site, 2, None, None))], STORING);
  }

  // ---- The two workers ---------------------------------------------------------

  /** The first worker's call fails; it counts down and is left with its release. */
  lemma UserFails(cfg: Config, site: Site, failure: Failure, p1: Pc, scaler: Atomic.Atomics)
    requires BothFail(cfg, site, failure)
    ensures Leads(cfg, Late(cfg, site, LookingUp(site), p1, scaler, Open(site, 2, None, None)),
                  [Work(0, LookUp), Work(0, Fetch), Work(0, Decrement)],
                  Late(cfg, site, Releasing, p1, scaler, Open(site, 1, Some(failure), None)))
  {
    var b, noted, counted := Open(site, 2, None, None), Open(site, 2, Some(failure), None), Open(site, 1, Some(failure), None);
    PairMoves(LookingUp(site), p1, Fetching(site));
    PairMoves(Fetching(site), p1, Finishing(site));
    PairMoves(Finishing(site), p1, Releasing);
    assert b.trackers[site.url := noted.trackers[site.url]] == noted.trackers;
    assert noted.trackers[site.url := counted.trackers[site.url]] == counted.trackers;
    PathLeads(cfg, [Late(cfg, site, LookingUp(site), p1, scaler, b), Late(cfg, site, Fetching(site), p1, scaler, b),
                    Late(cfg, site, Finishing(site), p1, scaler, noted), Late(cfg, site, Releasing, p1, scaler, counted)],
              [Work(0, LookUp), Work(0, Fetch), Work(0, Decrement)]);
  }

  /** The second worker's call fails too, and it is the last on the site. */
  lemma GroupFailsLast(cfg: Config, site: Site, failure: Failure, p0: Pc, scaler: Atomic.Atomics)
    requires BothFail(cfg, site, failure)
    ensures Leads(cfg, Late(cfg, site, p0, LookingUp(site), scaler, Open(site, 1, Some(failure), None)),
                  [Work(1, LookUp), Work(1, Fetch), Work(1, Decrement)],
                  Late(cfg, site, p0, Last(site), scaler, Open(site, 0, Some(failure), Some(failure))))
  {
    var b := Open(site, 1, Some(failure), None);
    var noted, counted := Open(site, 1, Some(failure), Some(failure)), Open(site, 0, Some(failure), Some(failure));
    PairMoves(p0, LookingUp(site), Fetching(site));
    PairMoves(p0, Fetching(site), Finishing(site));
    PairMoves(p0, Finishing(site), Last(site));
    assert b.trackers[site.url := noted.trackers[site.url]] == noted.trackers;
    assert noted.trackers[site.url := counted.trackers[site.url]] == counted.trackers;
    PathLeads(cfg, [Late(cfg, site, p0, LookingUp(site), scaler, b), Late(cfg, site, p0, Fetching(site), scaler, b),
                    Late(cfg, site, p0, Finishing(site), scaler, noted), Late(cfg, site, p0, Last(site), scaler, counted)],
              [Work(1, LookUp), Work(1, Fetch), Work(1, Decrement)]);
  }

  function Failed(site: Site, failure: Failure): Outcome {
    Outcome(site, UserPart(Some(failure), 0), GroupPart(Some(failure), 0, 0, 0, 0))
  }

  /** The books once the tracker is dropped. */
  function Shut(site: Site, completed: nat, failed: nat, outcomes: seq<Outcome>, settled: seq<Site>): Book {
    Book(map[], outcomes, Counters(1, completed, 0, failed, 0, 0, 0, 0, 0), [site], [site], settled)
  }

  function Done(site: Site, failure: Failure): Book {
    Shut(site, 1, 1, [Failed(site, failure)], [site])
  }

  lemma LastWorkerSettles(cfg: Config, site: Site, failure: Failure, p0: Pc, scaler: Atomic.Atomics)
    ensures Leads(cfg, Late(cfg, site, p0, Last(site), scaler, Open(site, 0, Some(failure), Some(failure))),
                  [End(1, Finish), End(1, Complete), End(1, Settle), End(1, CountFailed)],
                  Late(cfg, site, p0, Releasing, scaler, Done(site, failure)))
  {
    var b, t := Open(site, 0, Some(failure), Some(failure)), Open(site, 0, Some(failure), Some(failure)).trackers[site.url];
    PairMoves(p0, Last(site), Closing(t));
    PairMoves(p0, Closing(t), Settling(t));
    PairMoves(p0, Settling(t), Failing(site));
    PairMoves(p0, Failing(site), Releasing);
    assert b.trackers - {site.url} == map[] && [] + [site] == [site];
    assert OutcomesWith([], t) == [Failed(site, failure)];
    PathLeads(cfg, [Late(cfg, site, p0, Last(site), scaler, b), Late(cfg, site, p0, Closing(t), scaler, Shut(site, 0, 0, [], [])),
                    Late(cfg, site, p0, Settling(t), scaler, Shut(site, 1, 0, [], [])),
                    Late(cfg, site, p0, Failing(site), scaler, Shut(site, 1, 0, [Failed(site, failure)], [site])),
                    Late(cfg, site, p0, Releasing, scaler, Done(site, failure))],
              [End(1, Finish), End(1, Complete), End(1, Settle), End(1, CountFailed)]);
  }

  // ---- Steps of the scaler inside the pipeline ---------------------------------

  lemma MonitorMoves(cfg: Config, site: Site, p0: Pc, p1: Pc, s: Atomic.Atomics, e: Atomic.Event, t: Atomic.Atomics, book: Book)
    requires Scaler.Step(s, e, t) && !Atomic.IsWorkerStep(e)
    ensures OneStep(cfg, Late(cfg, site, p0, p1, s, book), Monitor(e), Late(cfg, site, p0, p1, t, book))
  {
  }

  lemma FirstReleases(cfg: Config, site: Site, p1: Pc, s: Atomic.Atomics, op: ReleaseOp, t: Atomic.Atomics, book: Book)
    requires Scaler.Step(s, ReleaseStep(0, op), t)
    ensures OneStep(cfg, Late(cfg, site, Releasing, p1, s, book), End(0, Release(op)),
                    Late(cfg, site, if op.Return? || (op.Swallow? && !Atomic.CasFails(s, 0)) then Idle else Releasing, p1, t, book))
  {
    PairMoves(Releasing, p1, Idle);
    PairMoves(Releasing, p1, Releasing);
  }

  lemma SecondReleases(cfg: Config, site: Site, p0: Pc, s: Atomic.Atomics, op: ReleaseOp, t: Atomic.Atomics, book: Book)
    requires Scaler.Step(s, ReleaseStep(1, op), t) && !op.Return? && !op.Swallow?
    ensures OneStep(cfg, Late(cfg, site, p0, Releasing, s, book), End(1, Release(op)), Late(cfg, site, p0, Releasing, t, book))
  {
    PairMoves(p0, Releasing, Releasing);
  }

  lemma FirstAcquires(cfg: Config, site: Site, p1: Pc, s: Atomic.Atomics, t: Atomic.Atomics, book: Book)
    requires Scaler.Step(s, Atomic.Acquire(0), t)
    ensures OneStep(cfg, Late(cfg, site, Waiting(site), p1, s, book), Work(0, Acquire), Late(cfg, site, LookingUp(site), p1, t, book))
  {
    PairMoves(Waiting(site), p1, LookingUp(site));
  }

  lemma SecondAcquires(cfg: Config, site: Site, p0: Pc, s: Atomic.Atomics, t: Atomic.Atomics, book: Book)
    requires Scaler.Step(s, Atomic.Acquire(1), t)
    ensures OneStep(cfg, Late(cfg, site, p0, Waiting(site), s, book), Work(1, Acquire), Late(cfg, site, p0, LookingUp(site), t, book))
  {
    PairMoves(p0, Waiting(site), LookingUp(site));
  }

  lemma FirstExits(cfg: Config, site: Site, p1: Pc, s: Atomic.Atomics, book: Book)
    ensures OneStep(cfg, Late(cfg, site, Idle, p1, s, book), Work(0, Exit), Late(cfg, site, Exited, p1, s, book))
  {
    PairMoves(Idle, p1, Exited);
  }

  // ---- Starved -------------------------------------------------------------------

  const SUPPLY: seq<Event> := FILTERING + DISPATCHING + STORING

  lemma SupplyLeads(cfg: Config, site: Site, failure: Failure, scaler: Atomic.Atomics)
    requires BothFail(cfg, site, failure)
    ensures Leads(cfg, Start(cfg, site, scaler), SUPPLY,
                  Late(cfg, site, Waiting(site), Waiting(site), scaler, Open(site, 2, None, None)))
  {
    var waiting := Late(cfg, site, Waiting(site), Waiting(site), scaler, Open(site, 2, None, None));
    FilterLeads(cfg, site, scaler);
    DispatchLeads(cfg, site, scaler);
    StoreLeads(cfg, site, scaler);
    LeadsOn(cfg, Start(cfg, site, scaler), FILTERING, Filtered(cfg, site, scaler), DISPATCHING, Dispatched(cfg, site, scaler));
    LeadsOn(cfg, Start(cfg, site, scaler), FILTERING + DISPATCHING, Dispatched(cfg, site, scaler), STORING, waiting);
  }

  /** One worker is left, in front of an empty channel or of a full one. */
  lemma StandsStill(cfg: Config, site: Site, p1: Pc, scaler: Atomic.Atomics, book: Book)
    requires cfg.processGroups && scaler.monitor.MIdle? && |scaler.workers| == 2
    requires (p1.Waiting? && scaler.sem == 0)
             || (p1.Releasing? && Atomic.ReadyToSend(scaler, 1) && scaler.sem == scaler.max)
    ensures AtRest(cfg, Late(cfg, site, Exited, p1, scaler, book))
    ensures !Final(Late(cfg, site, Exited, p1, scaler, book))
  {
    var s := Late(cfg, site, Exited, p1, scaler, book);
    assert s.pool.workers[0].pc.Exited? && s.pool.workers[1].pc == p1;
    assert s.down.bridges.Get(Users).BReceive?;
    forall e | IsPipelineStep(e) ensures !Enabled(cfg, s, e) {
      NothingEnabled(cfg, site, p1, scaler, book, e);
    }
  }

  lemma NothingEnabled(cfg: Config, site: Site, p1: Pc, scaler: Atomic.Atomics, book: Book, e: Event)
    requires |scaler.workers| == 2 && IsPipelineStep(e)
    requires (p1.Waiting? && scaler.sem == 0)
             || (p1.Releasing? && Atomic.ReadyToSend(scaler, 1) && scaler.sem == scaler.max)
    ensures !Enabled(cfg, Late(cfg, site, Exited, p1, scaler, book), e)
  {
    var s := Late(cfg, site, Exited, p1, scaler, book);
    assert s.pool.workers[0].pc.Exited? && s.pool.workers[1].pc == p1;
    assert forall k: Kind :: s.down.out.Get(k).items == [];
    assert forall k: Kind :: s.down.out.Get(k).closed ==> s.down.bridges.Get(k).BDone?;
    assert forall k: Kind :: !s.down.bridges.Get(k).BHolding?;
  }

  const LOSING: seq<Event> :=
    [Monitor(Atomic.Tick(1, [1])), End(0, Release(LoadLive)), End(0, Release(LoadLimit)), End(0, Release(Swallow)),
     Monitor(Atomic.Drain), Monitor(Atomic.SubtractLive), Monitor(Atomic.FinishTick), Work(0, Exit)]

  /** The first worker's release swallows its token while the monitor is about to
      drain the other one. */
  lemma LosingLeads(cfg: Config, site: Site, book: Book, t0: Atomic.Tuner, t1: Atomic.Tuner)
    requires t0 == Scaler.Tuned(0, 0, 0) && t1 == Scaler.Tuned(1, 1, 1)
    ensures Leads(cfg, Late(cfg, site, Releasing, Waiting(site), Scaler.Two(2, 2, 1, Atomic.Holding, Atomic.Outside, Atomic.MIdle, 0, t0), book),
                  LOSING,
                  Late(cfg, site, Exited, Waiting(site), Scaler.Two(1, 0, 0, Atomic.Outside, Atomic.Outside, Atomic.MIdle, 2, t1), book))
  {
    var p1 := Waiting(site);
    var out, live, both := Atomic.Outside, Atomic.LoadedLive(2, 0), Atomic.LoadedBoth(2, 1, 0);
    var a0 := Scaler.Two(2, 2, 1, Atomic.Holding, out, Atomic.MIdle, 0, t0);
    var a1 := Scaler.Two(1, 2, 1, Atomic.Holding, out, Atomic.Draining(1), 0, t1);
    var a2 := Scaler.Two(1, 2, 1, live, out, Atomic.Draining(1), 0, t1);
    var a3 := Scaler.Two(1, 2, 1, both, out, Atomic.Draining(1), 0, t1);
    var a4 := Scaler.Two(1, 1, 1, out, out, Atomic.Draining(1), 1, t1);
    var a5 := Scaler.Two(1, 1, 0, out, out, Atomic.Drained(0), 1, t1);
    var a6 := Scaler.Two(1, 0, 0, out, out, Atomic.Draining(0), 2, t1);
    var a7 := Scaler.Two(1, 0, 0, out, out, Atomic.MIdle, 2, t1);
    Scaler.FireStep(2, 1, Atomic.Holding, out, 0);
    Scaler.SwallowSteps(t1);
    Scaler.DrainSteps(t1);
    MonitorMoves(cfg, site, Releasing, p1, a0, Atomic.Tick(1, [1]), a1, book);
    FirstReleases(cfg, site, p1, a1, LoadLive, a2, book);
    FirstReleases(cfg, site, p1, a2, LoadLimit, a3, book);
    FirstReleases(cfg, site, p1, a3, Swallow, a4, book);
    MonitorMoves(cfg, site, Idle, p1, a4, Atomic.Drain, a5, book);
    MonitorMoves(cfg, site, Idle, p1, a5, Atomic.SubtractLive, a6, book);
    MonitorMoves(cfg, site, Idle, p1, a6, Atomic.FinishTick, a7, book);
    FirstExits(cfg, site, p1, a7, book);
    PathLeads(cfg, [Late(cfg, site, Releasing, p1, a0, book), Late(cfg, site, Releasing, p1, a1, book),
                    Late(cfg, site, Releasing, p1, a2, book), Late(cfg, site, Releasing, p1, a3, book),
                    Late(cfg, site, Idle, p1, a4, book), Late(cfg, site, Idle, p1, a5, book), Late(cfg, site, Idle, p1, a6, book),
                    Late(cfg, site, Idle, p1, a7, book), Late(cfg, site, Exited, p1, a7, book)], LOSING);
  }

  const STARVING: seq<Event> :=
    SUPPLY + [Work(0, Acquire)] + [Work(0, LookUp), Work(0, Fetch), Work(0, Decrement)] + LOSING

  /** A run that ends starved: the site's second worker waits for a token, there is
      none, and only a tick can step. */
  lemma StarvedRun(cfg: Config, site: Site, failure: Failure)
    requires BothFail(cfg, site, failure)
    ensures Runs(cfg, Initial(cfg, [site], 1, 1, Scaler.ACTIONS, [0]), STARVING)
    ensures var s := Exec(cfg, Initial(cfg, [site], 1, 1, Scaler.ACTIONS, [0]), STARVING);
            AtRest(cfg, s) && Starved(s) && !Final(s) && s.book.counters.completed == 0
  {
    var t0, t1 := Scaler.Tuned(0, 0, 0), Scaler.Tuned(1, 1, 1);
    var full := Scaler.Two(2, 2, 2, Atomic.Outside, Atomic.Outside, Atomic.MIdle, 0, t0);
    var one := Scaler.Two(2, 2, 1, Atomic.Holding, Atomic.Outside, Atomic.MIdle, 0, t0);
    var none := Scaler.Two(1, 0, 0, Atomic.Outside, Atomic.Outside, Atomic.MIdle, 2, t1);
    var b2, b1 := Open(site, 2, None, None), Open(site, 1, Some(failure), None);
    var s0, w := Start(cfg, site, full), Waiting(site);
    InitialIsStart(cfg, site);
    SupplyLeads(cfg, site, failure, full);
    Scaler.AcquireStep(2, 2, 2, Atomic.Outside, Atomic.MIdle, 0, t0);
    FirstAcquires(cfg, site, w, full, one, b2);
    PathLeads(cfg, [Late(cfg, site, w, w, full, b2), Late(cfg, site, LookingUp(site), w, one, b2)], [Work(0, Acquire)]);
    LeadsOn(cfg, s0, SUPPLY, Late(cfg, site, w, w, full, b2), [Work(0, Acquire)], Late(cfg, site, LookingUp(site), w, one, b2));
    UserFails(cfg, site, failure, w, one);
    LeadsOn(cfg, s0, SUPPLY + [Work(0, Acquire)], Late(cfg, site, LookingUp(site), w, one, b2),
            [Work(0, LookUp), Work(0, Fetch), Work(0, Decrement)], Late(cfg, site, Releasing, w, one, b1));
    LosingLeads(cfg, site, b1, t0, t1);
    LeadsOn(cfg, s0, SUPPLY + [Work(0, Acquire)] + [Work(0, LookUp), Work(0, Fetch), Work(0, Decrement)],
            Late(cfg, site, Releasing, w, one, b1), LOSING, Late(cfg, site, Exited, w, none, b1));
    StandsStill(cfg, site, w, none, b1);
    assert Late(cfg, site, Exited, w, none, b1).pool.workers[1].pc.Waiting?;
    assert Atomic.Held(none) == 0;
  }

  // ---- Jammed --------------------------------------------------------------------

  const DECIDING: seq<Event> :=
    [End(0, Release(LoadLive)), End(0, Release(LoadLimit)), End(1, Release(LoadLive)), End(1, Release(LoadLimit))]

  /** Both workers decide to return their tokens. */
  lemma DecidingLeads(cfg: Config, site: Site, book: Book, t0: Atomic.Tuner)
    ensures Leads(cfg, Late(cfg, site, Releasing, Releasing, Scaler.Two(2, 2, 0, Atomic.Holding, Atomic.Holding, Atomic.MIdle, 0, t0), book),
                  DECIDING,
                  Late(cfg, site, Releasing, Releasing, Scaler.Two(2, 2, 0, Scaler.DECIDED, Scaler.DECIDED, Atomic.MIdle, 0, t0), book))
  {
    var r, live, both := Releasing, Atomic.LoadedLive(2, 0), Scaler.DECIDED;
    var a0 := Scaler.Two(2, 2, 0, Atomic.Holding, Atomic.Holding, Atomic.MIdle, 0, t0);
    var a1 := Scaler.Two(2, 2, 0, live, Atomic.Holding, Atomic.MIdle, 0, t0);
    var a2 := Scaler.Two(2, 2, 0, both, Atomic.Holding, Atomic.MIdle, 0, t0);
    var a3 := Scaler.Two(2, 2, 0, both, live, Atomic.MIdle, 0, t0);
    var a4 := Scaler.Two(2, 2, 0, both, both, Atomic.MIdle, 0, t0);
    Scaler.DecideFirstSteps(t0);
    Scaler.DecideSecondSteps(t0);
    FirstReleases(cfg, site, r, a0, LoadLive, a1, book);
    FirstReleases(cfg, site, r, a1, LoadLimit, a2, book);
    SecondReleases(cfg, site, r, a2, LoadLive, a3, book);
    SecondReleases(cfg, site, r, a3, LoadLimit, a4, book);
    PathLeads(cfg, [Late(cfg, site, r, r, a0, book), Late(cfg, site, r, r, a1, book), Late(cfg, site, r, r, a2, book),
                    Late(cfg, site, r, r, a3, book), Late(cfg, site, r, r, a4, book)], DECIDING);
  }

  const FILLING: seq<Event> :=
    [Monitor(Atomic.Tick(1, [1])), Monitor(Atomic.Drain), Monitor(Atomic.FinishTick),
     Monitor(Atomic.Tick(11, [1])), Monitor(Atomic.Add), Monitor(Atomic.AddLive), Monitor(Atomic.FinishTick),
     End(0, Release(Return)), Work(0, Exit)]

  /** The limit goes down and up again, which adds a third token, and the first
      worker returns its own: the channel is full. */
  lemma FillingLeads(cfg: Config, site: Site, book: Book, t0: Atomic.Tuner, t1: Atomic.Tuner, t2: Atomic.Tuner)
    requires t0 == Scaler.Tuned(0, 0, 0) && t1 == Scaler.Tuned(1, 1, 1) && t2 == Scaler.Tuned(1, 11, 11)
    ensures Leads(cfg, Late(cfg, site, Releasing, Releasing, Scaler.Two(2, 2, 0, Scaler.DECIDED, Scaler.DECIDED, Atomic.MIdle, 0, t0), book),
                  FILLING,
                  Late(cfg, site, Exited, Releasing, Scaler.Two(2, 3, 2, Atomic.Outside, Scaler.DECIDED, Atomic.MIdle, 1, t2), book))
  {
    var r, d, m := Releasing, Scaler.DECIDED, Atomic.MIdle;
    var a0 := Scaler.Two(2, 2, 0, d, d, m, 0, t0);
    var a1 := Scaler.Two(1, 2, 0, d, d, Atomic.Draining(1), 0, t1);
    var a2 := Scaler.Two(1, 2, 0, d, d, Atomic.Draining(0), 0, t1);
    var a3 := Scaler.Two(1, 2, 0, d, d, m, 0, t1);
    var a4 := Scaler.Two(2, 2, 0, d, d, Atomic.Adding(1), 0, t2);
    var a5 := Scaler.Two(2, 2, 1, d, d, Atomic.Added(0), 0, t2);
    var a6 := Scaler.Two(2, 3, 1, d, d, Atomic.Adding(0), 1, t2);
    var a7 := Scaler.Two(2, 3, 1, d, d, m, 1, t2);
    var a8 := Scaler.Two(2, 3, 2, Atomic.Outside, d, m, 1, t2);
    Scaler.FireStep(2, 0, d, d, 0);
    Scaler.CoolStep(2, 0, d, d, 0);
    Scaler.DownAndUpSteps();
    Scaler.SendStep(t2);
    MonitorMoves(cfg, site, r, r, a0, Atomic.Tick(1, [1]), a1, book);
    MonitorMoves(cfg, site, r, r, a1, Atomic.Drain, a2, book);
    MonitorMoves(cfg, site, r, r, a2, Atomic.FinishTick, a3, book);
    MonitorMoves(cfg, site, r, r, a3, Atomic.Tick(11, [1]), a4, book);
    MonitorMoves(cfg, site, r, r, a4, Atomic.Add, a5, book);
    MonitorMoves(cfg, site, r, r, a5, Atomic.AddLive, a6, book);
    MonitorMoves(cfg, site, r, r, a6, Atomic.FinishTick, a7, book);
    FirstReleases(cfg, site, r, a7, Return, a8, book);
    FirstExits(cfg, site, r, a8, book);
    PathLeads(cfg, [Late(cfg, site, r, r, a0, book), Late(cfg, site, r, r, a1, book), Late(cfg, site, r, r, a2, book),
                    Late(cfg, site, r, r, a3, book), Late(cfg, site, r, r, a4, book), Late(cfg, site, r, r, a5, book),
                    Late(cfg, site, r, r, a6, book), Late(cfg, site, r, r, a7, book), Late(cfg, site, Idle, r, a8, book),
                    Late(cfg, site, Exited, r, a8, book)], FILLING);
  }

  const ADMITTING: seq<Event> := [Work(0, Acquire), Work(1, Acquire)]
  const FAILING: seq<Event> :=
    [Work(0, LookUp), Work(0, Fetch), Work(0, Decrement)] + [Work(1, LookUp), Work(1, Fetch), Work(1, Decrement)]
    + [End(1, Finish), End(1, Complete), End(1, Settle), End(1, CountFailed)]

  /** Both workers are admitted. */
  lemma AdmittingLeads(cfg: Config, site: Site, book: Book, t0: Atomic.Tuner)
    ensures Leads(cfg, Late(cfg, site, Waiting(site), Waiting(site), Scaler.Two(2, 2, 2, Atomic.Outside, Atomic.Outside, Atomic.MIdle, 0, t0), book),
                  ADMITTING,
                  Late(cfg, site, LookingUp(site), LookingUp(site), Scaler.Two(2, 2, 0, Atomic.Holding, Atomic.Holding, Atomic.MIdle, 0, t0), book))
  {
    var w, l := Waiting(site), LookingUp(site);
    var full := Scaler.Two(2, 2, 2, Atomic.Outside, Atomic.Outside, Atomic.MIdle, 0, t0);
    var one := Scaler.Two(2, 2, 1, Atomic.Holding, Atomic.Outside, Atomic.MIdle, 0, t0);
    var none := Scaler.Two(2, 2, 0, Atomic.Holding, Atomic.Holding, Atomic.MIdle, 0, t0);
    Scaler.AcquireBothSteps(t0);
    FirstAcquires(cfg, site, w, full, one, book);
    SecondAcquires(cfg, site, l, one, none, book);
    PathLeads(cfg, [Late(cfg, site, w, w, full, book), Late(cfg, site, l, w, one, book), Late(cfg, site, l, l, none, book)], ADMITTING);
  }

  /** Both calls fail, and the site is settled as a failure. */
  lemma FailingLeads(cfg: Config, site: Site, failure: Failure, scaler: Atomic.Atomics)
    requires BothFail(cfg, site, failure)
    ensures Leads(cfg, Late(cfg, site, LookingUp(site), LookingUp(site), scaler, Open(site, 2, None, None)), FAILING,
                  Late(cfg, site, Releasing, Releasing, scaler, Done(site, failure)))
  {
    var r, l := Releasing, LookingUp(site);
    var b0, b1, b2 := Open(site, 2, None, None), Open(site, 1, Some(failure), None), Open(site, 0, Some(failure), Some(failure));
    var user, group := [Work(0, LookUp), Work(0, Fetch), Work(0, Decrement)], [Work(1, LookUp), Work(1, Fetch), Work(1, Decrement)];
    UserFails(cfg, site, failure, l, scaler);
    GroupFailsLast(cfg, site, failure, r, scaler);
    LastWorkerSettles(cfg, site, failure, r, scaler);
    LeadsOn(cfg, Late(cfg, site, l, l, scaler, b0), user, Late(cfg, site, r, l, scaler, b1), group,
            Late(cfg, site, r, Last(site), scaler, b2));
    LeadsOn(cfg, Late(cfg, site, l, l, scaler, b0), user + group, Late(cfg, site, r, Last(site), scaler, b2),
            [End(1, Finish), End(1, Complete), End(1, Settle), End(1, CountFailed)],
            Late(cfg, site, r, r, scaler, Done(site, failure)));
  }

  const JAMMING: seq<Event> := SUPPLY + ADMITTING + FAILING + DECIDING + FILLING

  /** A run that ends jammed: the last worker cannot return its token, so the entity
      channels are never closed, although every site is settled. */
  lemma JammedRun(cfg: Config, site: Site, failure: Failure)
    requires BothFail(cfg, site, failure)
    ensures Runs(cfg, Initial(cfg, [site], 1, 1, Scaler.ACTIONS, [0]), JAMMING)
    ensures var s := Exec(cfg, Initial(cfg, [site], 1, 1, Scaler.ACTIONS, [0]), JAMMING);
            AtRest(cfg, s) && Jammed(s) && !Final(s) && s.book.counters.completed == 1
  {
    var t0, t1, t2 := Scaler.Tuned(0, 0, 0), Scaler.Tuned(1, 1, 1), Scaler.Tuned(1, 11, 11);
    var full := Scaler.Two(2, 2, 2, Atomic.Outside, Atomic.Outside, Atomic.MIdle, 0, t0);
    var none := Scaler.Two(2, 2, 0, Atomic.Holding, Atomic.Holding, Atomic.MIdle, 0, t0);
    var decided := Scaler.Two(2, 2, 0, Scaler.DECIDED, Scaler.DECIDED, Atomic.MIdle, 0, t0);
    var jam := Scaler.Two(2, 3, 2, Atomic.Outside, Scaler.DECIDED, Atomic.MIdle, 1, t2);
    var r, l, w := Releasing, LookingUp(site), Waiting(site);
    var s0, b2, done := Start(cfg, site, full), Open(site, 2, None, None), Done(site, failure);
    InitialIsStart(cfg, site);
    SupplyLeads(cfg, site, failure, full);
    AdmittingLeads(cfg, site, b2, t0);
    FailingLeads(cfg, site, failure, none);
    DecidingLeads(cfg, site, done, t0);
    FillingLeads(cfg, site, done, t0, t1, t2);
    LeadsOn(cfg, s0, SUPPLY, Late(cfg, site, w, w, full, b2), ADMITTING, Late(cfg, site, l, l, none, b2));
    LeadsOn(cfg, s0, SUPPLY + ADMITTING, Late(cfg, site, l, l, none, b2), FAILING, Late(cfg, site, r, r, none, done));
    LeadsOn(cfg, s0, SUPPLY + ADMITTING + FAILING, Late(cfg, site, r, r, none, done), DECIDING, Late(cfg, site, r, r, decided, done));
    LeadsOn(cfg, s0, SUPPLY + ADMITTING + FAILING + DECIDING, Late(cfg, site, r, r, decided, done), FILLING,
            Late(cfg, site, Exited, r, jam, done));
    StandsStill(cfg, site, r, jam, done);
    assert BlockedAtSend(Late(cfg, site, Exited, r, jam, done), 1);
  }
}
