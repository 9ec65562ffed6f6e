/** What one worker does to the shared site state when nothing interrupts it, as a
    function; the last of a site's workers settles it the same way in any order. */
module SiteProcessing {
  import opened Failures
  import opened PipelineModel
  import opened PipelineStructure
  import opened PipelineOutcomes

  /** Trackers, outcomes and counters: all that the workers of a site share. */
  datatype View = View(trackers: map<string, Tracker>, outcomes: seq<Outcome>, counters: Counters)

  function ViewOf(s: State): View {
    View(s.book.trackers, s.book.outcomes, s.book.counters)
  }

  function TrackerAt(v: View, site: Site): Tracker {
    if site.url in v.trackers then v.trackers[site.url] else Tracker(site, 0, NO_USERS, NO_GROUPS)
  }

  function Put(v: View, site: Site, t: Tracker): View {
    v.(trackers := v.trackers[site.url := t])
  }

  function Register(cfg: Config, v: View, site: Site): View {
    Put(v, site, Tracker(site, WorkersPerSite(cfg), NO_USERS, NO_GROUPS)).(
    counters := v.counters.(dispatched := v.counters.dispatched + 1))
  }

  function RegisterAll(cfg: Config, v: View, sites: seq<Site>): View
    decreases |sites|
  {
    if sites == [] then v else RegisterAll(cfg, Register(cfg, v, sites[0]), sites[1..])
  }

  lemma {:induction false} RegisterAllSnoc(cfg: Config, v: View, sites: seq<Site>, site: Site)
    ensures RegisterAll(cfg, v, sites + [site]) == Register(cfg, RegisterAll(cfg, v, sites), site)
    decreases |sites|
  {
    if sites == [] {
      assert sites + [site] == [site] && [site][1..] == [];
    } else {
      assert (sites + [site])[1..] == sites[1..] + [site];
      RegisterAllSnoc(cfg, Register(cfg, v, sites[0]), sites[1..], site);
    }
  }

  predicate FetchFails(cfg: Config, role: Role, site: Site) {
    match role
    case UserRole => cfg.users(site).UsersError?
    case GroupRole => cfg.groups(site).GroupsError?
  }

  function AfterFetch(cfg: Config, v: View, role: Role, site: Site): View {
    var t := TrackerAt(v, site);
    match role
    case UserRole =>
      (match cfg.users(site)
       case UsersError(f) => Put(v, site, t.(user := t.user.(failure := Some(f))))
       case UsersFetched(_) => v)
    case GroupRole =>
      (match cfg.groups(site)
       case GroupsError(f) => Put(v, site, t.(group := t.group.(failure := Some(f))))
       case GroupsFetched(_, _, errors, timeouts) =>
         Put(v, site, t.(group := t.group.(memberErrors := errors, memberTimeouts := timeouts))))
  }

  function AfterCount(cfg: Config, v: View, role: Role, site: Site): View {
    var t := TrackerAt(v, site);
    match role
    case UserRole =>
      (match cfg.users(site)
       case UsersError(_) => v
       case UsersFetched(users) =>
         Put(v, site, t.(user := t.user.(fetched := |users|))).(
         counters := v.counters.(users := v.counters.users + |users|)))
    case GroupRole =>
      (match cfg.groups(site)
       case GroupsError(_) => v
       case GroupsFetched(groups, members, _, _) =>
         var sent := if cfg.processMembers then |members| else 0;
         Put(v, site, t.(group := t.group.(groups := |groups|, members := if cfg.processMembers then sent else t.group.members))).(
         counters := v.counters.(groups := v.counters.groups + |groups|, members := v.counters.members + sent)))
  }

  function CountVerdict(c: Counters, failed: bool): Counters {
    if failed then c.(failed := c.failed + 1) else c.(succeeded := c.succeeded + 1)
  }

  function CountFinished(c: Counters, failed: bool): Counters {
    CountVerdict(c.(completed := c.completed + 1), failed)
  }

  function CloseOut(v: View, site: Site): View {
    var t := TrackerAt(v, site);
    View(v.trackers - {site.url}, OutcomesWith(v.outcomes, t), CountFinished(v.counters, HasFailed(t.user, t.group)))
  }

  function Finalize(v: View, site: Site): View {
    var t := TrackerAt(v, site);
    var left := Put(v, site, t.(remaining := t.remaining - 1));
    if t.remaining == 1 then CloseOut(left, site) else left
  }

  /** A worker's whole treatment of one site. */
  function AfterWorker(cfg: Config, v: View, role: Role, site: Site): View {
    if site.url !in v.trackers then v.(counters := CountFinished(v.counters, true))
    else if FetchFails(cfg, role, site) then Finalize(AfterFetch(cfg, v, role, site), site)
    else Finalize(AfterCount(cfg, AfterFetch(cfg, v, role, site), role, site), site)
  }

  // ---- The transition system agrees ------------------------------------------

  /** The view once a worker at `pc` has finished its site. */
  function Rest(cfg: Config, v: View, role: Role, pc: Pc): View {
    match pc
    case LookingUp(site) => AfterWorker(cfg, v, role, site)
    case Fetching(site) =>
      if FetchFails(cfg, role, site) then Finalize(AfterFetch(cfg, v, role, site), site)
      else Finalize(AfterCount(cfg, AfterFetch(cfg, v, role, site), role, site), site)
    case Sending(site, _) => Finalize(AfterCount(cfg, v, role, site), site)
    case Finishing(site) => Finalize(v, site)
    case Last(site) => CloseOut(v, site)
    case Closing(t) =>
      v.(outcomes := OutcomesWith(v.outcomes, t), counters := CountFinished(v.counters, HasFailed(t.user, t.group)))
    case Settling(t) =>
      v.(outcomes := OutcomesWith(v.outcomes, t), counters := CountVerdict(v.counters, HasFailed(t.user, t.group)))
    case Failing(_) => v.(counters := CountVerdict(v.counters, true))
    case _ => v
  }

  /** Dispatching a site registers it. */
  lemma DispatchAgrees(cfg: Config, s: State)
    requires s.up.filtered.items != []
    ensures ViewOf(DispatchNext(cfg, s)) == Register(cfg, ViewOf(s), s.up.filtered.items[0])
  {
  }

  /** A step of worker `w` on a site whose token it holds. */
  predicate IsSiteStep(e: Event, w: nat) {
    || (e.Work? && e.w == w && !e.act.Take? && !e.act.Exit? && !e.act.Acquire?)
    || (e.End? && e.w == w && !e.ending.Release?)
  }

  function RestOf(cfg: Config, s: State, w: nat): View
    requires w < |s.pool.workers|
  {
    Rest(cfg, ViewOf(s), s.pool.workers[w].role, s.pool.workers[w].pc)
  }

  lemma FetchStepAgrees(cfg: Config, s: State, w: nat)
    requires WorkerEnabled(s, w, Fetch)
    ensures RestOf(cfg, FetchSite(cfg, s, w), w) == RestOf(cfg, s, w)
  {
    var t := FetchSite(cfg, s, w);
    assert ViewOf(t) == AfterFetch(cfg, ViewOf(s), s.pool.workers[w].role, s.pool.workers[w].pc.site);
  }

  lemma CountStepAgrees(cfg: Config, s: State, w: nat)
    requires WorkerEnabled(s, w, Count)
    ensures RestOf(cfg, CountSite(cfg, s, w), w) == RestOf(cfg, s, w)
  {
    var t := CountSite(cfg, s, w);
    assert ViewOf(t) == AfterCount(cfg, ViewOf(s), s.pool.workers[w].role, s.pool.workers[w].pc.site);
  }

  lemma WorkerStepAgrees(cfg: Config, s: State, w: nat, act: WorkerAct)
    requires IsSiteStep(Work(w, act), w) && WorkerEnabled(s, w, act)
    ensures RestOf(cfg, ApplyWorker(cfg, s, w, act), w) == RestOf(cfg, s, w)
  {
    if act.Fetch? {
      FetchStepAgrees(cfg, s, w);
    } else if act.Count? {
      CountStepAgrees(cfg, s, w);
    }
  }

  lemma EndStepAgrees(cfg: Config, s: State, w: nat, ending: EndAct)
    requires !ending.Release? && EndEnabled(s, w, ending)
    ensures RestOf(cfg, ApplyEnd(s, w, ending), w) == RestOf(cfg, s, w)
  {
  }

  lemma StepAgrees(cfg: Config, s: State, e: Event, w: nat)
    requires IsSiteStep(e, w) && Enabled(cfg, s, e)
    ensures var t := Apply(cfg, s, e);
            && w < |s.pool.workers| == |t.pool.workers|
            && t.pool.workers[w].role == s.pool.workers[w].role
            && RestOf(cfg, t, w) == RestOf(cfg, s, w)
  {
    match e
    case Work(_, act) =>
      WorkerStepFrame(cfg, s, w, act);
      WorkerStepAgrees(cfg, s, w, act);
    case End(_, ending) =>
      EndFrame(s, w, ending);
      EndStepAgrees(cfg, s, w, ending);
  }

  /** A worker that runs from its tracker lookup until it releases its token, with
      no step of another goroutine in between, does exactly `AfterWorker`. */
  lemma {:induction false} UninterruptedWorker(cfg: Config, s: State, w: nat, es: seq<Event>)
    requires w < |s.pool.workers| && (forall j :: 0 <= j < |es| ==> IsSiteStep(es[j], w)) && Runs(cfg, s, es)
    ensures var t := Exec(cfg, s, es);
            && w < |t.pool.workers|
            && RestOf(cfg, t, w) == RestOf(cfg, s, w)
            && (s.pool.workers[w].pc.LookingUp? && t.pool.workers[w].pc.Releasing? ==>
                  ViewOf(t) == AfterWorker(cfg, ViewOf(s), s.pool.workers[w].role, s.pool.workers[w].pc.site))
    decreases |es|
  {
    if es != [] {
      assert IsSiteStep(es[0], w);
      StepAgrees(cfg, s, es[0], w);
      UninterruptedWorker(cfg, Apply(cfg, s, es[0]), w, es[1..]);
    }
  }

  /** The two updates of a successful group worker, taken together. */
  function GroupsStored(cfg: Config, v: View, site: Site, r: GroupsResult): View
    requires r.GroupsFetched?
  {
    var t := TrackerAt(v, site);
    var sent := if cfg.processMembers then |r.members| else 0;
    var members := if cfg.processMembers then sent else t.group.members;
    Put(v, site, t.(group := GroupPart(t.group.failure, |r.groups|, members, r.memberErrors, r.memberTimeouts))).(
    counters := v.counters.(groups := v.counters.groups + |r.groups|, members := v.counters.members + sent))
  }

  lemma GroupsFetchedAndCounted(cfg: Config, v: View, site: Site)
    requires site.url in v.trackers && cfg.groups(site).GroupsFetched?
    ensures AfterCount(cfg, AfterFetch(cfg, v, GroupRole, site), GroupRole, site) == GroupsStored(cfg, v, site, cfg.groups(site))
  {
    var fetched := AfterFetch(cfg, v, GroupRole, site);
    assert fetched.trackers[site.url := AfterCount(cfg, fetched, GroupRole, site).trackers[site.url]]
        == v.trackers[site.url := AfterCount(cfg, fetched, GroupRole, site).trackers[site.url]];
  }

  // ---- Order of the two workers ----------------------------------------------

  /** What dispatching and processing one site comes to: its counts are added, one
      outcome is recorded if it failed, and no tracker is left. */
  function Settled(cfg: Config, v: View, site: Site): View {
    var failed := ExpectFailure(cfg, site);
    var user, group := ExpectedUser(cfg, site), ExpectedGroup(cfg, site);
    var c := v.counters;
    View(v.trackers,
         if failed then v.outcomes + [Outcome(site, user, group)] else v.outcomes,
         c.(dispatched := c.dispatched + 1, completed := c.completed + 1,
            failed := if failed then c.failed + 1 else c.failed,
            succeeded := if failed then c.succeeded else c.succeeded + 1,
            users := c.users + user.fetched, groups := c.groups + group.groups, members := c.members + group.members))
  }

  lemma PartAfterWorker(cfg: Config, v: View, role: Role, site: Site)
    requires site.url in v.trackers && v.trackers[site.url].remaining == 2 && cfg.processGroups
    requires role.UserRole? ==> v.trackers[site.url].user == NO_USERS
    requires role.GroupRole? ==> v.trackers[site.url].group == NO_GROUPS
    ensures var t := v.trackers[site.url];
            var u := AfterWorker(cfg, v, role, site);
            && u.outcomes == v.outcomes
            && u.trackers == v.trackers[site.url :=
                 if role.UserRole? then t.(remaining := 1, user := ExpectedUser(cfg, site))
                 else t.(remaining := 1, group := ExpectedGroup(cfg, site))]
            && u.counters == CountersWith(cfg, v.counters, role, site)
  {
  }

  function CountersWith(cfg: Config, c: Counters, role: Role, site: Site): Counters {
    if role.UserRole? then c.(users := c.users + ExpectedUser(cfg, site).fetched)
    else c.(groups := c.groups + ExpectedGroup(cfg, site).groups, members := c.members + ExpectedGroup(cfg, site).members)
  }

  lemma LastWorkerSettles(cfg: Config, v: View, role: Role, site: Site)
    requires site.url in v.trackers && v.trackers[site.url].remaining == 1 && v.trackers[site.url].site == site
    requires role.GroupRole? ==> cfg.processGroups
    requires if role.UserRole?
             then v.trackers[site.url].user == NO_USERS && v.trackers[site.url].group == ExpectedGroup(cfg, site)
             else v.trackers[site.url].group == NO_GROUPS && v.trackers[site.url].user == ExpectedUser(cfg, site)
    ensures var u := AfterWorker(cfg, v, role, site);
            && u.trackers == v.trackers - {site.url}
            && u.outcomes == (if ExpectFailure(cfg, site)
                              then v.outcomes + [Outcome(site, ExpectedUser(cfg, site), ExpectedGroup(cfg, site))]
                              else v.outcomes)
            && u.counters == CountFinished(CountersWith(cfg, v.counters, role, site), ExpectFailure(cfg, site))
  {
  }

  function OtherRole(role: Role): Role {
    if role.UserRole? then GroupRole else UserRole
  }

  /** Whichever of a site's two workers finishes last, the site ends up settled the
      same way. */
  lemma OrderOfWorkersIsIrrelevant(cfg: Config, v: View, first: Role, site: Site)
    requires cfg.processGroups && site.url !in v.trackers
    ensures AfterWorker(cfg, AfterWorker(cfg, Register(cfg, v, site), first, site), OtherRole(first), site)
            == Settled(cfg, v, site)
  {
    var start := Register(cfg, v, site);
    var mid := AfterWorker(cfg, start, first, site);
    PartAfterWorker(cfg, start, first, site);
    LastWorkerSettles(cfg, mid, OtherRole(first), site);
    assert mid.trackers - {site.url} == v.trackers;
  }

  lemma SingleWorkerSettles(cfg: Config, v: View, site: Site)
    requires !cfg.processGroups && site.url !in v.trackers
    ensures AfterWorker(cfg, Register(cfg, v, site), UserRole, site) == Settled(cfg, v, site)
  {
    var start := Register(cfg, v, site);
    LastWorkerSettles(cfg, start, UserRole, site);
    assert start.trackers - {site.url} == v.trackers;
  }
}

/** The processor's methods, run by one goroutine each. */
module SharePointProcessors {
  import opened Failures
  import opened PipelineModel
  import opened SiteProcessing
  import opened PipelineAnswers

  class SiteTracker {
    const site: Site
    var remaining: int
    var usersFailure: Option<Failure>
    var usersFetched: nat
    var groupsFailure: Option<Failure>
    var groupsFetched: nat
    var membersFetched: nat
    var memberErrors: nat
    var memberTimeoutErrors: nat

    ghost function Value(): Tracker
      reads this
    {
      Tracker(site, remaining, UserPart(usersFailure, usersFetched),
              GroupPart(groupsFailure, groupsFetched, membersFetched, memberErrors, memberTimeoutErrors))
    }

    constructor (site: Site, workersPerSite: int)
      ensures this.site == site && Value() == Tracker(site, workersPerSite, NO_USERS, NO_GROUPS)
    {
      this.site, remaining := site, workersPerSite;
      usersFailure, usersFetched := None, 0;
      groupsFailure, groupsFetched, membersFetched, memberErrors, memberTimeoutErrors := None, 0, 0, 0, 0;
    }
  }

  class SharePointProcessor {
    const cfg: Config
    var counters: Counters
    var outcomes: map<string, SiteTracker>
    var recorded: seq<Outcome>
    var filteredSites: seq<Site>
    var sites: seq<Site>
    var userSites: seq<Site>
    var groupSites: seq<Site>
    var users: seq<Entity>
    var groups: seq<Entity>
    var members: seq<Entity>

    /** Trackers are stored under their own site's URL, so no two URLs share one. */
    ghost predicate Valid()
      reads this
    {
      forall u :: u in outcomes ==> outcomes[u].site.url == u
    }

    ghost function Shared(): View
      reads this, outcomes.Values
    {
      View(map u | u in outcomes :: outcomes[u].Value(), recorded, counters)
    }

    constructor (cfg: Config)
      ensures this.cfg == cfg && Valid() && Shared() == View(map[], [], Counters(0, 0, 0, 0, 0, 0, 0, 0, 0))
      ensures filteredSites == sites == userSites == groupSites == [] && users == groups == members == []
    {
      this.cfg := cfg;
      counters, outcomes, recorded := Counters(0, 0, 0, 0, 0, 0, 0, 0, 0), map[], [];
      filteredSites, sites, userSites, groupSites, users, groups, members := [], [], [], [], [], [], [];
    }

    /** Passes on the sites to keep, in order, and counts the others by reason. */
    method FilterSites(rawSites: seq<Site>)
      modifies this`filteredSites, this`counters
      ensures filteredSites == old(filteredSites) + KeepAll(cfg, rawSites)
      ensures counters == old(counters).(
                skipTemplate := old(counters).skipTemplate + CountSkip(cfg, rawSites, SkipTemplate),
                skipTenantRoot := old(counters).skipTenantRoot + CountSkip(cfg, rawSites, SkipTenantRoot))
      ensures counters.skipTemplate == old(counters).skipTemplate + Verdicts(cfg, rawSites, SkipTemplate)
      ensures counters.skipTenantRoot == old(counters).skipTenantRoot + Verdicts(cfg, rawSites, SkipTenantRoot)
      ensures |filteredSites| == |old(filteredSites)| + Verdicts(cfg, rawSites, Keep)
    {
      VerdictsAreSkips(cfg, rawSites);
      ghost var c0 := counters;
      for i := 0 to |rawSites|
        invariant filteredSites + KeepAll(cfg, rawSites[i..]) == old(filteredSites) + KeepAll(cfg, rawSites)
        invariant counters == c0.(skipTemplate := counters.skipTemplate, skipTenantRoot := counters.skipTenantRoot)
        invariant counters.skipTemplate + CountSkip(cfg, rawSites[i..], SkipTemplate)
               == c0.skipTemplate + CountSkip(cfg, rawSites, SkipTemplate)
        invariant counters.skipTenantRoot + CountSkip(cfg, rawSites[i..], SkipTenantRoot)
               == c0.skipTenantRoot + CountSkip(cfg, rawSites, SkipTenantRoot)
      {
        assert rawSites[i..][0] == rawSites[i] && rawSites[i..][1..] == rawSites[i + 1..];
        var reason := cfg.skip(rawSites[i]);
        match reason {
          case SkipTemplate => counters := counters.(skipTemplate := counters.skipTemplate + 1);
          case SkipTenantRoot => counters := counters.(skipTenantRoot := counters.skipTenantRoot + 1);
          case Keep => filteredSites := filteredSites + [rawSites[i]];
        }
      }
      assert rawSites[|rawSites|..] == [];
    }

    method RegisterSite(site: Site)
      requires Valid()
      modifies this`counters, this`outcomes
      ensures Valid() && Shared() == Register(cfg, old(Shared()), site)
    {
      ghost var before := Shared();
      counters := counters.(dispatched := counters.dispatched + 1);
      var tracker := new SiteTracker(site, WorkersPerSite(cfg));
      outcomes := outcomes[site.url := tracker];
      assert Shared().trackers == before.trackers[site.url := tracker.Value()];
    }

    method SendSite(site: Site)
      modifies this`sites, this`userSites, this`groupSites
      ensures sites == old(sites) + [site] && userSites == old(userSites) + [site]
      ensures groupSites == if cfg.processGroups then old(groupSites) + [site] else old(groupSites)
    {
      sites := sites + [site];
      userSites := userSites + [site];
      if cfg.processGroups {
        groupSites := groupSites + [site];
      }
    }

    method DispatchSite(site: Site)
      requires Valid()
      modifies this`counters, this`outcomes, this`sites, this`userSites, this`groupSites
      ensures Valid() && Shared() == Register(cfg, old(Shared()), site)
      ensures sites == old(sites) + [site] && userSites == old(userSites) + [site]
      ensures groupSites == if cfg.processGroups then old(groupSites) + [site] else old(groupSites)
    {
      RegisterSite(site);
      SendSite(site);
    }

    /** Registers every site once and hands it to each stage, in order. */
    method DispatchSitesToWorkers(input: seq<Site>)
      requires Valid()
      modifies this`counters, this`outcomes, this`sites, this`userSites, this`groupSites
      ensures Valid() && Shared() == RegisterAll(cfg, old(Shared()), input)
      ensures sites == old(sites) + input && userSites == old(userSites) + input
      ensures groupSites == if cfg.processGroups then old(groupSites) + input else old(groupSites)
    {
      ghost var start, s0, u0, g0 := Shared(), sites, userSites, groupSites;
      for i := 0 to |input|
        invariant Valid() && Shared() == RegisterAll(cfg, start, input[..i])
        invariant sites == s0 + input[..i] && userSites == u0 + input[..i]
        invariant groupSites == if cfg.processGroups then g0 + input[..i] else g0
      {
        RegisterAllSnoc(cfg, start, input[..i], input[i]);
        assert input[..i + 1] == input[..i] + [input[i]];
        DispatchSite(input[i]);
      }
      assert input[..|input|] == input;
    }

    /** Called by each worker when it finishes; the last one settles the site. */
    method FinalizeSiteOutcome(tracker: SiteTracker)
      requires Valid()
      modifies this`counters, this`outcomes, this`recorded, tracker`remaining
      ensures tracker.remaining == old(tracker.remaining) - 1
      ensures outcomes == if tracker.remaining == 0 then old(outcomes) - {tracker.site.url} else old(outcomes)
      ensures recorded == if tracker.remaining == 0 then OutcomesWith(old(recorded), tracker.Value()) else old(recorded)
      ensures counters == if tracker.remaining == 0
                          then CountFinished(old(counters), HasFailed(tracker.Value().user, tracker.Value().group))
                          else old(counters)
      ensures tracker.Value() == old(tracker.Value()).(remaining := old(tracker.remaining) - 1)
      ensures var fails := tracker.usersFailure != None || tracker.groupsFailure != None
                           || tracker.memberErrors > 0 || tracker.memberTimeoutErrors > 0;
              tracker.remaining == 0 ==>
                && counters == old(counters).(completed := old(counters).completed + 1,
                                              failed := old(counters).failed + (if fails then 1 else 0),
                                              succeeded := old(counters).succeeded + (if fails then 0 else 1))
                && recorded == old(recorded) + (if fails then [Outcome(tracker.site,
                     UserPart(tracker.usersFailure, tracker.usersFetched),
                     GroupPart(tracker.groupsFailure, tracker.groupsFetched, tracker.membersFetched,
                               tracker.memberErrors, tracker.memberTimeoutErrors))] else [])
    {
      tracker.remaining := tracker.remaining - 1;
      if tracker.remaining != 0 {
        return;
      }
      outcomes := outcomes - {tracker.site.url};
      counters := counters.(completed := counters.completed + 1);
      var usersFailure, groupsFailure := tracker.usersFailure, tracker.groupsFailure;
      var memberErrs, memberTimeoutErrs := tracker.memberErrors, tracker.memberTimeoutErrors;
      if usersFailure != None || groupsFailure != None || memberErrs > 0 || memberTimeoutErrs > 0 {
        recorded := recorded + [Outcome(tracker.site, UserPart(usersFailure, tracker.usersFetched),
                                        GroupPart(groupsFailure, tracker.groupsFetched, tracker.membersFetched,
                                                  memberErrs, memberTimeoutErrs))];
        counters := counters.(failed := counters.failed + 1);
      } else {
        counters := counters.(succeeded := counters.succeeded + 1);
      }
    }

    /** As above, for the tracker stored under a URL. */
    method FinalizeStored(site: Site)
      requires Valid() && site.url in outcomes
      modifies this`counters, this`outcomes, this`recorded, outcomes[site.url]
      ensures Valid() && Shared() == Finalize(old(Shared()), site)
    {
      var tracker := outcomes[site.url];
      ghost var before := Shared();
      FinalizeSiteOutcome(tracker);
      assert forall u :: u in old(outcomes) && u != site.url ==> old(outcomes)[u] != tracker;
      assert Shared().trackers == Finalize(before, site).trackers;
    }

    method SendUsers(list: seq<Entity>)
      modifies this`users
      ensures users == old(users) + list
    {
      for i := 0 to |list|
        invariant users == old(users) + list[..i]
      {
        users := users + [list[i]];
      }
    }

    method ExtractUsers(site: Site, list: seq<Entity>)
      requires Valid() && site.url in outcomes && cfg.users(site) == UsersFetched(list)
      modifies this`counters, this`users, outcomes[site.url]
      ensures Shared() == AfterCount(cfg, old(Shared()), UserRole, site)
      ensures users == old(users) + list
    {
      ghost var before := Shared();
      var tracker := outcomes[site.url];
      assert forall u :: u in outcomes && u != site.url ==> outcomes[u] != tracker;
      SendUsers(list);
      tracker.usersFetched := |list|;
      counters := counters.(users := counters.users + |list|);
      assert Shared().trackers == before.trackers[site.url := tracker.Value()];
    }

    /** Sends the site's users and does to the shared state exactly what the
        transition system's user worker does. */
    method ProcessSiteUsers(site: Site)
      requires Valid()
      modifies this`counters, this`outcomes, this`recorded, this`users, outcomes.Values
      ensures Valid() && Shared() == AfterWorker(cfg, old(Shared()), UserRole, site)
      ensures users == old(users) + (if site.url in old(outcomes) && cfg.users(site).UsersFetched?
                                     then cfg.users(site).users else [])
      ensures site.url in old(outcomes) ==> users == old(users) + OfKind(OutsOf(cfg, UserRole, site), Users)
    {
      UserStreamIsAnswer(cfg, site, Users);
      if site.url !in outcomes {
        counters := counters.(completed := counters.completed + 1);
        counters := counters.(failed := counters.failed + 1);
        return;
      }
      var reply := cfg.users(site);
      if reply.UsersError? {
        ghost var before := Shared();
        var tracker := outcomes[site.url];
        assert forall u :: u in outcomes && u != site.url ==> outcomes[u] != tracker;
        tracker.usersFailure := Some(reply.failure);
        assert Shared().trackers == before.trackers[site.url := tracker.Value()];
      } else {
        ExtractUsers(site, reply.users);
      }
      FinalizeStored(site);
    }

    method SendGroups(list: seq<Entity>)
      modifies this`groups
      ensures groups == old(groups) + list
    {
      for i := 0 to |list|
        invariant groups == old(groups) + list[..i]
      {
        groups := groups + [list[i]];
      }
    }

    method SendMembers(list: seq<Entity>)
      modifies this`members
      ensures members == old(members) + list
    {
      for i := 0 to |list|
        invariant members == old(members) + list[..i]
      {
        members := members + [list[i]];
      }
    }

    /** The successful branch, up to the call of the finaliser. */
    method ExtractGroups(tracker: SiteTracker, result: GroupsResult)
      requires result.GroupsFetched?
      modifies this`counters, this`groups, this`members, tracker
      ensures tracker.Value() == old(tracker.Value()).(group := GroupPart(
                old(tracker.groupsFailure), |result.groups|,
                if cfg.processMembers then |result.members| else old(tracker.membersFetched),
                result.memberErrors, result.memberTimeouts))
      ensures counters == old(counters).(
                groups := old(counters).groups + |result.groups|,
                members := old(counters).members + (if cfg.processMembers then |result.members| else 0))
      ensures groups == old(groups) + result.groups
      ensures members == old(members) + (if cfg.processMembers then result.members else [])
    {
      tracker.memberErrors := result.memberErrors;
      tracker.memberTimeoutErrors := result.memberTimeouts;
      SendGroups(result.groups);
      if cfg.processMembers {
        SendMembers(result.members);
        tracker.membersFetched := |result.members|;
        counters := counters.(members := counters.members + |result.members|);
      }
      tracker.groupsFetched := |result.groups|;
      counters := counters.(groups := counters.groups + |result.groups|);
    }

    method ExtractStored(site: Site, result: GroupsResult)
      requires Valid() && site.url in outcomes && result.GroupsFetched?
      modifies this`counters, this`groups, this`members, outcomes[site.url]
      ensures Shared() == GroupsStored(cfg, old(Shared()), site, result)
      ensures groups == old(groups) + result.groups
      ensures members == old(members) + (if cfg.processMembers then result.members else [])
    {
      ghost var before := Shared();
      var tracker := outcomes[site.url];
      ExtractGroups(tracker, result);
      assert forall u :: u in outcomes && u != site.url ==> outcomes[u] != tracker;
      assert Shared().trackers == before.trackers[site.url := tracker.Value()];
    }

    /** What the transition system's group worker sends for a site. */
    static lemma GroupStreamsAreSent(cfg: Config, site: Site)
      ensures cfg.processGroups ==>
                var r := cfg.groups(site);
                && OfKind(OutsOf(cfg, GroupRole, site), Groups) == (if r.GroupsFetched? then r.groups else [])
                && OfKind(OutsOf(cfg, GroupRole, site), Members)
                   == (if r.GroupsFetched? && cfg.processMembers then r.members else [])
    {
      if cfg.processGroups {
        GroupStreamIsAnswer(cfg, site, Groups);
        GroupStreamIsAnswer(cfg, site, Members);
      }
    }

    /** Sends the site's groups and, if configured, their members, and does to the
        shared state exactly what the transition system's group worker does. */
    method ProcessSiteGroups(site: Site)
      requires Valid()
      modifies this`counters, this`outcomes, this`recorded, this`groups, this`members, outcomes.Values
      ensures Valid() && Shared() == AfterWorker(cfg, old(Shared()), GroupRole, site)
      ensures var sent := site.url in old(outcomes) && cfg.groups(site).GroupsFetched?;
              && groups == old(groups) + (if sent then cfg.groups(site).groups else [])
              && members == old(members) + (if sent && cfg.processMembers then cfg.groups(site).members else [])
      ensures site.url in old(outcomes) && cfg.processGroups ==>
                && groups == old(groups) + OfKind(OutsOf(cfg, GroupRole, site), Groups)
                && members == old(members) + OfKind(OutsOf(cfg, GroupRole, site), Members)
    {
      GroupStreamsAreSent(cfg, site);
      if site.url !in outcomes {
        counters := counters.(completed := counters.completed + 1);
        counters := counters.(failed := counters.failed + 1);
        return;
      }
      var result := cfg.groups(site);
      if result.GroupsError? {
        ghost var before := Shared();
        var tracker := outcomes[site.url];
        assert forall u :: u in outcomes && u != site.url ==> outcomes[u] != tracker;
        tracker.groupsFailure := Some(result.failure);
        assert Shared().trackers == before.trackers[site.url := tracker.Value()];
      } else {
        ExtractStored(site, result);
        GroupsFetchedAndCounted(cfg, old(Shared()), site);
      }
      FinalizeStored(site);
    }
  }
}
