/** The OneDrive pipeline: any number of workers take personal sites from one
    queue, list each site's users unless it is locked, fetch the owner's profile,
    and count the site as a success or record its outcome as a failure. One step is
    one worker's next send or counter update. */
module OneDriveModel {
  import opened Failures

  datatype Site = Site(url: string, id: string, createdByEmail: string, lockState: string)

  datatype Profile = Profile(personalUrl: string, aadObjectId: string, name: string)

  datatype UsersReply = UsersError(failure: Failure) | UsersListed(users: seq<string>)

  datatype ProfileReply = ProfileError(failure: Failure) | ProfileFound(profile: Profile)

  /** What the API answers is arbitrary. */
  datatype Api = Api(users: Site -> UsersReply, profile: string -> ProfileReply)

  const LOCKED_STATES: set<string> := {"Locked", "ReadOnly", "NoAccess", "NoAdditions"}

  function AccountName(site: Site): string {
    if site.createdByEmail != "" then "i:0#.f|membership|" + site.createdByEmail else ""
  }

  function NormalizeUrl(url: string): string {
    if url != "" && url[|url| - 1] == '/' then url[..|url| - 1] else url
  }

  datatype ProfileClass = NoOwner | Unavailable(failure: Failure) | Orphaned | Saved(profile: Profile)

  /** What fetching the owner's profile comes to. */
  function Classify(api: Api, site: Site): ProfileClass {
    if AccountName(site) == "" then NoOwner
    else match api.profile(AccountName(site))
      case ProfileError(f) => Unavailable(f)
      case ProfileFound(p) =>
        if p.personalUrl == "" || p.aadObjectId == "" then Orphaned
        else Saved(p.(personalUrl := NormalizeUrl(site.url)))
  }

  /** What a worker has learnt about its site when it completes it. */
  datatype Findings = Findings(usersFailure: Option<Failure>, usersFetched: nat,
                               profileFailure: Option<Failure>, profileFetched: bool)

  datatype Outcome = Outcome(url: string, id: string, account: string, findings: Findings)

  predicate Failing(f: Findings) {
    f.usersFailure != None || f.profileFailure != None
  }

  function OutcomeFor(site: Site, f: Findings): Outcome {
    Outcome(site.url, site.id, AccountName(site), f)
  }

  function WithProfile(api: Api, site: Site, usersFailure: Option<Failure>, fetched: nat): Findings {
    var c := Classify(api, site);
    Findings(usersFailure, fetched, if c.Unavailable? then Some(c.failure) else None, c.Saved?)
  }

  /** The findings a site leads to, whoever processes it and whenever. */
  function Expected(api: Api, site: Site): Findings {
    if site.lockState in LOCKED_STATES then WithProfile(api, site, None, 0)
    else match api.users(site)
      case UsersError(f) => WithProfile(api, site, Some(f), 0)
      case UsersListed(users) => WithProfile(api, site, None, |users|)
  }

  /** A site's contributions to the outcomes and to two of the output streams. */
  function OutcomesOf(api: Api, site: Site): seq<Outcome> {
    if Failing(Expected(api, site)) then [OutcomeFor(site, Expected(api, site))] else []
  }

  function ProfilesOf(api: Api, site: Site): seq<Profile> {
    if Classify(api, site).Saved? then [Classify(api, site).profile] else []
  }

  function UsersOf(api: Api, site: Site): seq<string> {
    if site.lockState !in LOCKED_STATES && api.users(site).UsersListed? then api.users(site).users else []
  }

  // ---- State and steps -----------------------------------------------------

  datatype Pc =
    | Idle
    | SendSite(site: Site)
    | ListUsers(site: Site)
    | SendUsers(site: Site, pending: seq<string>, fetched: nat)
    | FetchProfile(site: Site, usersFailure: Option<Failure>, fetched: nat)
    | SendProfile(site: Site, profile: Profile, usersFailure: Option<Failure>, fetched: nat)
    | Complete(site: Site, findings: Findings)
    | Settle(site: Site, findings: Findings)   // counted as completed, not yet as success or failure
    | CountFailed(site: Site)                  // outcome recorded

  datatype Counters = Counters(dispatched: nat, completed: nat, succeeded: nat, failed: nat, users: nat,
                               profiles: nat, locked: nat, orphaned: nat, noOwner: nat)

  const ZERO := Counters(0, 0, 0, 0, 0, 0, 0, 0, 0)

  /** What all workers share: the counters, the outcomes and the output streams. */
  datatype Shared = Shared(counters: Counters, outcomes: seq<Outcome>,
                           sites: seq<Site>, users: seq<string>, profiles: seq<Profile>)

  const NOTHING := Shared(ZERO, [], [], [], [])

  datatype State = State(raw: seq<Site>, queue: seq<Site>, workers: seq<Pc>, shared: Shared)

  datatype Event = Dispatch | Take(w: nat) | Step(w: nat)

  function ListStep(api: Api, site: Site, sh: Shared): (Pc, Shared) {
    if site.lockState in LOCKED_STATES
    then (FetchProfile(site, None, 0), sh.(counters := sh.counters.(locked := sh.counters.locked + 1)))
    else match api.users(site)
      case UsersError(f) => (FetchProfile(site, Some(f), 0), sh)
      case UsersListed(users) => (SendUsers(site, users, |users|), sh)
  }

  function ProfileStep(api: Api, site: Site, failure: Option<Failure>, fetched: nat, sh: Shared): (Pc, Shared) {
    var c := sh.counters;
    match Classify(api, site)
    case NoOwner => (Complete(site, Findings(failure, fetched, None, false)), sh.(counters := c.(noOwner := c.noOwner + 1)))
    case Orphaned => (Complete(site, Findings(failure, fetched, None, false)), sh.(counters := c.(orphaned := c.orphaned + 1)))
    case Unavailable(f) => (Complete(site, Findings(failure, fetched, Some(f), false)), sh)
    case Saved(p) => (SendProfile(site, p, failure, fetched), sh)
  }

  /** One worker's next step. */
  function Next(api: Api, pc: Pc, sh: Shared): (Pc, Shared)
    requires !pc.Idle?
  {
    var c := sh.counters;
    match pc
    case SendSite(site) => (ListUsers(site), sh.(sites := sh.sites + [site]))
    case ListUsers(site) => ListStep(api, site, sh)
    case SendUsers(site, pending, fetched) =>
      if pending == [] then (FetchProfile(site, None, fetched), sh)
      else (SendUsers(site, pending[1..], fetched),
            sh.(users := sh.users + [pending[0]], counters := c.(users := c.users + 1)))
    case FetchProfile(site, failure, fetched) => ProfileStep(api, site, failure, fetched, sh)
    case SendProfile(site, p, failure, fetched) =>
      (Complete(site, Findings(failure, fetched, None, true)),
       sh.(profiles := sh.profiles + [p], counters := c.(profiles := c.profiles + 1)))
    case Complete(site, f) => (Settle(site, f), sh.(counters := c.(completed := c.completed + 1)))
    case Settle(site, f) =>
      if Failing(f) then (CountFailed(site), sh.(outcomes := sh.outcomes + [OutcomeFor(site, f)]))
      else (Idle, sh.(counters := c.(succeeded := c.succeeded + 1)))
    case CountFailed(_) => (Idle, sh.(counters := c.(failed := c.failed + 1)))
  }

  predicate Enabled(s: State, e: Event) {
    match e
    case Dispatch => s.raw != []
    case Take(w) => w < |s.workers| && s.workers[w].Idle? && s.queue != []
    case Step(w) => w < |s.workers| && !s.workers[w].Idle?
  }

  function Apply(api: Api, s: State, e: Event): State
    requires Enabled(s, e)
  {
    match e
    case Dispatch =>
      var c := s.shared.counters;
      s.(raw := s.raw[1..], queue := s.queue + [s.raw[0]],
         shared := s.shared.(counters := c.(dispatched := c.dispatched + 1)))
    case Take(w) => s.(queue := s.queue[1..], workers := s.workers[w := SendSite(s.queue[0])])
    case Step(w) =>
      var (pc, sh) := Next(api, s.workers[w], s.shared);
      s.(workers := s.workers[w := pc], shared := sh)
  }

  predicate Runs(api: Api, s: State, es: seq<Event>)
    decreases |es|
  {
    es == [] || (Enabled(s, es[0]) && Runs(api, Apply(api, s, es[0]), es[1..]))
  }

  function Exec(api: Api, s: State, es: seq<Event>): State
    requires Runs(api, s, es)
    decreases |es|
  {
    if es == [] then s else Exec(api, Apply(api, s, es[0]), es[1..])
  }

  function Initial(raw: seq<Site>, workers: nat): State {
    State(raw, [], seq(workers, _ => Idle), NOTHING)
  }

  /** Nothing is left to do. */
  predicate Final(s: State) {
    s.raw == [] && s.queue == [] && forall w :: 0 <= w < |s.workers| ==> s.workers[w].Idle?
  }

  // ---- What is counted, and what each site still owes -----------------------

  datatype Quantity =
    | Dispatched | Completed | Succeeded | Failed | Users | Profiles | Locked | OrphanedSites | NoOwnerSites
    | Recorded | ProfileFailures
    | OutcomeIs(outcome: Outcome)
    | SiteSent(sent: Site) | UserSent(user: string) | ProfileSent(profile: Profile)

  function One(b: bool): nat {
    if b then 1 else 0
  }

  function CountProfileFailures(os: seq<Outcome>): nat {
    if os == [] then 0
    else CountProfileFailures(os[..|os| - 1]) + One(os[|os| - 1].findings.profileFailure != None)
  }

  function Measured(sh: Shared, q: Quantity): nat {
    match q
    case Dispatched => sh.counters.dispatched
    case Completed => sh.counters.completed
    case Succeeded => sh.counters.succeeded
    case Failed => sh.counters.failed
    case Users => sh.counters.users
    case Profiles => sh.counters.profiles
    case Locked => sh.counters.locked
    case OrphanedSites => sh.counters.orphaned
    case NoOwnerSites => sh.counters.noOwner
    case Recorded => |sh.outcomes|
    case ProfileFailures => CountProfileFailures(sh.outcomes)
    case OutcomeIs(o) => multiset(sh.outcomes)[o]
    case SiteSent(site) => multiset(sh.sites)[site]
    case UserSent(u) => multiset(sh.users)[u]
    case ProfileSent(p) => multiset(sh.profiles)[p]
  }

  function UsersOwe(q: Quantity, users: seq<string>): nat {
    match q
    case Users => |users|
    case UserSent(u) => multiset(users)[u]
    case _ => 0
  }

  function ListingOwes(api: Api, q: Quantity, site: Site): nat {
    if site.lockState in LOCKED_STATES then One(q.Locked?)
    else match api.users(site)
      case UsersError(_) => 0
      case UsersListed(users) => UsersOwe(q, users)
  }

  function SavingOwes(q: Quantity, p: Profile): nat {
    match q
    case Profiles => 1
    case ProfileSent(x) => One(x == p)
    case _ => 0
  }

  function ProfileOwes(api: Api, q: Quantity, site: Site): nat {
    match Classify(api, site)
    case NoOwner => One(q.NoOwnerSites?)
    case Orphaned => One(q.OrphanedSites?)
    case Unavailable(_) => 0
    case Saved(p) => SavingOwes(q, p)
  }

  function SettlingOwes(q: Quantity, site: Site, f: Findings): nat {
    match q
    case Succeeded => One(!Failing(f))
    case Failed => One(Failing(f))
    case Recorded => One(Failing(f))
    case ProfileFailures => One(f.profileFailure != None)
    case OutcomeIs(o) => One(Failing(f) && o == OutcomeFor(site, f))
    case _ => 0
  }

  function ClosingOwes(q: Quantity, site: Site, f: Findings): nat {
    One(q.Completed?) + SettlingOwes(q, site, f)
  }

  /** All that processing one site adds to a quantity. */
  function SiteOwes(api: Api, q: Quantity, site: Site): nat {
    One(q == SiteSent(site)) + ListingOwes(api, q, site) + ProfileOwes(api, q, site)
    + ClosingOwes(q, site, Expected(api, site))
  }

  /** What the rest of a worker's current site still adds. */
  function Owes(api: Api, q: Quantity, pc: Pc): nat {
    match pc
    case Idle => 0
    case SendSite(site) => SiteOwes(api, q, site)
    case ListUsers(site) =>
      ListingOwes(api, q, site) + ProfileOwes(api, q, site) + ClosingOwes(q, site, Expected(api, site))
    case SendUsers(site, pending, n) =>
      UsersOwe(q, pending) + ProfileOwes(api, q, site) + ClosingOwes(q, site, WithProfile(api, site, None, n))
    case FetchProfile(site, failure, n) =>
      ProfileOwes(api, q, site) + ClosingOwes(q, site, WithProfile(api, site, failure, n))
    case SendProfile(site, p, failure, n) =>
      SavingOwes(q, p) + ClosingOwes(q, site, Findings(failure, n, None, true))
    case Complete(site, f) => ClosingOwes(q, site, f)
    case Settle(site, f) => SettlingOwes(q, site, f)
    case CountFailed(_) => One(q.Failed?)
  }

  function QueueOwes(api: Api, q: Quantity, sites: seq<Site>): nat {
    if sites == [] then 0 else SiteOwes(api, q, sites[0]) + QueueOwes(api, q, sites[1..])
  }

  function WorkersOwe(api: Api, q: Quantity, workers: seq<Pc>): nat {
    if workers == [] then 0 else Owes(api, q, workers[0]) + WorkersOwe(api, q, workers[1..])
  }

  /** What has been counted plus what is still to come. */
  function Balance(api: Api, s: State, q: Quantity): nat {
    Measured(s.shared, q) + WorkersOwe(api, q, s.workers) + QueueOwes(api, q, s.queue)
    + QueueOwes(api, q, s.raw) + (if q.Dispatched? then |s.raw| else 0)
  }
}

/** Counters, outcomes and streams of every OneDrive run add up. */
module OneDriveLedger {
  import opened Failures
  import opened OneDriveModel

  lemma {:induction false} WorkersUpdate(api: Api, q: Quantity, ws: seq<Pc>, i: nat, pc: Pc)
    requires i < |ws|
    ensures WorkersOwe(api, q, ws[i := pc]) + Owes(api, q, ws[i]) == WorkersOwe(api, q, ws) + Owes(api, q, pc)
  {
    if i == 0 {
      assert ws[i := pc][1..] == ws[1..];
    } else {
      assert ws[i := pc][1..] == ws[1..][i - 1 := pc];
      WorkersUpdate(api, q, ws[1..], i - 1, pc);
    }
  }

  lemma {:induction false} WorkersIdle(api: Api, q: Quantity, ws: seq<Pc>)
    requires forall w :: 0 <= w < |ws| ==> ws[w].Idle?
    ensures WorkersOwe(api, q, ws) == 0
  {
    if ws != [] {
      WorkersIdle(api, q, ws[1..]);
    }
  }

  lemma {:induction false} QueueSnoc(api: Api, q: Quantity, sites: seq<Site>, site: Site)
    ensures QueueOwes(api, q, sites + [site]) == QueueOwes(api, q, sites) + SiteOwes(api, q, site)
  {
    if sites == [] {
      assert [site][1..] == [];
      assert sites + [site] == [site];
    } else {
      assert (sites + [site])[1..] == sites[1..] + [site];
      QueueSnoc(api, q, sites[1..], site);
    }
  }

  lemma OutcomeAdds(os: seq<Outcome>, o: Outcome)
    ensures CountProfileFailures(os + [o]) == CountProfileFailures(os) + One(o.findings.profileFailure != None)
  {
    assert (os + [o])[..|os + [o]| - 1] == os;
  }

  lemma ListStepConserves(api: Api, q: Quantity, site: Site, sh: Shared)
    ensures var (pc, sh') := ListStep(api, site, sh);
            Measured(sh', q) + Owes(api, q, pc) == Measured(sh, q) + Owes(api, q, ListUsers(site))
  {
  }

  lemma ProfileStepConserves(api: Api, q: Quantity, site: Site, failure: Option<Failure>, n: nat, sh: Shared)
    ensures var (pc, sh') := ProfileStep(api, site, failure, n, sh);
            Measured(sh', q) + Owes(api, q, pc) == Measured(sh, q) + Owes(api, q, FetchProfile(site, failure, n))
  {
  }

  lemma SendUsersConserves(api: Api, q: Quantity, pc: Pc, sh: Shared)
    requires pc.SendUsers?
    ensures var (pc', sh') := Next(api, pc, sh);
            Measured(sh', q) + Owes(api, q, pc') == Measured(sh, q) + Owes(api, q, pc)
  {
    if pc.pending != [] {
      assert pc.pending == [pc.pending[0]] + pc.pending[1..];
    }
  }

  lemma SettleConserves(api: Api, q: Quantity, pc: Pc, sh: Shared)
    requires pc.Settle?
    ensures var (pc', sh') := Next(api, pc, sh);
            Measured(sh', q) + Owes(api, q, pc') == Measured(sh, q) + Owes(api, q, pc)
  {
    OutcomeAdds(sh.outcomes, OutcomeFor(pc.site, pc.findings));
  }

  lemma StreamStepConserves(api: Api, q: Quantity, pc: Pc, sh: Shared)
    requires pc.SendSite? || pc.SendProfile?
    ensures var (pc', sh') := Next(api, pc, sh);
            Measured(sh', q) + Owes(api, q, pc') == Measured(sh, q) + Owes(api, q, pc)
  {
  }

  lemma CountStepConserves(api: Api, q: Quantity, pc: Pc, sh: Shared)
    requires pc.Complete? || pc.CountFailed?
    ensures var (pc', sh') := Next(api, pc, sh);
            Measured(sh', q) + Owes(api, q, pc') == Measured(sh, q) + Owes(api, q, pc)
  {
  }

  /** A worker's step moves to a quantity exactly what it stops owing. */
  lemma NextConserves(api: Api, q: Quantity, pc: Pc, sh: Shared)
    requires !pc.Idle?
    ensures var (pc', sh') := Next(api, pc, sh);
            Measured(sh', q) + Owes(api, q, pc') == Measured(sh, q) + Owes(api, q, pc)
  {
    match pc
    case SendSite(_) => StreamStepConserves(api, q, pc, sh);
    case ListUsers(site) => ListStepConserves(api, q, site, sh);
    case SendUsers(_, _, _) => SendUsersConserves(api, q, pc, sh);
    case FetchProfile(site, failure, n) => ProfileStepConserves(api, q, site, failure, n, sh);
    case SendProfile(_, _, _, _) => StreamStepConserves(api, q, pc, sh);
    case Complete(_, _) => CountStepConserves(api, q, pc, sh);
    case Settle(_, _) => SettleConserves(api, q, pc, sh);
    case CountFailed(_) => CountStepConserves(api, q, pc, sh);
  }

  lemma StepConserves(api: Api, s: State, e: Event, q: Quantity)
    requires Enabled(s, e)
    ensures Balance(api, Apply(api, s, e), q) == Balance(api, s, q)
  {
    match e
    case Dispatch => QueueSnoc(api, q, s.queue, s.raw[0]);
    case Take(w) => WorkersUpdate(api, q, s.workers, w, SendSite(s.queue[0]));
    case Step(w) =>
      var (pc, sh) := Next(api, s.workers[w], s.shared);
      NextConserves(api, q, s.workers[w], s.shared);
      WorkersUpdate(api, q, s.workers, w, pc);
  }

  lemma {:induction false} RunConserves(api: Api, s: State, es: seq<Event>, q: Quantity)
    requires Runs(api, s, es)
    ensures Balance(api, Exec(api, s, es), q) == Balance(api, s, q)
    decreases |es|
  {
    if es != [] {
      StepConserves(api, s, es[0], q);
      RunConserves(api, Apply(api, s, es[0]), es[1..], q);
    }
  }

  lemma FinalBalance(api: Api, raw: seq<Site>, workers: nat, es: seq<Event>, q: Quantity)
    requires Runs(api, Initial(raw, workers), es) && Final(Exec(api, Initial(raw, workers), es))
    ensures Measured(Exec(api, Initial(raw, workers), es).shared, q)
            == QueueOwes(api, q, raw) + (if q.Dispatched? then |raw| else 0)
  {
    var s, t := Initial(raw, workers), Exec(api, Initial(raw, workers), es);
    RunConserves(api, s, es, q);
    WorkersIdle(api, q, s.workers);
    WorkersIdle(api, q, t.workers);
  }

  lemma SettlingPartition(api: Api, site: Site)
    ensures SiteOwes(api, Dispatched, site) == 0 && SiteOwes(api, Completed, site) == 1
    ensures SiteOwes(api, Succeeded, site) + SiteOwes(api, Failed, site) == 1
    ensures SiteOwes(api, Recorded, site) == SiteOwes(api, Failed, site)
  {
  }

  lemma ProfilePartition(api: Api, site: Site)
    ensures SiteOwes(api, Profiles, site) + SiteOwes(api, OrphanedSites, site)
            + SiteOwes(api, NoOwnerSites, site) + SiteOwes(api, ProfileFailures, site) == 1
  {
  }

  /** Per site: it is a success or a failure, and its profile is saved, orphaned,
      ownerless, or missing with the failure on record. */
  lemma {:induction false} QueuePartition(api: Api, raw: seq<Site>)
    ensures QueueOwes(api, Completed, raw) == |raw|
    ensures QueueOwes(api, Succeeded, raw) + QueueOwes(api, Failed, raw) == |raw|
    ensures QueueOwes(api, Recorded, raw) == QueueOwes(api, Failed, raw)
    ensures QueueOwes(api, Profiles, raw) + QueueOwes(api, OrphanedSites, raw)
            + QueueOwes(api, NoOwnerSites, raw) + QueueOwes(api, ProfileFailures, raw) == |raw|
    ensures QueueOwes(api, Dispatched, raw) == 0
  {
    if raw != [] {
      SettlingPartition(api, raw[0]);
      ProfilePartition(api, raw[0]);
      QueuePartition(api, raw[1..]);
    }
  }

  /** However many workers run and however their steps interleave, when all is done
      every dispatched site is completed, completed sites split into successes and
      failures, every failure has one recorded outcome, and profiles sent, orphaned
      sites, ownerless sites and outcomes with a profile failure add up to the
      completed sites. */
  lemma CountersPartition(api: Api, raw: seq<Site>, workers: nat, es: seq<Event>)
    requires Runs(api, Initial(raw, workers), es) && Final(Exec(api, Initial(raw, workers), es))
    ensures var t := Exec(api, Initial(raw, workers), es).shared;
            && t.counters.dispatched == t.counters.completed == |raw|
            && t.counters.succeeded + t.counters.failed == t.counters.completed
            && |t.outcomes| == t.counters.failed
            && t.counters.profiles + t.counters.orphaned + t.counters.noOwner + CountProfileFailures(t.outcomes)
               == t.counters.completed
  {
    QueuePartition(api, raw);
    FinalBalance(api, raw, workers, es, Dispatched);
    FinalBalance(api, raw, workers, es, Completed);
    FinalBalance(api, raw, workers, es, Succeeded);
    FinalBalance(api, raw, workers, es, Failed);
    FinalBalance(api, raw, workers, es, Recorded);
    FinalBalance(api, raw, workers, es, Profiles);
    FinalBalance(api, raw, workers, es, OrphanedSites);
    FinalBalance(api, raw, workers, es, NoOwnerSites);
    FinalBalance(api, raw, workers, es, ProfileFailures);
  }

  // ---- Results do not depend on the schedule ---------------------------------

  function ExpectedOutcomes(api: Api, raw: seq<Site>): seq<Outcome> {
    if raw == [] then [] else OutcomesOf(api, raw[0]) + ExpectedOutcomes(api, raw[1..])
  }

  function ExpectedProfiles(api: Api, raw: seq<Site>): seq<Profile> {
    if raw == [] then [] else ProfilesOf(api, raw[0]) + ExpectedProfiles(api, raw[1..])
  }

  function ExpectedUsers(api: Api, raw: seq<Site>): seq<string> {
    if raw == [] then [] else UsersOf(api, raw[0]) + ExpectedUsers(api, raw[1..])
  }

  predicate IsResult(q: Quantity) {
    q.OutcomeIs? || q.ProfileSent? || q.UserSent? || q.SiteSent?
  }

  /** How often a result occurs among those the sites lead to by themselves. */
  function Occurrences(api: Api, raw: seq<Site>, q: Quantity): nat
    requires IsResult(q)
  {
    match q
    case OutcomeIs(o) => multiset(ExpectedOutcomes(api, raw))[o]
    case ProfileSent(p) => multiset(ExpectedProfiles(api, raw))[p]
    case UserSent(u) => multiset(ExpectedUsers(api, raw))[u]
    case SiteSent(site) => multiset(raw)[site]
  }

  function SiteOccurrences(api: Api, site: Site, q: Quantity): nat
    requires IsResult(q)
  {
    match q
    case OutcomeIs(o) => multiset(OutcomesOf(api, site))[o]
    case ProfileSent(p) => multiset(ProfilesOf(api, site))[p]
    case UserSent(u) => multiset(UsersOf(api, site))[u]
    case SiteSent(x) => One(x == site)
  }

  lemma OccurrencesCons(api: Api, raw: seq<Site>, q: Quantity)
    requires raw != [] && IsResult(q)
    ensures Occurrences(api, raw, q) == SiteOccurrences(api, raw[0], q) + Occurrences(api, raw[1..], q)
  {
    assert raw == [raw[0]] + raw[1..];
  }

  lemma SiteOwesItsResults(api: Api, site: Site, q: Quantity)
    requires IsResult(q)
    ensures SiteOwes(api, q, site) == SiteOccurrences(api, site, q)
  {
  }

  lemma {:induction false} QueueOwesItsResults(api: Api, raw: seq<Site>, q: Quantity)
    requires IsResult(q)
    ensures QueueOwes(api, q, raw) == Occurrences(api, raw, q)
  {
    if raw != [] {
      OccurrencesCons(api, raw, q);
      SiteOwesItsResults(api, raw[0], q);
      QueueOwesItsResults(api, raw[1..], q);
    }
  }

  lemma OutcomesAreDeterminate(api: Api, raw: seq<Site>, workers: nat, es: seq<Event>)
    requires Runs(api, Initial(raw, workers), es) && Final(Exec(api, Initial(raw, workers), es))
    ensures multiset(Exec(api, Initial(raw, workers), es).shared.outcomes) == multiset(ExpectedOutcomes(api, raw))
  {
    var t := Exec(api, Initial(raw, workers), es).shared;
    forall o: Outcome ensures multiset(t.outcomes)[o] == multiset(ExpectedOutcomes(api, raw))[o] {
      FinalBalance(api, raw, workers, es, OutcomeIs(o));
      QueueOwesItsResults(api, raw, OutcomeIs(o));
    }
  }

  lemma ProfilesAreDeterminate(api: Api, raw: seq<Site>, workers: nat, es: seq<Event>)
    requires Runs(api, Initial(raw, workers), es) && Final(Exec(api, Initial(raw, workers), es))
    ensures multiset(Exec(api, Initial(raw, workers), es).shared.profiles) == multiset(ExpectedProfiles(api, raw))
  {
    var t := Exec(api, Initial(raw, workers), es).shared;
    forall p: Profile ensures multiset(t.profiles)[p] == multiset(ExpectedProfiles(api, raw))[p] {
      FinalBalance(api, raw, workers, es, ProfileSent(p));
      QueueOwesItsResults(api, raw, ProfileSent(p));
    }
  }

  lemma UsersAreDeterminate(api: Api, raw: seq<Site>, workers: nat, es: seq<Event>)
    requires Runs(api, Initial(raw, workers), es) && Final(Exec(api, Initial(raw, workers), es))
    ensures multiset(Exec(api, Initial(raw, workers), es).shared.users) == multiset(ExpectedUsers(api, raw))
  {
    var t := Exec(api, Initial(raw, workers), es).shared;
    forall u: string ensures multiset(t.users)[u] == multiset(ExpectedUsers(api, raw))[u] {
      FinalBalance(api, raw, workers, es, UserSent(u));
      QueueOwesItsResults(api, raw, UserSent(u));
    }
  }

  lemma SitesAreDeterminate(api: Api, raw: seq<Site>, workers: nat, es: seq<Event>)
    requires Runs(api, Initial(raw, workers), es) && Final(Exec(api, Initial(raw, workers), es))
    ensures multiset(Exec(api, Initial(raw, workers), es).shared.sites) == multiset(raw)
  {
    var t := Exec(api, Initial(raw, workers), es).shared;
    forall site: Site ensures multiset(t.sites)[site] == multiset(raw)[site] {
      FinalBalance(api, raw, workers, es, SiteSent(site));
      QueueOwesItsResults(api, raw, SiteSent(site));
    }
  }

  /** The recorded outcomes and all three output streams are, up to order, those
      that each site leads to by itself. */
  lemma ResultsAreDeterminate(api: Api, raw: seq<Site>, workers: nat, es: seq<Event>)
    requires Runs(api, Initial(raw, workers), es) && Final(Exec(api, Initial(raw, workers), es))
    ensures var t := Exec(api, Initial(raw, workers), es).shared;
            && multiset(t.outcomes) == multiset(ExpectedOutcomes(api, raw))
            && multiset(t.profiles) == multiset(ExpectedProfiles(api, raw))
            && multiset(t.users) == multiset(ExpectedUsers(api, raw))
            && multiset(t.sites) == multiset(raw)
  {
    OutcomesAreDeterminate(api, raw, workers, es);
    ProfilesAreDeterminate(api, raw, workers, es);
    UsersAreDeterminate(api, raw, workers, es);
    SitesAreDeterminate(api, raw, workers, es);
  }
}

/** The OneDrive results told from the sites and the API's answers alone. */
module OneDriveAnswers {
  import opened Failures
  import opened OneDriveModel
  import opened OneDriveLedger

  predicate IsLocked(site: Site) {
    site.lockState == "Locked" || site.lockState == "ReadOnly" || site.lockState == "NoAccess" || site.lockState == "NoAdditions"
  }

  predicate HasOwner(site: Site) {
    site.createdByEmail != ""
  }

  /** The API's answer for the owner's profile. */
  function OwnersProfile(api: Api, site: Site): ProfileReply {
    api.profile("i:0#.f|membership|" + site.createdByEmail)
  }

  predicate UsersFail(api: Api, site: Site) {
    !IsLocked(site) && api.users(site).UsersError?
  }

  predicate ProfileFails(api: Api, site: Site) {
    HasOwner(site) && OwnersProfile(api, site).ProfileError?
  }

  predicate IsOrphan(api: Api, site: Site) {
    && HasOwner(site)
    && match OwnersProfile(api, site)
       case ProfileError(_) => false
       case ProfileFound(p) => p.personalUrl == "" || p.aadObjectId == ""
  }

  /** The profile sent for the site, under the site's URL without a trailing slash. */
  function ProfileSentFor(api: Api, site: Site): Option<Profile> {
    if !HasOwner(site) then None
    else match OwnersProfile(api, site)
      case ProfileError(_) => None
      case ProfileFound(p) =>
        if p.personalUrl == "" || p.aadObjectId == "" then None
        else
          var n := |site.url|;
          Some(Profile(if n > 0 && site.url[n - 1] == '/' then site.url[..n - 1] else site.url, p.aadObjectId, p.name))
  }

  function UsersListedFor(api: Api, site: Site): seq<string> {
    if IsLocked(site) then []
    else match api.users(site) case UsersListed(users) => users case UsersError(_) => []
  }

  predicate SiteFails(api: Api, site: Site) {
    UsersFail(api, site) || ProfileFails(api, site)
  }

  function RecordFor(api: Api, site: Site): Outcome {
    Outcome(site.url, site.id, if HasOwner(site) then "i:0#.f|membership|" + site.createdByEmail else "",
            Findings(if UsersFail(api, site) then Some(api.users(site).failure) else None,
                     |UsersListedFor(api, site)|,
                     if ProfileFails(api, site) then Some(OwnersProfile(api, site).failure) else None,
                     ProfileSentFor(api, site) != None))
  }

  // ---- What one site owes --------------------------------------------------------

  lemma ClassifiesExactly(api: Api, site: Site)
    ensures var c := Classify(api, site);
            && (c.NoOwner? <==> !HasOwner(site))
            && (c.Unavailable? <==> ProfileFails(api, site))
            && (c.Unavailable? ==> c.failure == OwnersProfile(api, site).failure)
            && (c.Orphaned? <==> IsOrphan(api, site))
            && (c.Saved? <==> ProfileSentFor(api, site) != None)
            && (c.Saved? ==> ProfileSentFor(api, site) == Some(c.profile))
  {
  }

  lemma ExpectedExactly(api: Api, site: Site)
    ensures OutcomeFor(site, Expected(api, site)) == RecordFor(api, site)
    ensures OneDriveModel.Failing(Expected(api, site)) <==> SiteFails(api, site)
    ensures UsersOf(api, site) == UsersListedFor(api, site)
    ensures site.lockState in LOCKED_STATES <==> IsLocked(site)
  {
    ClassifiesExactly(api, site);
  }

  /** The number of sites of a sort. */
  function Number(raw: seq<Site>, sort: Site -> bool): nat {
    if raw == [] then 0 else (if sort(raw[0]) then 1 else 0) + Number(raw[1..], sort)
  }

  lemma {:induction false} QueueOwesNumber(api: Api, raw: seq<Site>, q: Quantity, sort: Site -> bool)
    requires forall site :: SiteOwes(api, q, site) == if sort(site) then 1 else 0
    ensures QueueOwes(api, q, raw) == Number(raw, sort)
  {
    if raw != [] {
      QueueOwesNumber(api, raw[1..], q, sort);
    }
  }

  function UserTotal(api: Api, raw: seq<Site>): nat {
    if raw == [] then 0 else |UsersListedFor(api, raw[0])| + UserTotal(api, raw[1..])
  }

  function UserOccurrences(api: Api, raw: seq<Site>, u: string): nat {
    if raw == [] then 0 else multiset(UsersListedFor(api, raw[0]))[u] + UserOccurrences(api, raw[1..], u)
  }

  lemma UsersOwed(api: Api, site: Site, u: string)
    ensures SiteOwes(api, Users, site) == |UsersListedFor(api, site)|
    ensures SiteOwes(api, UserSent(u), site) == multiset(UsersListedFor(api, site))[u]
  {
    ExpectedExactly(api, site);
    assert multiset([])[u] == 0;
  }

  lemma {:induction false} QueueOwesUsers(api: Api, raw: seq<Site>, u: string)
    ensures QueueOwes(api, Users, raw) == UserTotal(api, raw)
    ensures QueueOwes(api, UserSent(u), raw) == UserOccurrences(api, raw, u)
  {
    if raw != [] {
      UsersOwed(api, raw[0], u);
      QueueOwesUsers(api, raw[1..], u);
    }
  }

  // ---- Whole runs ------------------------------------------------------------------

  lemma VerdictsAreAnswers(api: Api, raw: seq<Site>, workers: nat, es: seq<Event>)
    requires Runs(api, Initial(raw, workers), es) && Final(Exec(api, Initial(raw, workers), es))
    ensures var c := Exec(api, Initial(raw, workers), es).shared.counters;
            && c.failed == Number(raw, site => SiteFails(api, site))
            && c.succeeded == Number(raw, site => !SiteFails(api, site))
            && c.locked == Number(raw, site => IsLocked(site))
  {
    NumberOwed(api, raw, workers, es, Failed, site => SiteFails(api, site));
    NumberOwed(api, raw, workers, es, Succeeded, site => !SiteFails(api, site));
    NumberOwed(api, raw, workers, es, Locked, site => IsLocked(site));
  }

  lemma ProfileCountersAreAnswers(api: Api, raw: seq<Site>, workers: nat, es: seq<Event>)
    requires Runs(api, Initial(raw, workers), es) && Final(Exec(api, Initial(raw, workers), es))
    ensures var c := Exec(api, Initial(raw, workers), es).shared.counters;
            && c.noOwner == Number(raw, site => !HasOwner(site))
            && c.orphaned == Number(raw, site => IsOrphan(api, site))
            && c.profiles == Number(raw, site => ProfileSentFor(api, site) != None)
  {
    NumberOwed(api, raw, workers, es, NoOwnerSites, site => !HasOwner(site));
    NumberOwed(api, raw, workers, es, OrphanedSites, site => IsOrphan(api, site));
    NumberOwed(api, raw, workers, es, Profiles, site => ProfileSentFor(api, site) != None);
  }

  /** For any number of workers and any interleaving, when all is done each counter is
      the number of sites of its sort. */
  lemma CountersAreAnswers(api: Api, raw: seq<Site>, workers: nat, es: seq<Event>)
    requires Runs(api, Initial(raw, workers), es) && Final(Exec(api, Initial(raw, workers), es))
    ensures var c := Exec(api, Initial(raw, workers), es).shared.counters;
            && c.failed == Number(raw, site => SiteFails(api, site))
            && c.succeeded == Number(raw, site => !SiteFails(api, site))
            && c.locked == Number(raw, site => IsLocked(site))
            && c.noOwner == Number(raw, site => !HasOwner(site))
            && c.orphaned == Number(raw, site => IsOrphan(api, site))
            && c.profiles == Number(raw, site => ProfileSentFor(api, site) != None)
            && c.users == UserTotal(api, raw)
            && c.dispatched == c.completed == |raw|
  {
    CountersPartition(api, raw, workers, es);
    VerdictsAreAnswers(api, raw, workers, es);
    ProfileCountersAreAnswers(api, raw, workers, es);
    FinalBalance(api, raw, workers, es, Users);
    QueueOwesUsers(api, raw, "");
  }

  /** Which sites a quantity counts. */
  predicate Sorts(api: Api, q: Quantity, site: Site) {
    match q
    case Failed => SiteFails(api, site)
    case Succeeded => !SiteFails(api, site)
    case Locked => IsLocked(site)
    case NoOwnerSites => !HasOwner(site)
    case OrphanedSites => IsOrphan(api, site)
    case Profiles => ProfileSentFor(api, site) != None
    case OutcomeIs(o) => SiteFails(api, site) && RecordFor(api, site) == o
    case ProfileSent(p) => ProfileSentFor(api, site) == Some(p)
    case SiteSent(x) => site == x
    case _ => false
  }

  predicate IsSort(q: Quantity) {
    || q.Failed? || q.Succeeded? || q.Locked? || q.NoOwnerSites? || q.OrphanedSites? || q.Profiles?
    || q.OutcomeIs? || q.ProfileSent? || q.SiteSent?
  }

  lemma SiteOwesItsSort(api: Api, q: Quantity, site: Site)
    requires IsSort(q)
    ensures SiteOwes(api, q, site) == if Sorts(api, q, site) then 1 else 0
  {
    ClassifiesExactly(api, site);
    ExpectedExactly(api, site);
  }

  lemma NumberOwed(api: Api, raw: seq<Site>, workers: nat, es: seq<Event>, q: Quantity, sort: Site -> bool)
    requires Runs(api, Initial(raw, workers), es) && Final(Exec(api, Initial(raw, workers), es))
    requires IsSort(q) && forall site :: sort(site) <==> Sorts(api, q, site)
    ensures Measured(Exec(api, Initial(raw, workers), es).shared, q) == Number(raw, sort)
  {
    FinalBalance(api, raw, workers, es, q);
    forall site ensures SiteOwes(api, q, site) == if sort(site) then 1 else 0 {
      SiteOwesItsSort(api, q, site);
    }
    QueueOwesNumber(api, raw, q, sort);
  }

  /** And every outcome, profile, user and site has been recorded or sent as often as the
      sites and answers call for it: an outcome for each failing site with what the
      answers were, a profile for each site whose owner has a complete one, each user
      listed for a site that is not locked. */
  lemma ResultsAreAnswers(api: Api, raw: seq<Site>, workers: nat, es: seq<Event>)
    requires Runs(api, Initial(raw, workers), es) && Final(Exec(api, Initial(raw, workers), es))
    ensures var t := Exec(api, Initial(raw, workers), es).shared;
            && (forall o :: multiset(t.outcomes)[o] == Number(raw, site => SiteFails(api, site) && RecordFor(api, site) == o))
            && (forall p :: multiset(t.profiles)[p] == Number(raw, site => ProfileSentFor(api, site) == Some(p)))
            && (forall u :: multiset(t.users)[u] == UserOccurrences(api, raw, u))
            && multiset(t.sites) == multiset(raw)
  {
    var t := Exec(api, Initial(raw, workers), es).shared;
    forall o ensures multiset(t.outcomes)[o] == Number(raw, site => SiteFails(api, site) && RecordFor(api, site) == o) {
      NumberOwed(api, raw, workers, es, OutcomeIs(o), site => SiteFails(api, site) && RecordFor(api, site) == o);
    }
    forall p ensures multiset(t.profiles)[p] == Number(raw, site => ProfileSentFor(api, site) == Some(p)) {
      NumberOwed(api, raw, workers, es, ProfileSent(p), site => ProfileSentFor(api, site) == Some(p));
    }
    forall u ensures multiset(t.users)[u] == UserOccurrences(api, raw, u) {
      FinalBalance(api, raw, workers, es, UserSent(u));
      QueueOwesUsers(api, raw, u);
    }
    SitesAreDeterminate(api, raw, workers, es);
  }
}

/** OneDrive runs are bounded. */
module OneDriveWork {
  import opened OneDriveModel

  /** The steps a worker still takes on its current site. */
  function PcWork(api: Api, pc: Pc): nat {
    match pc
    case Idle => 0
    case CountFailed(_) => 1
    case Settle(_, _) => 2
    case Complete(_, _) => 3
    case SendProfile(_, _, _, _) => 4
    case FetchProfile(_, _, _) => 5
    case SendUsers(_, pending, _) => 6 + |pending|
    case ListUsers(site) => 7 + |UsersOf(api, site)|
    case SendSite(site) => 8 + |UsersOf(api, site)|
  }

  function PoolWork(api: Api, ws: seq<Pc>): nat {
    if ws == [] then 0 else PcWork(api, ws[0]) + PoolWork(api, ws[1..])
  }

  function SitesWork(api: Api, sites: seq<Site>, each: nat): nat {
    if sites == [] then 0 else each + |UsersOf(api, sites[0])| + SitesWork(api, sites[1..], each)
  }

  function Work(api: Api, s: State): nat {
    SitesWork(api, s.raw, 10) + SitesWork(api, s.queue, 9) + PoolWork(api, s.workers)
  }

  lemma {:induction false} PoolWorkUpdate(api: Api, ws: seq<Pc>, i: nat, pc: Pc)
    requires i < |ws|
    ensures PoolWork(api, ws[i := pc]) + PcWork(api, ws[i]) == PoolWork(api, ws) + PcWork(api, pc)
  {
    if i == 0 {
      assert ws[i := pc][1..] == ws[1..];
    } else {
      assert ws[i := pc][1..] == ws[1..][i - 1 := pc];
      PoolWorkUpdate(api, ws[1..], i - 1, pc);
    }
  }

  lemma {:induction false} SitesWorkPut(api: Api, sites: seq<Site>, each: nat, site: Site)
    ensures SitesWork(api, sites + [site], each) == SitesWork(api, sites, each) + each + |UsersOf(api, site)|
  {
    if sites == [] {
      assert sites + [site] == [site];
    } else {
      assert (sites + [site])[1..] == sites[1..] + [site];
      SitesWorkPut(api, sites[1..], each, site);
    }
  }

  lemma NextUsesWork(api: Api, pc: Pc, sh: Shared)
    requires !pc.Idle?
    ensures PcWork(api, Next(api, pc, sh).0) < PcWork(api, pc)
  {
  }

  lemma StepUsesWork(api: Api, s: State, e: Event)
    requires Enabled(s, e)
    ensures Work(api, Apply(api, s, e)) < Work(api, s)
  {
    match e
    case Dispatch => SitesWorkPut(api, s.queue, 9, s.raw[0]);
    case Take(w) => PoolWorkUpdate(api, s.workers, w, SendSite(s.queue[0]));
    case Step(w) =>
      NextUsesWork(api, s.workers[w], s.shared);
      PoolWorkUpdate(api, s.workers, w, Next(api, s.workers[w], s.shared).0);
  }

  /** However the workers interleave, a run has a bounded number of steps. */
  lemma {:induction false} RunIsBounded(api: Api, s: State, es: seq<Event>)
    requires Runs(api, s, es)
    ensures |es| + Work(api, Exec(api, s, es)) <= Work(api, s)
    decreases |es|
  {
    if es != [] {
      StepUsesWork(api, s, es[0]);
      RunIsBounded(api, Apply(api, s, es[0]), es[1..]);
    }
  }
}

/** The processing of one site as one worker runs it from start to end. */
module OneDriveProcessors {
  import opened Failures
  import opened OneDriveModel
  import opened OneDriveAnswers

  class OneDriveProcessor {
    const api: Api
    var counters: Counters
    var outcomes: seq<Outcome>
    var sites: seq<Site>
    var users: seq<string>
    var profiles: seq<Profile>

    ghost function View(): Shared
      reads this
    {
      Shared(counters, outcomes, sites, users, profiles)
    }

    constructor (api: Api)
      ensures this.api == api && View() == NOTHING
    {
      this.api := api;
      counters, outcomes, sites, users, profiles := ZERO, [], [], [], [];
    }

    method ShouldSkipLockedSite(lockState: string) returns (skip: bool)
      modifies this`counters
      ensures skip <==> lockState in {"Locked", "ReadOnly", "NoAccess", "NoAdditions"}
      ensures counters == if skip then old(counters).(locked := old(counters).locked + 1) else old(counters)
    {
      if lockState in LOCKED_STATES {
        counters := counters.(locked := counters.locked + 1);
        return true;
      }
      return false;
    }

    method FetchUserProfile(site: Site) returns (profile: Option<Profile>, failure: Option<Failure>)
      modifies this`counters
      ensures profile.Some? <==> Classify(api, site).Saved?
      ensures failure.Some? <==> Classify(api, site).Unavailable?
      ensures profile.Some? ==> profile.value == Classify(api, site).profile && profile.value.personalUrl == NormalizeUrl(site.url)
      ensures failure.Some? ==> failure.value == Classify(api, site).failure
      ensures counters == old(counters).(noOwner := old(counters).noOwner + One(Classify(api, site).NoOwner?),
                                         orphaned := old(counters).orphaned + One(Classify(api, site).Orphaned?))
      ensures profile == ProfileSentFor(api, site)
      ensures failure == if ProfileFails(api, site) then Some(OwnersProfile(api, site).failure) else None
      ensures counters.noOwner == old(counters).noOwner + (if HasOwner(site) then 0 else 1)
      ensures counters.orphaned == old(counters).orphaned + (if IsOrphan(api, site) then 1 else 0)
    {
      ClassifiesExactly(api, site);
      var accountName := AccountName(site);
      if accountName == "" {
        counters := counters.(noOwner := counters.noOwner + 1);
        return None, None;
      }
      var reply := api.profile(accountName);
      if reply.ProfileError? {
        return None, Some(reply.failure);
      }
      if reply.profile.personalUrl == "" || reply.profile.aadObjectId == "" {
        counters := counters.(orphaned := counters.orphaned + 1);
        return None, None;
      }
      return Some(reply.profile.(personalUrl := NormalizeUrl(site.url))), None;
    }

    method SendUsers(list: seq<string>)
      modifies this`counters, this`users
      ensures users == old(users) + list
      ensures counters == old(counters).(users := old(counters).users + |list|)
    {
      for i := 0 to |list|
        invariant users == old(users) + list[..i]
        invariant counters == old(counters).(users := old(counters).users + i)
      {
        users := users + [list[i]];
        counters := counters.(users := counters.users + 1);
      }
    }

    method FetchSiteUsers(site: Site) returns (failure: Option<Failure>, fetched: nat)
      modifies this`counters, this`users
      ensures failure == Expected(api, site).usersFailure && fetched == Expected(api, site).usersFetched
      ensures users == old(users) + UsersOf(api, site)
      ensures counters == old(counters).(users := old(counters).users + |UsersOf(api, site)|,
                                         locked := old(counters).locked + One(site.lockState in LOCKED_STATES))
    {
      failure, fetched := None, 0;
      var skip := ShouldSkipLockedSite(site.lockState);
      if !skip {
        var reply := api.users(site);
        if reply.UsersError? {
          failure := Some(reply.failure);
        } else {
          fetched := |reply.users|;
          SendUsers(reply.users);
        }
      }
    }

    method CompleteSite(site: Site, f: Findings)
      modifies this`counters, this`outcomes
      ensures outcomes == old(outcomes) + (if Failing(f) then [OutcomeFor(site, f)] else [])
      ensures counters == old(counters).(completed := old(counters).completed + 1,
                                         succeeded := old(counters).succeeded + One(!Failing(f)),
                                         failed := old(counters).failed + One(Failing(f)))
      ensures var fails := f.usersFailure != None || f.profileFailure != None;
              && |outcomes| == |old(outcomes)| + (if fails then 1 else 0)
              && counters.failed == old(counters).failed + (if fails then 1 else 0)
    {
      counters := counters.(completed := counters.completed + 1);
      if f.usersFailure != None || f.profileFailure != None {
        outcomes := outcomes + [Outcome(site.url, site.id, AccountName(site), f)];
        counters := counters.(failed := counters.failed + 1);
      } else {
        counters := counters.(succeeded := counters.succeeded + 1);
      }
    }

    /** Adds to the outcomes and the output streams exactly what the site leads to,
        and counts it. */
    method ProcessSite(site: Site)
      modifies this
      ensures outcomes == old(outcomes) + OutcomesOf(api, site)
      ensures sites == old(sites) + [site]
      ensures users == old(users) + UsersOf(api, site)
      ensures profiles == old(profiles) + ProfilesOf(api, site)
      ensures counters == Tally(old(counters), site)
      ensures outcomes == old(outcomes) + (if SiteFails(api, site) then [RecordFor(api, site)] else [])
      ensures users == old(users) + UsersListedFor(api, site)
      ensures profiles == old(profiles) + (match ProfileSentFor(api, site) case Some(p) => [p] case None => [])
      ensures counters.succeeded == old(counters).succeeded + (if SiteFails(api, site) then 0 else 1)
    {
      ClassifiesExactly(api, site);
      ExpectedExactly(api, site);
      sites := sites + [site];
      var usersFailure, usersFetched := FetchSiteUsers(site);
      var profile, profileFailure := FetchUserProfile(site);
      if profile.Some? {
        profiles := profiles + [profile.value];
        counters := counters.(profiles := counters.profiles + 1);
      }
      var findings := Findings(usersFailure, usersFetched, profileFailure, profile.Some?);
      assert findings == Expected(api, site) by {
        FindingsOf(site);
      }
      CompleteSite(site, findings);
    }

    lemma FindingsOf(site: Site)
      ensures var f := Expected(api, site);
              && f.profileFetched == Classify(api, site).Saved?
              && f.profileFailure == if Classify(api, site).Unavailable? then Some(Classify(api, site).failure) else None
    {
    }

    ghost function Tally(c: Counters, site: Site): Counters {
      var failed := One(Failing(Expected(api, site)));
      Counters(c.dispatched, c.completed + 1, c.succeeded + 1 - failed, c.failed + failed,
               c.users + |UsersOf(api, site)|, c.profiles + One(Classify(api, site).Saved?),
               c.locked + One(site.lockState in LOCKED_STATES),
               c.orphaned + One(Classify(api, site).Orphaned?), c.noOwner + One(Classify(api, site).NoOwner?))
    }

    /** Running a site from start to end adds to each counter exactly what a worker
        in the transition system owes it for that site. */
    lemma TallyIsWhatIsOwed(c: Counters, site: Site)
      ensures Tally(c, site) == Counters(
                c.dispatched + SiteOwes(api, Dispatched, site), c.completed + SiteOwes(api, Completed, site),
                c.succeeded + SiteOwes(api, Succeeded, site), c.failed + SiteOwes(api, Failed, site),
                c.users + SiteOwes(api, Users, site), c.profiles + SiteOwes(api, Profiles, site),
                c.locked + SiteOwes(api, Locked, site), c.orphaned + SiteOwes(api, OrphanedSites, site),
                c.noOwner + SiteOwes(api, NoOwnerSites, site))
    {
    }
  }
}
