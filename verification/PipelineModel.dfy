/** The SharePoint pipeline as a transition system: filter, dispatcher, user and
    group workers admitted by the scaler, stream bridges and the writer's input
    channel, connected by bounded channels. One event is one step of one
    goroutine; inside the scaler it is one atomic operation. */
module PipelineModel {
  import opened Failures
  import Throttle = ThrottleModel
  import Atomic = ThrottleAtomic

  /** Trackers are keyed by URL; the rest of a site's data is its id here. */
  datatype Site = Site(url: string, id: string)

  /** A record on its way to storage. */
  datatype Entity = Entity(key: string, row: string)

  datatype Kind = Sites | Users | Groups | Members

  datatype Out = Out(kind: Kind, entity: Entity)

  datatype SkipReason = Keep | SkipTemplate | SkipTenantRoot

  datatype UsersResult = UsersError(failure: Failure) | UsersFetched(users: seq<Entity>)

  datatype GroupsResult =
    | GroupsError(failure: Failure)
    | GroupsFetched(groups: seq<Entity>, members: seq<Entity>, memberErrors: nat, memberTimeouts: nat)

  /** The filter rule and what the API answers for each site are arbitrary. */
  datatype Config = Config(
    processGroups: bool, processMembers: bool, writerCap: nat,
    skip: Site -> SkipReason, users: Site -> UsersResult, groups: Site -> GroupsResult, entityOf: Site -> Entity)

  const FILTERED_CAP: nat := 400
  const USER_SITES_CAP: nat := 400
  const GROUP_SITES_CAP: nat := 200

  function OutCap(k: Kind): nat {
    match k
    case Sites => 1000
    case Users => 1000
    case Groups => 500
    case Members => 1000
  }

  datatype Role = UserRole | GroupRole

  function Labelled(k: Kind, es: seq<Entity>): seq<Out> {
    seq(|es|, i requires 0 <= i < |es| => Out(k, es[i]))
  }

  /** Everything one worker emits for one site, in order. */
  function OutsOf(cfg: Config, role: Role, site: Site): seq<Out> {
    match role
    case UserRole =>
      (match cfg.users(site)
       case UsersError(_) => []
       case UsersFetched(users) => Labelled(Users, users))
    case GroupRole =>
      (match cfg.groups(site)
       case GroupsError(_) => []
       case GroupsFetched(groups, members, _, _) =>
         Labelled(Groups, groups) + (if cfg.processMembers then Labelled(Members, members) else []))
  }

  // ---- Trackers and outcomes -----------------------------------------------

  datatype UserPart = UserPart(failure: Option<Failure>, fetched: nat)

  datatype GroupPart = GroupPart(failure: Option<Failure>, groups: nat, members: nat, memberErrors: nat, memberTimeouts: nat)

  const NO_USERS := UserPart(None, 0)
  const NO_GROUPS := GroupPart(None, 0, 0, 0, 0)

  datatype Tracker = Tracker(site: Site, remaining: int, user: UserPart, group: GroupPart)

  datatype Outcome = Outcome(site: Site, user: UserPart, group: GroupPart)

  predicate HasFailed(user: UserPart, group: GroupPart) {
    user.failure != None || group.failure != None || group.memberErrors > 0 || group.memberTimeouts > 0
  }

  datatype Counters = Counters(dispatched: nat, completed: nat, succeeded: nat, failed: nat,
                               users: nat, groups: nat, members: nat, skipTemplate: nat, skipTenantRoot: nat)

  function OutcomesWith(outcomes: seq<Outcome>, t: Tracker): seq<Outcome> {
    if HasFailed(t.user, t.group) then outcomes + [Outcome(t.site, t.user, t.group)] else outcomes
  }

  // ---- The filter's verdicts -------------------------------------------------

  /** The sites that the filter keeps. */
  function KeepAll(cfg: Config, raw: seq<Site>): seq<Site> {
    if raw == [] then []
    else (if cfg.skip(raw[0]).Keep? then [raw[0]] else []) + KeepAll(cfg, raw[1..])
  }

  function CountSkip(cfg: Config, raw: seq<Site>, why: SkipReason): nat {
    if raw == [] then 0 else (if cfg.skip(raw[0]) == why then 1 else 0) + CountSkip(cfg, raw[1..], why)
  }

  // ---- State ---------------------------------------------------------------

  datatype Chan<T> = Chan(items: seq<T>, closed: bool)

  /** One value per entity kind. */
  datatype PerKind<T> = PerKind(sites: T, users: T, groups: T, members: T) {
    function Get(k: Kind): T {
      match k
      case Sites => sites
      case Users => users
      case Groups => groups
      case Members => members
    }

    function Set(k: Kind, v: T): (r: PerKind<T>)
      ensures forall j: Kind :: r.Get(j) == if j == k then v else Get(j)
    {
      match k
      case Sites => this.(sites := v)
      case Users => this.(users := v)
      case Groups => this.(groups := v)
      case Members => this.(members := v)
    }
  }

  datatype FilterPc = FReceive | FSend(site: Site) | FDone

  datatype DispatchPc = DReceive | DSites(site: Site) | DUsers(site: Site) | DGroups(site: Site) | DDone

  datatype Pc =
    | Idle
    | Waiting(site: Site)                        // for a scaler token
    | LookingUp(site: Site)                      // the site's tracker
    | Fetching(site: Site)                       // the API call
    | Sending(site: Site, pending: seq<Out>)
    | Finishing(site: Site)                      // about to decrement the countdown
    | Last(site: Site)                           // took the countdown to zero
    | Closing(tracker: Tracker)                  // tracker dropped, site not yet counted
    | Settling(tracker: Tracker)                 // counted as completed
    | Failing(site: Site)                        // about to count a failure
    | Releasing                                  // inside the scaler's Release
    | Exited

  datatype Worker = Worker(role: Role, pc: Pc)

  datatype BridgePc = BReceive | BHolding(entity: Entity) | BDone

  /** Sites on their way to the workers' queues. */
  datatype Sources = Sources(raw: seq<Site>, filter: FilterPc, filtered: Chan<Site>, dispatcher: DispatchPc)

  datatype Queues = Queues(userSites: Chan<Site>, groupSites: Chan<Site>)

  /** Worker `i` of the pool is worker `i` of the scaler. */
  datatype Pool = Pool(workers: seq<Worker>, scaler: Atomic.Atomics)

  /** Entities on their way to storage. */
  datatype Sinks = Sinks(out: PerKind<Chan<Entity>>, bridges: PerKind<BridgePc>, writerIn: seq<Out>, enqueued: seq<Out>)

  /** What is known of the sites. `dispatched`, `finished` (tracker dropped) and
      `settled` (outcome recorded or success counted) record history the program
      does not keep, as does `enqueued` above. */
  datatype Book = Book(trackers: map<string, Tracker>, outcomes: seq<Outcome>, counters: Counters,
                       dispatched: seq<Site>, finished: seq<Site>, settled: seq<Site>)

  datatype State = State(up: Sources, queues: Queues, pool: Pool, down: Sinks, book: Book)

  predicate Active(cfg: Config, k: Kind) {
    match k
    case Sites => true
    case Users => true
    case Groups => cfg.processGroups
    case Members => cfg.processGroups && cfg.processMembers
  }

  function StartBridge(cfg: Config, k: Kind): BridgePc {
    if Active(cfg, k) then BReceive else BDone
  }

  function WorkersPerSite(cfg: Config): int {
    if cfg.processGroups then 2 else 1
  }

  function StartPool(cfg: Config, userWorkers: nat, groupWorkers: nat): seq<Worker> {
    seq(userWorkers, _ => Worker(UserRole, Idle))
    + (if cfg.processGroups then seq(groupWorkers, _ => Worker(GroupRole, Idle)) else [])
  }

  function Initial(cfg: Config, raw: seq<Site>, userWorkers: nat, groupWorkers: nat,
                   signals: seq<(Throttle.ScaleAction, int)>, counts: seq<int>): State
    requires |counts| == |signals|
  {
    var pool := StartPool(cfg, userWorkers, groupWorkers);
    var open := Chan([], false);
    State(Sources(raw, FReceive, Chan([], false), DReceive),
          Queues(Chan([], false), Chan([], false)),
          Pool(pool, Atomic.Initial(|pool|, |pool|, signals, counts)),
          Sinks(PerKind(open, open, open, open),
                PerKind(StartBridge(cfg, Sites), StartBridge(cfg, Users), StartBridge(cfg, Groups), StartBridge(cfg, Members)),
                [], []),
          Book(map[], [], Counters(0, 0, 0, 0, 0, 0, 0, 0, 0), [], [], []))
  }

  // ---- Steps ---------------------------------------------------------------

  /** The single operations of a release. */
  datatype ReleaseOp = LoadLive | LoadLimit | Swallow | Return

  function ReleaseStep(w: nat, op: ReleaseOp): Atomic.Event {
    match op
    case LoadLive => Atomic.LoadLive(w)
    case LoadLimit => Atomic.LoadLimit(w)
    case Swallow => Atomic.Cas(w)
    case Return => Atomic.Send(w)
  }

  /** A worker's steps up to the countdown. */
  datatype WorkerAct = Take | Exit | Acquire | LookUp | Fetch | Emit | Count | Decrement

  /** Its steps after the countdown: settling the site and releasing the token. */
  datatype EndAct = Finish | Complete | Settle | CountFailed | Release(op: ReleaseOp)

  datatype FilterAct = FilterTake | FilterSend | FilterClose

  datatype DispatchAct = DispatchTake | DispatchSite | DispatchUser | DispatchGroup | DispatchClose

  datatype SinkAct = CloseOutputs | BridgeTake(k: Kind) | BridgeEnqueue(k: Kind) | BridgeStop(k: Kind) | WriterTake

  datatype Event =
    | Work(w: nat, act: WorkerAct)
    | End(w: nat, ending: EndAct)
    | Filter(filtering: FilterAct)
    | Dispatch(dispatching: DispatchAct)
    | Sink(sinking: SinkAct)
    | Monitor(step: Atomic.Event)

  /** Steps of the pipeline itself, as opposed to the scaler's monitor. */
  predicate IsPipelineStep(e: Event) {
    !e.Monitor?
  }

  function QueueOf(s: State, role: Role): Chan<Site> {
    if role.UserRole? then s.queues.userSites else s.queues.groupSites
  }

  predicate WorkerEnabled(s: State, w: nat, act: WorkerAct) {
    && w < |s.pool.workers|
    && var x := s.pool.workers[w];
    match act
    case Take => x.pc.Idle? && QueueOf(s, x.role).items != []
    case Exit => x.pc.Idle? && QueueOf(s, x.role).closed && QueueOf(s, x.role).items == []
    case Acquire => x.pc.Waiting? && Atomic.Enabled(s.pool.scaler, Atomic.Acquire(w))
    case LookUp => x.pc.LookingUp?
    case Fetch => x.pc.Fetching?
    case Emit => x.pc.Sending? && x.pc.pending != []
                 && |s.down.out.Get(x.pc.pending[0].kind).items| < OutCap(x.pc.pending[0].kind)
    case Count => x.pc.Sending? && x.pc.pending == []
    case Decrement => x.pc.Finishing?
  }

  predicate EndEnabled(s: State, w: nat, ending: EndAct) {
    && w < |s.pool.workers|
    && var x := s.pool.workers[w];
    match ending
    case Finish => x.pc.Last?
    case Complete => x.pc.Closing?
    case Settle => x.pc.Settling?
    case CountFailed => x.pc.Failing?
    case Release(op) => x.pc.Releasing? && Atomic.Enabled(s.pool.scaler, ReleaseStep(w, op))
  }

  predicate FilterEnabled(s: State, f: FilterAct) {
    match f
    case FilterTake => s.up.filter.FReceive? && s.up.raw != []
    case FilterSend => s.up.filter.FSend? && |s.up.filtered.items| < FILTERED_CAP
    case FilterClose => s.up.filter.FReceive? && s.up.raw == []
  }

  predicate DispatchEnabled(s: State, d: DispatchAct) {
    match d
    case DispatchTake => s.up.dispatcher.DReceive? && s.up.filtered.items != []
    case DispatchSite => s.up.dispatcher.DSites? && |s.down.out.sites.items| < OutCap(Sites)
    case DispatchUser => s.up.dispatcher.DUsers? && |s.queues.userSites.items| < USER_SITES_CAP
    case DispatchGroup => s.up.dispatcher.DGroups? && |s.queues.groupSites.items| < GROUP_SITES_CAP
    case DispatchClose => s.up.dispatcher.DReceive? && s.up.filtered.closed && s.up.filtered.items == []
  }

  predicate SinkEnabled(cfg: Config, s: State, x: SinkAct) {
    match x
    case CloseOutputs => !s.down.out.users.closed && AllExited(s.pool.workers)
    case BridgeTake(k) => s.down.bridges.Get(k).BReceive? && s.down.out.Get(k).items != []
    case BridgeEnqueue(k) => s.down.bridges.Get(k).BHolding? && |s.down.writerIn| < cfg.writerCap
    case BridgeStop(k) => s.down.bridges.Get(k).BReceive? && s.down.out.Get(k).closed && s.down.out.Get(k).items == []
    case WriterTake => s.down.writerIn != []
  }

  predicate AllExited(ws: seq<Worker>) {
    forall w :: 0 <= w < |ws| ==> ws[w].pc.Exited?
  }

  predicate MonitorEnabled(s: State, step: Atomic.Event) {
    !Atomic.IsWorkerStep(step) && Atomic.Enabled(s.pool.scaler, step)
  }

  predicate Enabled(cfg: Config, s: State, e: Event) {
    match e
    case Work(w, act) => WorkerEnabled(s, w, act)
    case End(w, ending) => EndEnabled(s, w, ending)
    case Filter(f) => FilterEnabled(s, f)
    case Dispatch(d) => DispatchEnabled(s, d)
    case Sink(x) => SinkEnabled(cfg, s, x)
    case Monitor(step) => MonitorEnabled(s, step)
  }

  function Put<T>(c: Chan<T>, x: T): Chan<T> {
    c.(items := c.items + [x])
  }

  function Close<T>(c: Chan<T>): Chan<T> {
    c.(closed := true)
  }

  function Move(s: State, w: nat, pc: Pc): State
    requires w < |s.pool.workers|
  {
    s.(pool := s.pool.(workers := s.pool.workers[w := s.pool.workers[w].(pc := pc)]))
  }

  /** The worker moves and the scaler takes the given step. */
  function MoveScaler(s: State, w: nat, pc: Pc, step: Atomic.Event): State
    requires w < |s.pool.workers| && Atomic.Enabled(s.pool.scaler, step)
  {
    s.(pool := Pool(s.pool.workers[w := s.pool.workers[w].(pc := pc)], Atomic.Apply(s.pool.scaler, step)))
  }

  function TrackerOf(s: State, site: Site): Tracker {
    if site.url in s.book.trackers then s.book.trackers[site.url] else Tracker(site, 0, NO_USERS, NO_GROUPS)
  }

  function Store(b: Book, site: Site, t: Tracker): Book {
    b.(trackers := b.trackers[site.url := t])
  }

  function TakeSite(s: State, w: nat): State
    requires w < |s.pool.workers| && QueueOf(s, s.pool.workers[w].role).items != []
  {
    var q := QueueOf(s, s.pool.workers[w].role);
    var rest := q.(items := q.items[1..]);
    var moved := Move(s, w, Waiting(q.items[0]));
    if s.pool.workers[w].role.UserRole?
    then moved.(queues := s.queues.(userSites := rest))
    else moved.(queues := s.queues.(groupSites := rest))
  }

  function LookUpSite(s: State, w: nat): State
    requires w < |s.pool.workers| && s.pool.workers[w].pc.LookingUp?
  {
    var site := s.pool.workers[w].pc.site;
    var c := s.book.counters;
    if site.url in s.book.trackers then Move(s, w, Fetching(site))
    else Move(s, w, Failing(site)).(book := s.book.(counters := c.(completed := c.completed + 1)))
  }

  /** The result of the API call: an error goes straight to finishing; a group
      result leaves its member errors in the tracker. */
  function FetchSite(cfg: Config, s: State, w: nat): State
    requires w < |s.pool.workers| && s.pool.workers[w].pc.Fetching?
  {
    var role, site := s.pool.workers[w].role, s.pool.workers[w].pc.site;
    var t := TrackerOf(s, site);
    var send := Move(s, w, Sending(site, OutsOf(cfg, role, site)));
    var finish := Move(s, w, Finishing(site));
    match role
    case UserRole =>
      (match cfg.users(site)
       case UsersError(f) => finish.(book := Store(s.book, site, t.(user := t.user.(failure := Some(f)))))
       case UsersFetched(_) => send)
    case GroupRole =>
      (match cfg.groups(site)
       case GroupsError(f) => finish.(book := Store(s.book, site, t.(group := t.group.(failure := Some(f)))))
       case GroupsFetched(_, _, errors, timeouts) =>
         send.(book := Store(s.book, site, t.(group := t.group.(memberErrors := errors, memberTimeouts := timeouts)))))
  }

  function EmitOne(s: State, w: nat): State
    requires w < |s.pool.workers| && s.pool.workers[w].pc.Sending? && s.pool.workers[w].pc.pending != []
  {
    var pc := s.pool.workers[w].pc;
    var o := pc.pending[0];
    Move(s, w, Sending(pc.site, pc.pending[1..])).(
    down := s.down.(out := s.down.out.Set(o.kind, Put(s.down.out.Get(o.kind), o.entity))))
  }

  /** What was fetched is stored in the tracker and added to the counters. */
  function CountSite(cfg: Config, s: State, w: nat): State
    requires w < |s.pool.workers| && s.pool.workers[w].pc.Sending?
  {
    var role, site := s.pool.workers[w].role, s.pool.workers[w].pc.site;
    var t := TrackerOf(s, site);
    var c := s.book.counters;
    var finish := Move(s, w, Finishing(site));
    match role
    case UserRole =>
      (match cfg.users(site)
       case UsersError(_) => finish
       case UsersFetched(users) =>
         finish.(book := Store(s.book, site, t.(user := t.user.(fetched := |users|))).(
                 counters := c.(users := c.users + |users|))))
    case GroupRole =>
      (match cfg.groups(site)
       case GroupsError(_) => finish
       case GroupsFetched(groups, members, _, _) =>
         var sent := if cfg.processMembers then |members| else 0;
         var kept := if cfg.processMembers then sent else t.group.members;
         finish.(book := Store(s.book, site, t.(group := t.group.(groups := |groups|, members := kept))).(
                 counters := c.(groups := c.groups + |groups|, members := c.members + sent))))
  }

  function DecrementSite(s: State, w: nat): State
    requires w < |s.pool.workers| && s.pool.workers[w].pc.Finishing?
  {
    var site := s.pool.workers[w].pc.site;
    var t := TrackerOf(s, site);
    var left := t.remaining - 1;
    Move(s, w, if left == 0 then Last(site) else Releasing).(book := Store(s.book, site, t.(remaining := left)))
  }

  /** The last worker drops the tracker and goes on with its own reference to it. */
  function FinishSite(s: State, w: nat): State
    requires w < |s.pool.workers| && s.pool.workers[w].pc.Last?
  {
    var site := s.pool.workers[w].pc.site;
    var t := TrackerOf(s, site);
    Move(s, w, Closing(t)).(
    book := s.book.(trackers := s.book.trackers - {site.url}, finished := s.book.finished + [t.site]))
  }

  function CompleteSite(s: State, w: nat): State
    requires w < |s.pool.workers| && s.pool.workers[w].pc.Closing?
  {
    var c := s.book.counters;
    Move(s, w, Settling(s.pool.workers[w].pc.tracker)).(
    book := s.book.(counters := c.(completed := c.completed + 1)))
  }

  /** A failed site's outcome is recorded before the failure is counted. */
  function SettleSite(s: State, w: nat): State
    requires w < |s.pool.workers| && s.pool.workers[w].pc.Settling?
  {
    var t := s.pool.workers[w].pc.tracker;
    var c := s.book.counters;
    var settled := s.book.(settled := s.book.settled + [t.site]);
    if HasFailed(t.user, t.group)
    then Move(s, w, Failing(t.site)).(book := settled.(outcomes := OutcomesWith(s.book.outcomes, t)))
    else Move(s, w, Releasing).(book := settled.(counters := c.(succeeded := c.succeeded + 1)))
  }

  function CountFailure(s: State, w: nat): State
    requires w < |s.pool.workers|
  {
    var c := s.book.counters;
    Move(s, w, Releasing).(book := s.book.(counters := c.(failed := c.failed + 1)))
  }

  /** One operation of a release; the last one leaves the scaler. */
  function ReleaseOn(s: State, w: nat, op: ReleaseOp): State
    requires w < |s.pool.workers| && Atomic.Enabled(s.pool.scaler, ReleaseStep(w, op))
  {
    var leaves := op.Return? || (op.Swallow? && !Atomic.CasFails(s.pool.scaler, w));
    MoveScaler(s, w, if leaves then Idle else Releasing, ReleaseStep(w, op))
  }

  function ApplyWorker(cfg: Config, s: State, w: nat, act: WorkerAct): State
    requires WorkerEnabled(s, w, act)
  {
    match act
    case Take => TakeSite(s, w)
    case Exit => Move(s, w, Exited)
    case Acquire => MoveScaler(s, w, LookingUp(s.pool.workers[w].pc.site), Atomic.Acquire(w))
    case LookUp => LookUpSite(s, w)
    case Fetch => FetchSite(cfg, s, w)
    case Emit => EmitOne(s, w)
    case Count => CountSite(cfg, s, w)
    case Decrement => DecrementSite(s, w)
  }

  function ApplyEnd(s: State, w: nat, ending: EndAct): State
    requires EndEnabled(s, w, ending)
  {
    match ending
    case Finish => FinishSite(s, w)
    case Complete => CompleteSite(s, w)
    case Settle => SettleSite(s, w)
    case CountFailed => CountFailure(s, w)
    case Release(op) => ReleaseOn(s, w, op)
  }

  // ---- Filter, dispatcher, bridges, writer -----------------------------------

  function ApplyFilter(cfg: Config, s: State, f: FilterAct): State
    requires FilterEnabled(s, f)
  {
    var up, c := s.up, s.book.counters;
    match f
    case FilterTake =>
      var rest := up.(raw := up.raw[1..]);
      (match cfg.skip(up.raw[0])
       case Keep => s.(up := rest.(filter := FSend(up.raw[0])))
       case SkipTemplate => s.(up := rest, book := s.book.(counters := c.(skipTemplate := c.skipTemplate + 1)))
       case SkipTenantRoot => s.(up := rest, book := s.book.(counters := c.(skipTenantRoot := c.skipTenantRoot + 1))))
    case FilterSend => s.(up := up.(filter := FReceive, filtered := Put(up.filtered, up.filter.site)))
    case FilterClose => s.(up := up.(filter := FDone, filtered := Close(up.filtered)))
  }

  /** A site leaves the filtered channel with a fresh tracker. */
  function DispatchNext(cfg: Config, s: State): State
    requires s.up.filtered.items != []
  {
    var site := s.up.filtered.items[0];
    var c := s.book.counters;
    s.(up := s.up.(filtered := s.up.filtered.(items := s.up.filtered.items[1..]), dispatcher := DSites(site)),
       book := Store(s.book, site, Tracker(site, WorkersPerSite(cfg), NO_USERS, NO_GROUPS)).(
       counters := c.(dispatched := c.dispatched + 1), dispatched := s.book.dispatched + [site]))
  }

  function SetOut(s: State, k: Kind, c: Chan<Entity>): Sinks {
    s.down.(out := s.down.out.Set(k, c))
  }

  function ApplyDispatch(cfg: Config, s: State, d: DispatchAct): State
    requires DispatchEnabled(s, d)
  {
    var up, q := s.up, s.queues;
    match d
    case DispatchTake => DispatchNext(cfg, s)
    case DispatchSite =>
      s.(up := up.(dispatcher := DUsers(up.dispatcher.site)),
         down := SetOut(s, Sites, Put(s.down.out.sites, cfg.entityOf(up.dispatcher.site))))
    case DispatchUser =>
      s.(up := up.(dispatcher := if cfg.processGroups then DGroups(up.dispatcher.site) else DReceive),
         queues := q.(userSites := Put(q.userSites, up.dispatcher.site)))
    case DispatchGroup =>
      s.(up := up.(dispatcher := DReceive), queues := q.(groupSites := Put(q.groupSites, up.dispatcher.site)))
    case DispatchClose =>
      s.(up := up.(dispatcher := DDone), queues := Queues(Close(q.userSites), Close(q.groupSites)),
         down := SetOut(s, Sites, Close(s.down.out.sites)))
  }

  function ApplySink(cfg: Config, s: State, x: SinkAct): State
    requires SinkEnabled(cfg, s, x)
  {
    var d := s.down;
    match x
    case CloseOutputs =>
      s.(down := d.(out := PerKind(d.out.sites, Close(d.out.users), Close(d.out.groups), Close(d.out.members))))
    case BridgeTake(k) =>
      var c := d.out.Get(k);
      s.(down := d.(out := d.out.Set(k, c.(items := c.items[1..])), bridges := d.bridges.Set(k, BHolding(c.items[0]))))
    case BridgeEnqueue(k) =>
      var o := Out(k, d.bridges.Get(k).entity);
      s.(down := d.(bridges := d.bridges.Set(k, BReceive), writerIn := d.writerIn + [o], enqueued := d.enqueued + [o]))
    case BridgeStop(k) => s.(down := d.(bridges := d.bridges.Set(k, BDone)))
    case WriterTake => s.(down := d.(writerIn := d.writerIn[1..]))
  }

  function ApplyMonitor(s: State, step: Atomic.Event): State
    requires Atomic.Enabled(s.pool.scaler, step)
  {
    s.(pool := s.pool.(scaler := Atomic.Apply(s.pool.scaler, step)))
  }

  function Apply(cfg: Config, s: State, e: Event): State
    requires Enabled(cfg, s, e)
  {
    match e
    case Work(w, act) => ApplyWorker(cfg, s, w, act)
    case End(w, ending) => ApplyEnd(s, w, ending)
    case Filter(f) => ApplyFilter(cfg, s, f)
    case Dispatch(d) => ApplyDispatch(cfg, s, d)
    case Sink(x) => ApplySink(cfg, s, x)
    case Monitor(step) => ApplyMonitor(s, step)
  }

  predicate Runs(cfg: Config, s: State, es: seq<Event>)
    decreases |es|
  {
    es == [] || (Enabled(cfg, s, es[0]) && Runs(cfg, Apply(cfg, s, es[0]), es[1..]))
  }

  function Exec(cfg: Config, s: State, es: seq<Event>): State
    requires Runs(cfg, s, es)
    decreases |es|
  {
    if es == [] then s else Exec(cfg, Apply(cfg, s, es[0]), es[1..])
  }

  /** Every stream has ended and the writer has taken everything. */
  predicate Final(s: State) {
    (forall k: Kind :: s.down.bridges.Get(k).BDone?) && s.down.writerIn == []
  }

  lemma RunCons(cfg: Config, s: State, e: Event, es: seq<Event>)
    requires Enabled(cfg, s, e) && Runs(cfg, Apply(cfg, s, e), es)
    ensures Runs(cfg, s, [e] + es) && Exec(cfg, s, [e] + es) == Exec(cfg, Apply(cfg, s, e), es)
  {
    assert ([e] + es)[1..] == es;
  }

  lemma {:induction false} RunConcat(cfg: Config, s: State, first: seq<Event>, second: seq<Event>)
    requires Runs(cfg, s, first) && Runs(cfg, Exec(cfg, s, first), second)
    ensures Runs(cfg, s, first + second) && Exec(cfg, s, first + second) == Exec(cfg, Exec(cfg, s, first), second)
    decreases |first|
  {
    if first == [] {
      assert first + second == second;
    } else {
      assert (first + second)[1..] == first[1..] + second;
      RunConcat(cfg, Apply(cfg, s, first[0]), first[1..], second);
    }
  }
}
