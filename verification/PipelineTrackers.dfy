/** Per-site trackers: the countdown equals the tasks still owed, the last worker
    finalises the site, once. */
module PipelineTrackers {
  import opened Failures
  import opened PipelineModel
  import opened PipelineStructure
  import Throttle = ThrottleModel

  // ---- Counting tasks ------------------------------------------------------

  function CountUrl(sites: seq<Site>, u: string): nat {
    if sites == [] then 0 else (if sites[0].url == u then 1 else 0) + CountUrl(sites[1..], u)
  }

  /** The site a worker still owes a decrement for. */
  function Owes(w: Worker): Option<Site> {
    match w.pc
    case Waiting(site) => Some(site)
    case LookingUp(site) => Some(site)
    case Fetching(site) => Some(site)
    case Sending(site, _) => Some(site)
    case Finishing(site) => Some(site)
    case _ => None
  }

  function OwesOn(w: Worker, role: Role, u: string): nat {
    if w.role == role && Owes(w) != None && Owes(w).value.url == u then 1 else 0
  }

  function LastOn(w: Worker, u: string): nat {
    if w.pc.Last? && w.pc.site.url == u then 1 else 0
  }

  function CountOwes(ws: seq<Worker>, role: Role, u: string): nat {
    if ws == [] then 0 else OwesOn(ws[0], role, u) + CountOwes(ws[1..], role, u)
  }

  function CountLast(ws: seq<Worker>, u: string): nat {
    if ws == [] then 0 else LastOn(ws[0], u) + CountLast(ws[1..], u)
  }

  function DispatcherOwes(cfg: Config, d: DispatchPc, role: Role, u: string): nat {
    match d
    case DSites(site) => if site.url == u && (role.GroupRole? ==> cfg.processGroups) then 1 else 0
    case DUsers(site) => if site.url == u && (role.GroupRole? ==> cfg.processGroups) then 1 else 0
    case DGroups(site) => if site.url == u && role.GroupRole? then 1 else 0
    case _ => 0
  }

  /** The tasks of one role for one site: owed by the dispatcher, queued, or with a
      worker that has not decremented yet. */
  function Tasks(cfg: Config, s: State, role: Role, u: string): nat {
    DispatcherOwes(cfg, s.up.dispatcher, role, u) + CountUrl(QueueOf(s, role).items, u) + CountOwes(s.pool.workers, role, u)
  }

  lemma {:induction false} CountUrlAppend(xs: seq<Site>, ys: seq<Site>, u: string)
    ensures CountUrl(xs + ys, u) == CountUrl(xs, u) + CountUrl(ys, u)
  {
    if xs == [] {
      assert xs + ys == ys;
    } else {
      assert (xs + ys)[1..] == xs[1..] + ys;
      CountUrlAppend(xs[1..], ys, u);
    }
  }

  lemma CountUrlPut(xs: seq<Site>, site: Site, u: string)
    ensures CountUrl(xs + [site], u) == CountUrl(xs, u) + (if site.url == u then 1 else 0)
  {
    CountUrlAppend(xs, [site], u);
    assert [site][1..] == [];
  }

  lemma {:induction false} CountUrlMember(xs: seq<Site>, i: nat, u: string)
    requires i < |xs| && xs[i].url == u
    ensures CountUrl(xs, u) >= 1
  {
    if i > 0 {
      CountUrlMember(xs[1..], i - 1, u);
    }
  }

  lemma {:induction false} CountsAfterMove(ws: seq<Worker>, i: nat, w: Worker, role: Role, u: string)
    requires i < |ws|
    ensures CountOwes(ws[i := w], role, u) + OwesOn(ws[i], role, u) == CountOwes(ws, role, u) + OwesOn(w, role, u)
    ensures CountLast(ws[i := w], u) + LastOn(ws[i], u) == CountLast(ws, u) + LastOn(w, u)
    ensures OwesOn(ws[i], role, u) <= CountOwes(ws, role, u) && LastOn(ws[i], u) <= CountLast(ws, u)
  {
    if i == 0 {
      assert ws[i := w][1..] == ws[1..];
    } else {
      assert ws[i := w][1..] == ws[1..][i - 1 := w];
      CountsAfterMove(ws[1..], i - 1, w, role, u);
    }
  }

  /** Two workers on the same task count twice. */
  lemma TwoCount(ws: seq<Worker>, i: nat, j: nat, role: Role, u: string)
    requires i < |ws| && j < |ws| && i != j
    ensures OwesOn(ws[i], role, u) + OwesOn(ws[j], role, u) <= CountOwes(ws, role, u)
    ensures LastOn(ws[i], u) + LastOn(ws[j], u) <= CountLast(ws, u)
  {
    var gone := Worker(role, Idle);
    CountsAfterMove(ws, i, gone, role, u);
    CountsAfterMove(ws[i := gone], j, gone, role, u);
  }

  // ---- Every site once -----------------------------------------------------

  predicate DistinctUrls(sites: seq<Site>) {
    forall i, j :: 0 <= i < j < |sites| ==> sites[i].url != sites[j].url
  }

  function FilterHolds(f: FilterPc): seq<Site> {
    if f.FSend? then [f.site] else []
  }

  /** Kept sites that have not reached the dispatcher. */
  function Ahead(cfg: Config, up: Sources): seq<Site> {
    up.filtered.items + (FilterHolds(up.filter) + KeepAll(cfg, up.raw))
  }

  /** Kept sites in pipeline order, from those dispatched to those still to come. */
  function Line(cfg: Config, s: State): seq<Site> {
    s.book.dispatched + Ahead(cfg, s.up)
  }

  lemma FilterStepKeepsAhead(cfg: Config, s: State, f: FilterAct)
    requires FilterEnabled(s, f)
    ensures Ahead(cfg, ApplyFilter(cfg, s, f).up) == Ahead(cfg, s.up)
  {
    var t := ApplyFilter(cfg, s, f);
    if f.FilterTake? {
      assert FilterHolds(t.up.filter) + KeepAll(cfg, t.up.raw) == FilterHolds(s.up.filter) + KeepAll(cfg, s.up.raw);
    } else if f.FilterSend? {
      assert Ahead(cfg, t.up) == s.up.filtered.items + [s.up.filter.site] + ([] + KeepAll(cfg, s.up.raw));
    }
  }

  lemma DispatchStepKeepsLine(cfg: Config, s: State, d: DispatchAct)
    requires DispatchEnabled(s, d)
    ensures Line(cfg, ApplyDispatch(cfg, s, d)) == Line(cfg, s)
  {
    DispatchFrame(cfg, s, d);
    if d.DispatchTake? {
      assert s.up.filtered.items == [s.up.filtered.items[0]] + s.up.filtered.items[1..];
    }
  }

  /** Sites keep their order; none of the kept ones is lost or doubled on the way. */
  lemma StepKeepsLine(cfg: Config, s: State, e: Event)
    requires Enabled(cfg, s, e)
    ensures Line(cfg, Apply(cfg, s, e)) == Line(cfg, s)
  {
    match e
    case Work(w, act) => WorkerStepFrame(cfg, s, w, act);
    case End(w, ending) => EndFrame(s, w, ending);
    case Filter(f) =>
      FilterFrame(cfg, s, f);
      FilterStepKeepsAhead(cfg, s, f);
    case Dispatch(d) => DispatchStepKeepsLine(cfg, s, d);
    case Sink(x) => SinkFrame(cfg, s, x);
    case Monitor(_) =>
  }

  /** A site about to be dispatched has not been dispatched before. */
  lemma NextIsNew(cfg: Config, s: State)
    requires DistinctUrls(Line(cfg, s)) && s.up.filtered.items != []
    ensures CountUrl(s.book.dispatched, s.up.filtered.items[0].url) == 0
  {
    var u := s.up.filtered.items[0].url;
    var n := |s.book.dispatched|;
    assert Line(cfg, s)[n] == s.up.filtered.items[0];
    forall i | 0 <= i < n ensures s.book.dispatched[i].url != u {
      assert Line(cfg, s)[i] == s.book.dispatched[i];
    }
    NoneCount(s.book.dispatched, u);
  }

  lemma {:induction false} NoneCount(sites: seq<Site>, u: string)
    requires forall i :: 0 <= i < |sites| ==> sites[i].url != u
    ensures CountUrl(sites, u) == 0
  {
    if sites != [] {
      NoneCount(sites[1..], u);
    }
  }

  // ---- The countdown invariant ---------------------------------------------

  /** For one URL: a tracker exists exactly while work on the site is not finished,
      its countdown is the number of tasks still owed, and at zero exactly one
      worker is about to finalise the site. */
  predicate TrackedAt(cfg: Config, s: State, u: string) {
    var owed := Tasks(cfg, s, UserRole, u) + Tasks(cfg, s, GroupRole, u);
    && CountUrl(s.book.dispatched, u) == CountUrl(s.book.finished, u) + (if u in s.book.trackers then 1 else 0)
    && Tasks(cfg, s, UserRole, u) <= 1 && Tasks(cfg, s, GroupRole, u) <= 1
    && if u in s.book.trackers
       then s.book.trackers[u].remaining == owed && CountLast(s.pool.workers, u) == (if owed == 0 then 1 else 0)
       else owed == 0 && CountLast(s.pool.workers, u) == 0
  }

  /** The site a worker is on, until it has finalised or decremented. */
  function SiteOf(w: Worker): Option<Site> {
    if w.pc.Last? then Some(w.pc.site) else Owes(w)
  }

  predicate Known(s: State, site: Site) {
    site.url in s.book.trackers && s.book.trackers[site.url].site == site
  }

  predicate KnownAll(s: State, sites: seq<Site>) {
    forall i :: 0 <= i < |sites| ==> Known(s, sites[i])
  }

  predicate WorkerKnown(s: State, w: Worker) {
    SiteOf(w) != None ==> Known(s, SiteOf(w).value)
  }

  predicate DispatcherKnown(s: State) {
    var d := s.up.dispatcher;
    d.DSites? || d.DUsers? || d.DGroups? ==> Known(s, d.site)
  }

  /** Wherever a site is between dispatch and finalisation, its tracker is there. */
  predicate AllKnown(s: State) {
    && KnownAll(s, s.queues.userSites.items)
    && KnownAll(s, s.queues.groupSites.items)
    && DispatcherKnown(s)
    && (forall i :: 0 <= i < |s.pool.workers| ==> WorkerKnown(s, s.pool.workers[i]))
  }

  ghost predicate Tracked(cfg: Config, s: State) {
    && DistinctUrls(Line(cfg, s))
    && AllKnown(s)
    && (forall u :: TrackedAt(cfg, s, u))
  }

  /** `t` has the trackers of `s`, with the same sites and countdowns. */
  ghost predicate SameCountdowns(s: State, t: State) {
    && t.book.trackers.Keys == s.book.trackers.Keys
    && (forall u :: u in s.book.trackers ==> t.book.trackers[u].remaining == s.book.trackers[u].remaining
                                             && t.book.trackers[u].site == s.book.trackers[u].site)
    && t.book.finished == s.book.finished
  }

  /** A step of worker `w` that neither moves a task nor finishes one. */
  ghost predicate QuietStep(s: State, t: State, w: nat) {
    && OnlyWorker(s, t, w) && t.queues == s.queues
    && SameCountdowns(s, t)
    && SiteOf(t.pool.workers[w]) == SiteOf(s.pool.workers[w])
    && Owes(t.pool.workers[w]) == Owes(s.pool.workers[w])
  }

  predicate IsQuiet(act: WorkerAct) {
    !act.Take? && !act.Decrement?
  }

  lemma FetchIsQuiet(cfg: Config, s: State, w: nat)
    requires WorkerEnabled(s, w, Fetch) && Known(s, s.pool.workers[w].pc.site)
    ensures QuietStep(s, FetchSite(cfg, s, w), w)
  {
    WorkerStepFrame(cfg, s, w, Fetch);
  }

  lemma CountIsQuiet(cfg: Config, s: State, w: nat)
    requires WorkerEnabled(s, w, Count) && Known(s, s.pool.workers[w].pc.site)
    ensures QuietStep(s, CountSite(cfg, s, w), w)
  {
    WorkerStepFrame(cfg, s, w, Count);
  }

  lemma LookUpIsQuiet(cfg: Config, s: State, w: nat)
    requires WorkerEnabled(s, w, LookUp) && Known(s, s.pool.workers[w].pc.site)
    ensures QuietStep(s, LookUpSite(s, w), w)
    ensures LookUpSite(s, w) == Move(s, w, Fetching(s.pool.workers[w].pc.site))
  {
    WorkerStepFrame(cfg, s, w, LookUp);
  }

  lemma QuietWorkStep(cfg: Config, s: State, w: nat, act: WorkerAct)
    requires WorkerEnabled(s, w, act) && AllKnown(s) && IsQuiet(act)
    ensures QuietStep(s, ApplyWorker(cfg, s, w, act), w)
  {
    assert WorkerKnown(s, s.pool.workers[w]);
    if act.Fetch? {
      FetchIsQuiet(cfg, s, w);
    } else if act.Count? {
      CountIsQuiet(cfg, s, w);
    } else if act.LookUp? {
      LookUpIsQuiet(cfg, s, w);
    } else {
      WorkerStepFrame(cfg, s, w, act);
    }
  }

  lemma QuietEndStep(s: State, w: nat, ending: EndAct)
    requires EndEnabled(s, w, ending) && !ending.Finish?
    ensures QuietStep(s, ApplyEnd(s, w, ending), w)
    ensures ApplyEnd(s, w, ending).book.trackers == s.book.trackers
  {
    EndFrame(s, w, ending);
  }

  lemma QuietKeepsTrackedAt(cfg: Config, s: State, t: State, w: nat, u: string)
    requires QuietStep(s, t, w) && TrackedAt(cfg, s, u)
    ensures TrackedAt(cfg, t, u)
    ensures forall role: Role :: CountOwes(t.pool.workers, role, u) == CountOwes(s.pool.workers, role, u)
  {
    CountsAfterMove(s.pool.workers, w, t.pool.workers[w], UserRole, u);
    CountsAfterMove(s.pool.workers, w, t.pool.workers[w], GroupRole, u);
    assert LastOn(t.pool.workers[w], u) == LastOn(s.pool.workers[w], u);
    assert Tasks(cfg, t, UserRole, u) == Tasks(cfg, s, UserRole, u);
    assert Tasks(cfg, t, GroupRole, u) == Tasks(cfg, s, GroupRole, u);
  }

  /** Taking a site moves a task from a queue to a worker. */
  lemma TakeKeepsTasks(cfg: Config, s: State, i: nat, role: Role, u: string)
    requires WorkerEnabled(s, i, Take)
    ensures Tasks(cfg, TakeSite(s, i), role, u) == Tasks(cfg, s, role, u)
    ensures CountLast(TakeSite(s, i).pool.workers, u) == CountLast(s.pool.workers, u)
  {
    var t := TakeSite(s, i);
    assert t.pool.workers == s.pool.workers[i := t.pool.workers[i]];
    CountsAfterMove(s.pool.workers, i, t.pool.workers[i], role, u);
    if role == s.pool.workers[i].role {
      assert CountUrl(QueueOf(s, role).items, u) == OwesOn(t.pool.workers[i], role, u) + CountUrl(QueueOf(t, role).items, u);
    }
  }

  lemma TakeKeepsTrackedAt(cfg: Config, s: State, i: nat, u: string)
    requires WorkerEnabled(s, i, Take) && TrackedAt(cfg, s, u)
    ensures TrackedAt(cfg, TakeSite(s, i), u)
  {
    TakeKeepsTasks(cfg, s, i, UserRole, u);
    TakeKeepsTasks(cfg, s, i, GroupRole, u);
  }

  lemma DecrementKeepsTrackedAt(cfg: Config, s: State, i: nat, u: string)
    requires WorkerEnabled(s, i, Decrement) && AllKnown(s) && TrackedAt(cfg, s, u)
    ensures TrackedAt(cfg, DecrementSite(s, i), u)
  {
    var t := DecrementSite(s, i);
    var w := s.pool.workers[i];
    assert WorkerKnown(s, w);
    assert t.pool.workers == s.pool.workers[i := t.pool.workers[i]];
    CountsAfterMove(s.pool.workers, i, t.pool.workers[i], UserRole, u);
    CountsAfterMove(s.pool.workers, i, t.pool.workers[i], GroupRole, u);
    assert Tasks(cfg, t, UserRole, u) + OwesOn(w, UserRole, u) == Tasks(cfg, s, UserRole, u);
    assert Tasks(cfg, t, GroupRole, u) + OwesOn(w, GroupRole, u) == Tasks(cfg, s, GroupRole, u);
    if u != w.pc.site.url {
      assert LastOn(t.pool.workers[i], u) == 0 && OwesOn(w, w.role, u) == 0;
    } else {
      assert OwesOn(w, UserRole, u) + OwesOn(w, GroupRole, u) == 1;
      assert t.book.trackers[u].remaining == s.book.trackers[u].remaining - 1;
    }
  }

  lemma FinishKeepsTrackedAt(cfg: Config, s: State, i: nat, u: string)
    requires EndEnabled(s, i, Finish) && AllKnown(s) && TrackedAt(cfg, s, u)
    ensures TrackedAt(cfg, FinishSite(s, i), u)
  {
    var t := FinishSite(s, i);
    var w := s.pool.workers[i];
    assert WorkerKnown(s, w);
    assert t.pool.workers == s.pool.workers[i := t.pool.workers[i]];
    CountsAfterMove(s.pool.workers, i, t.pool.workers[i], UserRole, u);
    CountsAfterMove(s.pool.workers, i, t.pool.workers[i], GroupRole, u);
    CountUrlPut(s.book.finished, w.pc.site, u);
    assert Tasks(cfg, t, UserRole, u) == Tasks(cfg, s, UserRole, u);
    assert Tasks(cfg, t, GroupRole, u) == Tasks(cfg, s, GroupRole, u);
  }

  lemma WorkerStepKeepsTrackedAt(cfg: Config, s: State, w: nat, act: WorkerAct, u: string)
    requires WorkerEnabled(s, w, act) && AllKnown(s) && TrackedAt(cfg, s, u)
    ensures TrackedAt(cfg, ApplyWorker(cfg, s, w, act), u)
  {
    if act.Take? {
      TakeKeepsTrackedAt(cfg, s, w, u);
    } else if act.Decrement? {
      DecrementKeepsTrackedAt(cfg, s, w, u);
    } else {
      QuietWorkStep(cfg, s, w, act);
      QuietKeepsTrackedAt(cfg, s, ApplyWorker(cfg, s, w, act), w, u);
    }
  }

  lemma EndStepKeepsTrackedAt(cfg: Config, s: State, w: nat, ending: EndAct, u: string)
    requires EndEnabled(s, w, ending) && AllKnown(s) && TrackedAt(cfg, s, u)
    ensures TrackedAt(cfg, ApplyEnd(s, w, ending), u)
  {
    if ending.Finish? {
      FinishKeepsTrackedAt(cfg, s, w, u);
    } else {
      QuietEndStep(s, w, ending);
      QuietKeepsTrackedAt(cfg, s, ApplyEnd(s, w, ending), w, u);
    }
  }

  lemma DispatchTakeKeepsTrackedAt(cfg: Config, s: State, u: string)
    requires DispatchEnabled(s, DispatchTake) && DistinctUrls(Line(cfg, s)) && TrackedAt(cfg, s, u)
    ensures TrackedAt(cfg, DispatchNext(cfg, s), u)
  {
    NextIsNew(cfg, s);
    CountUrlPut(s.book.dispatched, s.up.filtered.items[0], u);
  }

  lemma DispatchKeepsTrackedAt(cfg: Config, s: State, d: DispatchAct, u: string)
    requires DispatchEnabled(s, d) && DistinctUrls(Line(cfg, s)) && TrackedAt(cfg, s, u)
    requires s.up.dispatcher.DGroups? ==> cfg.processGroups
    ensures TrackedAt(cfg, ApplyDispatch(cfg, s, d), u)
  {
    if d.DispatchTake? {
      DispatchTakeKeepsTrackedAt(cfg, s, u);
    } else if d.DispatchUser? {
      CountUrlPut(s.queues.userSites.items, s.up.dispatcher.site, u);
    } else if d.DispatchGroup? {
      CountUrlPut(s.queues.groupSites.items, s.up.dispatcher.site, u);
    }
  }

  /** Filter, bridges, writer and monitor are nowhere near a tracker. */
  ghost predicate Far(s: State, t: State) {
    && t.pool.workers == s.pool.workers && t.queues == s.queues
    && t.up.dispatcher == s.up.dispatcher
    && t.book.trackers == s.book.trackers && t.book.dispatched == s.book.dispatched
    && t.book.finished == s.book.finished
  }

  predicate IsFar(e: Event) {
    e.Filter? || e.Sink? || e.Monitor?
  }

  lemma FarStep(cfg: Config, s: State, e: Event)
    requires Enabled(cfg, s, e) && IsFar(e)
    ensures Far(s, Apply(cfg, s, e))
  {
    match e
    case Filter(f) => FilterFrame(cfg, s, f);
    case Sink(x) => SinkFrame(cfg, s, x);
    case Monitor(_) =>
  }

  lemma StepKeepsTrackedAt(cfg: Config, s: State, e: Event, u: string)
    requires Enabled(cfg, s, e) && Upstream(cfg, s) && Tracked(cfg, s)
    ensures TrackedAt(cfg, Apply(cfg, s, e), u)
  {
    assert TrackedAt(cfg, s, u);
    match e
    case Work(w, act) => WorkerStepKeepsTrackedAt(cfg, s, w, act, u);
    case End(w, ending) => EndStepKeepsTrackedAt(cfg, s, w, ending, u);
    case Dispatch(d) => DispatchKeepsTrackedAt(cfg, s, d, u);
    case Filter(_) => FarStep(cfg, s, e);
    case Sink(_) => FarStep(cfg, s, e);
    case Monitor(_) => FarStep(cfg, s, e);
  }

  // ---- Trackers are always found -------------------------------------------

  /** No task is left on a site that is being finalised, and nobody else finalises
      it. */
  lemma FinishingSiteIsAlone(cfg: Config, s: State, i: nat)
    requires Tracked(cfg, s) && EndEnabled(s, i, Finish)
    ensures var u := s.pool.workers[i].pc.site.url;
            && (forall j :: 0 <= j < |s.queues.userSites.items| ==> s.queues.userSites.items[j].url != u)
            && (forall j :: 0 <= j < |s.queues.groupSites.items| ==> s.queues.groupSites.items[j].url != u)
            && (s.up.dispatcher.DSites? || s.up.dispatcher.DUsers? || s.up.dispatcher.DGroups? ==>
                  s.up.dispatcher.site.url != u)
            && (forall j :: 0 <= j < |s.pool.workers| && j != i && SiteOf(s.pool.workers[j]) != None ==>
                              SiteOf(s.pool.workers[j]).value.url != u)
  {
    var ws, u := s.pool.workers, s.pool.workers[i].pc.site.url;
    assert WorkerKnown(s, ws[i]);
    assert TrackedAt(cfg, s, u);
    CountsAfterMove(ws, i, ws[i], UserRole, u);
    forall j | 0 <= j < |s.queues.userSites.items| ensures s.queues.userSites.items[j].url != u {
      if s.queues.userSites.items[j].url == u { CountUrlMember(s.queues.userSites.items, j, u); }
    }
    forall j | 0 <= j < |s.queues.groupSites.items| ensures s.queues.groupSites.items[j].url != u {
      if s.queues.groupSites.items[j].url == u { CountUrlMember(s.queues.groupSites.items, j, u); }
    }
    forall j | 0 <= j < |ws| && j != i && SiteOf(ws[j]) != None ensures SiteOf(ws[j]).value.url != u {
      TwoCount(ws, i, j, ws[j].role, u);
    }
  }

  lemma FinishKeepsAllKnown(cfg: Config, s: State, i: nat)
    requires Tracked(cfg, s) && EndEnabled(s, i, Finish)
    ensures AllKnown(FinishSite(s, i))
  {
    FinishingSiteIsAlone(cfg, s, i);
    var t := FinishSite(s, i);
    assert forall site :: Known(s, site) && site.url != s.pool.workers[i].pc.site.url ==> Known(t, site);
    forall j | 0 <= j < |t.pool.workers| ensures WorkerKnown(t, t.pool.workers[j]) {
      assert WorkerKnown(s, s.pool.workers[j]);
    }
  }

  /** A step that keeps trackers keeps them known, for the sites there were. */
  lemma KeptTrackersStayKnown(s: State, t: State, sites: seq<Site>)
    requires KnownAll(s, sites)
    requires forall u :: u in s.book.trackers ==> u in t.book.trackers && t.book.trackers[u].site == s.book.trackers[u].site
    ensures KnownAll(t, sites)
  {
    forall i | 0 <= i < |sites| ensures Known(t, sites[i]) {
      assert Known(s, sites[i]);
    }
  }

  lemma QuietKeepsAllKnown(s: State, t: State, w: nat)
    requires AllKnown(s) && QuietStep(s, t, w)
    ensures AllKnown(t)
  {
    KeptTrackersStayKnown(s, t, s.queues.userSites.items);
    KeptTrackersStayKnown(s, t, s.queues.groupSites.items);
    forall j | 0 <= j < |t.pool.workers| ensures WorkerKnown(t, t.pool.workers[j]) {
      assert WorkerKnown(s, s.pool.workers[j]);
    }
  }

  lemma TakeKeepsAllKnown(s: State, i: nat)
    requires AllKnown(s) && WorkerEnabled(s, i, Take)
    ensures AllKnown(TakeSite(s, i))
  {
    var t := TakeSite(s, i);
    assert Known(s, QueueOf(s, s.pool.workers[i].role).items[0]);
    KeptTrackersStayKnown(s, t, s.queues.userSites.items);
    KeptTrackersStayKnown(s, t, s.queues.groupSites.items);
    forall j | 0 <= j < |t.pool.workers| ensures WorkerKnown(t, t.pool.workers[j]) {
      assert WorkerKnown(s, s.pool.workers[j]);
    }
  }

  lemma DecrementKeepsAllKnown(s: State, i: nat)
    requires AllKnown(s) && WorkerEnabled(s, i, Decrement)
    ensures AllKnown(DecrementSite(s, i))
  {
    var t := DecrementSite(s, i);
    assert WorkerKnown(s, s.pool.workers[i]);
    KeptTrackersStayKnown(s, t, s.queues.userSites.items);
    KeptTrackersStayKnown(s, t, s.queues.groupSites.items);
    forall j | 0 <= j < |t.pool.workers| ensures WorkerKnown(t, t.pool.workers[j]) {
      assert WorkerKnown(s, s.pool.workers[j]);
    }
  }

  lemma WorkerStepKeepsAllKnown(cfg: Config, s: State, w: nat, act: WorkerAct)
    requires AllKnown(s) && WorkerEnabled(s, w, act)
    ensures AllKnown(ApplyWorker(cfg, s, w, act))
  {
    if act.Take? {
      TakeKeepsAllKnown(s, w);
    } else if act.Decrement? {
      DecrementKeepsAllKnown(s, w);
    } else {
      QuietWorkStep(cfg, s, w, act);
      QuietKeepsAllKnown(s, ApplyWorker(cfg, s, w, act), w);
    }
  }

  lemma EndStepKeepsAllKnown(cfg: Config, s: State, w: nat, ending: EndAct)
    requires Tracked(cfg, s) && EndEnabled(s, w, ending)
    ensures AllKnown(ApplyEnd(s, w, ending))
  {
    if ending.Finish? {
      FinishKeepsAllKnown(cfg, s, w);
    } else {
      QuietEndStep(s, w, ending);
      QuietKeepsAllKnown(s, ApplyEnd(s, w, ending), w);
    }
  }

  lemma DispatchKeepsAllKnown(cfg: Config, s: State, d: DispatchAct)
    requires Tracked(cfg, s) && DispatchEnabled(s, d)
    ensures AllKnown(ApplyDispatch(cfg, s, d))
  {
    var t := ApplyDispatch(cfg, s, d);
    DispatchFrame(cfg, s, d);
    if d.DispatchTake? {
      NextIsNew(cfg, s);
      assert TrackedAt(cfg, s, s.up.filtered.items[0].url);
    }
    KeptTrackersStayKnown(s, t, s.queues.userSites.items);
    KeptTrackersStayKnown(s, t, s.queues.groupSites.items);
    forall j | 0 <= j < |t.pool.workers| ensures WorkerKnown(t, t.pool.workers[j]) {
      assert WorkerKnown(s, s.pool.workers[j]);
    }
  }

  lemma FarKeepsAllKnown(s: State, t: State)
    requires AllKnown(s) && Far(s, t)
    ensures AllKnown(t)
  {
    KeptTrackersStayKnown(s, t, s.queues.userSites.items);
    KeptTrackersStayKnown(s, t, s.queues.groupSites.items);
    forall j | 0 <= j < |t.pool.workers| ensures WorkerKnown(t, t.pool.workers[j]) {
      assert WorkerKnown(s, s.pool.workers[j]);
    }
  }

  lemma StepKeepsAllKnown(cfg: Config, s: State, e: Event)
    requires Tracked(cfg, s) && Enabled(cfg, s, e)
    ensures AllKnown(Apply(cfg, s, e))
  {
    match e
    case Work(w, act) => WorkerStepKeepsAllKnown(cfg, s, w, act);
    case End(w, ending) => EndStepKeepsAllKnown(cfg, s, w, ending);
    case Dispatch(d) => DispatchKeepsAllKnown(cfg, s, d);
    case Filter(_) =>
      FarStep(cfg, s, e);
      FarKeepsAllKnown(s, Apply(cfg, s, e));
    case Sink(_) =>
      FarStep(cfg, s, e);
      FarKeepsAllKnown(s, Apply(cfg, s, e));
    case Monitor(_) =>
      FarStep(cfg, s, e);
      FarKeepsAllKnown(s, Apply(cfg, s, e));
  }

  lemma StepKeepsTracked(cfg: Config, s: State, e: Event)
    requires Enabled(cfg, s, e) && Upstream(cfg, s) && Tracked(cfg, s)
    ensures Tracked(cfg, Apply(cfg, s, e))
  {
    StepKeepsLine(cfg, s, e);
    StepKeepsAllKnown(cfg, s, e);
    forall u ensures TrackedAt(cfg, Apply(cfg, s, e), u) {
      StepKeepsTrackedAt(cfg, s, e, u);
    }
  }

  lemma {:induction false} IdlePoolOwesNothing(ws: seq<Worker>, role: Role, u: string)
    requires forall i :: 0 <= i < |ws| ==> ws[i].pc.Idle? || ws[i].pc.Exited?
    ensures CountOwes(ws, role, u) == 0 && CountLast(ws, u) == 0
  {
    if ws != [] {
      IdlePoolOwesNothing(ws[1..], role, u);
    }
  }

  lemma InitialTracked(cfg: Config, raw: seq<Site>, userWorkers: nat, groupWorkers: nat,
                       signals: seq<(Throttle.ScaleAction, int)>, counts: seq<int>)
    requires |counts| == |signals| && DistinctUrls(KeepAll(cfg, raw))
    ensures Tracked(cfg, Initial(cfg, raw, userWorkers, groupWorkers, signals, counts))
  {
    var s := Initial(cfg, raw, userWorkers, groupWorkers, signals, counts);
    assert Line(cfg, s) == KeepAll(cfg, raw);
    forall u ensures TrackedAt(cfg, s, u) {
      IdlePoolOwesNothing(s.pool.workers, UserRole, u);
      IdlePoolOwesNothing(s.pool.workers, GroupRole, u);
    }
  }

  /** The branch for a missing tracker is never taken. */
  lemma LookUpSucceeds(cfg: Config, s: State, w: nat)
    requires Tracked(cfg, s) && WorkerEnabled(s, w, LookUp)
    ensures s.pool.workers[w].pc.site.url in s.book.trackers
    ensures LookUpSite(s, w) == Move(s, w, Fetching(s.pool.workers[w].pc.site))
  {
    assert WorkerKnown(s, s.pool.workers[w]);
  }
}
