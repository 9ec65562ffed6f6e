/** What is recorded for a site depends only on what the API answered for it, not
    on the interleaving or on which worker finished last. */
module PipelineOutcomes {
  import opened Failures
  import opened PipelineModel
  import opened PipelineStructure
  import opened PipelineTrackers
  import Throttle = ThrottleModel

  function ExpectedUser(cfg: Config, site: Site): UserPart {
    match cfg.users(site)
    case UsersError(f) => UserPart(Some(f), 0)
    case UsersFetched(users) => UserPart(None, |users|)
  }

  function ExpectedGroup(cfg: Config, site: Site): GroupPart {
    if !cfg.processGroups then NO_GROUPS
    else match cfg.groups(site)
      case GroupsError(f) => GroupPart(Some(f), 0, 0, 0, 0)
      case GroupsFetched(groups, members, errors, timeouts) =>
        GroupPart(None, |groups|, if cfg.processMembers then |members| else 0, errors, timeouts)
  }

  predicate ExpectFailure(cfg: Config, site: Site) {
    HasFailed(ExpectedUser(cfg, site), ExpectedGroup(cfg, site))
  }

  /** One outcome per failed site, in the order the sites finished. */
  function ExpectedOutcomes(cfg: Config, finished: seq<Site>): seq<Outcome> {
    if finished == [] then []
    else
      var site := finished[|finished| - 1];
      var before := ExpectedOutcomes(cfg, finished[..|finished| - 1]);
      if ExpectFailure(cfg, site)
      then before + [Outcome(site, ExpectedUser(cfg, site), ExpectedGroup(cfg, site))]
      else before
  }

  // ---- Invariant -----------------------------------------------------------

  predicate UserPartFits(cfg: Config, pc: Pc, site: Site, part: UserPart) {
    match pc
    case Sending(_, _) => part == NO_USERS && cfg.users(site).UsersFetched?
    case Finishing(_) => part == ExpectedUser(cfg, site)
    case _ => part == NO_USERS
  }

  predicate GroupPartFits(cfg: Config, pc: Pc, site: Site, part: GroupPart) {
    match pc
    case Sending(_, _) =>
      var r := cfg.groups(site);
      r.GroupsFetched? && part == GroupPart(None, 0, 0, r.memberErrors, r.memberTimeouts)
    case Finishing(_) => part == ExpectedGroup(cfg, site)
    case _ => part == NO_GROUPS
  }

  /** A worker's own part of its site's tracker matches how far the worker is. */
  predicate PartFits(cfg: Config, s: State, w: Worker) {
    Owes(w) != None ==>
      var site := Owes(w).value;
      && site.url in s.book.trackers
      && (w.role.UserRole? ==> UserPartFits(cfg, w.pc, site, s.book.trackers[site.url].user))
      && (w.role.GroupRole? ==> cfg.processGroups && GroupPartFits(cfg, w.pc, site, s.book.trackers[site.url].group))
  }

  /** A part that no worker has taken up is untouched; one with no task left is
      settled. */
  predicate SettledAt(cfg: Config, s: State, u: string) {
    u in s.book.trackers ==>
      var t := s.book.trackers[u];
      && (Tasks(cfg, s, UserRole, u) == 0 ==> t.user == ExpectedUser(cfg, t.site))
      && (Tasks(cfg, s, GroupRole, u) == 0 ==> t.group == ExpectedGroup(cfg, t.site))
      && (Tasks(cfg, s, UserRole, u) > 0 && CountOwes(s.pool.workers, UserRole, u) == 0 ==> t.user == NO_USERS)
      && (Tasks(cfg, s, GroupRole, u) > 0 && CountOwes(s.pool.workers, GroupRole, u) == 0 ==> t.group == NO_GROUPS)
  }

  ghost predicate PartsFit(cfg: Config, s: State) {
    && (forall u :: SettledAt(cfg, s, u))
    && (forall i :: 0 <= i < |s.pool.workers| ==> PartFits(cfg, s, s.pool.workers[i]))
  }

  // ---- Worker steps --------------------------------------------------------

  /** A quiet step that changes at most its own worker's part of its own site's
      tracker. */
  ghost predicate OwnPartOnly(s: State, t: State, w: nat) {
    && QuietStep(s, t, w)
    && var x := s.pool.workers[w];
    && (forall u :: u in s.book.trackers && (Owes(x) == None || Owes(x).value.url != u) ==>
                      t.book.trackers[u] == s.book.trackers[u])
    && (forall u :: u in s.book.trackers ==>
                      && (x.role.UserRole? ==> t.book.trackers[u].group == s.book.trackers[u].group)
                      && (x.role.GroupRole? ==> t.book.trackers[u].user == s.book.trackers[u].user))
  }

  lemma QuietPartFrame(cfg: Config, s: State, w: nat, act: WorkerAct)
    requires WorkerEnabled(s, w, act) && AllKnown(s) && IsQuiet(act)
    ensures OwnPartOnly(s, ApplyWorker(cfg, s, w, act), w)
  {
    QuietWorkStep(cfg, s, w, act);
    assert WorkerKnown(s, s.pool.workers[w]);
  }

  lemma QuietOwnPart(cfg: Config, s: State, w: nat, act: WorkerAct)
    requires WorkerEnabled(s, w, act) && AllKnown(s) && IsQuiet(act) && PartFits(cfg, s, s.pool.workers[w])
    ensures PartFits(cfg, ApplyWorker(cfg, s, w, act), ApplyWorker(cfg, s, w, act).pool.workers[w])
  {
    assert WorkerKnown(s, s.pool.workers[w]);
  }

  lemma QuietKeepsOtherPart(cfg: Config, s: State, t: State, w: nat, j: nat)
    requires OwnPartOnly(s, t, w) && Tracked(cfg, s) && j < |s.pool.workers| && j != w
    requires PartFits(cfg, s, s.pool.workers[j])
    ensures PartFits(cfg, t, s.pool.workers[j])
  {
    var x := s.pool.workers[w];
    if Owes(x) != None {
      var u := Owes(x).value.url;
      assert TrackedAt(cfg, s, u);
      TwoCount(s.pool.workers, w, j, x.role, u);
    }
  }

  lemma QuietKeepsSettledAt(cfg: Config, s: State, t: State, w: nat, u: string)
    requires OwnPartOnly(s, t, w) && TrackedAt(cfg, s, u) && SettledAt(cfg, s, u)
    ensures SettledAt(cfg, t, u)
  {
    QuietKeepsTrackedAt(cfg, s, t, w, u);
    var x := s.pool.workers[w];
    CountsAfterMove(s.pool.workers, w, x, x.role, u);
    assert Tasks(cfg, t, UserRole, u) == Tasks(cfg, s, UserRole, u);
    assert Tasks(cfg, t, GroupRole, u) == Tasks(cfg, s, GroupRole, u);
  }

  lemma QuietKeepsParts(cfg: Config, s: State, t: State, w: nat)
    requires OwnPartOnly(s, t, w) && Tracked(cfg, s) && PartsFit(cfg, s)
    requires PartFits(cfg, t, t.pool.workers[w])
    ensures PartsFit(cfg, t)
  {
    forall j | 0 <= j < |t.pool.workers| ensures PartFits(cfg, t, t.pool.workers[j]) {
      assert PartFits(cfg, s, s.pool.workers[j]);
      if j != w {
        QuietKeepsOtherPart(cfg, s, t, w, j);
      }
    }
    forall u ensures SettledAt(cfg, t, u) {
      assert SettledAt(cfg, s, u) && TrackedAt(cfg, s, u);
      QuietKeepsSettledAt(cfg, s, t, w, u);
    }
  }

  lemma TakeKeepsParts(cfg: Config, s: State, i: nat)
    requires WorkerEnabled(s, i, Take) && Tracked(cfg, s) && PartsFit(cfg, s)
    requires s.pool.workers[i].role.GroupRole? ==> cfg.processGroups
    ensures PartsFit(cfg, TakeSite(s, i))
  {
    var t := TakeSite(s, i);
    var role := s.pool.workers[i].role;
    var site := QueueOf(s, role).items[0];
    assert t.pool.workers == s.pool.workers[i := t.pool.workers[i]];
    assert Known(s, site);
    forall u ensures SettledAt(cfg, t, u) {
      assert SettledAt(cfg, s, u) && TrackedAt(cfg, s, u);
      TakeKeepsTasks(cfg, s, i, UserRole, u);
      TakeKeepsTasks(cfg, s, i, GroupRole, u);
      CountsAfterMove(s.pool.workers, i, t.pool.workers[i], UserRole, u);
      CountsAfterMove(s.pool.workers, i, t.pool.workers[i], GroupRole, u);
    }
    forall j | 0 <= j < |t.pool.workers| ensures PartFits(cfg, t, t.pool.workers[j]) {
      assert PartFits(cfg, s, s.pool.workers[j]);
      if j == i {
        assert SettledAt(cfg, s, site.url) && TrackedAt(cfg, s, site.url);
        CountUrlMember(QueueOf(s, role).items, 0, site.url);
      }
    }
  }

  lemma DecrementKeepsSettledAt(cfg: Config, s: State, i: nat, u: string)
    requires WorkerEnabled(s, i, Decrement) && AllKnown(s) && TrackedAt(cfg, s, u) && SettledAt(cfg, s, u)
    requires PartFits(cfg, s, s.pool.workers[i])
    ensures SettledAt(cfg, DecrementSite(s, i), u)
  {
    var t := DecrementSite(s, i);
    assert WorkerKnown(s, s.pool.workers[i]);
    assert t.pool.workers == s.pool.workers[i := t.pool.workers[i]];
    CountsAfterMove(s.pool.workers, i, t.pool.workers[i], UserRole, u);
    CountsAfterMove(s.pool.workers, i, t.pool.workers[i], GroupRole, u);
  }

  lemma DecrementKeepsParts(cfg: Config, s: State, i: nat)
    requires WorkerEnabled(s, i, Decrement) && Tracked(cfg, s) && PartsFit(cfg, s)
    ensures PartsFit(cfg, DecrementSite(s, i))
  {
    var t := DecrementSite(s, i);
    assert WorkerKnown(s, s.pool.workers[i]) && PartFits(cfg, s, s.pool.workers[i]);
    assert t.pool.workers == s.pool.workers[i := t.pool.workers[i]];
    forall j | 0 <= j < |t.pool.workers| ensures PartFits(cfg, t, t.pool.workers[j]) {
      assert PartFits(cfg, s, s.pool.workers[j]);
    }
    forall u ensures SettledAt(cfg, t, u) {
      assert SettledAt(cfg, s, u) && TrackedAt(cfg, s, u);
      DecrementKeepsSettledAt(cfg, s, i, u);
    }
  }

  lemma FinishKeepsSettledAt(cfg: Config, s: State, i: nat, u: string)
    requires EndEnabled(s, i, Finish) && SettledAt(cfg, s, u)
    ensures SettledAt(cfg, FinishSite(s, i), u)
  {
    var t := FinishSite(s, i);
    assert t.pool.workers == s.pool.workers[i := t.pool.workers[i]];
    CountsAfterMove(s.pool.workers, i, t.pool.workers[i], UserRole, u);
    CountsAfterMove(s.pool.workers, i, t.pool.workers[i], GroupRole, u);
  }

  lemma FinishKeepsParts(cfg: Config, s: State, i: nat)
    requires EndEnabled(s, i, Finish) && Tracked(cfg, s) && PartsFit(cfg, s)
    ensures PartsFit(cfg, FinishSite(s, i))
  {
    var t := FinishSite(s, i);
    FinishingSiteIsAlone(cfg, s, i);
    assert t.pool.workers == s.pool.workers[i := t.pool.workers[i]];
    forall j | 0 <= j < |t.pool.workers| ensures PartFits(cfg, t, t.pool.workers[j]) {
      assert PartFits(cfg, s, s.pool.workers[j]);
    }
    forall u ensures SettledAt(cfg, t, u) {
      assert SettledAt(cfg, s, u);
      FinishKeepsSettledAt(cfg, s, i, u);
    }
  }

  lemma WorkerStepKeepsParts(cfg: Config, s: State, w: nat, act: WorkerAct)
    requires WorkerEnabled(s, w, act) && Tracked(cfg, s) && PartsFit(cfg, s)
    requires s.pool.workers[w].role.GroupRole? ==> cfg.processGroups
    ensures PartsFit(cfg, ApplyWorker(cfg, s, w, act))
  {
    if act.Take? {
      TakeKeepsParts(cfg, s, w);
    } else if act.Decrement? {
      DecrementKeepsParts(cfg, s, w);
    } else {
      assert PartFits(cfg, s, s.pool.workers[w]);
      QuietPartFrame(cfg, s, w, act);
      QuietOwnPart(cfg, s, w, act);
      QuietKeepsParts(cfg, s, ApplyWorker(cfg, s, w, act), w);
    }
  }

  lemma EndStepKeepsParts(cfg: Config, s: State, w: nat, ending: EndAct)
    requires EndEnabled(s, w, ending) && Tracked(cfg, s) && PartsFit(cfg, s)
    ensures PartsFit(cfg, ApplyEnd(s, w, ending))
  {
    if ending.Finish? {
      FinishKeepsParts(cfg, s, w);
    } else {
      QuietEndStep(s, w, ending);
      QuietKeepsParts(cfg, s, ApplyEnd(s, w, ending), w);
    }
  }

  // ---- Other steps ---------------------------------------------------------

  lemma DispatchKeepsSettledAt(cfg: Config, s: State, d: DispatchAct, u: string)
    requires DispatchEnabled(s, d) && Upstream(cfg, s) && Tracked(cfg, s) && SettledAt(cfg, s, u)
    ensures SettledAt(cfg, ApplyDispatch(cfg, s, d), u)
  {
    assert TrackedAt(cfg, s, u);
    if d.DispatchTake? {
      NextIsNew(cfg, s);
    } else if d.DispatchUser? {
      CountUrlPut(s.queues.userSites.items, s.up.dispatcher.site, u);
    } else if d.DispatchGroup? {
      CountUrlPut(s.queues.groupSites.items, s.up.dispatcher.site, u);
    }
  }

  lemma DispatchKeepsParts(cfg: Config, s: State, d: DispatchAct)
    requires DispatchEnabled(s, d) && Upstream(cfg, s) && Tracked(cfg, s) && PartsFit(cfg, s)
    ensures PartsFit(cfg, ApplyDispatch(cfg, s, d))
  {
    var t := ApplyDispatch(cfg, s, d);
    DispatchFrame(cfg, s, d);
    if d.DispatchTake? {
      NextIsNew(cfg, s);
      assert TrackedAt(cfg, s, s.up.filtered.items[0].url);
    }
    forall j | 0 <= j < |t.pool.workers| ensures PartFits(cfg, t, t.pool.workers[j]) {
      assert PartFits(cfg, s, s.pool.workers[j]);
    }
    forall u ensures SettledAt(cfg, t, u) {
      assert SettledAt(cfg, s, u);
      DispatchKeepsSettledAt(cfg, s, d, u);
    }
  }

  lemma FarKeepsParts(cfg: Config, s: State, t: State)
    requires Far(s, t) && PartsFit(cfg, s)
    ensures PartsFit(cfg, t)
  {
    forall j | 0 <= j < |t.pool.workers| ensures PartFits(cfg, t, t.pool.workers[j]) {
      assert PartFits(cfg, s, s.pool.workers[j]);
    }
    forall u ensures SettledAt(cfg, t, u) {
      assert SettledAt(cfg, s, u);
    }
  }

  lemma StepKeepsParts(cfg: Config, s: State, e: Event)
    requires Enabled(cfg, s, e) && Upstream(cfg, s) && Pools(cfg, s) && Tracked(cfg, s) && PartsFit(cfg, s)
    ensures PartsFit(cfg, Apply(cfg, s, e))
  {
    match e
    case Work(w, act) =>
      assert WorkerFits(cfg, s, s.pool.workers[w]);
      WorkerStepKeepsParts(cfg, s, w, act);
    case End(w, ending) => EndStepKeepsParts(cfg, s, w, ending);
    case Dispatch(d) => DispatchKeepsParts(cfg, s, d);
    case Filter(_) =>
      FarStep(cfg, s, e);
      FarKeepsParts(cfg, s, Apply(cfg, s, e));
    case Sink(_) =>
      FarStep(cfg, s, e);
      FarKeepsParts(cfg, s, Apply(cfg, s, e));
    case Monitor(_) =>
      FarStep(cfg, s, e);
      FarKeepsParts(cfg, s, Apply(cfg, s, e));
  }

  lemma InitialParts(cfg: Config, raw: seq<Site>, userWorkers: nat, groupWorkers: nat,
                     signals: seq<(Throttle.ScaleAction, int)>, counts: seq<int>)
    requires |counts| == |signals|
    ensures PartsFit(cfg, Initial(cfg, raw, userWorkers, groupWorkers, signals, counts))
  {
  }
}
