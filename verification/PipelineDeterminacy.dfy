/** What the interleaving can change: where several workers share a role, which site's
    rows are enqueued last is open; nothing else about the rows is. */
module PipelineDeterminacy {
  import opened Failures
  import opened PipelineModel
  import opened PipelineStructure
  import opened PipelineTrackers
  import opened PipelineTheorems
  import opened PipelineProgress
  import opened PipelineSchedules
  import opened PipelineOrder
  import opened PipelineLedger
  import Throttle = ThrottleModel

  predicate SameOrNone(a: Option<string>, b: Option<string>) {
    a == None || b == None || a == b
  }

  /** Wherever two sites bring a role's entity under the same key, their last rows for
      it are the same. */
  ghost predicate StreamsAgree(cfg: Config, role: Role, sites: seq<Site>) {
    forall a: Site, b: Site, k: Kind, key: string :: a in sites && b in sites ==>
      SameOrNone(LastRow(OutsOf(cfg, role, a), k, key), LastRow(OutsOf(cfg, role, b), k, key))
  }

  /** Several workers take the role's sites. */
  predicate Contended(cfg: Config, userWorkers: nat, groupWorkers: nat, role: Role) {
    Enlisted(cfg, role) && (if role.UserRole? then userWorkers else groupWorkers) >= 2
  }

  ghost predicate ContendedStreamsAgree(cfg: Config, raw: seq<Site>, userWorkers: nat, groupWorkers: nat) {
    forall role: Role :: Contended(cfg, userWorkers, groupWorkers, role) ==> StreamsAgree(cfg, role, KeepAll(cfg, raw))
  }

  lemma OtherRoleMisses(cfg: Config, role: Role, site: Site, k: Kind, key: string)
    requires k == Sites || role != RoleOf(k)
    ensures LastRow(OutsOf(cfg, role, site), k, key) == None
  {
    match role
    case UserRole =>
      if cfg.users(site).UsersFetched? {
        OtherKindMisses(k, Users, cfg.users(site).users, key);
      }
    case GroupRole =>
      if cfg.groups(site).GroupsFetched? {
        var r := cfg.groups(site);
        OtherKindMisses(k, Groups, r.groups, key);
        OtherKindMisses(k, Members, r.members, key);
        LastRowAppend(Labelled(Groups, r.groups), if cfg.processMembers then Labelled(Members, r.members) else [], k, key);
      }
  }

  /** Agreeing streams end with one common row. */
  lemma CommonRow(cfg: Config, sites: seq<Site>, k: Kind, key: string) returns (row: string)
    requires k != Sites && (Enlisted(cfg, RoleOf(k)) ==> StreamsAgree(cfg, RoleOf(k), sites))
    ensures AllEnd(cfg, sites, k, key, row)
  {
    var mine := RoleOf(k);
    row := "";
    if site :| site in sites && Enlisted(cfg, mine) && Mentions(OutsOf(cfg, mine, site), k, key) {
      row := LastRow(OutsOf(cfg, mine, site), k, key).value;
    }
    forall site, role: Role | site in sites && Enlisted(cfg, role) ensures Ends(OutsOf(cfg, role, site), k, key, row) {
      if role != mine {
        OtherRoleMisses(cfg, role, site, k, key);
      }
    }
  }

  // ---- Agreeing streams ------------------------------------------------------------

  function SiteItems(cfg: Config, site: Site): seq<Out> {
    [SiteOut(cfg, site)] + OutsOf(cfg, UserRole, site) + (if cfg.processGroups then OutsOf(cfg, GroupRole, site) else [])
  }

  lemma ItemsHead(cfg: Config, sites: seq<Site>)
    requires sites != []
    ensures ItemsOf(cfg, sites) == SiteItems(cfg, sites[0]) + ItemsOf(cfg, sites[1..])
  {
  }

  lemma SiteItemsEnd(cfg: Config, site: Site, k: Kind, key: string, row: string)
    requires SiteEnds(cfg, site, k, key, row) && k != Sites
    ensures Ends(SiteItems(cfg, site), k, key, row)
  {
    var own := [SiteOut(cfg, site)];
    var users := OutsOf(cfg, UserRole, site);
    var groups := if cfg.processGroups then OutsOf(cfg, GroupRole, site) else [];
    LastRowOfOne(own[0], k, key);
    LastRowAppend(own, users, k, key);
    LastRowAppend(own + users, groups, k, key);
    assert Ends(users, k, key, row) && (cfg.processGroups ==> Ends(OutsOf(cfg, GroupRole, site), k, key, row));
  }

  lemma {:induction false} ItemsEnd(cfg: Config, sites: seq<Site>, k: Kind, key: string, row: string)
    requires AllEnd(cfg, sites, k, key, row) && k != Sites
    ensures Ends(ItemsOf(cfg, sites), k, key, row)
  {
    if sites != [] {
      ItemsHead(cfg, sites);
      assert SiteEnds(cfg, sites[0], k, key, row);
      SiteItemsEnd(cfg, sites[0], k, key, row);
      ItemsEnd(cfg, sites[1..], k, key, row);
      LastRowAppend(SiteItems(cfg, sites[0]), ItemsOf(cfg, sites[1..]), k, key);
    }
  }

  lemma SiteItemsRecord(cfg: Config, site: Site, key: string)
    ensures LastRow(SiteItems(cfg, site), Sites, key) == LastRow([SiteOut(cfg, site)], Sites, key)
  {
    var own := [SiteOut(cfg, site)];
    var users := OutsOf(cfg, UserRole, site);
    var groups := if cfg.processGroups then OutsOf(cfg, GroupRole, site) else [];
    OtherRoleMisses(cfg, UserRole, site, Sites, key);
    OtherRoleMisses(cfg, GroupRole, site, Sites, key);
    LastRowAppend(own, users, Sites, key);
    LastRowAppend(own + users, groups, Sites, key);
  }

  lemma {:induction false} ItemsRecords(cfg: Config, sites: seq<Site>, key: string)
    ensures LastRow(ItemsOf(cfg, sites), Sites, key) == LastRow(Records(cfg, sites), Sites, key)
  {
    if sites != [] {
      ItemsHead(cfg, sites);
      SiteItemsRecord(cfg, sites[0], key);
      ItemsRecords(cfg, sites[1..], key);
      assert Records(cfg, sites) == [SiteOut(cfg, sites[0])] + Records(cfg, sites[1..]);
      LastRowAppend(SiteItems(cfg, sites[0]), ItemsOf(cfg, sites[1..]), Sites, key);
      LastRowAppend([SiteOut(cfg, sites[0])], Records(cfg, sites[1..]), Sites, key);
    }
  }

  lemma SameMentions(xs: seq<Out>, ys: seq<Out>, k: Kind, key: string)
    requires multiset(xs) == multiset(ys)
    ensures Mentions(xs, k, key) <==> Mentions(ys, k, key)
  {
    MentionsMeansMember(xs, k, key);
    MentionsMeansMember(ys, k, key);
    assert forall o :: o in xs <==> o in multiset(xs);
    assert forall o :: o in ys <==> o in multiset(ys);
  }

  lemma InitialEnds(cfg: Config, raw: seq<Site>, userWorkers: nat, groupWorkers: nat,
                    signals: seq<(Throttle.ScaleAction, int)>, counts: seq<int>, k: Kind, key: string, row: string)
    requires |counts| == |signals| && AllEnd(cfg, KeepAll(cfg, raw), k, key, row)
    ensures EndsInRow(cfg, Initial(cfg, raw, userWorkers, groupWorkers, signals, counts), k, key, row)
  {
    var s := Initial(cfg, raw, userWorkers, groupWorkers, signals, counts);
    assert Ahead(cfg, s.up) == KeepAll(cfg, raw);
    assert Labelled(k, []) == [] && Flow(s, k) == [];
  }

  lemma InitialRecordFlow(cfg: Config, raw: seq<Site>, userWorkers: nat, groupWorkers: nat,
                          signals: seq<(Throttle.ScaleAction, int)>, counts: seq<int>)
    requires |counts| == |signals|
    ensures RecordFlow(cfg, Initial(cfg, raw, userWorkers, groupWorkers, signals, counts)) == Records(cfg, KeepAll(cfg, raw))
  {
    var s := Initial(cfg, raw, userWorkers, groupWorkers, signals, counts);
    assert Ahead(cfg, s.up) == KeepAll(cfg, raw);
    assert Labelled(Sites, []) == [] && Flow(s, Sites) == [];
  }

  lemma FinalRecordFlow(cfg: Config, s: State)
    requires Shape(cfg, s) && Final(s)
    ensures RecordFlow(cfg, s) == s.down.enqueued
  {
    FinalIsEmpty(cfg, s);
    FinalFlow(cfg, s, Sites);
    assert Ahead(cfg, s.up) == [];
  }

  /** In a finished run the sites' records come in the order of the input. */
  lemma FinalRecords(cfg: Config, raw: seq<Site>, userWorkers: nat, groupWorkers: nat,
                     signals: seq<(Throttle.ScaleAction, int)>, counts: seq<int>, es: seq<Event>, key: string)
    requires Legal(cfg, raw, userWorkers, groupWorkers, signals, counts)
    requires Runs(cfg, Initial(cfg, raw, userWorkers, groupWorkers, signals, counts), es)
    requires Final(Exec(cfg, Initial(cfg, raw, userWorkers, groupWorkers, signals, counts), es))
    ensures LastRow(Exec(cfg, Initial(cfg, raw, userWorkers, groupWorkers, signals, counts), es).down.enqueued, Sites, key)
         == LastRow(ItemsOf(cfg, KeepAll(cfg, raw)), Sites, key)
  {
    var s0 := Initial(cfg, raw, userWorkers, groupWorkers, signals, counts);
    InitialGood(cfg, raw, userWorkers, groupWorkers, signals, counts);
    RunKeepsGood(cfg, s0, es, raw);
    RunKeepsRecords(cfg, s0, es, key);
    InitialRecordFlow(cfg, raw, userWorkers, groupWorkers, signals, counts);
    FinalRecordFlow(cfg, Exec(cfg, s0, es));
    ItemsRecords(cfg, KeepAll(cfg, raw), key);
  }

  // ---- A role with one worker ---------------------------------------------------------

  lemma SiteItemsStream(cfg: Config, site: Site, k: Kind, key: string)
    requires k != Sites && Enlisted(cfg, RoleOf(k))
    ensures LastRow(SiteItems(cfg, site), k, key) == LastRow(OutsOf(cfg, RoleOf(k), site), k, key)
  {
    var own := [SiteOut(cfg, site)];
    var users := OutsOf(cfg, UserRole, site);
    var groups := if cfg.processGroups then OutsOf(cfg, GroupRole, site) else [];
    OtherRoleMisses(cfg, if RoleOf(k).UserRole? then GroupRole else UserRole, site, k, key);
    LastRowOfOne(own[0], k, key);
    LastRowAppend(own, users, k, key);
    LastRowAppend(own + users, groups, k, key);
  }

  lemma {:induction false} ItemsStream(cfg: Config, sites: seq<Site>, k: Kind, key: string)
    requires k != Sites && Enlisted(cfg, RoleOf(k))
    ensures LastRow(ItemsOf(cfg, sites), k, key) == LastRow(Streams(cfg, RoleOf(k), sites), k, key)
  {
    if sites != [] {
      ItemsHead(cfg, sites);
      SiteItemsStream(cfg, sites[0], k, key);
      ItemsStream(cfg, sites[1..], k, key);
      LastRowAppend(SiteItems(cfg, sites[0]), ItemsOf(cfg, sites[1..]), k, key);
      LastRowAppend(OutsOf(cfg, RoleOf(k), sites[0]), Streams(cfg, RoleOf(k), sites[1..]), k, key);
    }
  }

  lemma InitialRoleFlow(cfg: Config, raw: seq<Site>, userWorkers: nat, groupWorkers: nat,
                        signals: seq<(Throttle.ScaleAction, int)>, counts: seq<int>, k: Kind, i: nat)
    requires |counts| == |signals| && i < |Initial(cfg, raw, userWorkers, groupWorkers, signals, counts).pool.workers|
    ensures RoleFlow(cfg, Initial(cfg, raw, userWorkers, groupWorkers, signals, counts), k, i)
         == Streams(cfg, RoleOf(k), KeepAll(cfg, raw))
  {
    var s := Initial(cfg, raw, userWorkers, groupWorkers, signals, counts);
    assert Ahead(cfg, s.up) == KeepAll(cfg, raw);
    assert Labelled(k, []) == [] && Flow(s, k) == [];
  }

  lemma FinalRoleFlow(cfg: Config, s: State, k: Kind, i: nat)
    requires Shape(cfg, s) && Final(s) && i < |s.pool.workers|
    ensures RoleFlow(cfg, s, k, i) == s.down.enqueued
  {
    FinalIsEmpty(cfg, s);
    FinalFlow(cfg, s, k);
    assert Ahead(cfg, s.up) == [];
  }

  /** Where one worker takes all of a role's sites, their entities come in the order of
      the input. */
  lemma SoleWorkerKeepsOrder(cfg: Config, raw: seq<Site>, userWorkers: nat, groupWorkers: nat,
                             signals: seq<(Throttle.ScaleAction, int)>, counts: seq<int>, es: seq<Event>, k: Kind, key: string)
    requires Legal(cfg, raw, userWorkers, groupWorkers, signals, counts)
    requires Runs(cfg, Initial(cfg, raw, userWorkers, groupWorkers, signals, counts), es)
    requires Final(Exec(cfg, Initial(cfg, raw, userWorkers, groupWorkers, signals, counts), es))
    requires k != Sites && Enlisted(cfg, RoleOf(k)) && !Contended(cfg, userWorkers, groupWorkers, RoleOf(k))
    ensures LastRow(Exec(cfg, Initial(cfg, raw, userWorkers, groupWorkers, signals, counts), es).down.enqueued, k, key)
         == LastRow(ItemsOf(cfg, KeepAll(cfg, raw)), k, key)
  {
    var s0 := Initial(cfg, raw, userWorkers, groupWorkers, signals, counts);
    var i: nat := if RoleOf(k).UserRole? then 0 else userWorkers;
    assert IsSole(s0.pool.workers, RoleOf(k), i);
    InitialGood(cfg, raw, userWorkers, groupWorkers, signals, counts);
    RunKeepsGood(cfg, s0, es, raw);
    RunKeepsRoleFlow(cfg, s0, es, raw, k, key, i);
    InitialRoleFlow(cfg, raw, userWorkers, groupWorkers, signals, counts, k, i);
    FinalRoleFlow(cfg, Exec(cfg, s0, es), k, i);
    ItemsStream(cfg, KeepAll(cfg, raw), k, key);
  }

  // ---- Several workers whose streams agree ---------------------------------------------

  lemma AgreeingRoleIsDeterminate(cfg: Config, raw: seq<Site>, userWorkers: nat, groupWorkers: nat,
                                  signals: seq<(Throttle.ScaleAction, int)>, counts: seq<int>, es: seq<Event>, k: Kind, key: string)
    requires Legal(cfg, raw, userWorkers, groupWorkers, signals, counts)
    requires Runs(cfg, Initial(cfg, raw, userWorkers, groupWorkers, signals, counts), es)
    requires Final(Exec(cfg, Initial(cfg, raw, userWorkers, groupWorkers, signals, counts), es))
    requires k != Sites && (Enlisted(cfg, RoleOf(k)) ==> StreamsAgree(cfg, RoleOf(k), KeepAll(cfg, raw)))
    ensures LastRow(Exec(cfg, Initial(cfg, raw, userWorkers, groupWorkers, signals, counts), es).down.enqueued, k, key)
         == LastRow(ItemsOf(cfg, KeepAll(cfg, raw)), k, key)
  {
    var s0 := Initial(cfg, raw, userWorkers, groupWorkers, signals, counts);
    var row := CommonRow(cfg, KeepAll(cfg, raw), k, key);
    InitialGood(cfg, raw, userWorkers, groupWorkers, signals, counts);
    InitialEnds(cfg, raw, userWorkers, groupWorkers, signals, counts, k, key, row);
    RunEnds(cfg, s0, es, raw, k, key, row);
    ItemsEnd(cfg, KeepAll(cfg, raw), k, key, row);
    NothingLostOrInvented(cfg, raw, userWorkers, groupWorkers, signals, counts, es);
    SameMentions(Exec(cfg, s0, es).down.enqueued, ItemsOf(cfg, KeepAll(cfg, raw)), k, key);
  }

  /** If the sites' streams agree for every role with several workers, which row comes
      last under a key does not depend on the interleaving. */
  lemma AgreeingStreamsAreDeterminate(cfg: Config, raw: seq<Site>, userWorkers: nat, groupWorkers: nat,
                                      signals: seq<(Throttle.ScaleAction, int)>, counts: seq<int>, es: seq<Event>,
                                      k: Kind, key: string)
    requires Legal(cfg, raw, userWorkers, groupWorkers, signals, counts)
    requires Runs(cfg, Initial(cfg, raw, userWorkers, groupWorkers, signals, counts), es)
    requires Final(Exec(cfg, Initial(cfg, raw, userWorkers, groupWorkers, signals, counts), es))
    requires ContendedStreamsAgree(cfg, raw, userWorkers, groupWorkers)
    ensures LastRow(Exec(cfg, Initial(cfg, raw, userWorkers, groupWorkers, signals, counts), es).down.enqueued, k, key)
         == LastRow(ItemsOf(cfg, KeepAll(cfg, raw)), k, key)
  {
    if k == Sites {
      FinalRecords(cfg, raw, userWorkers, groupWorkers, signals, counts, es, key);
    } else if Enlisted(cfg, RoleOf(k)) && !Contended(cfg, userWorkers, groupWorkers, RoleOf(k)) {
      SoleWorkerKeepsOrder(cfg, raw, userWorkers, groupWorkers, signals, counts, es, k, key);
    } else {
      AgreeingRoleIsDeterminate(cfg, raw, userWorkers, groupWorkers, signals, counts, es, k, key);
    }
  }

  // ---- A chosen site comes last ------------------------------------------------------

  lemma InitialIsSteady(cfg: Config, raw: seq<Site>, userWorkers: nat, groupWorkers: nat,
                        signals: seq<(Throttle.ScaleAction, int)>, counts: seq<int>)
    requires Legal(cfg, raw, userWorkers, groupWorkers, signals, counts)
    ensures Steady(cfg, Initial(cfg, raw, userWorkers, groupWorkers, signals, counts))
  {
    InitialShape(cfg, raw, userWorkers, groupWorkers, signals, counts);
  }

  /** With two workers of a role, none of them is needed by the others. */
  lemma InitialHasOthers(cfg: Config, raw: seq<Site>, userWorkers: nat, groupWorkers: nat,
                         signals: seq<(Throttle.ScaleAction, int)>, counts: seq<int>, role: Role, f: nat)
    requires Legal(cfg, raw, userWorkers, groupWorkers, signals, counts) && Contended(cfg, userWorkers, groupWorkers, role)
    requires var ws := Initial(cfg, raw, userWorkers, groupWorkers, signals, counts).pool.workers;
             f < |ws| && ws[f].role == role
    ensures PoolsWithout(cfg, Initial(cfg, raw, userWorkers, groupWorkers, signals, counts), f)
  {
    var ws := Initial(cfg, raw, userWorkers, groupWorkers, signals, counts).pool.workers;
    assert ws[if f == 0 then 1 else 0].role == UserRole;
    if cfg.processGroups {
      assert ws[if f == userWorkers then userWorkers + 1 else userWorkers].role == GroupRole;
    }
  }

  /** When only the held-back worker is left, all that is still to come is its own
      site's stream. */
  lemma OnlyItsStreamIsLeft(cfg: Config, s: State, f: nat, role: Role, site: Site, k: Kind, key: string, row: string)
    requires Shape(cfg, s) && OnlyLeft(s, f) && HeldBack(s, f, role, site) && PoolsWithout(cfg, s, f)
    requires LastRow(OutsOf(cfg, role, site), k, key) == Some(row)
    ensures EndsInRow(cfg, s, k, key, row)
  {
    assert Ahead(cfg, s.up) == [];
    OthersAreGone(cfg, s, f, UserRole);
    if cfg.processGroups {
      OthersAreGone(cfg, s, f, GroupRole);
    }
    forall i | 0 <= i < |s.pool.workers| ensures Ends(Due(cfg, s.pool.workers[i]), k, key, row) {
      assert i == f || s.pool.workers[i].pc.Exited?;
    }
    assert Mentions(Due(cfg, s.pool.workers[f]), k, key);
  }

  lemma OthersAreGone(cfg: Config, s: State, f: nat, role: Role)
    requires Shape(cfg, s) && OnlyLeft(s, f) && HasOther(s.pool.workers, f, role)
    ensures QueueOf(s, role).items == []
  {
    var i :| 0 <= i < |s.pool.workers| && i != f && s.pool.workers[i].role == role;
    assert WorkerFits(cfg, s, s.pool.workers[i]);
  }

  /** A run to the state where only a worker that has just taken the site is left. */
  lemma SiteCanBeLeft(cfg: Config, raw: seq<Site>, userWorkers: nat, groupWorkers: nat,
                      signals: seq<(Throttle.ScaleAction, int)>, counts: seq<int>, role: Role, site: Site)
    returns (es: seq<Event>, f: nat)
    requires Legal(cfg, raw, userWorkers, groupWorkers, signals, counts)
    requires Contended(cfg, userWorkers, groupWorkers, role) && site in KeepAll(cfg, raw)
    ensures Runs(cfg, Initial(cfg, raw, userWorkers, groupWorkers, signals, counts), es)
    ensures var s := Exec(cfg, Initial(cfg, raw, userWorkers, groupWorkers, signals, counts), es);
            Steady(cfg, s) && OnlyLeft(s, f) && HeldBack(s, f, role, site) && PoolsWithout(cfg, s, f)
  {
    var s0 := Initial(cfg, raw, userWorkers, groupWorkers, signals, counts);
    InitialIsSteady(cfg, raw, userWorkers, groupWorkers, signals, counts);
    assert Untaken(cfg, s0, role, site) by {
      assert Ahead(cfg, s0.up) == KeepAll(cfg, raw);
    }
    var first;
    first, f := RunUntilTaken(cfg, s0, role, site);
    InitialHasOthers(cfg, raw, userWorkers, groupWorkers, signals, counts, role, f);
    OthersKeepPools(cfg, s0, Exec(cfg, s0, first), f);
    var second := RunTheOthers(cfg, Exec(cfg, s0, first), f, role, site);
    RunConcat(cfg, s0, first, second);
    es := first + second;
  }

  /** Any one site's row can be the last under its key in a finished run. */
  lemma AnySiteCanComeLast(cfg: Config, raw: seq<Site>, userWorkers: nat, groupWorkers: nat,
                           signals: seq<(Throttle.ScaleAction, int)>, counts: seq<int>,
                           role: Role, site: Site, k: Kind, key: string, row: string) returns (es: seq<Event>)
    requires Legal(cfg, raw, userWorkers, groupWorkers, signals, counts)
    requires Contended(cfg, userWorkers, groupWorkers, role) && site in KeepAll(cfg, raw) && LastRow(OutsOf(cfg, role, site), k, key) == Some(row)
    ensures Runs(cfg, Initial(cfg, raw, userWorkers, groupWorkers, signals, counts), es)
    ensures var s := Exec(cfg, Initial(cfg, raw, userWorkers, groupWorkers, signals, counts), es);
            Final(s) && LastRow(s.down.enqueued, k, key) == Some(row)
  {
    if k == Sites {
      OtherRoleMisses(cfg, role, site, k, key);
      assert false;
    }
    var s0 := Initial(cfg, raw, userWorkers, groupWorkers, signals, counts);
    var first, f := SiteCanBeLeft(cfg, raw, userWorkers, groupWorkers, signals, counts, role, site);
    var s := Exec(cfg, s0, first);
    var rest := RunToEnd(cfg, s);
    InitialGood(cfg, raw, userWorkers, groupWorkers, signals, counts);
    RunKeepsGood(cfg, s0, first, raw);
    OnlyItsStreamIsLeft(cfg, s, f, role, site, k, key, row);
    RunEnds(cfg, s, rest, raw, k, key, row);
    RunConcat(cfg, s0, first, rest);
    es := first + rest;
    NothingLostOrInvented(cfg, raw, userWorkers, groupWorkers, signals, counts, es);
    SameMentions(Exec(cfg, s, rest).down.enqueued, ItemsOf(cfg, KeepAll(cfg, raw)), k, key);
    SiteIsMentioned(cfg, KeepAll(cfg, raw), role, site, k, key);
  }

  lemma {:induction false} SiteIsMentioned(cfg: Config, sites: seq<Site>, role: Role, site: Site, k: Kind, key: string)
    requires Enlisted(cfg, role) && site in sites && Mentions(OutsOf(cfg, role, site), k, key)
    ensures Mentions(ItemsOf(cfg, sites), k, key)
  {
    ItemsHead(cfg, sites);
    LastRowAppend(SiteItems(cfg, sites[0]), ItemsOf(cfg, sites[1..]), k, key);
    if sites[0] == site {
      var own, users := [SiteOut(cfg, site)], OutsOf(cfg, UserRole, site);
      LastRowAppend(own, users, k, key);
      LastRowAppend(own + users, if cfg.processGroups then OutsOf(cfg, GroupRole, site) else [], k, key);
    } else {
      SiteIsMentioned(cfg, sites[1..], role, site, k, key);
    }
  }
}
