/** The pipeline's results told from the filter's verdicts and the API's answers alone:
    what reaches storage, what is counted, and which sites have an outcome. */
module PipelineAnswers {
  import opened Sums
  import opened Failures
  import opened PipelineModel
  import opened PipelineOutcomes
  import opened PipelineLedger
  import opened PipelineTheorems
  import opened PipelineOrder
  import Throttle = ThrottleModel

  /** What a kept site brings of a kind, in the order in which the API listed it. */
  function Answered(cfg: Config, site: Site, k: Kind): seq<Entity> {
    match k
    case Sites => [cfg.entityOf(site)]
    case Users => (match cfg.users(site) case UsersFetched(users) => users case UsersError(_) => [])
    case Groups =>
      if !cfg.processGroups then []
      else (match cfg.groups(site) case GroupsFetched(groups, _, _, _) => groups case GroupsError(_) => [])
    case Members =>
      if !cfg.processGroups || !cfg.processMembers then []
      else (match cfg.groups(site) case GroupsFetched(_, members, _, _) => members case GroupsError(_) => [])
  }

  // ---- Streams -----------------------------------------------------------------

  /** The entities of a kind, in order. */
  function OfKind(outs: seq<Out>, k: Kind): seq<Entity> {
    if outs == [] then []
    else (if outs[0].kind == k then [outs[0].entity] else []) + OfKind(outs[1..], k)
  }

  lemma {:induction false} OfKindAppend(xs: seq<Out>, ys: seq<Out>, k: Kind)
    ensures OfKind(xs + ys, k) == OfKind(xs, k) + OfKind(ys, k)
  {
    if xs == [] {
      assert xs + ys == ys;
    } else {
      assert (xs + ys)[1..] == xs[1..] + ys;
      OfKindAppend(xs[1..], ys, k);
    }
  }

  lemma {:induction false} OfKindLabelled(j: Kind, es: seq<Entity>, k: Kind)
    ensures OfKind(Labelled(j, es), k) == if j == k then es else []
    decreases |es|
  {
    if es != [] {
      LabelledHead(j, es);
      assert Labelled(j, es)[1..] == Labelled(j, es[1..]);
      OfKindLabelled(j, es[1..], k);
    }
  }

  /** A user worker sends the site's users and nothing else, in the API's order. */
  lemma UserStreamIsAnswer(cfg: Config, site: Site, k: Kind)
    ensures OfKind(OutsOf(cfg, UserRole, site), k) == if k == Users then Answered(cfg, site, Users) else []
  {
    if cfg.users(site).UsersFetched? {
      OfKindLabelled(Users, cfg.users(site).users, k);
    }
  }

  /** A group worker sends the site's groups and, if configured, their members, and
      nothing else, in the API's order. */
  lemma GroupStreamIsAnswer(cfg: Config, site: Site, k: Kind)
    requires cfg.processGroups
    ensures OfKind(OutsOf(cfg, GroupRole, site), k) == if k == Groups || k == Members then Answered(cfg, site, k) else []
  {
    if cfg.groups(site).GroupsFetched? {
      var r := cfg.groups(site);
      var members := if cfg.processMembers then Labelled(Members, r.members) else [];
      OfKindLabelled(Groups, r.groups, k);
      OfKindLabelled(Members, r.members, k);
      OfKindAppend(Labelled(Groups, r.groups), members, k);
    }
  }

  // ---- What reaches storage ------------------------------------------------------

  /** How often an entity of a kind occurs in the answers for the kept sites. */
  function Occurrences(cfg: Config, raw: seq<Site>, k: Kind, e: Entity): nat {
    if raw == [] then 0
    else (if cfg.skip(raw[0]) == Keep then multiset(Answered(cfg, raw[0], k))[e] else 0) + Occurrences(cfg, raw[1..], k, e)
  }

  /** How many entities of a kind the answers for the kept sites hold. */
  function Amount(cfg: Config, raw: seq<Site>, k: Kind): nat {
    if raw == [] then 0
    else (if cfg.skip(raw[0]) == Keep then |Answered(cfg, raw[0], k)| else 0) + Amount(cfg, raw[1..], k)
  }

  lemma {:induction false} KindOccurrences(outs: seq<Out>, k: Kind, e: Entity)
    ensures multiset(outs)[Out(k, e)] == multiset(OfKind(outs, k))[e]
  {
    if outs != [] {
      KindOccurrences(outs[1..], k, e);
      assert outs == [outs[0]] + outs[1..];
    }
  }

  lemma {:induction false} KindAmount(outs: seq<Out>, k: Kind)
    ensures Sum(outs, KindWeight(k)) == |OfKind(outs, k)|
  {
    if outs != [] {
      KindAmount(outs[1..], k);
    }
  }

  lemma SiteStream(cfg: Config, site: Site, k: Kind)
    ensures OfKind([SiteOut(cfg, site)] + OutsOf(cfg, UserRole, site)
                   + (if cfg.processGroups then OutsOf(cfg, GroupRole, site) else []), k)
         == Answered(cfg, site, k)
  {
    var own, users := [SiteOut(cfg, site)], OutsOf(cfg, UserRole, site);
    var groups := if cfg.processGroups then OutsOf(cfg, GroupRole, site) else [];
    OfKindAppend(own + users, groups, k);
    OfKindAppend(own, users, k);
    assert own[1..] == [];
    UserStreamIsAnswer(cfg, site, k);
    if cfg.processGroups {
      GroupStreamIsAnswer(cfg, site, k);
    }
  }

  /** Everything the sites bring of a kind, site by site. */
  function Brought(cfg: Config, sites: seq<Site>, k: Kind): seq<Entity> {
    if sites == [] then [] else Answered(cfg, sites[0], k) + Brought(cfg, sites[1..], k)
  }

  lemma {:induction false} ItemsAreBrought(cfg: Config, sites: seq<Site>, k: Kind)
    ensures OfKind(ItemsOf(cfg, sites), k) == Brought(cfg, sites, k)
  {
    if sites != [] {
      var own := [SiteOut(cfg, sites[0])] + OutsOf(cfg, UserRole, sites[0])
                 + (if cfg.processGroups then OutsOf(cfg, GroupRole, sites[0]) else []);
      ItemsAreBrought(cfg, sites[1..], k);
      SiteStream(cfg, sites[0], k);
      OfKindAppend(own, ItemsOf(cfg, sites[1..]), k);
    }
  }

  lemma KeepAllHead(cfg: Config, raw: seq<Site>)
    requires raw != []
    ensures KeepAll(cfg, raw) == if cfg.skip(raw[0]) == Keep then [raw[0]] + KeepAll(cfg, raw[1..]) else KeepAll(cfg, raw[1..])
  {
    assert [] + KeepAll(cfg, raw[1..]) == KeepAll(cfg, raw[1..]);
  }

  lemma BroughtHead(cfg: Config, site: Site, rest: seq<Site>, k: Kind)
    ensures Brought(cfg, [site] + rest, k) == Answered(cfg, site, k) + Brought(cfg, rest, k)
  {
    assert ([site] + rest)[1..] == rest;
  }

  lemma {:induction false} BroughtIsCounted(cfg: Config, raw: seq<Site>, k: Kind, e: Entity)
    ensures multiset(Brought(cfg, KeepAll(cfg, raw), k))[e] == Occurrences(cfg, raw, k, e)
    ensures |Brought(cfg, KeepAll(cfg, raw), k)| == Amount(cfg, raw, k)
  {
    if raw != [] {
      BroughtIsCounted(cfg, raw[1..], k, e);
      KeepAllHead(cfg, raw);
      BroughtHead(cfg, raw[0], KeepAll(cfg, raw[1..]), k);
    }
  }

  lemma ItemsAreAnswers(cfg: Config, raw: seq<Site>, k: Kind, e: Entity)
    ensures multiset(OfKind(ItemsOf(cfg, KeepAll(cfg, raw)), k))[e] == Occurrences(cfg, raw, k, e)
    ensures |OfKind(ItemsOf(cfg, KeepAll(cfg, raw)), k)| == Amount(cfg, raw, k)
  {
    ItemsAreBrought(cfg, KeepAll(cfg, raw), k);
    BroughtIsCounted(cfg, raw, k, e);
  }

  /** When the pipeline has finished, each entity has been handed to the writer as often
      as it occurs in the answers for the kept sites: each of their own records, each
      user fetched, each group and each member if configured. */
  lemma AnswersReachStorage(cfg: Config, raw: seq<Site>, userWorkers: nat, groupWorkers: nat,
                            signals: seq<(Throttle.ScaleAction, int)>, counts: seq<int>, es: seq<Event>, k: Kind, e: Entity)
    requires Legal(cfg, raw, userWorkers, groupWorkers, signals, counts)
    requires Runs(cfg, Initial(cfg, raw, userWorkers, groupWorkers, signals, counts), es)
    requires Final(Exec(cfg, Initial(cfg, raw, userWorkers, groupWorkers, signals, counts), es))
    ensures var s := Exec(cfg, Initial(cfg, raw, userWorkers, groupWorkers, signals, counts), es);
            multiset(s.down.enqueued)[Out(k, e)] == Occurrences(cfg, raw, k, e)
  {
    NothingLostOrInvented(cfg, raw, userWorkers, groupWorkers, signals, counts, es);
    KindOccurrences(ItemsOf(cfg, KeepAll(cfg, raw)), k, e);
    ItemsAreAnswers(cfg, raw, k, e);
  }

  /** An entity occurs exactly if the answer for some kept site has it. */
  lemma {:induction false} OccursExactly(cfg: Config, raw: seq<Site>, k: Kind, e: Entity)
    ensures Occurrences(cfg, raw, k, e) > 0 <==>
              exists i :: 0 <= i < |raw| && cfg.skip(raw[i]) == Keep && e in Answered(cfg, raw[i], k)
  {
    if raw != [] {
      OccursExactly(cfg, raw[1..], k, e);
      if i :| 0 <= i < |raw| && cfg.skip(raw[i]) == Keep && e in Answered(cfg, raw[i], k) {
        if i > 0 {
          assert raw[1..][i - 1] == raw[i];
        }
      }
      if Occurrences(cfg, raw, k, e) > 0 {
        if !(cfg.skip(raw[0]) == Keep && e in Answered(cfg, raw[0], k)) {
          var i :| 0 <= i < |raw[1..]| && cfg.skip(raw[1..][i]) == Keep && e in Answered(cfg, raw[1..][i], k);
          assert raw[i + 1] == raw[1..][i];
        }
      }
    }
  }

  // ---- What is counted -----------------------------------------------------------

  /** The number of raw sites with this verdict. */
  function Verdicts(cfg: Config, raw: seq<Site>, why: SkipReason): nat {
    if raw == [] then 0 else (if cfg.skip(raw[0]) == why then 1 else 0) + Verdicts(cfg, raw[1..], why)
  }

  /** An operation on the site failed, as the API's answers have it. */
  predicate SiteFails(cfg: Config, site: Site) {
    || cfg.users(site).UsersError?
    || (cfg.processGroups
        && match cfg.groups(site)
           case GroupsError(_) => true
           case GroupsFetched(_, _, errors, timeouts) => errors > 0 || timeouts > 0)
  }

  function Failing(cfg: Config, raw: seq<Site>): nat {
    if raw == [] then 0
    else (if cfg.skip(raw[0]) == Keep && SiteFails(cfg, raw[0]) then 1 else 0) + Failing(cfg, raw[1..])
  }

  lemma ExpectedFailsExactly(cfg: Config, site: Site)
    ensures ExpectFailure(cfg, site) <==> SiteFails(cfg, site)
  {
  }

  lemma {:induction false} VerdictsAreSkips(cfg: Config, raw: seq<Site>)
    ensures |KeepAll(cfg, raw)| == Verdicts(cfg, raw, Keep)
    ensures CountSkip(cfg, raw, SkipTemplate) == Verdicts(cfg, raw, SkipTemplate)
    ensures CountSkip(cfg, raw, SkipTenantRoot) == Verdicts(cfg, raw, SkipTenantRoot)
  {
    if raw != [] {
      VerdictsAreSkips(cfg, raw[1..]);
    }
  }

  function FailsWeight(cfg: Config): Site -> nat {
    (site: Site) => if SiteFails(cfg, site) then 1 else 0
  }

  lemma {:induction false} FailingIsSum(cfg: Config, raw: seq<Site>)
    ensures Sum(KeepAll(cfg, raw), FailsWeight(cfg)) == Failing(cfg, raw)
  {
    if raw != [] {
      FailingIsSum(cfg, raw[1..]);
      KeepAllHead(cfg, raw);
      assert ([raw[0]] + KeepAll(cfg, raw[1..]))[1..] == KeepAll(cfg, raw[1..]);
    }
  }

  lemma {:induction false} OutcomesAreFailures(cfg: Config, settled: seq<Site>)
    ensures |ExpectedOutcomes(cfg, settled)| == Sum(settled, FailsWeight(cfg))
    decreases |settled|
  {
    if settled != [] {
      var n := |settled| - 1;
      OutcomesAreFailures(cfg, settled[..n]);
      ExpectedFailsExactly(cfg, settled[n]);
      SumSnoc(settled[..n], settled[n], FailsWeight(cfg));
      assert settled == settled[..n] + [settled[n]];
    }
  }

  /** When the pipeline has finished every counter is what the verdicts and answers come
      to. */
  lemma CountersAreAnswers(cfg: Config, raw: seq<Site>, userWorkers: nat, groupWorkers: nat,
                           signals: seq<(Throttle.ScaleAction, int)>, counts: seq<int>, es: seq<Event>)
    requires Legal(cfg, raw, userWorkers, groupWorkers, signals, counts)
    requires Runs(cfg, Initial(cfg, raw, userWorkers, groupWorkers, signals, counts), es)
    requires Final(Exec(cfg, Initial(cfg, raw, userWorkers, groupWorkers, signals, counts), es))
    ensures var c := Exec(cfg, Initial(cfg, raw, userWorkers, groupWorkers, signals, counts), es).book.counters;
            && c.skipTemplate == Verdicts(cfg, raw, SkipTemplate)
            && c.skipTenantRoot == Verdicts(cfg, raw, SkipTenantRoot)
            && c.dispatched == c.completed == Verdicts(cfg, raw, Keep)
            && c.failed == Failing(cfg, raw) && c.succeeded == Verdicts(cfg, raw, Keep) - Failing(cfg, raw)
            && c.users == Amount(cfg, raw, Users)
            && c.groups == Amount(cfg, raw, Groups)
            && c.members == Amount(cfg, raw, Members)
  {
    var s0 := Initial(cfg, raw, userWorkers, groupWorkers, signals, counts);
    var s := Exec(cfg, s0, es);
    EndToEndConservation(cfg, raw, userWorkers, groupWorkers, signals, counts, es);
    FinalVerdicts(cfg, raw, userWorkers, groupWorkers, signals, counts, es);
    OutcomesAreFailures(cfg, s.book.settled);
    SumOfPermutation(s.book.settled, s.book.dispatched, FailsWeight(cfg));
    FailingIsSum(cfg, raw);
    FinalAmount(cfg, raw, s, Users);
    FinalAmount(cfg, raw, s, Groups);
    FinalAmount(cfg, raw, s, Members);
  }

  lemma FinalVerdicts(cfg: Config, raw: seq<Site>, userWorkers: nat, groupWorkers: nat,
                      signals: seq<(Throttle.ScaleAction, int)>, counts: seq<int>, es: seq<Event>)
    requires Legal(cfg, raw, userWorkers, groupWorkers, signals, counts)
    requires Runs(cfg, Initial(cfg, raw, userWorkers, groupWorkers, signals, counts), es)
    requires Final(Exec(cfg, Initial(cfg, raw, userWorkers, groupWorkers, signals, counts), es))
    ensures var s := Exec(cfg, Initial(cfg, raw, userWorkers, groupWorkers, signals, counts), es);
            && Good(cfg, s, raw)
            && s.book.counters.skipTemplate == Verdicts(cfg, raw, SkipTemplate)
            && s.book.counters.skipTenantRoot == Verdicts(cfg, raw, SkipTenantRoot)
            && |KeepAll(cfg, raw)| == Verdicts(cfg, raw, Keep)
  {
    var s0 := Initial(cfg, raw, userWorkers, groupWorkers, signals, counts);
    InitialGood(cfg, raw, userWorkers, groupWorkers, signals, counts);
    RunKeepsGood(cfg, s0, es, raw);
    PipelineProgress.FinalIsEmpty(cfg, Exec(cfg, s0, es));
    VerdictsAreSkips(cfg, raw);
  }

  lemma FinalAmount(cfg: Config, raw: seq<Site>, s: State, k: Kind)
    requires Good(cfg, s, raw) && Final(s)
    ensures CounterOf(s.book.counters, k) == Amount(cfg, raw, k)
  {
    var items := ItemsOf(cfg, KeepAll(cfg, raw));
    FinalCounter(cfg, s, raw, k);
    ItemsWeigh(cfg, KindWeight(k), KeepAll(cfg, raw));
    KindAmount(items, k);
    ItemsAreAnswers(cfg, raw, k, Entity("", ""));
  }

  // ---- Outcomes ------------------------------------------------------------------

  /** The outcome says what the API answered for its site. */
  predicate Tells(cfg: Config, o: Outcome) {
    && o.user.failure == (match cfg.users(o.site) case UsersError(f) => Some(f) case UsersFetched(_) => None)
    && o.user.fetched == |Answered(cfg, o.site, Users)|
    && o.group.failure == (if !cfg.processGroups then None
                           else match cfg.groups(o.site) case GroupsError(f) => Some(f) case GroupsFetched(_, _, _, _) => None)
    && o.group.groups == |Answered(cfg, o.site, Groups)|
    && o.group.members == |Answered(cfg, o.site, Members)|
    && o.group.memberErrors == (if !cfg.processGroups then 0
                                else match cfg.groups(o.site) case GroupsError(_) => 0 case GroupsFetched(_, _, errors, _) => errors)
    && o.group.memberTimeouts == (if !cfg.processGroups then 0
                                  else match cfg.groups(o.site) case GroupsError(_) => 0 case GroupsFetched(_, _, _, timeouts) => timeouts)
  }

  lemma ExpectedTells(cfg: Config, site: Site)
    ensures Tells(cfg, Outcome(site, ExpectedUser(cfg, site), ExpectedGroup(cfg, site)))
  {
  }

  lemma {:induction false} OutcomesTell(cfg: Config, settled: seq<Site>)
    ensures forall o :: o in ExpectedOutcomes(cfg, settled) ==> o.site in settled && SiteFails(cfg, o.site) && Tells(cfg, o)
    ensures forall site :: site in settled && SiteFails(cfg, site) ==>
                             exists o :: o in ExpectedOutcomes(cfg, settled) && o.site == site
    decreases |settled|
  {
    if settled != [] {
      var n := |settled| - 1;
      var before, last := ExpectedOutcomes(cfg, settled[..n]), settled[n];
      var own := Outcome(last, ExpectedUser(cfg, last), ExpectedGroup(cfg, last));
      OutcomesTell(cfg, settled[..n]);
      ExpectedFailsExactly(cfg, last);
      ExpectedTells(cfg, last);
      assert ExpectedOutcomes(cfg, settled) == if SiteFails(cfg, last) then before + [own] else before;
      assert settled == settled[..n] + [last];
      forall site | site in settled && SiteFails(cfg, site)
        ensures exists o :: o in ExpectedOutcomes(cfg, settled) && o.site == site
      {
        if site in settled[..n] {
          var o :| o in before && o.site == site;
          assert o in ExpectedOutcomes(cfg, settled);
        } else {
          assert own in ExpectedOutcomes(cfg, settled);
        }
      }
    }
  }

  /** In every reachable state a settled site has an outcome on record if and only if its
      users could not be fetched, or groups are processed and they could not be fetched
      or some of their members could not; and every outcome says what the API answered
      for its site. */
  lemma OutcomesAreAnswers(cfg: Config, raw: seq<Site>, userWorkers: nat, groupWorkers: nat,
                           signals: seq<(Throttle.ScaleAction, int)>, counts: seq<int>, es: seq<Event>)
    requires Legal(cfg, raw, userWorkers, groupWorkers, signals, counts)
    requires Runs(cfg, Initial(cfg, raw, userWorkers, groupWorkers, signals, counts), es)
    ensures var b := Exec(cfg, Initial(cfg, raw, userWorkers, groupWorkers, signals, counts), es).book;
            && (forall site :: site in b.settled ==> ((exists o :: o in b.outcomes && o.site == site) <==> SiteFails(cfg, site)))
            && (forall o :: o in b.outcomes ==> o.site in b.settled && Tells(cfg, o))
  {
    FinalisedExactlyOnce(cfg, raw, userWorkers, groupWorkers, signals, counts, es);
    OutcomesTell(cfg, Exec(cfg, Initial(cfg, raw, userWorkers, groupWorkers, signals, counts), es).book.settled);
  }
}
