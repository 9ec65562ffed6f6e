/** Pipeline and writer together: what ends up in the database when the pipeline
    has finished and the writer, fed with what the pipeline enqueued, has closed. */
module Composition {
  import opened Sums
  import P = PipelineModel
  import L = PipelineLedger
  import opened Failures
  import T = PipelineTheorems
  import opened StorageModel
  import W = WriterModel
  import R = WriterRefinement
  import I = ScheduleIndependence
  import D = PipelineDeterminacy
  import O = PipelineOrder
  import N = PipelineSchedules
  import A = PipelineAnswers
  import Throttle = ThrottleModel

  function KindName(k: P.Kind): string {
    match k
    case Sites => "sites"
    case Users => "site_users"
    case Groups => "site_groups"
    case Members => "group_members"
  }

  /** The envelope that a stream bridge puts around an entity. */
  function ToItem(o: P.Out): Item {
    Item(KindName(o.kind), o.entity.key, o.entity.row)
  }

  function ToItems(outs: seq<P.Out>): seq<Item> {
    seq(|outs|, i requires 0 <= i < |outs| => ToItem(outs[i]))
  }

  const KINDS: set<string> := {"sites", "site_users", "site_groups", "group_members", "user_profiles"}

  /** One finished pipeline run and one closed writer run over its output. */
  datatype Crawl = Crawl(
    cfg: P.Config, raw: seq<P.Site>, userWorkers: nat, groupWorkers: nat,
    signals: seq<(Throttle.ScaleAction, int)>, counts: seq<int>, steps: seq<P.Event>,
    writer: W.Config, tables: Tables, schedule: seq<W.Event>)

  function Start(c: Crawl): P.State
    requires |c.counts| == |c.signals|
  {
    P.Initial(c.cfg, c.raw, c.userWorkers, c.groupWorkers, c.signals, c.counts)
  }

  ghost predicate PipelineFinished(c: Crawl) {
    && T.Legal(c.cfg, c.raw, c.userWorkers, c.groupWorkers, c.signals, c.counts)
    && P.Runs(c.cfg, Start(c), c.steps)
    && P.Final(P.Exec(c.cfg, Start(c), c.steps))
  }

  ghost predicate WriterClosed(c: Crawl)
    requires PipelineFinished(c)
  {
    && c.writer.maxBatch >= 1 && c.writer.kinds == KINDS
    && W.Runs(W.Initial(c.writer, c.tables), c.schedule)
    && var w := W.Exec(W.Initial(c.writer, c.tables), c.schedule);
    && w.phase.Exited?
    && w.sent == ToItems(P.Exec(c.cfg, Start(c), c.steps).down.enqueued)
  }

  ghost function WriterOf(c: Crawl): W.Writer
    requires PipelineFinished(c) && WriterClosed(c)
  {
    W.Exec(W.Initial(c.writer, c.tables), c.schedule)
  }

  /** What the kept sites bring, site by site. */
  function Fetched(c: Crawl): seq<P.Out> {
    T.ItemsOf(c.cfg, P.KeepAll(c.cfg, c.raw))
  }

  lemma {:induction false} CountsPartition(outs: seq<P.Out>)
    ensures Sum(outs, L.IsSites) + Sum(outs, L.IsUsers) + Sum(outs, L.IsGroups) + Sum(outs, L.IsMembers) == |outs|
  {
    if outs != [] {
      CountsPartition(outs[1..]);
    }
  }

  lemma {:induction false} KindCounts(outs: seq<P.Out>, k: P.Kind)
    ensures W.CountKind(ToItems(outs), KindName(k)) == Sum(outs, L.KindWeight(k))
    decreases |outs|
  {
    if outs != [] {
      assert ToItems(outs)[1..] == ToItems(outs[1..]);
      KindCounts(outs[1..], k);
      assert ToItem(outs[0]).kind == KindName(k) <==> outs[0].kind == k;
    }
  }

  /** Whatever the database refused, every entity counted by the pipeline is
      accounted for by the writer: successes plus failures are the dispatched
      sites, users, groups and members, in total and kind by kind. */
  lemma WriterAccountsForThePipeline(c: Crawl)
    requires PipelineFinished(c) && WriterClosed(c)
    ensures var n := P.Exec(c.cfg, Start(c), c.steps).book.counters;
            var w := W.Exec(W.Initial(c.writer, c.tables), c.schedule);
            && w.success + w.failure == w.totalQueued == n.dispatched + n.users + n.groups + n.members
            && forall k: P.Kind ::
                 var st := W.StatsOf(w.kindStats, KindName(k));
                 st.successful + st.failed == L.CounterOf(n, k)
  {
    T.EndToEndConservation(c.cfg, c.raw, c.userWorkers, c.groupWorkers, c.signals, c.counts, c.steps);
    R.AccountingMatchesHistory(c.writer, c.tables, c.schedule);
    R.FirstInFirstOut(c.writer, c.tables, c.schedule);
    var s := P.Exec(c.cfg, Start(c), c.steps);
    var w := W.Exec(W.Initial(c.writer, c.tables), c.schedule);
    CountsPartition(s.down.enqueued);
    assert Sum(s.down.enqueued, L.KindWeight(P.Sites)) == s.book.counters.dispatched;
    assert Sum(s.down.enqueued, L.KindWeight(P.Users)) == s.book.counters.users;
    assert Sum(s.down.enqueued, L.KindWeight(P.Groups)) == s.book.counters.groups;
    assert Sum(s.down.enqueued, L.KindWeight(P.Members)) == s.book.counters.members;
    forall k: P.Kind
      ensures var st := W.StatsOf(w.kindStats, KindName(k)); st.successful + st.failed == L.CounterOf(s.book.counters, k)
    {
      KindCounts(s.down.enqueued, k);
      EndedKinds(w.history, KindName(k));
      assert W.StatsOf(w.kindStats, KindName(k)) ==
             W.KindStats(W.CountKind(R.Ended(w.history, true), KindName(k)), W.CountKind(R.Ended(w.history, false), KindName(k)));
    }
  }

  lemma {:induction false} EndedKinds(history: seq<W.Batch>, kind: string)
    ensures W.CountKind(R.Ended(history, true), kind) + W.CountKind(R.Ended(history, false), kind)
         == W.CountKind(R.Flat(history), kind)
    decreases |history|
  {
    if history != [] {
      var n := |history| - 1;
      var before, last := history[..n], history[n];
      EndedKinds(before, kind);
      R.CountKindAppend(R.Flat(before), last.items, kind);
      R.CountKindAppend(R.Ended(before, last.ok), last.items, kind);
      assert R.Ended(before, !last.ok) + [] == R.Ended(before, !last.ok);
    }
  }

  // ---- The database does not depend on the interleaving --------------------

  lemma {:induction false} ToItemsMember(outs: seq<P.Out>, it: Item)
    ensures it in ToItems(outs) <==> exists o :: o in outs && ToItem(o) == it
    decreases |outs|
  {
    if it in ToItems(outs) {
      var i :| 0 <= i < |outs| && ToItems(outs)[i] == it;
      assert outs[i] in outs;
    }
    if o :| o in outs && ToItem(o) == it {
      var i :| 0 <= i < |outs| && outs[i] == o;
      assert ToItems(outs)[i] == it;
    }
  }

  lemma {:induction false} TwiceHasTwoPositions(xs: seq<P.Out>, o: P.Out) returns (i: nat, j: nat)
    requires multiset(xs)[o] >= 2
    ensures i < j < |xs| && xs[i] == o && xs[j] == o
    decreases |xs|
  {
    assert xs == [xs[0]] + xs[1..];
    if xs[0] == o {
      assert o in multiset(xs[1..]);
      var k :| 0 <= k < |xs[1..]| && xs[1..][k] == o;
      i, j := 0, k + 1;
    } else {
      var a, b := TwiceHasTwoPositions(xs[1..], o);
      i, j := a + 1, b + 1;
    }
  }

  lemma TwoPositionsCountTwice(xs: seq<P.Out>, i: nat, j: nat)
    requires i < j < |xs| && xs[i] == xs[j]
    ensures multiset(xs)[xs[i]] >= 2
  {
    assert xs == xs[..j] + [xs[j]] + xs[j + 1..];
    assert xs[i] == xs[..j][i];
    assert xs[i] in multiset(xs[..j]);
  }

  /** Distinct keys are a property of what is enqueued, not of the order. */
  lemma DistinctIdsOfPermutation(xs: seq<P.Out>, ys: seq<P.Out>)
    requires multiset(xs) == multiset(ys) && DistinctIds(ToItems(ys))
    ensures DistinctIds(ToItems(xs))
  {
    forall i, j | 0 <= i < j < |xs| ensures IdOf(ToItems(xs)[i]) != IdOf(ToItems(xs)[j]) {
      if xs[i] == xs[j] {
        TwoPositionsCountTwice(xs, i, j);
        var a, b := TwiceHasTwoPositions(ys, xs[i]);
        assert IdOf(ToItems(ys)[a]) != IdOf(ToItems(ys)[b]);
      } else {
        assert xs[i] in multiset(xs) && xs[j] in multiset(xs);
        assert xs[i] in multiset(ys) && xs[j] in multiset(ys);
        var a :| 0 <= a < |ys| && ys[a] == xs[i];
        var b :| 0 <= b < |ys| && ys[b] == xs[j];
        assert a != b;
        assert IdOf(ToItems(ys)[a]) != IdOf(ToItems(ys)[b]) by {
          if a < b {
          } else {
            assert b < a;
          }
        }
      }
    }
  }

  // ---- Last rows and tables --------------------------------------------------

  lemma {:induction false} WrittenRow(t: Tables, outs: seq<P.Out>, k: P.Kind, key: string)
    ensures var id, row := RowId(KindName(k), key), O.LastRow(outs, k, key);
            var after := WriteAll(t, ToItems(outs));
            if row == None then (id in after <==> id in t) && (id in t ==> after[id] == t[id])
            else id in after && after[id] == row.value
    decreases |outs|
  {
    if outs != [] {
      var n := |outs| - 1;
      WrittenRow(t, outs[..n], k, key);
      assert ToItems(outs) == ToItems(outs[..n]) + [ToItem(outs[n])];
      WriteAllAppend(t, ToItems(outs[..n]), [ToItem(outs[n])]);
      assert [ToItem(outs[n])][1..] == [];
      assert ToItem(outs[n]).kind == KindName(k) <==> outs[n].kind == k;
    }
  }

  lemma OtherTablesUntouched(t: Tables, outs: seq<P.Out>, id: RowId)
    requires forall k: P.Kind :: id.table != KindName(k)
    ensures var after := WriteAll(t, ToItems(outs)); (id in after <==> id in t) && (id in t ==> after[id] == t[id])
  {
    LastWriteWins(t, ToItems(outs), id);
    assert forall i :: 0 <= i < |outs| ==> ToItems(outs)[i].kind == KindName(outs[i].kind);
  }

  lemma SameLastRowsSameTables(t: Tables, xs: seq<P.Out>, ys: seq<P.Out>)
    requires forall k: P.Kind, key: string :: O.LastRow(xs, k, key) == O.LastRow(ys, k, key)
    ensures WriteAll(t, ToItems(xs)) == WriteAll(t, ToItems(ys))
  {
    var a, b := WriteAll(t, ToItems(xs)), WriteAll(t, ToItems(ys));
    forall id ensures id in a <==> id in b
              ensures id in a && id in b ==> a[id] == b[id]
    {
      if k: P.Kind :| id.table == KindName(k) {
        WrittenRow(t, xs, k, id.key);
        WrittenRow(t, ys, k, id.key);
        assert id == RowId(KindName(k), id.key);
      } else {
        OtherTablesUntouched(t, xs, id);
        OtherTablesUntouched(t, ys, id);
      }
    }
    assert a.Keys == b.Keys;
  }

  // ---- When the database does not depend on the interleaving -------------------

  lemma {:induction false} FetchedHolds(cfg: P.Config, sites: seq<P.Site>, role: P.Role, site: P.Site, o: P.Out)
    requires N.Enlisted(cfg, role) && site in sites && o in P.OutsOf(cfg, role, site)
    ensures o in T.ItemsOf(cfg, sites)
  {
    D.ItemsHead(cfg, sites);
    if site != sites[0] {
      FetchedHolds(cfg, sites[1..], role, site, o);
    }
  }

  /** The last row is one of the rows. */
  lemma {:induction false} LastRowIsThere(outs: seq<P.Out>, k: P.Kind, key: string)
    requires O.Mentions(outs, k, key)
    ensures P.Out(k, P.Entity(key, O.LastRow(outs, k, key).value)) in outs
    decreases |outs|
  {
    var n := |outs| - 1;
    if !O.Hits(outs[n], k, key) {
      LastRowIsThere(outs[..n], k, key);
    }
  }

  /** For every role with several workers, wherever two sites bring an entity under one
      key their last rows for it are the same. */
  ghost predicate StreamsAgree(c: Crawl) {
    D.ContendedStreamsAgree(c.cfg, c.raw, c.userWorkers, c.groupWorkers)
  }

  /** If equal keys carry equal rows, the sites' streams agree. */
  lemma ConsistentStreamsAgree(c: Crawl)
    requires Consistent(ToItems(Fetched(c)))
    ensures StreamsAgree(c)
  {
    forall role: P.Role | N.Enlisted(c.cfg, role) ensures D.StreamsAgree(c.cfg, role, P.KeepAll(c.cfg, c.raw)) {
      ConsistentRoleAgrees(c, role);
    }
  }

  lemma ConsistentRoleAgrees(c: Crawl, role: P.Role)
    requires Consistent(ToItems(Fetched(c))) && N.Enlisted(c.cfg, role)
    ensures D.StreamsAgree(c.cfg, role, P.KeepAll(c.cfg, c.raw))
  {
    var sites := P.KeepAll(c.cfg, c.raw);
    forall a: P.Site, b: P.Site, k: P.Kind, key: string | a in sites && b in sites
      ensures D.SameOrNone(O.LastRow(P.OutsOf(c.cfg, role, a), k, key), O.LastRow(P.OutsOf(c.cfg, role, b), k, key))
    {
      if O.Mentions(P.OutsOf(c.cfg, role, a), k, key) && O.Mentions(P.OutsOf(c.cfg, role, b), k, key) {
        var x := FetchedRow(c, role, a, k, key);
        var y := FetchedRow(c, role, b, k, key);
        assert IdOf(ToItems(Fetched(c))[x]) == IdOf(ToItems(Fetched(c))[y]);
      }
    }
  }

  /** Where a stream's last row under a key is among all that is fetched. */
  lemma FetchedRow(c: Crawl, role: P.Role, site: P.Site, k: P.Kind, key: string) returns (i: nat)
    requires N.Enlisted(c.cfg, role) && site in P.KeepAll(c.cfg, c.raw) && O.Mentions(P.OutsOf(c.cfg, role, site), k, key)
    ensures i < |Fetched(c)| && ToItems(Fetched(c))[i] == Item(KindName(k), key, O.LastRow(P.OutsOf(c.cfg, role, site), k, key).value)
  {
    var o := P.Out(k, P.Entity(key, O.LastRow(P.OutsOf(c.cfg, role, site), k, key).value));
    LastRowIsThere(P.OutsOf(c.cfg, role, site), k, key);
    FetchedHolds(c.cfg, P.KeepAll(c.cfg, c.raw), role, site, o);
    i :| 0 <= i < |Fetched(c)| && Fetched(c)[i] == o;
  }

  lemma DistinctIsConsistent(items: seq<Item>)
    requires DistinctIds(items)
    ensures Consistent(items)
  {
    forall i, j | 0 <= i < |items| && 0 <= j < |items| && IdOf(items[i]) == IdOf(items[j]) ensures items[i].row == items[j].row {
      assert !(i < j) && !(j < i);
    }
  }

  /** What the database itself must not see: in a new database a key twice or one it
      already has, in an existing one two sites that disagree on a row. */
  ghost predicate KeysFit(c: Crawl) {
    match c.writer.mode
    case Insert => DistinctIds(ToItems(Fetched(c))) && FreshIds(c.tables, ToItems(Fetched(c)))
    case Upsert => StreamsAgree(c)
  }

  /** A crawl in which the database refused nothing but duplicate keys. */
  ghost predicate Undisturbed(c: Crawl) {
    PipelineFinished(c) && WriterClosed(c) && I.FaultFree(WriterOf(c).history)
  }

  lemma EnqueuedTables(c: Crawl)
    requires PipelineFinished(c) && StreamsAgree(c)
    ensures WriteAll(c.tables, ToItems(P.Exec(c.cfg, Start(c), c.steps).down.enqueued)) == WriteAll(c.tables, ToItems(Fetched(c)))
  {
    var enqueued := P.Exec(c.cfg, Start(c), c.steps).down.enqueued;
    forall k: P.Kind, key: string ensures O.LastRow(enqueued, k, key) == O.LastRow(Fetched(c), k, key) {
      D.AgreeingStreamsAreDeterminate(c.cfg, c.raw, c.userWorkers, c.groupWorkers, c.signals, c.counts, c.steps, k, key);
    }
    SameLastRowsSameTables(c.tables, enqueued, Fetched(c));
  }

  lemma SentIsRegistered(c: Crawl)
    requires PipelineFinished(c) && WriterClosed(c)
    ensures I.AllRegistered(WriterOf(c).sent, KINDS)
  {
  }

  lemma InsertsFit(c: Crawl)
    requires Undisturbed(c) && c.writer.mode.Insert? && KeysFit(c)
    ensures DistinctIds(WriterOf(c).sent) && FreshIds(c.tables, WriterOf(c).sent)
  {
    var enqueued := P.Exec(c.cfg, Start(c), c.steps).down.enqueued;
    T.NothingLostOrInvented(c.cfg, c.raw, c.userWorkers, c.groupWorkers, c.signals, c.counts, c.steps);
    DistinctIdsOfPermutation(enqueued, Fetched(c));
    SameItems(enqueued, Fetched(c));
    forall i | 0 <= i < |WriterOf(c).sent| ensures IdOf(WriterOf(c).sent[i]) !in c.tables {
      assert WriterOf(c).sent[i] in ToItems(Fetched(c));
    }
  }

  lemma UpsertTables(c: Crawl)
    requires Undisturbed(c) && c.writer.mode.Upsert?
    ensures WriterOf(c).tables == WriteAll(c.tables, ToItems(P.Exec(c.cfg, Start(c), c.steps).down.enqueued))
    ensures WriterOf(c).failure == 0
  {
    SentIsRegistered(c);
    I.UpsertsFoldTheStream(c.writer, c.tables, c.schedule);
  }

  /** When nothing else is refused the final tables are a function of the kept sites
      and the API's answers alone: no goroutine interleaving, channel backlog, scaler
      decision or batch boundary shows in them, and nothing failed. */
  lemma DatabaseIsDeterminate(c: Crawl)
    requires Undisturbed(c) && KeysFit(c)
    ensures WriterOf(c).tables == WriteAll(c.tables, ToItems(Fetched(c))) && WriterOf(c).failure == 0
  {
    match c.writer.mode
    case Insert =>
      SentIsRegistered(c);
      InsertsFit(c);
      I.InsertsNeedDistinctFreshKeys(c.writer, c.tables, c.schedule);
      DistinctIsConsistent(ToItems(Fetched(c)));
      ConsistentStreamsAgree(c);
      EnqueuedTables(c);
    case Upsert =>
      UpsertTables(c);
      EnqueuedTables(c);
  }

  // ---- What the database holds -------------------------------------------------

  /** The answer for a kept site has the entity. */
  predicate Brings(c: Crawl, k: P.Kind, e: P.Entity) {
    exists i :: 0 <= i < |c.raw| && c.cfg.skip(c.raw[i]) == P.Keep && e in A.Answered(c.cfg, c.raw[i], k)
  }

  /** The table has the rows there were and one for every key that an answer brings; a
      row whose key an answer brings is the row of such an answer, and the others are
      as they were. */
  ghost predicate TableHolds(c: Crawl, table: string, k: P.Kind, key: string)
    requires PipelineFinished(c) && WriterClosed(c)
  {
    var id, after := RowId(table, key), WriterOf(c).tables;
    var brought := exists row :: Brings(c, k, P.Entity(key, row));
    && (id in after <==> id in c.tables || brought)
    && (brought ==> id in after && Brings(c, k, P.Entity(key, after[id])))
    && (!brought && id in after ==> after[id] == c.tables[id])
  }

  lemma EnqueuedExactly(c: Crawl, k: P.Kind, e: P.Entity)
    requires PipelineFinished(c)
    ensures P.Out(k, e) in P.Exec(c.cfg, Start(c), c.steps).down.enqueued <==> Brings(c, k, e)
  {
    var enqueued := P.Exec(c.cfg, Start(c), c.steps).down.enqueued;
    A.AnswersReachStorage(c.cfg, c.raw, c.userWorkers, c.groupWorkers, c.signals, c.counts, c.steps, k, e);
    A.OccursExactly(c.cfg, c.raw, k, e);
    assert P.Out(k, e) in enqueued <==> P.Out(k, e) in multiset(enqueued);
  }

  lemma TablesAreEnqueued(c: Crawl)
    requires Undisturbed(c) && (c.writer.mode.Upsert? || KeysFit(c))
    ensures WriterOf(c).tables == WriteAll(c.tables, ToItems(P.Exec(c.cfg, Start(c), c.steps).down.enqueued))
  {
    match c.writer.mode
    case Upsert => UpsertTables(c);
    case Insert =>
      SentIsRegistered(c);
      InsertsFit(c);
      I.InsertsNeedDistinctFreshKeys(c.writer, c.tables, c.schedule);
  }

  lemma KindTableHolds(c: Crawl, k: P.Kind, key: string)
    requires Undisturbed(c) && (c.writer.mode.Upsert? || KeysFit(c))
    ensures TableHolds(c, KindName(k), k, key)
  {
    var enqueued := P.Exec(c.cfg, Start(c), c.steps).down.enqueued;
    TablesAreEnqueued(c);
    WrittenRow(c.tables, enqueued, k, key);
    O.MentionsMeansMember(enqueued, k, key);
    if O.Mentions(enqueued, k, key) {
      LastRowIsThere(enqueued, k, key);
      EnqueuedExactly(c, k, P.Entity(key, O.LastRow(enqueued, k, key).value));
    }
    if row :| Brings(c, k, P.Entity(key, row)) {
      EnqueuedExactly(c, k, P.Entity(key, row));
      assert O.Hits(P.Out(k, P.Entity(key, row)), k, key);
    }
  }

  /** After an undisturbed crawl each table holds, beside what it held, exactly what the
      answers for the kept sites bring. */
  lemma DatabaseHoldsAnswers(c: Crawl, key: string)
    requires Undisturbed(c) && (c.writer.mode.Upsert? || KeysFit(c))
    ensures TableHolds(c, "sites", P.Sites, key)
    ensures TableHolds(c, "site_users", P.Users, key)
    ensures TableHolds(c, "site_groups", P.Groups, key)
    ensures TableHolds(c, "group_members", P.Members, key)
  {
    KindTableHolds(c, P.Sites, key);
    KindTableHolds(c, P.Users, key);
    KindTableHolds(c, P.Groups, key);
    KindTableHolds(c, P.Members, key);
  }

  // ---- And exactly when --------------------------------------------------------

  /** Two crawls of the same sites with the same answers, workers, signals, writer and
      database. */
  ghost predicate SameSetting(a: Crawl, b: Crawl) {
    b == a.(steps := b.steps, schedule := b.schedule)
  }

  ghost predicate TablesAreFixed(c: Crawl) {
    forall a: Crawl, b: Crawl :: SameSetting(c, a) && SameSetting(c, b) && Undisturbed(a) && Undisturbed(b) ==>
                                   WriterOf(a).tables == WriterOf(b).tables
  }

  /** An existing database is updated. */
  predicate Updates(c: Crawl) {
    && T.Legal(c.cfg, c.raw, c.userWorkers, c.groupWorkers, c.signals, c.counts)
    && c.writer.mode.Upsert? && c.writer.maxBatch >= 1 && c.writer.inputCap >= 1 && c.writer.kinds == KINDS
  }

  /** Whatever steps a finished pipeline has taken, the writer can follow. */
  lemma WriterCanFollow(c: Crawl, steps: seq<P.Event>) returns (done: Crawl)
    requires Updates(c) && P.Runs(c.cfg, Start(c), steps) && P.Final(P.Exec(c.cfg, Start(c), steps))
    ensures SameSetting(c, done) && done.steps == steps && Undisturbed(done)
  {
    var items := ToItems(P.Exec(c.cfg, Start(c), steps).down.enqueued);
    var schedule := I.StreamCanBeWritten(W.Initial(c.writer, c.tables), items);
    assert [] + items == items;
    done := c.(steps := steps, schedule := schedule);
  }

  /** A crawl that leaves the last row of any one site under a key. */
  lemma SiteCanWin(c: Crawl, role: P.Role, site: P.Site, k: P.Kind, key: string) returns (won: Crawl)
    requires Updates(c) && D.Contended(c.cfg, c.userWorkers, c.groupWorkers, role) && site in P.KeepAll(c.cfg, c.raw)
    requires O.Mentions(P.OutsOf(c.cfg, role, site), k, key)
    ensures SameSetting(c, won) && Undisturbed(won)
    ensures var id := RowId(KindName(k), key);
            id in WriterOf(won).tables && Some(WriterOf(won).tables[id]) == O.LastRow(P.OutsOf(c.cfg, role, site), k, key)
  {
    var row := O.LastRow(P.OutsOf(c.cfg, role, site), k, key).value;
    var steps := D.AnySiteCanComeLast(c.cfg, c.raw, c.userWorkers, c.groupWorkers, c.signals, c.counts, role, site, k, key, row);
    won := WriterCanFollow(c, steps);
    UpsertTables(won);
    WrittenRow(c.tables, P.Exec(c.cfg, Start(c), steps).down.enqueued, k, key);
  }

  /** Updating an existing database, the final tables are the same for every
      interleaving if and only if the sites' streams agree. */
  lemma InterleavingShowsExactly(c: Crawl)
    requires Updates(c)
    ensures TablesAreFixed(c) <==> StreamsAgree(c)
  {
    if StreamsAgree(c) {
      forall a: Crawl, b: Crawl | SameSetting(c, a) && SameSetting(c, b) && Undisturbed(a) && Undisturbed(b)
        ensures WriterOf(a).tables == WriterOf(b).tables
      {
        DatabaseIsDeterminate(a);
        DatabaseIsDeterminate(b);
      }
    } else {
      var role: P.Role :| D.Contended(c.cfg, c.userWorkers, c.groupWorkers, role)
                          && !D.StreamsAgree(c.cfg, role, P.KeepAll(c.cfg, c.raw));
      DisagreementShows(c, role);
    }
  }

  lemma DisagreementShows(c: Crawl, role: P.Role)
    requires Updates(c) && D.Contended(c.cfg, c.userWorkers, c.groupWorkers, role)
    requires !D.StreamsAgree(c.cfg, role, P.KeepAll(c.cfg, c.raw))
    ensures !TablesAreFixed(c)
  {
    var sites := P.KeepAll(c.cfg, c.raw);
    var a: P.Site, b: P.Site, k: P.Kind, key: string :|
      && a in sites && b in sites
      && !D.SameOrNone(O.LastRow(P.OutsOf(c.cfg, role, a), k, key), O.LastRow(P.OutsOf(c.cfg, role, b), k, key));
    var x := SiteCanWin(c, role, a, k, key);
    var y := SiteCanWin(c, role, b, k, key);
    assert WriterOf(x).tables != WriterOf(y).tables;
  }

  lemma SameItems(xs: seq<P.Out>, ys: seq<P.Out>)
    requires multiset(xs) == multiset(ys)
    ensures forall it :: it in ToItems(xs) <==> it in ToItems(ys)
  {
    assert forall o :: o in xs <==> o in multiset(xs);
    assert forall o :: o in ys <==> o in multiset(ys);
    forall it ensures it in ToItems(xs) <==> it in ToItems(ys) {
      ToItemsMember(xs, it);
      ToItemsMember(ys, it);
    }
  }
}
