/** In which order entities reach storage: a worker's own entities stay in order, and
    so do the sites' own records, whatever the interleaving. */
module PipelineOrder {
  import opened Failures
  import opened PipelineModel
  import opened PipelineStructure
  import opened PipelineTrackers
  import opened PipelineTheorems
  import opened PipelineSchedules

  // ---- The last row under a key ------------------------------------------------

  predicate Hits(o: Out, k: Kind, key: string) {
    o.kind == k && o.entity.key == key
  }

  /** The row of the last entity of the kind under the key. */
  function LastRow(outs: seq<Out>, k: Kind, key: string): Option<string> {
    if outs == [] then None
    else
      var n := |outs| - 1;
      if Hits(outs[n], k, key) then Some(outs[n].entity.row) else LastRow(outs[..n], k, key)
  }

  lemma {:induction false} LastRowAppend(xs: seq<Out>, ys: seq<Out>, k: Kind, key: string)
    ensures LastRow(xs + ys, k, key) == if LastRow(ys, k, key) != None then LastRow(ys, k, key) else LastRow(xs, k, key)
    decreases |ys|
  {
    if ys == [] {
      assert xs + ys == xs;
    } else {
      var n := |ys| - 1;
      assert (xs + ys)[..|xs + ys| - 1] == xs + ys[..n];
      LastRowAppend(xs, ys[..n], k, key);
    }
  }

  lemma LastRowOfOne(o: Out, k: Kind, key: string)
    ensures LastRow([o], k, key) == if Hits(o, k, key) then Some(o.entity.row) else None
  {
    assert [o][..0] == [];
  }

  /** Some entity of the kind has the key. */
  predicate Mentions(outs: seq<Out>, k: Kind, key: string) {
    LastRow(outs, k, key) != None
  }

  lemma {:induction false} MentionsMeansMember(outs: seq<Out>, k: Kind, key: string)
    ensures Mentions(outs, k, key) <==> exists o :: o in outs && Hits(o, k, key)
    decreases |outs|
  {
    if outs != [] {
      var n := |outs| - 1;
      MentionsMeansMember(outs[..n], k, key);
      assert outs == outs[..n] + [outs[n]];
    }
  }

  /** The last entity under the key, if there is one, has this row. */
  predicate Ends(outs: seq<Out>, k: Kind, key: string, row: string) {
    LastRow(outs, k, key) == None || LastRow(outs, k, key) == Some(row)
  }

  lemma LastRowOfHead(outs: seq<Out>, k: Kind, key: string)
    requires outs != []
    ensures LastRow(outs, k, key) ==
            if Mentions(outs[1..], k, key) then LastRow(outs[1..], k, key)
            else if Hits(outs[0], k, key) then Some(outs[0].entity.row) else None
  {
    assert outs == [outs[0]] + outs[1..];
    LastRowAppend([outs[0]], outs[1..], k, key);
    LastRowOfOne(outs[0], k, key);
  }

  // ---- What flows to storage -----------------------------------------------------

  function Held(s: State, k: Kind): seq<Out> {
    var b := s.down.bridges.Get(k);
    if b.BHolding? then [Out(k, b.entity)] else []
  }

  /** The entities of a kind in the order of their way to storage, after all that has
      been enqueued. */
  function Flow(s: State, k: Kind): seq<Out> {
    s.down.enqueued + Held(s, k) + Labelled(k, s.down.out.Get(k).items)
  }

  lemma LabelledPut(k: Kind, es: seq<Entity>, e: Entity)
    ensures Labelled(k, es + [e]) == Labelled(k, es) + [Out(k, e)]
  {
  }

  lemma LabelledHead(k: Kind, es: seq<Entity>)
    requires es != []
    ensures Labelled(k, es) == [Out(k, es[0])] + Labelled(k, es[1..])
  {
  }

  lemma {:induction false} OtherKindMisses(k: Kind, j: Kind, es: seq<Entity>, key: string)
    requires j != k
    ensures LastRow(Labelled(j, es), k, key) == None
    decreases |es|
  {
    if es != [] {
      LabelledHead(j, es);
      LastRowOfHead(Labelled(j, es), k, key);
      assert Labelled(j, es)[1..] == Labelled(j, es[1..]);
      OtherKindMisses(k, j, es[1..], key);
    }
  }

  /** An entity of another kind slipped in does not matter. */
  lemma SlippedIn(xs: seq<Out>, o: Out, ys: seq<Out>, k: Kind, key: string)
    requires !Hits(o, k, key)
    ensures LastRow(xs + [o] + ys, k, key) == LastRow(xs + ys, k, key)
  {
    LastRowAppend(xs + [o], ys, k, key);
    LastRowAppend(xs, [o], k, key);
    LastRowOfOne(o, k, key);
    LastRowAppend(xs, ys, k, key);
  }

  lemma EnqueueKeepsFlow(cfg: Config, s: State, j: Kind, k: Kind, key: string)
    requires SinkEnabled(cfg, s, BridgeEnqueue(j))
    ensures LastRow(Flow(ApplySink(cfg, s, BridgeEnqueue(j)), k), k, key) == LastRow(Flow(s, k), k, key)
  {
    var t, o := ApplySink(cfg, s, BridgeEnqueue(j)), Out(j, s.down.bridges.Get(j).entity);
    if j == k {
      assert Flow(t, k) == Flow(s, k);
    } else {
      var rest := Held(s, k) + Labelled(k, s.down.out.Get(k).items);
      assert Flow(s, k) == s.down.enqueued + rest && Flow(t, k) == s.down.enqueued + [o] + rest;
      SlippedIn(s.down.enqueued, o, rest, k, key);
    }
  }

  /** Bridges and writer keep the flow of every kind. */
  lemma SinkKeepsFlow(cfg: Config, s: State, x: SinkAct, k: Kind, key: string)
    requires SinkEnabled(cfg, s, x)
    ensures LastRow(Flow(ApplySink(cfg, s, x), k), k, key) == LastRow(Flow(s, k), k, key)
  {
    match x
    case BridgeEnqueue(j) => EnqueueKeepsFlow(cfg, s, j, k, key);
    case BridgeTake(j) =>
      if j == k {
        LabelledHead(k, s.down.out.Get(k).items);
      }
      assert Flow(ApplySink(cfg, s, x), k) == Flow(s, k);
    case _ => assert Flow(ApplySink(cfg, s, x), k) == Flow(s, k);
  }

  /** An entity put on its channel is the last of its kind. */
  lemma PutOnFlow(s: State, t: State, o: Out, k: Kind, key: string)
    requires t.down.enqueued == s.down.enqueued && t.down.bridges == s.down.bridges
    requires t.down.out.Get(k).items == if o.kind == k then s.down.out.Get(k).items + [o.entity] else s.down.out.Get(k).items
    ensures LastRow(Flow(t, k), k, key) == if Hits(o, k, key) then Some(o.entity.row) else LastRow(Flow(s, k), k, key)
  {
    if o.kind == k {
      LabelledPut(k, s.down.out.Get(k).items, o.entity);
      assert Flow(t, k) == Flow(s, k) + [o];
      LastRowAppend(Flow(s, k), [o], k, key);
      LastRowOfOne(o, k, key);
    } else {
      assert Flow(t, k) == Flow(s, k);
    }
  }

  // ---- Streams still to come -----------------------------------------------------

  /** What a worker has yet to put on the entity channels. */
  function Due(cfg: Config, w: Worker): seq<Out> {
    match w.pc
    case Waiting(site) => OutsOf(cfg, w.role, site)
    case LookingUp(site) => OutsOf(cfg, w.role, site)
    case Fetching(site) => OutsOf(cfg, w.role, site)
    case Sending(_, pending) => pending
    case _ => []
  }

  predicate SiteEnds(cfg: Config, site: Site, k: Kind, key: string, row: string) {
    forall role: Role :: Enlisted(cfg, role) ==> Ends(OutsOf(cfg, role, site), k, key, row)
  }

  predicate AllEnd(cfg: Config, sites: seq<Site>, k: Kind, key: string, row: string) {
    forall site :: site in sites ==> SiteEnds(cfg, site, k, key, row)
  }

  predicate SourcesEnd(cfg: Config, s: State, k: Kind, key: string, row: string) {
    var d := s.up.dispatcher;
    && AllEnd(cfg, Ahead(cfg, s.up), k, key, row)
    && (d.DSites? || d.DUsers? || d.DGroups? ==> SiteEnds(cfg, d.site, k, key, row))
    && AllEnd(cfg, s.queues.userSites.items, k, key, row)
    && AllEnd(cfg, s.queues.groupSites.items, k, key, row)
  }

  predicate WorkersEnd(cfg: Config, s: State, k: Kind, key: string, row: string) {
    forall i :: 0 <= i < |s.pool.workers| ==> Ends(Due(cfg, s.pool.workers[i]), k, key, row)
  }

  predicate SomeoneMentions(cfg: Config, s: State, k: Kind, key: string) {
    exists i :: 0 <= i < |s.pool.workers| && Mentions(Due(cfg, s.pool.workers[i]), k, key)
  }

  /** Every stream still to come ends with the row; so does what is on its way, or a
      worker has an entity under the key yet to send. */
  predicate EndsInRow(cfg: Config, s: State, k: Kind, key: string, row: string) {
    && SourcesEnd(cfg, s, k, key, row) && WorkersEnd(cfg, s, k, key, row)
    && (Ends(Flow(s, k), k, key, row) || SomeoneMentions(cfg, s, k, key))
  }

  /** A worker's step that leaves flow and its dues alone, or starts on a site. */
  lemma KeptDueEnds(cfg: Config, s: State, t: State, w: nat, k: Kind, key: string, row: string)
    requires EndsInRow(cfg, s, k, key, row) && OnlyWorker(s, t, w) && SourcesEnd(cfg, t, k, key, row)
    requires Flow(t, k) == Flow(s, k)
    requires Due(cfg, s.pool.workers[w]) == [] || Due(cfg, t.pool.workers[w]) == Due(cfg, s.pool.workers[w])
    requires Ends(Due(cfg, t.pool.workers[w]), k, key, row)
    ensures EndsInRow(cfg, t, k, key, row)
  {
    assert forall i :: 0 <= i < |s.pool.workers| && i != w ==> t.pool.workers[i] == s.pool.workers[i];
    if !Ends(Flow(s, k), k, key, row) {
      var i :| 0 <= i < |s.pool.workers| && Mentions(Due(cfg, s.pool.workers[i]), k, key);
      assert Mentions(Due(cfg, t.pool.workers[i]), k, key);
    }
  }

  lemma TakeEnds(cfg: Config, s: State, w: nat, k: Kind, key: string, row: string)
    requires WorkerEnabled(s, w, Take) && Enlisted(cfg, s.pool.workers[w].role) && EndsInRow(cfg, s, k, key, row)
    ensures EndsInRow(cfg, TakeSite(s, w), k, key, row)
  {
    WorkerStepFrame(cfg, s, w, Take);
    var q := QueueOf(s, s.pool.workers[w].role).items;
    assert q[0] in q && forall site :: site in q[1..] ==> site in q;
    assert SiteEnds(cfg, q[0], k, key, row);
    KeptDueEnds(cfg, s, TakeSite(s, w), w, k, key, row);
  }

  /** After an emission the flow ends with the row, or an entity under the key is yet
      to be sent. */
  lemma EmitKeepsPromise(cfg: Config, s: State, w: nat, k: Kind, key: string, row: string)
    requires WorkerEnabled(s, w, Emit) && EndsInRow(cfg, s, k, key, row)
    ensures Ends(Flow(EmitOne(s, w), k), k, key, row) || SomeoneMentions(cfg, EmitOne(s, w), k, key)
  {
    var t, pending := EmitOne(s, w), s.pool.workers[w].pc.pending;
    PutOnFlow(s, t, pending[0], k, key);
    LastRowOfHead(pending, k, key);
    assert Due(cfg, s.pool.workers[w]) == pending && Due(cfg, t.pool.workers[w]) == pending[1..];
    if Mentions(pending[1..], k, key) {
      assert Mentions(Due(cfg, t.pool.workers[w]), k, key);
    } else if !Hits(pending[0], k, key) && !Ends(Flow(s, k), k, key, row) {
      var i :| 0 <= i < |s.pool.workers| && Mentions(Due(cfg, s.pool.workers[i]), k, key);
      assert Mentions(Due(cfg, t.pool.workers[i]), k, key);
    }
  }

  lemma EmitEnds(cfg: Config, s: State, w: nat, k: Kind, key: string, row: string)
    requires WorkerEnabled(s, w, Emit) && EndsInRow(cfg, s, k, key, row)
    ensures EndsInRow(cfg, EmitOne(s, w), k, key, row)
  {
    var pending := s.pool.workers[w].pc.pending;
    WorkerStepFrame(cfg, s, w, Emit);
    EmitKeepsPromise(cfg, s, w, k, key, row);
    LastRowOfHead(pending, k, key);
    assert Ends(Due(cfg, s.pool.workers[w]), k, key, row);
    assert Ends(pending[1..], k, key, row);
  }

  lemma FetchKeepsStream(cfg: Config, s: State, w: nat)
    requires WorkerEnabled(s, w, Fetch)
    ensures Due(cfg, FetchSite(cfg, s, w).pool.workers[w]) == Due(cfg, s.pool.workers[w])
  {
  }

  lemma InnerStepKeepsStream(cfg: Config, s: State, w: nat, act: WorkerAct)
    requires WorkerEnabled(s, w, act) && Tracked(cfg, s) && !act.Take? && !act.Emit?
    ensures Due(cfg, ApplyWorker(cfg, s, w, act).pool.workers[w]) == Due(cfg, s.pool.workers[w])
  {
    if act.LookUp? {
      LookUpSucceeds(cfg, s, w);
    } else if act.Fetch? {
      FetchKeepsStream(cfg, s, w);
    }
  }

  lemma WorkerStepEnds(cfg: Config, s: State, w: nat, act: WorkerAct, k: Kind, key: string, row: string)
    requires WorkerEnabled(s, w, act) && Pools(cfg, s) && Tracked(cfg, s) && EndsInRow(cfg, s, k, key, row)
    ensures EndsInRow(cfg, ApplyWorker(cfg, s, w, act), k, key, row)
  {
    assert WorkerFits(cfg, s, s.pool.workers[w]);
    if act.Take? {
      TakeEnds(cfg, s, w, k, key, row);
    } else if act.Emit? {
      EmitEnds(cfg, s, w, k, key, row);
    } else {
      WorkerStepFrame(cfg, s, w, act);
      InnerStepKeepsStream(cfg, s, w, act);
      KeptDueEnds(cfg, s, ApplyWorker(cfg, s, w, act), w, k, key, row);
    }
  }

  lemma EndStepEnds(cfg: Config, s: State, w: nat, ending: EndAct, k: Kind, key: string, row: string)
    requires EndEnabled(s, w, ending) && EndsInRow(cfg, s, k, key, row)
    ensures EndsInRow(cfg, ApplyEnd(s, w, ending), k, key, row)
  {
    EndFrame(s, w, ending);
    EndPc(s, w, ending);
    EndHasNoStream(cfg, s, w, ending);
    KeptDueEnds(cfg, s, ApplyEnd(s, w, ending), w, k, key, row);
  }

  lemma EndHasNoStream(cfg: Config, s: State, w: nat, ending: EndAct)
    requires EndEnabled(s, w, ending)
    ensures Due(cfg, s.pool.workers[w]) == [] && Due(cfg, ApplyEnd(s, w, ending).pool.workers[w]) == []
  {
  }

  /** Steps that touch no worker. */
  lemma SamePoolEnds(cfg: Config, s: State, t: State, k: Kind, key: string, row: string)
    requires EndsInRow(cfg, s, k, key, row) && t.pool.workers == s.pool.workers
    requires SourcesEnd(cfg, t, k, key, row) && LastRow(Flow(t, k), k, key) == LastRow(Flow(s, k), k, key)
    ensures EndsInRow(cfg, t, k, key, row)
  {
  }

  lemma DispatchEnds(cfg: Config, s: State, d: DispatchAct, k: Kind, key: string, row: string)
    requires DispatchEnabled(s, d) && EndsInRow(cfg, s, k, key, row) && k != Sites
    ensures EndsInRow(cfg, ApplyDispatch(cfg, s, d), k, key, row)
  {
    var t := ApplyDispatch(cfg, s, d);
    DispatchFrame(cfg, s, d);
    assert Flow(t, k) == Flow(s, k);
    DispatchSourcesEnd(cfg, s, d, k, key, row);
    SamePoolEnds(cfg, s, t, k, key, row);
  }

  lemma DispatchSourcesEnd(cfg: Config, s: State, d: DispatchAct, k: Kind, key: string, row: string)
    requires DispatchEnabled(s, d) && SourcesEnd(cfg, s, k, key, row)
    ensures SourcesEnd(cfg, ApplyDispatch(cfg, s, d), k, key, row)
  {
    if d.DispatchTake? {
      assert Ahead(cfg, s.up) == [s.up.filtered.items[0]] + Ahead(cfg, ApplyDispatch(cfg, s, d).up);
      assert s.up.filtered.items[0] in Ahead(cfg, s.up);
    }
  }

  lemma StepEnds(cfg: Config, s: State, e: Event, k: Kind, key: string, row: string)
    requires Enabled(cfg, s, e) && Pools(cfg, s) && Tracked(cfg, s) && EndsInRow(cfg, s, k, key, row) && k != Sites
    ensures EndsInRow(cfg, Apply(cfg, s, e), k, key, row)
  {
    match e
    case Work(w, act) => WorkerStepEnds(cfg, s, w, act, k, key, row);
    case End(w, ending) => EndStepEnds(cfg, s, w, ending, k, key, row);
    case Filter(f) =>
      FilterFrame(cfg, s, f);
      FilterStepKeepsAhead(cfg, s, f);
      SamePoolEnds(cfg, s, Apply(cfg, s, e), k, key, row);
    case Dispatch(d) => DispatchEnds(cfg, s, d, k, key, row);
    case Sink(x) =>
      SinkFrame(cfg, s, x);
      SinkKeepsFlow(cfg, s, x, k, key);
      SamePoolEnds(cfg, s, Apply(cfg, s, e), k, key, row);
    case Monitor(_) => SamePoolEnds(cfg, s, Apply(cfg, s, e), k, key, row);
  }

  /** Once all streams to come end with the same row, so does what has been enqueued
      when the pipeline has finished. */
  lemma {:induction false} RunEnds(cfg: Config, s: State, es: seq<Event>, raw: seq<Site>, k: Kind, key: string, row: string)
    requires Good(cfg, s, raw) && Runs(cfg, s, es) && k != Sites && EndsInRow(cfg, s, k, key, row)
    ensures EndsInRow(cfg, Exec(cfg, s, es), k, key, row)
    ensures Final(Exec(cfg, s, es)) ==> Ends(Exec(cfg, s, es).down.enqueued, k, key, row)
    decreases |es|
  {
    if es != [] {
      StepEnds(cfg, s, es[0], k, key, row);
      StepKeepsGood(cfg, s, es[0], raw);
      RunEnds(cfg, Apply(cfg, s, es[0]), es[1..], raw, k, key, row);
    } else if Final(s) {
      FinalFlow(cfg, s, k);
      assert !SomeoneMentions(cfg, s, k, key);
    }
  }

  lemma FinalFlow(cfg: Config, s: State, k: Kind)
    requires Shape(cfg, s) && Final(s)
    ensures Flow(s, k) == s.down.enqueued
    ensures forall i :: 0 <= i < |s.pool.workers| ==> Due(cfg, s.pool.workers[i]) == []
  {
    PipelineProgress.FinalIsEmpty(cfg, s);
    assert s.down.out.Get(k).items == [] && s.down.bridges.Get(k).BDone?;
    assert Labelled(k, []) == [];
  }

  // ---- The sites' own records ------------------------------------------------------

  function Records(cfg: Config, sites: seq<Site>): seq<Out> {
    seq(|sites|, i requires 0 <= i < |sites| => Out(Sites, cfg.entityOf(sites[i])))
  }

  /** The sites' records from storage back to the kept sites still to come. */
  function RecordFlow(cfg: Config, s: State): seq<Out> {
    Flow(s, Sites) + (if s.up.dispatcher.DSites? then Records(cfg, [s.up.dispatcher.site]) else []) + Records(cfg, Ahead(cfg, s.up))
  }

  lemma DispatchKeepsRecords(cfg: Config, s: State, d: DispatchAct)
    requires DispatchEnabled(s, d)
    ensures RecordFlow(cfg, ApplyDispatch(cfg, s, d)) == RecordFlow(cfg, s)
  {
    var t := ApplyDispatch(cfg, s, d);
    if d.DispatchTake? {
      assert Ahead(cfg, s.up) == [s.up.filtered.items[0]] + Ahead(cfg, t.up);
      assert Records(cfg, Ahead(cfg, s.up)) == Records(cfg, [s.up.filtered.items[0]]) + Records(cfg, Ahead(cfg, t.up));
    } else if d.DispatchSite? {
      LabelledPut(Sites, s.down.out.sites.items, cfg.entityOf(s.up.dispatcher.site));
      assert Flow(t, Sites) == Flow(s, Sites) + Records(cfg, [s.up.dispatcher.site]);
    } else {
      assert Flow(t, Sites) == Flow(s, Sites);
    }
  }

  lemma StepKeepsRecords(cfg: Config, s: State, e: Event, key: string)
    requires Enabled(cfg, s, e) && Shape(cfg, s)
    ensures LastRow(RecordFlow(cfg, Apply(cfg, s, e)), Sites, key) == LastRow(RecordFlow(cfg, s), Sites, key)
  {
    var t := Apply(cfg, s, e);
    match e
    case Work(w, act) =>
      WorkerStepFrame(cfg, s, w, act);
      assert WorkerFits(cfg, s, s.pool.workers[w]);
      if act.Emit? {
        assert KindFits(cfg, s.pool.workers[w].role, s.pool.workers[w].pc.pending[0].kind);
      }
      assert Flow(t, Sites) == Flow(s, Sites);
    case End(w, ending) =>
      EndFrame(s, w, ending);
      assert Flow(t, Sites) == Flow(s, Sites);
    case Filter(f) =>
      FilterFrame(cfg, s, f);
      FilterStepKeepsAhead(cfg, s, f);
      assert Flow(t, Sites) == Flow(s, Sites);
    case Dispatch(d) => DispatchKeepsRecords(cfg, s, d);
    case Sink(x) =>
      SinkFrame(cfg, s, x);
      SinkKeepsFlow(cfg, s, x, Sites, key);
      RecordTail(cfg, s, t, key);
    case Monitor(_) =>
  }

  lemma RecordTail(cfg: Config, s: State, t: State, key: string)
    requires t.up == s.up && LastRow(Flow(t, Sites), Sites, key) == LastRow(Flow(s, Sites), Sites, key)
    ensures LastRow(RecordFlow(cfg, t), Sites, key) == LastRow(RecordFlow(cfg, s), Sites, key)
  {
    var tail := (if s.up.dispatcher.DSites? then Records(cfg, [s.up.dispatcher.site]) else []) + Records(cfg, Ahead(cfg, s.up));
    assert RecordFlow(cfg, s) == Flow(s, Sites) + tail && RecordFlow(cfg, t) == Flow(t, Sites) + tail;
    LastRowAppend(Flow(s, Sites), tail, Sites, key);
    LastRowAppend(Flow(t, Sites), tail, Sites, key);
  }

  /** The sites' records are enqueued in the order of the input. */
  lemma {:induction false} RunKeepsRecords(cfg: Config, s: State, es: seq<Event>, key: string)
    requires Shape(cfg, s) && Runs(cfg, s, es)
    ensures LastRow(RecordFlow(cfg, Exec(cfg, s, es)), Sites, key) == LastRow(RecordFlow(cfg, s), Sites, key)
    decreases |es|
  {
    if es != [] {
      StepKeepsRecords(cfg, s, es[0], key);
      StepKeepsShape(cfg, s, es[0]);
      RunKeepsRecords(cfg, Apply(cfg, s, es[0]), es[1..], key);
    }
  }

  // ---- A role with one worker --------------------------------------------------------

  function RoleOf(k: Kind): Role {
    if k == Users || k == Sites then UserRole else GroupRole
  }

  function Streams(cfg: Config, role: Role, sites: seq<Site>): seq<Out> {
    if sites == [] then [] else OutsOf(cfg, role, sites[0]) + Streams(cfg, role, sites[1..])
  }

  lemma {:induction false} StreamsSnoc(cfg: Config, role: Role, sites: seq<Site>, site: Site)
    ensures Streams(cfg, role, sites + [site]) == Streams(cfg, role, sites) + OutsOf(cfg, role, site)
  {
    if sites == [] {
      assert sites + [site] == [site] && [site][1..] == [];
    } else {
      assert (sites + [site])[1..] == sites[1..] + [site];
      StreamsSnoc(cfg, role, sites[1..], site);
    }
  }

  function DispatcherStream(cfg: Config, d: DispatchPc, role: Role): seq<Out> {
    match d
    case DSites(site) => OutsOf(cfg, role, site)
    case DUsers(site) => OutsOf(cfg, role, site)
    case DGroups(site) => if role.GroupRole? then OutsOf(cfg, role, site) else []
    case _ => []
  }

  predicate IsSole(ws: seq<Worker>, role: Role, i: nat) {
    i < |ws| && ws[i].role == role && forall j :: 0 <= j < |ws| && j != i ==> ws[j].role != role
  }

  /** What a role has queued, and what is on its way to the queue. */
  function BacklogOf(cfg: Config, role: Role, queued: seq<Site>, d: DispatchPc, ahead: seq<Site>): seq<Out> {
    Streams(cfg, role, queued) + (DispatcherStream(cfg, d, role) + Streams(cfg, role, ahead))
  }

  function Backlog(cfg: Config, s: State, role: Role): seq<Out> {
    BacklogOf(cfg, role, QueueOf(s, role).items, s.up.dispatcher, Ahead(cfg, s.up))
  }

  /** All of a role's entities in order, if worker `i` is the only one of the role. */
  function RoleFlow(cfg: Config, s: State, k: Kind, i: nat): seq<Out>
    requires i < |s.pool.workers|
  {
    Flow(s, k) + (Due(cfg, s.pool.workers[i]) + Backlog(cfg, s, RoleOf(k)))
  }

  lemma BacklogHead(cfg: Config, role: Role, queued: seq<Site>, d: DispatchPc, ahead: seq<Site>)
    requires queued != []
    ensures BacklogOf(cfg, role, queued, d, ahead) == OutsOf(cfg, role, queued[0]) + BacklogOf(cfg, role, queued[1..], d, ahead)
  {
  }

  lemma TakeKeepsBacklog(cfg: Config, s: State, w: nat)
    requires WorkerEnabled(s, w, Take)
    ensures var role, t := s.pool.workers[w].role, TakeSite(s, w);
            && Due(cfg, s.pool.workers[w]) == []
            && Backlog(cfg, s, role) == Due(cfg, t.pool.workers[w]) + Backlog(cfg, t, role)
  {
    var role := s.pool.workers[w].role;
    BacklogHead(cfg, role, QueueOf(s, role).items, s.up.dispatcher, Ahead(cfg, s.up));
  }

  /** The head of a worker's dues passes to the flow. */
  lemma HeadPasses(flow: seq<Out>, flow': seq<Out>, o: Out, due: seq<Out>, backlog: seq<Out>, k: Kind, key: string)
    requires flow' == if o.kind == k then flow + [o] else flow
    ensures LastRow(flow' + (due + backlog), k, key) == LastRow(flow + (([o] + due) + backlog), k, key)
  {
    assert flow + (([o] + due) + backlog) == flow + [o] + (due + backlog);
    if o.kind != k {
      SlippedIn(flow, o, due + backlog, k, key);
    }
  }

  lemma DispatchTakeKeepsBacklog(cfg: Config, s: State, role: Role)
    requires DispatchEnabled(s, DispatchTake)
    ensures Backlog(cfg, DispatchNext(cfg, s), role) == Backlog(cfg, s, role)
  {
    var t := DispatchNext(cfg, s);
    assert Ahead(cfg, s.up)[0] == s.up.filtered.items[0] && Ahead(cfg, s.up)[1..] == Ahead(cfg, t.up);
  }

  lemma BacklogSend(cfg: Config, role: Role, queued: seq<Site>, site: Site, d: DispatchPc, d': DispatchPc, ahead: seq<Site>)
    requires DispatcherStream(cfg, d, role) == OutsOf(cfg, role, site) && DispatcherStream(cfg, d', role) == []
    ensures BacklogOf(cfg, role, queued + [site], d', ahead) == BacklogOf(cfg, role, queued, d, ahead)
  {
    StreamsSnoc(cfg, role, queued, site);
  }

  lemma DispatchSendKeepsBacklog(cfg: Config, s: State, d: DispatchAct, role: Role)
    requires DispatchEnabled(s, d) && Enlisted(cfg, role) && (d.DispatchUser? || d.DispatchGroup?)
    ensures Backlog(cfg, ApplyDispatch(cfg, s, d), role) == Backlog(cfg, s, role)
  {
    var t := ApplyDispatch(cfg, s, d);
    assert Ahead(cfg, t.up) == Ahead(cfg, s.up);
    if d.DispatchUser? == role.UserRole? {
      BacklogSend(cfg, role, QueueOf(s, role).items, s.up.dispatcher.site, s.up.dispatcher, t.up.dispatcher, Ahead(cfg, s.up));
    } else {
      assert QueueOf(t, role) == QueueOf(s, role);
    }
  }

  lemma DispatchKeepsBacklog(cfg: Config, s: State, d: DispatchAct, role: Role)
    requires DispatchEnabled(s, d) && Enlisted(cfg, role)
    ensures Backlog(cfg, ApplyDispatch(cfg, s, d), role) == Backlog(cfg, s, role)
  {
    match d
    case DispatchTake => DispatchTakeKeepsBacklog(cfg, s, role);
    case DispatchUser => DispatchSendKeepsBacklog(cfg, s, d, role);
    case DispatchGroup => DispatchSendKeepsBacklog(cfg, s, d, role);
    case _ => DispatchFrame(cfg, s, d);
  }

  lemma EmitPutsOnFlow(cfg: Config, s: State, w: nat, k: Kind)
    requires WorkerEnabled(s, w, Emit)
    ensures var o := s.pool.workers[w].pc.pending[0];
            Flow(EmitOne(s, w), k) == if o.kind == k then Flow(s, k) + [o] else Flow(s, k)
  {
    var o := s.pool.workers[w].pc.pending[0];
    if o.kind == k {
      LabelledPut(k, s.down.out.Get(k).items, o.entity);
    }
  }

  lemma EmitShortensDue(cfg: Config, s: State, w: nat, role: Role)
    requires WorkerEnabled(s, w, Emit)
    ensures var t, pending := EmitOne(s, w), s.pool.workers[w].pc.pending;
            && w < |t.pool.workers|
            && Due(cfg, t.pool.workers[w]) == pending[1..]
            && Due(cfg, s.pool.workers[w]) == [pending[0]] + pending[1..]
            && Backlog(cfg, t, role) == Backlog(cfg, s, role)
  {
    var pending := s.pool.workers[w].pc.pending;
    assert pending == [pending[0]] + pending[1..];
  }

  lemma SoleEmitKeepsRoleFlow(cfg: Config, s: State, w: nat, k: Kind, key: string)
    requires WorkerEnabled(s, w, Emit) && w < |EmitOne(s, w).pool.workers|
    ensures LastRow(RoleFlow(cfg, EmitOne(s, w), k, w), k, key) == LastRow(RoleFlow(cfg, s, k, w), k, key)
  {
    var pending := s.pool.workers[w].pc.pending;
    EmitPutsOnFlow(cfg, s, w, k);
    EmitShortensDue(cfg, s, w, RoleOf(k));
    HeadPasses(Flow(s, k), Flow(EmitOne(s, w), k), pending[0], pending[1..], Backlog(cfg, s, RoleOf(k)), k, key);
  }

  lemma SoleTakeKeepsRoleFlow(cfg: Config, s: State, w: nat, k: Kind)
    requires WorkerEnabled(s, w, Take) && s.pool.workers[w].role == RoleOf(k)
    ensures RoleFlow(cfg, TakeSite(s, w), k, w) == RoleFlow(cfg, s, k, w)
  {
    TakeKeepsBacklog(cfg, s, w);
    assert Flow(TakeSite(s, w), k) == Flow(s, k);
    assert [] + Backlog(cfg, s, RoleOf(k)) == Backlog(cfg, s, RoleOf(k));
  }

  lemma SoleStepKeepsRoleFlow(cfg: Config, s: State, w: nat, act: WorkerAct, k: Kind, key: string)
    requires WorkerEnabled(s, w, act) && Tracked(cfg, s) && s.pool.workers[w].role == RoleOf(k)
    ensures w < |ApplyWorker(cfg, s, w, act).pool.workers|
    ensures LastRow(RoleFlow(cfg, ApplyWorker(cfg, s, w, act), k, w), k, key) == LastRow(RoleFlow(cfg, s, k, w), k, key)
  {
    WorkerStepFrame(cfg, s, w, act);
    if act.Emit? {
      SoleEmitKeepsRoleFlow(cfg, s, w, k, key);
    } else if act.Take? {
      SoleTakeKeepsRoleFlow(cfg, s, w, k);
    } else {
      InnerStepKeepsStream(cfg, s, w, act);
      assert Flow(ApplyWorker(cfg, s, w, act), k) == Flow(s, k);
    }
  }

  /** Workers of the other role have nothing to do with the kind. */
  lemma OtherRoleKeepsRoleFlow(cfg: Config, s: State, w: nat, act: WorkerAct, k: Kind, i: nat)
    requires WorkerEnabled(s, w, act) && Pools(cfg, s) && i < |s.pool.workers| && i != w
    requires s.pool.workers[w].role != RoleOf(k) && k != Sites
    ensures i < |ApplyWorker(cfg, s, w, act).pool.workers|
    ensures RoleFlow(cfg, ApplyWorker(cfg, s, w, act), k, i) == RoleFlow(cfg, s, k, i)
  {
    var t := ApplyWorker(cfg, s, w, act);
    WorkerStepFrame(cfg, s, w, act);
    assert WorkerFits(cfg, s, s.pool.workers[w]);
    if act.Emit? {
      assert KindFits(cfg, s.pool.workers[w].role, s.pool.workers[w].pc.pending[0].kind);
    }
    assert Flow(t, k) == Flow(s, k);
    assert QueueOf(t, RoleOf(k)) == QueueOf(s, RoleOf(k));
  }

  lemma EndKeepsRoleFlow(cfg: Config, s: State, w: nat, ending: EndAct, k: Kind, i: nat)
    requires EndEnabled(s, w, ending) && i < |s.pool.workers|
    ensures i < |ApplyEnd(s, w, ending).pool.workers|
    ensures RoleFlow(cfg, ApplyEnd(s, w, ending), k, i) == RoleFlow(cfg, s, k, i)
  {
    EndFrame(s, w, ending);
    EndHasNoStream(cfg, s, w, ending);
  }

  lemma SinkKeepsRoleFlow(cfg: Config, s: State, x: SinkAct, k: Kind, key: string, i: nat)
    requires SinkEnabled(cfg, s, x) && i < |s.pool.workers|
    ensures i < |ApplySink(cfg, s, x).pool.workers|
    ensures LastRow(RoleFlow(cfg, ApplySink(cfg, s, x), k, i), k, key) == LastRow(RoleFlow(cfg, s, k, i), k, key)
  {
    var t := ApplySink(cfg, s, x);
    SinkFrame(cfg, s, x);
    SinkKeepsFlow(cfg, s, x, k, key);
    var tail := Due(cfg, s.pool.workers[i]) + Backlog(cfg, s, RoleOf(k));
    LastRowAppend(Flow(s, k), tail, k, key);
    LastRowAppend(Flow(t, k), tail, k, key);
  }

  lemma WorkerKeepsRoleFlow(cfg: Config, s: State, w: nat, act: WorkerAct, k: Kind, key: string, i: nat)
    requires WorkerEnabled(s, w, act) && Pools(cfg, s) && Tracked(cfg, s) && k != Sites
    requires IsSole(s.pool.workers, RoleOf(k), i)
    ensures i < |ApplyWorker(cfg, s, w, act).pool.workers|
    ensures LastRow(RoleFlow(cfg, ApplyWorker(cfg, s, w, act), k, i), k, key) == LastRow(RoleFlow(cfg, s, k, i), k, key)
  {
    if w == i {
      SoleStepKeepsRoleFlow(cfg, s, w, act, k, key);
    } else {
      OtherRoleKeepsRoleFlow(cfg, s, w, act, k, i);
    }
  }

  lemma DispatchKeepsRoleFlow(cfg: Config, s: State, d: DispatchAct, k: Kind, i: nat)
    requires DispatchEnabled(s, d) && i < |s.pool.workers| && k != Sites && Enlisted(cfg, RoleOf(k))
    ensures i < |ApplyDispatch(cfg, s, d).pool.workers|
    ensures RoleFlow(cfg, ApplyDispatch(cfg, s, d), k, i) == RoleFlow(cfg, s, k, i)
  {
    DispatchFrame(cfg, s, d);
    DispatchKeepsBacklog(cfg, s, d, RoleOf(k));
    assert Flow(ApplyDispatch(cfg, s, d), k) == Flow(s, k);
  }

  lemma FilterKeepsRoleFlow(cfg: Config, s: State, f: FilterAct, k: Kind, i: nat)
    requires FilterEnabled(s, f) && i < |s.pool.workers|
    ensures i < |ApplyFilter(cfg, s, f).pool.workers|
    ensures RoleFlow(cfg, ApplyFilter(cfg, s, f), k, i) == RoleFlow(cfg, s, k, i)
  {
    FilterFrame(cfg, s, f);
    FilterStepKeepsAhead(cfg, s, f);
    assert Flow(ApplyFilter(cfg, s, f), k) == Flow(s, k);
  }

  lemma StepKeepsRoleFlow(cfg: Config, s: State, e: Event, k: Kind, key: string, i: nat)
    requires Enabled(cfg, s, e) && Pools(cfg, s) && Tracked(cfg, s) && k != Sites && Enlisted(cfg, RoleOf(k))
    requires IsSole(s.pool.workers, RoleOf(k), i)
    ensures i < |Apply(cfg, s, e).pool.workers|
    ensures LastRow(RoleFlow(cfg, Apply(cfg, s, e), k, i), k, key) == LastRow(RoleFlow(cfg, s, k, i), k, key)
  {
    match e
    case Work(w, act) => WorkerKeepsRoleFlow(cfg, s, w, act, k, key, i);
    case End(w, ending) => EndKeepsRoleFlow(cfg, s, w, ending, k, i);
    case Filter(f) => FilterKeepsRoleFlow(cfg, s, f, k, i);
    case Dispatch(d) => DispatchKeepsRoleFlow(cfg, s, d, k, i);
    case Sink(x) => SinkKeepsRoleFlow(cfg, s, x, k, key, i);
    case Monitor(_) => assert Flow(Apply(cfg, s, e), k) == Flow(s, k);
  }

  lemma StepKeepsSole(cfg: Config, s: State, e: Event, role: Role, i: nat)
    requires Enabled(cfg, s, e) && IsSole(s.pool.workers, role, i)
    ensures IsSole(Apply(cfg, s, e).pool.workers, role, i)
  {
    if IsPipelineStep(e) {
      StepKeepsRoles(cfg, s, e);
    }
  }

  /** A role's sole worker puts its sites' entities on their way in the order of the
      input. */
  lemma {:induction false} RunKeepsRoleFlow(cfg: Config, s: State, es: seq<Event>, raw: seq<Site>, k: Kind, key: string, i: nat)
    requires Good(cfg, s, raw) && Runs(cfg, s, es) && k != Sites && Enlisted(cfg, RoleOf(k))
    requires IsSole(s.pool.workers, RoleOf(k), i)
    ensures i < |Exec(cfg, s, es).pool.workers|
    ensures LastRow(RoleFlow(cfg, Exec(cfg, s, es), k, i), k, key) == LastRow(RoleFlow(cfg, s, k, i), k, key)
    decreases |es|
  {
    if es != [] {
      StepKeepsRoleFlow(cfg, s, es[0], k, key, i);
      StepKeepsSole(cfg, s, es[0], RoleOf(k), i);
      StepKeepsGood(cfg, s, es[0], raw);
      RunKeepsRoleFlow(cfg, Apply(cfg, s, es[0]), es[1..], raw, k, key, i);
    }
  }
}
