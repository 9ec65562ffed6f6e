/** The division of a stream into batches does not show in the database: when the
    database itself refuses nothing, every schedule of the writer's loop leaves the
    same tables. */
module ScheduleIndependence {
  import opened StorageModel
  import opened WriterModel
  import opened WriterRefinement

  /** Neither begin, nor operation, nor commit was refused. */
  predicate FaultFree(history: seq<Batch>) {
    forall i :: 0 <= i < |history| ==> history[i].faults == NO_FAULTS
  }

  predicate AllRegistered(items: seq<Item>, kinds: set<string>) {
    forall i :: 0 <= i < |items| ==> items[i].kind in kinds
  }

  predicate AllOk(history: seq<Batch>) {
    forall i :: 0 <= i < |history| ==> history[i].ok
  }

  /** A complete fault-free run: all input consumed, the loop exited. */
  ghost predicate CompleteRun(cfg: Config, t0: Tables, es: seq<Event>) {
    && cfg.maxBatch >= 1
    && Runs(Initial(cfg, t0), es)
    && var w := Exec(Initial(cfg, t0), es);
    && w.phase.Exited? && FaultFree(w.history) && AllRegistered(w.sent, cfg.kinds)
  }

  lemma {:induction false} AllOkWritesAll(t0: Tables, history: seq<Batch>)
    requires AllOk(history)
    ensures Replay(t0, history) == WriteAll(t0, Flat(history))
    ensures Ended(history, false) == []
    decreases |history|
  {
    if history != [] {
      var n := |history| - 1;
      AllOkWritesAll(t0, history[..n]);
      WriteAllAppend(t0, Flat(history[..n]), history[n].items);
    }
  }

  lemma {:induction false} NoFailuresMeansAllOk(history: seq<Batch>)
    requires Ended(history, false) == []
    requires forall i :: 0 <= i < |history| ==> |history[i].items| >= 1
    ensures AllOk(history)
    decreases |history|
  {
    if history != [] {
      NoFailuresMeansAllOk(history[..|history| - 1]);
    }
  }

  /** Where batch `i` sits in the stream. */
  lemma {:induction false} BatchInStream(history: seq<Batch>, i: nat)
    requires i < |history|
    ensures var from := |Flat(history[..i])|;
            && from + |history[i].items| <= |Flat(history)|
            && Flat(history)[..from] == Flat(history[..i])
            && Flat(history)[from..from + |history[i].items|] == history[i].items
    decreases |history|
  {
    var n := |history| - 1;
    var init := history[..n];
    assert Flat(history) == Flat(init) + history[n].items;
    if i < n {
      BatchInStream(init, i);
      assert init[..i] == history[..i];
      var from, to := |Flat(init[..i])|, |Flat(init[..i])| + |history[i].items|;
      assert Flat(history)[..from] == Flat(init)[..from];
      assert Flat(history)[from..to] == Flat(init)[from..to];
    }
  }

  // ---- Complete runs -------------------------------------------------------

  /** What a complete fault-free run ends with. */
  ghost predicate Completed(w: Writer, t0: Tables) {
    && Inv(w, t0) && FaultFree(w.history) && Flat(w.history) == w.sent && AllRegistered(w.sent, w.cfg.kinds)
    && w.failure == |Ended(w.history, false)| && w.success + w.failure == |w.sent|
  }

  lemma RunCompletes(cfg: Config, t0: Tables, es: seq<Event>)
    requires CompleteRun(cfg, t0, es)
    ensures Completed(Exec(Initial(cfg, t0), es), t0) && Exec(Initial(cfg, t0), es).cfg == cfg
  {
    InitialInv(cfg, t0);
    RunKeepsInv(Initial(cfg, t0), t0, es);
    FirstInFirstOut(cfg, t0, es);
    AccountingMatchesHistory(cfg, t0, es);
  }

  lemma AllOkIsComplete(w: Writer, t0: Tables)
    requires Completed(w, t0) && AllOk(w.history)
    ensures w.tables == WriteAll(t0, w.sent) && w.failure == 0 && w.success == |w.sent|
  {
    AllOkWritesAll(t0, w.history);
  }

  // ---- Upsert mode ---------------------------------------------------------

  /** In upsert mode nothing fails and the final tables are the last-write-wins
      fold of the stream, for every division into batches. */
  lemma UpsertsFoldTheStream(cfg: Config, t0: Tables, es: seq<Event>)
    requires CompleteRun(cfg, t0, es) && cfg.mode.Upsert?
    ensures var w := Exec(Initial(cfg, t0), es);
            w.tables == WriteAll(t0, w.sent) && w.failure == 0 && w.success == |w.sent|
  {
    RunCompletes(cfg, t0, es);
    var w := Exec(Initial(cfg, t0), es);
    forall i | 0 <= i < |w.history| ensures w.history[i].ok {
      UpsertBatchSucceeds(w, t0, i);
    }
    AllOkIsComplete(w, t0);
  }

  lemma UpsertBatchSucceeds(w: Writer, t0: Tables, i: nat)
    requires Inv(w, t0) && i < |w.history| && w.cfg.mode.Upsert?
    requires FaultFree(w.history) && Flat(w.history) == w.sent && AllRegistered(w.sent, w.cfg.kinds)
    ensures w.history[i].ok
  {
    var b := w.history[i];
    var before := Replay(t0, w.history[..i]);
    assert BatchIsTransaction(w.cfg, t0, w.history, i);
    FlushIsTransaction(before, b.items, w.cfg.kinds, w.cfg.mode, b.faults);
    BatchInStream(w.history, i);
    forall j | 0 <= j < |b.items| ensures !FailsAt(before, b.items, j, w.cfg.kinds, w.cfg.mode, b.faults) {
      assert b.items[j] == w.sent[|Flat(w.history[..i])| + j];
    }
  }

  // ---- Insert mode ---------------------------------------------------------

  lemma NoFailureNeedsFreshKeys(w: Writer, t0: Tables)
    requires Completed(w, t0) && w.cfg.mode.Insert? && w.failure == 0
    ensures DistinctIds(w.sent) && FreshIds(t0, w.sent) && AllOk(w.history)
  {
    NoFailuresMeansAllOk(w.history);
    SuccessNeedsFreshKeys(w, t0, |w.history|);
    assert w.history[..|w.history|] == w.history;
  }

  /** In insert mode a complete fault-free run has no failure exactly when the
      stream's keys are pairwise distinct and new; then the final tables hold the
      whole stream, for every division into batches. */
  lemma InsertsNeedDistinctFreshKeys(cfg: Config, t0: Tables, es: seq<Event>)
    requires CompleteRun(cfg, t0, es) && cfg.mode.Insert?
    ensures var w := Exec(Initial(cfg, t0), es);
            && (w.failure == 0 <==> DistinctIds(w.sent) && FreshIds(t0, w.sent))
            && (w.failure == 0 ==> w.tables == WriteAll(t0, w.sent) && w.success == |w.sent|)
  {
    RunCompletes(cfg, t0, es);
    var w := Exec(Initial(cfg, t0), es);
    if DistinctIds(w.sent) && FreshIds(t0, w.sent) {
      FreshKeysSucceed(w, t0, |w.history|);
      AllOkIsComplete(w, t0);
    }
    if w.failure == 0 {
      NoFailureNeedsFreshKeys(w, t0);
      AllOkIsComplete(w, t0);
    }
  }

  lemma {:induction false} FreshKeysSucceed(w: Writer, t0: Tables, n: nat)
    requires Inv(w, t0) && n <= |w.history| && w.cfg.mode.Insert?
    requires FaultFree(w.history) && Flat(w.history) == w.sent && AllRegistered(w.sent, w.cfg.kinds)
    requires DistinctIds(w.sent) && FreshIds(t0, w.sent)
    ensures forall i :: 0 <= i < n ==> w.history[i].ok
  {
    if n > 0 {
      FreshKeysSucceed(w, t0, n - 1);
      FreshBatchSucceeds(w, t0, n - 1);
    }
  }

  lemma FreshBatchSucceeds(w: Writer, t0: Tables, i: nat)
    requires Inv(w, t0) && i < |w.history| && w.cfg.mode.Insert? && AllOk(w.history[..i])
    requires FaultFree(w.history) && Flat(w.history) == w.sent && AllRegistered(w.sent, w.cfg.kinds)
    requires DistinctIds(w.sent) && FreshIds(t0, w.sent)
    ensures w.history[i].ok
  {
    var b := w.history[i];
    var before := Replay(t0, w.history[..i]);
    assert BatchIsTransaction(w.cfg, t0, w.history, i);
    FlushIsTransaction(before, b.items, w.cfg.kinds, w.cfg.mode, b.faults);
    forall j | 0 <= j < |b.items| ensures !FailsAt(before, b.items, j, w.cfg.kinds, w.cfg.mode, b.faults) {
      FreshItemSucceeds(w, t0, i, j);
    }
  }

  /** The item at a place in a batch, and all that came before it in the stream. */
  lemma PlaceInStream(history: seq<Batch>, i: nat, j: nat)
    requires i < |history| && j < |history[i].items|
    ensures var from, sent := |Flat(history[..i])|, Flat(history);
            && from + j < |sent| && history[i].items[j] == sent[from + j]
            && sent[..from + j] == Flat(history[..i]) + history[i].items[..j]
  {
    var b, from, sent := history[i], |Flat(history[..i])|, Flat(history);
    BatchInStream(history, i);
    assert b.items == sent[from..from + |b.items|];
    assert sent[..from + j] == sent[..from] + sent[from..from + j];
    assert b.items[..j] == sent[from..from + j];
  }

  lemma KeyIsNew(t0: Tables, sent: seq<Item>, n: nat)
    requires n < |sent| && DistinctIds(sent) && FreshIds(t0, sent)
    ensures IdOf(sent[n]) !in WriteAll(t0, sent[..n])
  {
    LastWriteWins(t0, sent[..n], IdOf(sent[n]));
  }

  lemma FreshItemSucceeds(w: Writer, t0: Tables, i: nat, j: nat)
    requires i < |w.history| && j < |w.history[i].items| && AllOk(w.history[..i])
    requires FaultFree(w.history) && Flat(w.history) == w.sent && AllRegistered(w.sent, w.cfg.kinds)
    requires DistinctIds(w.sent) && FreshIds(t0, w.sent)
    ensures !FailsAt(Replay(t0, w.history[..i]), w.history[i].items, j, w.cfg.kinds, w.cfg.mode, w.history[i].faults)
  {
    var b, prefix := w.history[i], w.history[..i];
    PlaceInStream(w.history, i, j);
    AllOkWritesAll(t0, prefix);
    WriteAllAppend(t0, Flat(prefix), b.items[..j]);
    KeyIsNew(t0, w.sent, |Flat(prefix)| + j);
  }

  lemma {:induction false} SuccessNeedsFreshKeys(w: Writer, t0: Tables, n: nat)
    requires Inv(w, t0) && n <= |w.history| && w.cfg.mode.Insert? && AllOk(w.history)
    ensures DistinctIds(Flat(w.history[..n])) && FreshIds(t0, Flat(w.history[..n]))
  {
    if n > 0 {
      SuccessNeedsFreshKeys(w, t0, n - 1);
      var i := n - 1;
      var b := w.history[i];
      var prefix := w.history[..i];
      assert w.history[..n][..n - 1] == prefix;
      AllOkWritesAll(t0, prefix);
      var before := Replay(t0, prefix);
      assert BatchIsTransaction(w.cfg, t0, w.history, i);
      FlushIsTransaction(before, b.items, w.cfg.kinds, w.cfg.mode, b.faults);
      forall j, k | 0 <= j < |b.items| && 0 <= k < |Flat(prefix)| + j
        ensures IdOf((Flat(prefix) + b.items)[k]) != IdOf(b.items[j])
        ensures IdOf(b.items[j]) !in t0
      {
        InsertedKeyIsNew(t0, Flat(prefix), b, j, w.cfg);
        var earlier := Flat(prefix) + b.items[..j];
        assert earlier[k] == (Flat(prefix) + b.items)[k];
      }
      forall j | 0 <= j < |b.items| ensures IdOf(b.items[j]) !in t0 {
        InsertedKeyIsNew(t0, Flat(prefix), b, j, w.cfg);
      }
    }
  }

  lemma InsertedKeyIsNew(t0: Tables, earlier: seq<Item>, b: Batch, j: nat, cfg: Config)
    requires j < |b.items| && cfg.mode.Insert?
    requires !FailsAt(WriteAll(t0, earlier), b.items, j, cfg.kinds, cfg.mode, b.faults)
    ensures IdOf(b.items[j]) !in t0
    ensures forall k :: 0 <= k < |earlier| + j ==> IdOf((earlier + b.items[..j])[k]) != IdOf(b.items[j])
  {
    WriteAllAppend(t0, earlier, b.items[..j]);
    LastWriteWins(t0, earlier + b.items[..j], IdOf(b.items[j]));
  }

  /** Two complete fault-free runs over the same stream leave the same tables, in
      upsert mode always and in insert mode when the keys are distinct and new,
      whatever the batch sizes, ticks, flush requests and arrival times. */
  lemma SchedulesAgree(cfg: Config, cfg': Config, t0: Tables, es: seq<Event>, es': seq<Event>)
    requires CompleteRun(cfg, t0, es) && CompleteRun(cfg', t0, es') && cfg.mode == cfg'.mode
    requires Exec(Initial(cfg, t0), es).sent == Exec(Initial(cfg', t0), es').sent
    requires var sent := Exec(Initial(cfg, t0), es).sent;
             cfg.mode.Upsert? || (DistinctIds(sent) && FreshIds(t0, sent))
    ensures Exec(Initial(cfg, t0), es).tables == Exec(Initial(cfg', t0), es').tables
  {
    if cfg.mode.Upsert? {
      UpsertsFoldTheStream(cfg, t0, es);
      UpsertsFoldTheStream(cfg', t0, es');
    } else {
      InsertsNeedDistinctFreshKeys(cfg, t0, es);
      InsertsNeedDistinctFreshKeys(cfg', t0, es');
    }
  }

  /** The loop waits for input, and nothing has been refused. */
  predicate AwaitsInput(w: Writer) {
    w.phase.Looping? && !w.closed && w.input == [] && w.uncounted == 0 && w.cfg.inputCap >= 1 && FaultFree(w.history)
  }

  /** One item is sent, counted and received. */
  lemma ItemPasses(w: Writer, it: Item)
    requires AwaitsInput(w)
    ensures Enabled(w, Send(it)) && Enabled(Apply(w, Send(it)), CountSend)
    ensures Enabled(Apply(Apply(w, Send(it)), CountSend), Receive(NO_FAULTS))
    ensures var t := Apply(Apply(Apply(w, Send(it)), CountSend), Receive(NO_FAULTS));
            AwaitsInput(t) && t.sent == w.sent + [it]
  {
    assert [it][1..] == [];
  }

  lemma ThenTheRest(w: Writer, it: Item, es: seq<Event>)
    requires AwaitsInput(w) && Enabled(w, Send(it)) && Enabled(Apply(w, Send(it)), CountSend)
    requires Enabled(Apply(Apply(w, Send(it)), CountSend), Receive(NO_FAULTS))
    requires Runs(Apply(Apply(Apply(w, Send(it)), CountSend), Receive(NO_FAULTS)), es)
    ensures var all := [Send(it)] + ([CountSend] + ([Receive(NO_FAULTS)] + es));
            && Runs(w, all)
            && Exec(w, all) == Exec(Apply(Apply(Apply(w, Send(it)), CountSend), Receive(NO_FAULTS)), es)
  {
    var sent := Apply(w, Send(it));
    var counted := Apply(sent, CountSend);
    RunCons(counted, Receive(NO_FAULTS), es);
    RunCons(sent, CountSend, [Receive(NO_FAULTS)] + es);
    RunCons(w, Send(it), [CountSend] + ([Receive(NO_FAULTS)] + es));
  }

  /** Any stream can be written in full: one item at a time, then the close. */
  lemma {:induction false} StreamCanBeWritten(w: Writer, items: seq<Item>) returns (es: seq<Event>)
    requires AwaitsInput(w)
    ensures Runs(w, es)
    ensures var t := Exec(w, es); t.phase.Exited? && FaultFree(t.history) && t.sent == w.sent + items
    decreases |items|
  {
    if items == [] {
      RunCons(Apply(w, CloseInput), SeeClosed(NO_FAULTS), []);
      RunCons(w, CloseInput, [SeeClosed(NO_FAULTS)]);
      es := [CloseInput, SeeClosed(NO_FAULTS)];
    } else {
      ItemPasses(w, items[0]);
      var rest := StreamCanBeWritten(Apply(Apply(Apply(w, Send(items[0])), CountSend), Receive(NO_FAULTS)), items[1..]);
      ThenTheRest(w, items[0], rest);
      es := [Send(items[0])] + ([CountSend] + ([Receive(NO_FAULTS)] + rest));
    }
  }
}
