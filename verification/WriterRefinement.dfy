/** What every schedule of the writer's loop amounts to: items pass through in
    order, each batch is one transaction, and the counters tell the same story. */
module WriterRefinement {
  import opened StorageModel
  import opened WriterModel

  // ---- The history's meaning -----------------------------------------------

  function Flat(history: seq<Batch>): seq<Item> {
    if history == [] then [] else Flat(history[..|history| - 1]) + history[|history| - 1].items
  }

  /** The sequential specification: exactly the items of the successful batches,
      written in order. */
  function Replay(t0: Tables, history: seq<Batch>): Tables {
    if history == [] then t0
    else
      var n := |history| - 1;
      var before := Replay(t0, history[..n]);
      if history[n].ok then WriteAll(before, history[n].items) else before
  }

  /** The items of the batches that ended with `ok`. */
  function Ended(history: seq<Batch>, ok: bool): seq<Item> {
    if history == [] then []
    else
      var n := |history| - 1;
      Ended(history[..n], ok) + (if history[n].ok == ok then history[n].items else [])
  }

  function FailedBatches(history: seq<Batch>): seq<seq<Item>> {
    if history == [] then []
    else
      var n := |history| - 1;
      FailedBatches(history[..n]) + (if history[n].ok then [] else [history[n].items])
  }

  lemma HistorySnoc(t0: Tables, history: seq<Batch>, b: Batch)
    ensures Flat(history + [b]) == Flat(history) + b.items
    ensures Replay(t0, history + [b]) ==
            if b.ok then WriteAll(Replay(t0, history), b.items) else Replay(t0, history)
    ensures forall ok :: Ended(history + [b], ok) == Ended(history, ok) + (if b.ok == ok then b.items else [])
    ensures FailedBatches(history + [b]) == FailedBatches(history) + (if b.ok then [] else [b.items])
  {
    assert (history + [b])[..|history + [b]| - 1] == history;
  }

  lemma {:induction false} CountKindAppend(xs: seq<Item>, ys: seq<Item>, kind: string)
    ensures CountKind(xs + ys, kind) == CountKind(xs, kind) + CountKind(ys, kind)
  {
    if xs == [] {
      assert xs + ys == ys;
    } else {
      assert (xs + ys)[1..] == xs[1..] + ys;
      CountKindAppend(xs[1..], ys, kind);
    }
  }

  lemma KindsInAppend(xs: seq<Item>, ys: seq<Item>)
    ensures KindsIn(xs + ys) == KindsIn(xs) + KindsIn(ys)
  {
    forall k ensures k in KindsIn(xs + ys) <==> k in KindsIn(xs) + KindsIn(ys) {
      if i :| 0 <= i < |xs| && xs[i].kind == k {
        assert (xs + ys)[i].kind == k;
      }
      if i :| 0 <= i < |ys| && ys[i].kind == k {
        assert (xs + ys)[|xs| + i].kind == k;
      }
    }
  }

  // ---- The invariant, in independent parts ---------------------------------

  /** While a flush request is served: since the channel was seen empty, whatever has
      been sent is still in it. */
  predicate Requested(w: Writer) {
    match w.phase
    case Draining(mark) => mark <= |w.sent|
    case Flushing(mark, seen) => mark <= seen && seen + |w.input| == |w.sent|
    case Acknowledging(mark, seen) => mark <= seen && seen + |w.input| == |w.sent|
    case _ => true
  }

  /** First in, first out: flushed, then buffered, then queued is what was sent. */
  ghost predicate InOrder(w: Writer) {
    && Flat(w.history) + w.buf + w.input == w.sent
    && w.totalQueued + w.uncounted == |w.sent|
    && |w.buf| <= w.cfg.maxBatch
    && |w.input| <= w.cfg.inputCap
    && (forall i :: 0 <= i < |w.history| ==> 1 <= |w.history[i].items| <= w.cfg.maxBatch)
    && Requested(w)
    && (w.closed ==> w.uncounted == 0)
    && (w.phase.Exited? ==> w.closed && w.input == [])
  }

  /** Between steps the buffer is never full, and a writer that exited is empty. */
  ghost predicate Fifo(w: Writer) {
    InOrder(w) && |w.buf| < w.cfg.maxBatch && (w.phase.Exited? || w.phase.Acknowledging? ==> w.buf == [])
  }

  /** Every batch ran as one transaction on the tables its predecessors left. */
  ghost predicate Transactional(w: Writer, t0: Tables) {
    && w.tables == Replay(t0, w.history)
    && forall i :: 0 <= i < |w.history| ==> BatchIsTransaction(w.cfg, t0, w.history, i)
  }

  ghost predicate BatchIsTransaction(cfg: Config, t0: Tables, history: seq<Batch>, i: nat)
    requires i < |history|
  {
    var b := history[i];
    var r := Flush(Replay(t0, history[..i]), b.items, cfg.kinds, cfg.mode, b.faults);
    b.ok == r.ok && b.dispatched == r.dispatched
  }

  /** The counters and the failure log agree with the history. */
  ghost predicate Accounted(w: Writer) {
    && w.success == |Ended(w.history, true)|
    && w.failure == |Ended(w.history, false)|
    && w.flushes == |w.history|
    && (forall k :: StatsOf(w.kindStats, k) ==
                    KindStats(CountKind(Ended(w.history, true), k), CountKind(Ended(w.history, false), k)))
    && w.kindStats.Keys == KindsIn(Flat(w.history))
    && w.failLog == (if w.cfg.logFailures then FailedBatches(w.history) else [])
  }

  ghost predicate Inv(w: Writer, t0: Tables) {
    Fifo(w) && Transactional(w, t0) && Accounted(w)
  }

  lemma FlushKeepsTransactional(w: Writer, t0: Tables, f: Faults)
    requires Transactional(w, t0)
    ensures Transactional(FlushBuf(w, f), t0)
  {
    if w.buf != [] {
      var w' := FlushBuf(w, f);
      var b := w'.history[|w.history|];
      HistorySnoc(t0, w.history, b);
      FlushIsTransaction(w.tables, w.buf, w.cfg.kinds, w.cfg.mode, f);
      forall i | 0 <= i < |w'.history| ensures BatchIsTransaction(w.cfg, t0, w'.history, i) {
        assert w'.history[..i] == w.history[..i];
        if i < |w.history| {
          assert BatchIsTransaction(w.cfg, t0, w.history, i);
        } else {
          assert w'.history[..i] == w.history;
        }
      }
    }
  }

  lemma BumpKindsAt(stats: map<string, KindStats>, items: seq<Item>, ok: bool, k: string)
    ensures StatsOf(BumpKinds(stats, items, ok), k) == BumpOne(StatsOf(stats, k), ok, CountKind(items, k))
    ensures BumpKinds(stats, items, ok).Keys == stats.Keys + KindsIn(items)
  {
    if k !in KindsIn(items) {
      assert forall i :: 0 <= i < |items| ==> items[i].kind in KindsIn(items);
      assert CountKind(items, k) == 0;
    }
  }

  lemma KindCountsGrow(w: Writer, items: seq<Item>, ok: bool, k: string)
    requires Accounted(w)
    ensures StatsOf(BumpKinds(w.kindStats, items, ok), k) ==
            KindStats(CountKind(Ended(w.history, true) + (if ok then items else []), k),
                      CountKind(Ended(w.history, false) + (if ok then [] else items), k))
  {
    var done, failed := Ended(w.history, true), Ended(w.history, false);
    BumpKindsAt(w.kindStats, items, ok, k);
    assert StatsOf(w.kindStats, k) == KindStats(CountKind(done, k), CountKind(failed, k));
    CountKindAppend(if ok then done else failed, items, k);
    assert (if ok then failed else done) + [] == if ok then failed else done;
  }

  lemma FlushKeepsAccounted(w: Writer, f: Faults)
    requires Accounted(w)
    ensures Accounted(FlushBuf(w, f))
  {
    if w.buf != [] {
      var w' := FlushBuf(w, f);
      var b := w'.history[|w.history|];
      HistorySnoc(w.tables, w.history, b);
      KindsInAppend(Flat(w.history), w.buf);
      BumpKindsAt(w.kindStats, w.buf, b.ok, "");
      forall k ensures StatsOf(w'.kindStats, k) ==
                       KindStats(CountKind(Ended(w'.history, true), k), CountKind(Ended(w'.history, false), k))
      {
        KindCountsGrow(w, w.buf, b.ok, k);
      }
    }
  }

  lemma FlushMovesBuffer(w: Writer, f: Faults)
    ensures var w' := FlushBuf(w, f);
            && w'.buf == []
            && Flat(w'.history) == Flat(w.history) + w.buf
            && (w.buf == [] ==> w' == w)
            && (w.buf != [] ==> |w'.history| == |w.history| + 1 && w'.history[..|w.history|] == w.history
                                && w'.history[|w.history|].items == w.buf)
            && w' == w.(buf := [], history := w'.history, tables := w'.tables, success := w'.success,
                        failure := w'.failure, flushes := w'.flushes, kindStats := w'.kindStats, failLog := w'.failLog)
  {
    if w.buf != [] {
      HistorySnoc(w.tables, w.history, FlushBuf(w, f).history[|w.history|]);
    }
  }

  lemma FlushKeepsInOrder(w: Writer, f: Faults)
    requires InOrder(w)
    ensures InOrder(FlushBuf(w, f)) && FlushBuf(w, f).buf == []
  {
    if w.buf != [] {
      FlushMovesBuffer(w, f);
      var h, h' := w.history, FlushBuf(w, f).history;
      assert Flat(h') + [] + w.input == Flat(h) + w.buf + w.input;
      assert forall i :: 0 <= i < |h| ==> h'[i] == h[i];
    }
  }

  lemma TakingKeepsInOrder(w: Writer)
    requires Fifo(w) && w.input != [] && (w.phase.Looping? || w.phase.Draining?)
    ensures InOrder(w.(input := w.input[1..], buf := w.buf + [w.input[0]]))
  {
    assert w.input == [w.input[0]] + w.input[1..];
    assert Flat(w.history) + (w.buf + [w.input[0]]) + w.input[1..] == Flat(w.history) + w.buf + w.input;
  }

  lemma PushKeepsFifo(w: Writer, f: Faults)
    requires Fifo(w) && w.input != [] && (w.phase.Looping? || w.phase.Draining?)
    ensures Fifo(Push(w, f))
  {
    var w1 := w.(input := w.input[1..], buf := w.buf + [w.input[0]]);
    TakingKeepsInOrder(w);
    FlushKeepsInOrder(w1, f);
    FlushMovesBuffer(w1, f);
  }

  lemma SendKeepsFifo(w: Writer, it: Item)
    requires Fifo(w) && Enabled(w, Send(it))
    ensures Fifo(Apply(w, Send(it)))
  {
    assert Flat(w.history) + w.buf + (w.input + [it]) == w.sent + [it];
  }

  /** Steps that move the loop or the counters and no item. */
  lemma OtherStepKeepsFifo(w: Writer, e: Event)
    requires Fifo(w) && Enabled(w, e)
    requires e.CountSend? || e.CloseInput? || e.AcceptFlush? || e.SeeEmpty? || e.Acknowledge?
    ensures Fifo(Apply(w, e))
  {
  }

  lemma FlushStepKeepsFifo(w: Writer, e: Event)
    requires Fifo(w) && Enabled(w, e) && (e.FlushForRequest? || e.Tick? || e.SeeClosed?)
    ensures Fifo(Apply(w, e))
  {
    FlushKeepsInOrder(w, e.faults);
    FlushMovesBuffer(w, e.faults);
  }

  lemma StepKeepsFifo(w: Writer, e: Event)
    requires Fifo(w) && Enabled(w, e)
    ensures Fifo(Apply(w, e))
  {
    match e
    case Send(it) => SendKeepsFifo(w, it);
    case Receive(f) => PushKeepsFifo(w, f);
    case DrainOne(f) => PushKeepsFifo(w, f);
    case FlushForRequest(_) => FlushStepKeepsFifo(w, e);
    case Tick(_) => FlushStepKeepsFifo(w, e);
    case SeeClosed(_) => FlushStepKeepsFifo(w, e);
    case _ => OtherStepKeepsFifo(w, e);
  }

  lemma StepKeepsTransactional(w: Writer, t0: Tables, e: Event)
    requires Transactional(w, t0) && Enabled(w, e)
    ensures Transactional(Apply(w, e), t0)
  {
    if e.Receive? || e.DrainOne? {
      var w1 := w.(input := w.input[1..], buf := w.buf + [w.input[0]]);
      FlushKeepsTransactional(w1, t0, e.faults);
    } else if e.FlushForRequest? || e.Tick? || e.SeeClosed? {
      FlushKeepsTransactional(w, t0, e.faults);
    }
  }

  lemma PushKeepsAccounted(w: Writer, f: Faults)
    requires Accounted(w) && w.input != []
    ensures Accounted(Push(w, f))
  {
    FlushKeepsAccounted(w.(input := w.input[1..], buf := w.buf + [w.input[0]]), f);
  }

  lemma StepKeepsAccounted(w: Writer, e: Event)
    requires Accounted(w) && Enabled(w, e)
    ensures Accounted(Apply(w, e))
  {
    match e
    case Receive(f) => PushKeepsAccounted(w, f);
    case DrainOne(f) => PushKeepsAccounted(w, f);
    case FlushForRequest(f) => FlushKeepsAccounted(w, f);
    case Tick(f) => FlushKeepsAccounted(w, f);
    case SeeClosed(f) => FlushKeepsAccounted(w, f);
    case _ =>
  }

  lemma StepKeepsInv(w: Writer, t0: Tables, e: Event)
    requires Inv(w, t0) && Enabled(w, e)
    ensures Inv(Apply(w, e), t0)
  {
    StepKeepsFifo(w, e);
    StepKeepsTransactional(w, t0, e);
    StepKeepsAccounted(w, e);
  }

  lemma InitialInv(cfg: Config, t0: Tables)
    requires cfg.maxBatch >= 1
    ensures Inv(Initial(cfg, t0), t0)
  {
  }

  lemma {:induction false} RunKeepsInv(w: Writer, t0: Tables, es: seq<Event>)
    requires Inv(w, t0) && Runs(w, es)
    ensures Inv(Exec(w, es), t0) && Exec(w, es).cfg == w.cfg
    decreases |es|
  {
    if es != [] {
      StepKeepsInv(w, t0, es[0]);
      RunKeepsInv(Apply(w, es[0]), t0, es[1..]);
    }
  }

  // ---- Theorems ------------------------------------------------------------

  /** Transactional refinement: after any run the database holds exactly the items
      of the successful batches, applied in arrival order, and every batch is one
      all-or-nothing transaction over what its predecessors left. */
  lemma DatabaseRefinesReplay(cfg: Config, t0: Tables, es: seq<Event>)
    requires cfg.maxBatch >= 1 && Runs(Initial(cfg, t0), es)
    ensures var w := Exec(Initial(cfg, t0), es);
            && w.tables == WriteAll(t0, Ended(w.history, true))
            && forall i :: 0 <= i < |w.history| ==> BatchIsTransaction(cfg, t0, w.history, i)
  {
    InitialInv(cfg, t0);
    RunKeepsInv(Initial(cfg, t0), t0, es);
    ReplayWritesSuccesses(t0, Exec(Initial(cfg, t0), es).history);
  }

  lemma {:induction false} ReplayWritesSuccesses(t0: Tables, history: seq<Batch>)
    ensures Replay(t0, history) == WriteAll(t0, Ended(history, true))
    decreases |history|
  {
    if history != [] {
      var n := |history| - 1;
      ReplayWritesSuccesses(t0, history[..n]);
      WriteAllAppend(t0, Ended(history[..n], true), history[n].items);
      assert Ended(history[..n], true) + [] == Ended(history[..n], true);
    }
  }

  /** A batch is committed if and only if begin and commit were granted, no operation
      was refused, every kind is registered, and for inserts all keys were new and
      pairwise distinct. */
  lemma BatchCommitsExactly(cfg: Config, t0: Tables, es: seq<Event>, i: nat)
    requires cfg.maxBatch >= 1 && Runs(Initial(cfg, t0), es) && i < |Exec(Initial(cfg, t0), es).history|
    ensures var h := Exec(Initial(cfg, t0), es).history;
            h[i].ok <==> !h[i].faults.begin && !h[i].faults.commit
                         && Unobjectionable(WriteAll(t0, Ended(h[..i], true)), h[i].items, cfg.kinds, cfg.mode, h[i].faults.ops)
  {
    InitialInv(cfg, t0);
    RunKeepsInv(Initial(cfg, t0), t0, es);
    var h := Exec(Initial(cfg, t0), es).history;
    assert BatchIsTransaction(cfg, t0, h, i);
    ReplayWritesSuccesses(t0, h[..i]);
    FlushCommitsExactly(Replay(t0, h[..i]), h[i].items, cfg.kinds, cfg.mode, h[i].faults);
  }

  // ---- Batch sizes -----------------------------------------------------------

  /** Batches of fewer items than the limit. */
  function ShortBatches(history: seq<Batch>, maxBatch: nat): nat {
    if history == [] then 0
    else
      var n := |history| - 1;
      ShortBatches(history[..n], maxBatch) + (if |history[n].items| < maxBatch then 1 else 0)
  }

  /** Does this event call for a flush of whatever there is? */
  predicate CallsForFlush(e: Event) {
    e.Tick? || e.FlushForRequest? || e.SeeClosed?
  }

  function Calls(es: seq<Event>): nat {
    if es == [] then 0 else (if CallsForFlush(es[0]) then 1 else 0) + Calls(es[1..])
  }

  lemma FlushAddsOneBatch(w: Writer, f: Faults)
    ensures ShortBatches(FlushBuf(w, f).history, w.cfg.maxBatch)
         == ShortBatches(w.history, w.cfg.maxBatch) + (if 0 < |w.buf| < w.cfg.maxBatch then 1 else 0)
  {
    if w.buf != [] {
      FlushMovesBuffer(w, f);
      var h := FlushBuf(w, f).history;
      assert h[..|h| - 1] == w.history;
    }
  }

  /** A received item is flushed with the rest of the buffer exactly when it makes a
      full batch. */
  lemma PushFlushesExactly(w: Writer, f: Faults)
    requires Fifo(w) && w.input != []
    ensures var t := Push(w, f);
            && ShortBatches(t.history, w.cfg.maxBatch) == ShortBatches(w.history, w.cfg.maxBatch)
            && (|w.buf| + 1 < w.cfg.maxBatch ==> t.history == w.history && t.buf == w.buf + [w.input[0]])
            && (|w.buf| + 1 == w.cfg.maxBatch ==>
                  t.buf == [] && |t.history| == |w.history| + 1 && t.history[|w.history|].items == w.buf + [w.input[0]])
  {
    var w1 := w.(input := w.input[1..], buf := w.buf + [w.input[0]]);
    FlushAddsOneBatch(w1, f);
    FlushMovesBuffer(w1, f);
  }

  lemma StepAddsShortBatches(w: Writer, e: Event)
    requires Fifo(w) && Enabled(w, e)
    ensures Apply(w, e).cfg == w.cfg
    ensures ShortBatches(Apply(w, e).history, w.cfg.maxBatch)
         <= ShortBatches(w.history, w.cfg.maxBatch) + (if CallsForFlush(e) then 1 else 0)
  {
    match e
    case Receive(f) => PushFlushesExactly(w, f);
    case DrainOne(f) => PushFlushesExactly(w, f);
    case FlushForRequest(f) => FlushAddsOneBatch(w, f);
    case Tick(f) => FlushAddsOneBatch(w, f);
    case SeeClosed(f) => FlushAddsOneBatch(w, f);
    case _ =>
  }

  lemma {:induction false} RunAddsShortBatches(w: Writer, es: seq<Event>)
    requires Fifo(w) && Runs(w, es)
    ensures Exec(w, es).cfg == w.cfg
    ensures ShortBatches(Exec(w, es).history, w.cfg.maxBatch) <= ShortBatches(w.history, w.cfg.maxBatch) + Calls(es)
    decreases |es|
  {
    if es != [] {
      StepKeepsFifo(w, es[0]);
      StepAddsShortBatches(w, es[0]);
      RunAddsShortBatches(Apply(w, es[0]), es[1..]);
    }
  }

  lemma {:induction false} NoShortBatches(history: seq<Batch>, maxBatch: nat)
    requires ShortBatches(history, maxBatch) == 0 && forall i :: 0 <= i < |history| ==> |history[i].items| <= maxBatch
    ensures forall i :: 0 <= i < |history| ==> |history[i].items| == maxBatch
    ensures |Flat(history)| == |history| * maxBatch
    decreases |history|
  {
    if history != [] {
      NoShortBatches(history[..|history| - 1], maxBatch);
    }
  }

  /** For every schedule there are no more short batches than ticks, flush requests and
      closes: no item is written before its batch is full unless one of them asks for
      it. Without them every batch is full, and all received items but the last few of
      less than a batch have been flushed. */
  lemma ShortBatchesAreCalledFor(cfg: Config, t0: Tables, es: seq<Event>)
    requires cfg.maxBatch >= 1 && Runs(Initial(cfg, t0), es)
    ensures var w := Exec(Initial(cfg, t0), es);
            && ShortBatches(w.history, cfg.maxBatch) <= Calls(es)
            && (Calls(es) == 0 ==>
                  && (forall i :: 0 <= i < |w.history| ==> |w.history[i].items| == cfg.maxBatch)
                  && 0 <= |w.sent| - |w.input| - |w.history| * cfg.maxBatch < cfg.maxBatch)
  {
    InitialInv(cfg, t0);
    RunKeepsInv(Initial(cfg, t0), t0, es);
    RunAddsShortBatches(Initial(cfg, t0), es);
    var w := Exec(Initial(cfg, t0), es);
    if Calls(es) == 0 {
      NoShortBatches(w.history, cfg.maxBatch);
      assert |w.sent| == |Flat(w.history)| + |w.buf| + |w.input|;
    }
  }

  /** Order, completeness and batch bounds, for every schedule. */
  lemma FirstInFirstOut(cfg: Config, t0: Tables, es: seq<Event>)
    requires cfg.maxBatch >= 1 && Runs(Initial(cfg, t0), es)
    ensures var w := Exec(Initial(cfg, t0), es);
            && Flat(w.history) + w.buf + w.input == w.sent
            && |w.buf| < cfg.maxBatch && |w.input| <= cfg.inputCap
            && (forall i :: 0 <= i < |w.history| ==> 1 <= |w.history[i].items| <= cfg.maxBatch)
            && (w.phase.Exited? ==> Flat(w.history) == w.sent)
  {
    InitialInv(cfg, t0);
    RunKeepsInv(Initial(cfg, t0), t0, es);
    var w := Exec(Initial(cfg, t0), es);
    assert Flat(w.history) + [] + [] == Flat(w.history);
  }

  /** When a Flush call returns, everything sent before its request was accepted has
      been flushed, in order, and so has everything sent until the channel was seen
      empty; what was sent after that, and nothing else, is still in the channel. */
  lemma FlushCoversItsRequest(cfg: Config, t0: Tables, es: seq<Event>)
    requires cfg.maxBatch >= 1 && Runs(Initial(cfg, t0), es)
    requires Enabled(Exec(Initial(cfg, t0), es), Acknowledge)
    ensures var w := Exec(Initial(cfg, t0), es);
            && w.phase.mark <= w.phase.seen <= |w.sent|
            && w.sent[..w.phase.mark] <= Flat(w.history) == w.sent[..w.phase.seen]
            && w.buf == [] && w.input == w.sent[w.phase.seen..]
  {
    InitialInv(cfg, t0);
    RunKeepsInv(Initial(cfg, t0), t0, es);
    var w := Exec(Initial(cfg, t0), es);
    assert Flat(w.history) + [] + w.input == w.sent;
  }

  /** The request accepted with `mark` items sent is still the one being served. */
  predicate Serving(w: Writer, mark: nat) {
    match w.phase
    case Draining(m) => m == mark
    case Flushing(m, _) => m == mark
    case Acknowledging(m, _) => m == mark
    case _ => false
  }

  lemma {:induction false} StillServing(w: Writer, es: seq<Event>, mark: nat)
    requires Serving(w, mark) && Runs(w, es) && Acknowledge !in es
    ensures Serving(Exec(w, es), mark) && w.sent <= Exec(w, es).sent
    decreases |es|
  {
    if es != [] {
      assert es[0] != Acknowledge;
      assert Serving(Apply(w, es[0]), mark) && w.sent <= Apply(w, es[0]).sent;
      StillServing(Apply(w, es[0]), es[1..], mark);
    }
  }

  /** The same in terms of runs: when the first acknowledgement after an accepted
      request is due, whatever had been sent when the request was accepted has been
      flushed, in order. */
  lemma FlushCoversWhatWasSent(cfg: Config, t0: Tables, before: seq<Event>, serving: seq<Event>)
    requires cfg.maxBatch >= 1 && Runs(Initial(cfg, t0), before) && Enabled(Exec(Initial(cfg, t0), before), AcceptFlush)
    requires var accepted := Apply(Exec(Initial(cfg, t0), before), AcceptFlush);
             Runs(accepted, serving) && Acknowledge !in serving && Enabled(Exec(accepted, serving), Acknowledge)
    ensures var w := Exec(Initial(cfg, t0), before);
            var done := Exec(Apply(w, AcceptFlush), serving);
            w.sent <= Flat(done.history) && done.buf == []
  {
    var w := Exec(Initial(cfg, t0), before);
    var accepted := Apply(w, AcceptFlush);
    InitialInv(cfg, t0);
    RunKeepsInv(Initial(cfg, t0), t0, before);
    StepKeepsInv(w, t0, AcceptFlush);
    RunKeepsInv(accepted, t0, serving);
    StillServing(accepted, serving, |w.sent|);
    var done := Exec(accepted, serving);
    assert Flat(done.history) + [] + done.input == done.sent;
    assert w.sent == done.sent[..|w.sent|];
  }

  /** The channel may hold an item when a Flush call returns, sent while the request
      was being served. */
  lemma FlushCanLeaveItems(cfg: Config, t0: Tables, it: Item, f: Faults)
    requires cfg.maxBatch >= 1 && cfg.inputCap >= 1
    ensures var es := [AcceptFlush, SeeEmpty, Send(it), FlushForRequest(f)];
            && Runs(Initial(cfg, t0), es)
            && Enabled(Exec(Initial(cfg, t0), es), Acknowledge) && Exec(Initial(cfg, t0), es).input == [it]
  {
    var w := Initial(cfg, t0);
    var serving := w.(phase := Flushing(0, 0), input := [it], sent := [it], uncounted := 1);
    RunCons(serving, FlushForRequest(f), []);
    RunCons(w.(phase := Flushing(0, 0)), Send(it), [FlushForRequest(f)]);
    RunCons(w.(phase := Draining(0)), SeeEmpty, [Send(it), FlushForRequest(f)]);
    RunCons(w, AcceptFlush, [SeeEmpty, Send(it), FlushForRequest(f)]);
  }

  /** A tick flushes everything the loop has received: only the channel is left. */
  lemma TickFlushesWhatArrived(cfg: Config, t0: Tables, es: seq<Event>, f: Faults)
    requires cfg.maxBatch >= 1 && Runs(Initial(cfg, t0), es)
    requires Enabled(Exec(Initial(cfg, t0), es), Tick(f))
    ensures var w := Exec(Initial(cfg, t0), es);
            var ticked := Apply(w, Tick(f));
            && ticked.input == w.input
            && Flat(ticked.history) + ticked.input == w.sent
            && (w.buf == [] ==> ticked == w)
  {
    InitialInv(cfg, t0);
    RunKeepsInv(Initial(cfg, t0), t0, es);
    FlushMovesBuffer(Exec(Initial(cfg, t0), es), f);
  }

  lemma RunCons(w: Writer, e: Event, es: seq<Event>)
    requires Enabled(w, e) && Runs(Apply(w, e), es)
    ensures Runs(w, [e] + es) && Exec(w, [e] + es) == Exec(Apply(w, e), es)
  {
    assert ([e] + es)[1..] == es;
  }

  // ---- Closing ---------------------------------------------------------------

  /** How many steps a closed writer is away from its exit. */
  function Left(w: Writer): nat {
    |w.input| +
    match w.phase
    case Exited => 0
    case Looping => 1
    case Acknowledging(_, _) => 2
    case Flushing(_, _) => 3
    case Draining(_) => 4
  }

  /** Does this step bring a closed writer nearer to its exit? */
  predicate BringsNearer(e: Event) {
    !e.Tick? && !e.AcceptFlush?
  }

  function Nearer(es: seq<Event>): nat {
    if es == [] then 0 else (if BringsNearer(es[0]) then 1 else 0) + Nearer(es[1..])
  }

  function Accepts(es: seq<Event>): nat {
    if es == [] then 0 else (if es[0].AcceptFlush? then 1 else 0) + Accepts(es[1..])
  }

  /** Every step of a closed writer is one nearer to the exit, but for ticks and for
      the start of one more flush request. */
  lemma ClosedStep(w: Writer, e: Event)
    requires w.closed && w.uncounted == 0 && Enabled(w, e)
    ensures var t := Apply(w, e);
            && t.closed && t.uncounted == 0
            && Left(t) == Left(w) + (if e.AcceptFlush? then 3 else if e.Tick? then 0 else -1)
  {
  }

  /** Close completes, over every run of a closed writer, in the middle of a Flush or
      not, whatever the database refuses at each flush: until the exit a step that
      brings it nearer is enabled, and the loop has exited exactly when it has taken
      as many of them as it was away at the start, and three more for each flush
      request accepted since. */
  lemma CloseCompletes(w: Writer, es: seq<Event>, f: Faults)
    requires w.closed && w.uncounted == 0 && Runs(w, es)
    ensures var t := Exec(w, es);
            && Nearer(es) <= Left(w) + 3 * Accepts(es)
            && (t.phase.Exited? && t.input == [] <==> Nearer(es) == Left(w) + 3 * Accepts(es))
            && (!t.phase.Exited? ==> Enabled(t, NextStepOf(t, f)) && BringsNearer(NextStepOf(t, f)))
  {
    ClosedRun(w, es);
  }

  function NextStepOf(w: Writer, f: Faults): Event {
    match w.phase
    case Draining(_) => if w.input != [] then DrainOne(f) else SeeEmpty
    case Flushing(_, _) => FlushForRequest(f)
    case Acknowledging(_, _) => Acknowledge
    case _ => if w.input != [] then Receive(f) else SeeClosed(f)
  }

  lemma {:induction false} ClosedRun(w: Writer, es: seq<Event>)
    requires w.closed && w.uncounted == 0 && Runs(w, es)
    ensures Exec(w, es).closed
    ensures Left(Exec(w, es)) + Nearer(es) == Left(w) + 3 * Accepts(es)
    decreases |es|
  {
    if es != [] {
      ClosedStep(w, es[0]);
      ClosedRun(Apply(w, es[0]), es[1..]);
    }
  }

  /** Accounting: successes and failures are the items of the batches that ended
      so, per kind as well as in total; the flush count is the number of batches;
      the failure log is the failed batches in order; and once the writer has
      exited, everything queued is accounted for. */
  lemma AccountingMatchesHistory(cfg: Config, t0: Tables, es: seq<Event>)
    requires cfg.maxBatch >= 1 && Runs(Initial(cfg, t0), es)
    ensures var w := Exec(Initial(cfg, t0), es);
            && Accounted(w)
            && w.success + w.failure == |Flat(w.history)|
            && (w.phase.Exited? ==> w.totalQueued == w.success + w.failure)
  {
    InitialInv(cfg, t0);
    RunKeepsInv(Initial(cfg, t0), t0, es);
    var w := Exec(Initial(cfg, t0), es);
    EndedSplits(w.history);
    assert w.phase.Exited? ==> |w.sent| == |Flat(w.history)|;
  }

  lemma {:induction false} EndedSplits(history: seq<Batch>)
    ensures |Ended(history, true)| + |Ended(history, false)| == |Flat(history)|
    decreases |history|
  {
    if history != [] {
      EndedSplits(history[..|history| - 1]);
    }
  }

  // ---- Per-kind totals -----------------------------------------------------

  ghost function SumStats(stats: map<string, KindStats>, kinds: set<string>, ok: bool): nat {
    if kinds == {} then 0
    else
      var k :| k in kinds;
      (if ok then StatsOf(stats, k).successful else StatsOf(stats, k).failed) + SumStats(stats, kinds - {k}, ok)
  }

  function OfKinds(items: seq<Item>, kinds: set<string>): nat {
    if items == [] then 0 else (if items[0].kind in kinds then 1 else 0) + OfKinds(items[1..], kinds)
  }

  lemma {:induction false} OfKindsSplit(items: seq<Item>, kinds: set<string>, k: string)
    requires k in kinds
    ensures OfKinds(items, kinds) == CountKind(items, k) + OfKinds(items, kinds - {k})
  {
    if items != [] {
      OfKindsSplit(items[1..], kinds, k);
    }
  }

  lemma {:induction false} SumStatsCounts(w: Writer, kinds: set<string>, ok: bool)
    requires Accounted(w)
    ensures SumStats(w.kindStats, kinds, ok) == OfKinds(Ended(w.history, ok), kinds)
    decreases kinds
  {
    if kinds == {} {
      NoKinds(Ended(w.history, ok));
    } else {
      var k :| k in kinds && SumStats(w.kindStats, kinds, ok) ==
                             (if ok then StatsOf(w.kindStats, k).successful else StatsOf(w.kindStats, k).failed)
                             + SumStats(w.kindStats, kinds - {k}, ok);
      assert StatsOf(w.kindStats, k) ==
             KindStats(CountKind(Ended(w.history, true), k), CountKind(Ended(w.history, false), k));
      SumStatsCounts(w, kinds - {k}, ok);
      OfKindsSplit(Ended(w.history, ok), kinds, k);
    }
  }

  lemma {:induction false} NoKinds(items: seq<Item>)
    ensures OfKinds(items, {}) == 0
  {
    if items != [] {
      NoKinds(items[1..]);
    }
  }

  lemma {:induction false} AllKinds(items: seq<Item>, kinds: set<string>)
    requires forall i :: 0 <= i < |items| ==> items[i].kind in kinds
    ensures OfKinds(items, kinds) == |items|
  {
    if items != [] {
      AllKinds(items[1..], kinds);
    }
  }

  lemma {:induction false} EndedWithinFlat(history: seq<Batch>, ok: bool)
    ensures forall it :: it in Ended(history, ok) ==> it in Flat(history)
    decreases |history|
  {
    if history != [] {
      EndedWithinFlat(history[..|history| - 1], ok);
    }
  }

  /** Summed over all kinds, the per-kind counters are the global ones. */
  lemma KindStatsSumToTotals(w: Writer)
    requires Accounted(w)
    ensures SumStats(w.kindStats, w.kindStats.Keys, true) == w.success
    ensures SumStats(w.kindStats, w.kindStats.Keys, false) == w.failure
  {
    forall ok: bool
      ensures SumStats(w.kindStats, w.kindStats.Keys, ok) == |Ended(w.history, ok)|
    {
      var items := Ended(w.history, ok);
      EndedWithinFlat(w.history, ok);
      forall i | 0 <= i < |items| ensures items[i].kind in w.kindStats.Keys {
        assert items[i] in Flat(w.history);
        var j :| 0 <= j < |Flat(w.history)| && Flat(w.history)[j] == items[i];
        assert Flat(w.history)[j].kind in KindsIn(Flat(w.history));
      }
      SumStatsCounts(w, w.kindStats.Keys, ok);
      AllKinds(items, w.kindStats.Keys);
    }
  }
}
