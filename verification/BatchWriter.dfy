/** The batch writer and its transaction hooks as the program has them: fields
    updated in place, each method tied to its step in WriterModel. */
module BatchWriters {
  import opened StorageModel
  import opened WriterModel
  import opened WriterRefinement

  datatype Active = BaseQueries | TxQueries

  datatype Point = AtSelect | InDrain | AtFlush | AtAck | AtExit

  /** The flush hooks: a transaction handle and the pointer through which the
      registered operations reach either the database or the open transaction. */
  class SqlHooks {
    const kinds: set<string>
    const mode: WriteMode
    var committed: Tables
    var working: Tables      // the open transaction's view
    var active: Active

    constructor (kinds: set<string>, mode: WriteMode, tables: Tables)
      ensures this.kinds == kinds && this.mode == mode && committed == tables && active.BaseQueries?
    {
      this.kinds, this.mode, committed, working, active := kinds, mode, tables, map[], BaseQueries;
    }

    method Before(refused: bool) returns (failed: bool)
      modifies this
      ensures failed <==> refused
      ensures committed == old(committed)
      ensures failed ==> active == old(active)
      ensures !failed ==> active.TxQueries? && working == old(committed)
    {
      if refused {
        return true;
      }
      working := committed;
      active := TxQueries;
      return false;
    }

    /** The operation registered for the item's kind, run on the active queries. */
    method Exec(it: Item, refused: bool) returns (failed: bool)
      requires it.kind in kinds
      modifies this
      ensures active == old(active)
      ensures var target := if old(active).TxQueries? then old(working) else old(committed);
              && (failed <==> OpFails(target, it, kinds, mode, refused))
              && (failed <==> refused || (mode == Insert && RowId(it.kind, it.key) in target))
              && working == (if active.TxQueries? && !failed then Write(old(working), it) else old(working))
              && committed == (if active.BaseQueries? && !failed then Write(old(committed), it) else old(committed))
    {
      var target := if active.TxQueries? then working else committed;
      if refused || (mode.Insert? && IdOf(it) in target) {
        return true;
      }
      if active.TxQueries? {
        working := Write(working, it);
      } else {
        committed := Write(committed, it);
      }
      return false;
    }

    method After(opFailed: bool, commitRefused: bool) returns (failed: bool)
      requires active.TxQueries?
      modifies this
      ensures failed <==> opFailed || commitRefused
      ensures committed == if failed then old(committed) else old(working)
      ensures active.BaseQueries?
    {
      failed := opFailed || commitRefused;
      if !failed {
        committed := working;
      }
      active := BaseQueries;
    }
  }

  lemma CountSnoc(xs: seq<Item>, x: Item)
    ensures forall k :: CountKind(xs + [x], k) == CountKind(xs, k) + (if k == x.kind then 1 else 0)
    ensures KindsIn(xs + [x]) == KindsIn(xs) + {x.kind}
    ensures x.kind !in KindsIn(xs) ==> CountKind(xs, x.kind) == 0
  {
    forall k ensures CountKind(xs + [x], k) == CountKind(xs, k) + (if k == x.kind then 1 else 0) {
      CountKindAppend(xs, [x], k);
      assert [x][1..] == [];
    }
    KindsInAppend(xs, [x]);
    assert KindsIn([x]) == {x.kind} by {
      assert [x][0].kind == x.kind;
    }
    assert forall j :: 0 <= j < |xs| ==> xs[j].kind in KindsIn(xs);
  }

  ghost predicate Tallies(m: map<string, nat>, items: seq<Item>) {
    m.Keys == KindsIn(items) && forall k :: k in m ==> m[k] == CountKind(items, k)
  }

  lemma TallyOne(m: map<string, nat>, items: seq<Item>, x: Item)
    requires Tallies(m, items)
    ensures Tallies(m[x.kind := (if x.kind in m then m[x.kind] else 0) + 1], items + [x])
  {
    CountSnoc(items, x);
  }

  method CountByKind(batch: seq<Item>) returns (m: map<string, nat>)
    ensures m.Keys == KindsIn(batch)
    ensures forall k :: k in m ==> m[k] == CountKind(batch, k)
  {
    m := map[];
    for i := 0 to |batch|
      invariant Tallies(m, batch[..i])
    {
      var k := batch[i].kind;
      TallyOne(m, batch[..i], batch[i]);
      assert batch[..i + 1] == batch[..i] + [batch[i]];
      m := m[k := (if k in m then m[k] else 0) + 1];
    }
    assert batch[..|batch|] == batch;
  }

  /** `stats` is `before` with the counts of the kinds in `done` added. */
  ghost predicate BumpedFor(before: map<string, KindStats>, stats: map<string, KindStats>, counts: map<string, nat>,
                            done: set<string>, success: bool)
    requires done <= counts.Keys
  {
    && stats.Keys == before.Keys + done
    && forall k :: k in stats ==>
                     stats[k] == if k in done then BumpOne(StatsOf(before, k), success, counts[k]) else before[k]
  }

  lemma BumpedForOne(before: map<string, KindStats>, stats: map<string, KindStats>, counts: map<string, nat>,
                     done: set<string>, success: bool, kind: string)
    requires done <= counts.Keys && BumpedFor(before, stats, counts, done, success)
    requires kind in counts && kind !in done
    ensures BumpedFor(before, stats[kind := BumpOne(StatsOf(stats, kind), success, counts[kind])], counts, done + {kind}, success)
  {
  }

  lemma BumpedForAll(before: map<string, KindStats>, stats: map<string, KindStats>, batch: seq<Item>,
                     counts: map<string, nat>, success: bool)
    requires Tallies(counts, batch) && BumpedFor(before, stats, counts, counts.Keys, success)
    ensures stats == BumpKinds(before, batch, success)
  {
    forall k | k in stats ensures stats[k] == BumpOne(StatsOf(before, k), success, CountKind(batch, k)) {
      if k !in counts {
        assert forall j :: 0 <= j < |batch| ==> batch[j].kind in KindsIn(batch);
        assert CountKind(batch, k) == 0;
      }
    }
  }

  class BatchWriter {
    const cfg: Config
    const hooks: SqlHooks
    var input: seq<Item>     // the channel's buffer
    var closed: bool
    var buf: seq<Item>
    var successCount: nat
    var failureCount: nat
    var flushCount: nat
    var kindStats: map<string, KindStats>
    var failLog: seq<seq<Item>>
    var totalQueued: nat
    var point: Point         // where the loop is
    ghost var mark: nat
    ghost var seen: nat
    ghost var uncounted: nat
    ghost var sent: seq<Item>
    ghost var history: seq<Batch>

    ghost function PhaseAt(): Phase
      reads this
    {
      match point
      case AtSelect => Looping
      case InDrain => Draining(mark)
      case AtFlush => Flushing(mark, seen)
      case AtAck => Acknowledging(mark, seen)
      case AtExit => Exited
    }

    ghost function State(): Writer
      reads this, hooks
    {
      Writer(cfg, input, closed, buf, PhaseAt(), hooks.committed, successCount, failureCount, flushCount, kindStats,
             failLog, totalQueued, uncounted, sent, history)
    }

    ghost predicate Valid()
      reads this, hooks
    {
      hooks.kinds == cfg.kinds && hooks.mode == cfg.mode && hooks.active.BaseQueries?
    }

    constructor (maxBatchSize: int, inputCap: int, hooks: SqlHooks, logFailures: bool)
      requires hooks.active.BaseQueries?
      ensures Valid() && this.hooks == hooks
      ensures State() == Initial(NewConfig(maxBatchSize, inputCap, hooks.kinds, hooks.mode, logFailures), hooks.committed)
      ensures Inv(State(), hooks.committed)
    {
      cfg := NewConfig(maxBatchSize, inputCap, hooks.kinds, hooks.mode, logFailures);
      this.hooks := hooks;
      input, closed, buf, point, mark, seen := [], false, [], AtSelect, 0, 0;
      successCount, failureCount, flushCount, kindStats, failLog := 0, 0, 0, map[], [];
      totalQueued, uncounted, sent, history := 0, 0, [], [];
    }

    method Bump(success: bool, n: nat)
      modifies this`flushCount, this`successCount, this`failureCount
      ensures flushCount == old(flushCount) + 1
      ensures successCount == old(successCount) + (if success then n else 0)
      ensures failureCount == old(failureCount) + (if success then 0 else n)
    {
      flushCount := flushCount + 1;
      if success {
        successCount := successCount + n;
      } else {
        failureCount := failureCount + n;
      }
    }

    method BumpKind(kind: string, success: bool, n: nat)
      modifies this`kindStats
      ensures kindStats == old(kindStats)[kind := BumpOne(StatsOf(old(kindStats), kind), success, n)]
    {
      if kind !in kindStats {
        kindStats := kindStats[kind := KindStats(0, 0)];
      }
      var st := kindStats[kind];
      if success {
        kindStats := kindStats[kind := st.(successful := st.successful + n)];
      } else {
        kindStats := kindStats[kind := st.(failed := st.failed + n)];
      }
    }

    /** Bumps every kind of the batch once, in whatever order the map yields. */
    method BumpBatch(batch: seq<Item>, success: bool)
      modifies this`kindStats
      ensures kindStats == BumpKinds(old(kindStats), batch, success)
    {
      var counts := CountByKind(batch);
      var left := counts.Keys;
      while left != {}
        invariant left <= counts.Keys
        invariant BumpedFor(old(kindStats), kindStats, counts, counts.Keys - left, success)
        decreases left
      {
        var kind :| kind in left;
        BumpedForOne(old(kindStats), kindStats, counts, counts.Keys - left, success, kind);
        BumpKind(kind, success, counts[kind]);
        assert counts.Keys - (left - {kind}) == counts.Keys - left + {kind};
        left := left - {kind};
      }
      BumpedForAll(old(kindStats), kindStats, batch, counts, success);
    }

    method FailFlush(batch: seq<Item>)
      modifies this`failLog, this`flushCount, this`successCount, this`failureCount, this`kindStats
      ensures failLog == if cfg.logFailures then old(failLog) + [batch] else old(failLog)
      ensures flushCount == old(flushCount) + 1 && successCount == old(successCount)
      ensures failureCount == old(failureCount) + |batch|
      ensures kindStats == BumpKinds(old(kindStats), batch, false)
    {
      if cfg.logFailures {
        failLog := failLog + [batch];
      }
      Bump(false, |batch|);
      BumpBatch(batch, false);
    }

    /** Dispatches the items in order through the open transaction until one fails. */
    method Dispatch(batch: seq<Item>, faults: Faults) returns (failed: bool, ghost dispatched: nat)
      requires hooks.active.TxQueries? && hooks.kinds == cfg.kinds && hooks.mode == cfg.mode
      modifies hooks
      ensures hooks.active.TxQueries? && hooks.committed == old(hooks.committed)
      ensures match RunOps(old(hooks.working), batch, 0, cfg.kinds, cfg.mode, faults)
              case Finished(t) => !failed && hooks.working == t && dispatched == |batch|
              case Stopped(at, t) =>
                && failed && hooks.working == t && at < |batch|
                && dispatched == if batch[at].kind in cfg.kinds then at + 1 else at
      ensures !failed <==> Unobjectionable(old(hooks.working), batch, cfg.kinds, cfg.mode, faults.ops)
    {
      RunOpsFinishesExactly(hooks.working, batch, cfg.kinds, cfg.mode, faults);
      failed, dispatched := false, 0;
      ghost var result := RunOps(hooks.working, batch, 0, cfg.kinds, cfg.mode, faults);
      for i := 0 to |batch|
        invariant hooks.active.TxQueries? && hooks.committed == old(hooks.committed)
        invariant !failed && dispatched == i
        invariant RunOps(hooks.working, batch, i, cfg.kinds, cfg.mode, faults) == result
      {
        if batch[i].kind !in hooks.kinds {
          return true, i;
        }
        failed := hooks.Exec(batch[i], i in faults.ops);
        dispatched := i + 1;
        if failed {
          return;
        }
      }
    }

    /** Begin, dispatch, then commit or roll back. */
    method WriteBatch(batch: seq<Item>, faults: Faults) returns (failed: bool, ghost dispatched: nat)
      requires Valid()
      modifies hooks
      ensures Valid()
      ensures var r := Flush(old(hooks.committed), batch, cfg.kinds, cfg.mode, faults);
              failed == !r.ok && hooks.committed == r.tables && dispatched == r.dispatched
      ensures !failed <==> !faults.begin && !faults.commit
                           && Unobjectionable(old(hooks.committed), batch, cfg.kinds, cfg.mode, faults.ops)
      ensures hooks.committed == if failed then old(hooks.committed) else WriteAll(old(hooks.committed), batch)
    {
      FlushCommitsExactly(hooks.committed, batch, cfg.kinds, cfg.mode, faults);
      failed := hooks.Before(faults.begin);
      dispatched := 0;
      if failed {
        return;
      }
      failed, dispatched := Dispatch(batch, faults);
      failed := hooks.After(failed, faults.commit);
    }

    /** Snapshots and empties the buffer, then writes the batch in one transaction. */
    method FlushLocked(faults: Faults)
      requires Valid()
      modifies this`buf, this`successCount, this`failureCount, this`flushCount, this`kindStats, this`failLog,
               this`history, hooks
      ensures Valid()
      ensures State() == FlushBuf(old(State()), faults)
    {
      if |buf| == 0 {
        return;
      }
      ghost var before := State();
      var batch := buf;
      buf := [];
      WriteAndRecord(batch, faults);
      ghost var after := FlushBuf(before, faults);
      assert history == after.history && kindStats == after.kindStats && failLog == after.failLog;
    }

    method WriteAndRecord(batch: seq<Item>, faults: Faults)
      requires Valid()
      modifies this`successCount, this`failureCount, this`flushCount, this`kindStats, this`failLog, this`history, hooks
      ensures Valid()
      ensures var r := Flush(old(hooks.committed), batch, cfg.kinds, cfg.mode, faults);
              && hooks.committed == r.tables
              && history == old(history) + [Batch(batch, faults, r.ok, r.dispatched)]
              && failLog == (if !r.ok && cfg.logFailures then old(failLog) + [batch] else old(failLog))
              && flushCount == old(flushCount) + 1
              && successCount == old(successCount) + (if r.ok then |batch| else 0)
              && failureCount == old(failureCount) + (if r.ok then 0 else |batch|)
              && kindStats == BumpKinds(old(kindStats), batch, r.ok)
    {
      ghost var dispatched: nat;
      var failed: bool;
      failed, dispatched := WriteBatch(batch, faults);
      RecordFlush(batch, failed);
      history := history + [Batch(batch, faults, !failed, dispatched)];
    }

    method RecordFlush(batch: seq<Item>, failed: bool)
      modifies this`failLog, this`flushCount, this`successCount, this`failureCount, this`kindStats
      ensures failLog == if failed && cfg.logFailures then old(failLog) + [batch] else old(failLog)
      ensures flushCount == old(flushCount) + 1
      ensures successCount == old(successCount) + (if failed then 0 else |batch|)
      ensures failureCount == old(failureCount) + (if failed then |batch| else 0)
      ensures kindStats == BumpKinds(old(kindStats), batch, !failed)
    {
      if failed {
        FailFlush(batch);
      } else {
        Bump(true, |batch|);
        BumpBatch(batch, true);
      }
    }

    /** A producer's send; it blocks while the channel is full. */
    method Add(it: Item)
      requires Valid() && Enabled(State(), Send(it))
      modifies this`input, this`sent, this`uncounted, this`totalQueued
      ensures Valid()
      ensures State() == Exec2(old(State()), Send(it), CountSend)
    {
      input := input + [it];
      sent, uncounted := sent + [it], uncounted + 1;
      totalQueued := totalQueued + 1;
      uncounted := uncounted - 1;
    }

    method TakeItem(faults: Faults)
      requires Valid() && |input| > 0
      modifies this`input, this`buf, this`successCount, this`failureCount, this`flushCount, this`kindStats,
               this`failLog, this`history, hooks
      ensures Valid()
      ensures State() == Push(old(State()), faults)
    {
      buf := buf + [input[0]];
      input := input[1..];
      if |buf| >= cfg.maxBatch {
        FlushLocked(faults);
      }
    }

    /** One iteration of the run loop, for the branch its select has chosen, or one
        step of a flush request. The eager flush at the loop head never finds a full
        buffer. */
    method Iterate(e: Event)
      requires Valid() && Fifo(State()) && Enabled(State(), e)
      requires !e.Send? && !e.CountSend? && !e.CloseInput?
      modifies this`input, this`buf, this`point, this`mark, this`seen, this`successCount, this`failureCount,
               this`flushCount, this`kindStats, this`failLog, this`history, hooks
      ensures Valid()
      ensures State() == Apply(old(State()), e)
    {
      if point.AtSelect? && |buf| >= cfg.maxBatch {
        assert false;
      }
      match e
      case Receive(faults) => TakeItem(faults);
      case AcceptFlush => point, mark := InDrain, |sent|;
      case DrainOne(faults) => TakeItem(faults);
      case SeeEmpty => point, seen := AtFlush, |sent|;
      case FlushForRequest(faults) =>
        FlushLocked(faults);
        point := AtAck;
      case Acknowledge => point := AtSelect;
      case Tick(faults) => FlushLocked(faults);
      case SeeClosed(faults) =>
        FlushLocked(faults);
        point := AtExit;
    }

    /** A single step of a producer or of the close. */
    method Produce(e: Event)
      requires Valid() && Enabled(State(), e)
      requires e.Send? || e.CountSend? || e.CloseInput?
      modifies this`input, this`closed, this`totalQueued, this`sent, this`uncounted
      ensures Valid()
      ensures State() == Apply(old(State()), e)
    {
      match e
      case Send(it) =>
        input := input + [it];
        sent, uncounted := sent + [it], uncounted + 1;
      case CountSend =>
        totalQueued := totalQueued + 1;
        uncounted := uncounted - 1;
      case CloseInput => closed := true;
    }

    /** The run loop under any schedule of arrivals, sends, ticks, flush requests
        and the close. */
    method Run(schedule: seq<Event>, ghost t0: Tables)
      requires Valid() && Inv(State(), t0) && Runs(State(), schedule)
      modifies this, hooks
      ensures Valid() && Inv(State(), t0)
      ensures State() == Exec(old(State()), schedule)
    {
      ghost var w0 := State();
      for i := 0 to |schedule|
        invariant Valid() && Inv(State(), t0)
        invariant Runs(State(), schedule[i..])
        invariant Exec(State(), schedule[i..]) == Exec(w0, schedule)
      {
        var e := schedule[i];
        NextStep(State(), t0, schedule[i..]);
        assert schedule[i..][1..] == schedule[i + 1..];
        if e.Send? || e.CountSend? || e.CloseInput? {
          Produce(e);
        } else {
          Iterate(e);
        }
      }
    }
  }

  lemma NextStep(w: Writer, t0: Tables, es: seq<Event>)
    requires Inv(w, t0) && Runs(w, es) && es != []
    ensures Fifo(w) && Enabled(w, es[0]) && Inv(Apply(w, es[0]), t0)
    ensures Runs(Apply(w, es[0]), es[1..]) && Exec(w, es) == Exec(Apply(w, es[0]), es[1..])
  {
    StepKeepsInv(w, t0, es[0]);
  }

  /** Two steps in a row. */
  ghost function Exec2(w: Writer, e: Event, e': Event): Writer
    requires Enabled(w, e) && Enabled(Apply(w, e), e')
  {
    Apply(Apply(w, e), e')
  }
}
