/** The batch writer's event loop: what each branch of its select does to the
    buffer, the input channel, the database and the statistics. */
module WriterModel {
  import opened StorageModel

  datatype Config = Config(maxBatch: nat, inputCap: nat, kinds: set<string>, mode: WriteMode, logFailures: bool)

  function NewConfig(maxBatchSize: int, inputCap: int, kinds: set<string>, mode: WriteMode, logFailures: bool): (c: Config)
    ensures c.maxBatch >= 1 && c.inputCap >= 1
    ensures maxBatchSize > 0 ==> c.maxBatch == maxBatchSize
    ensures maxBatchSize <= 0 ==> c.maxBatch == 1000
    ensures inputCap > 0 ==> c.inputCap == inputCap
    ensures inputCap <= 0 ==> c.inputCap == 2 * c.maxBatch
  {
    var m := if maxBatchSize <= 0 then 1000 else maxBatchSize;
    Config(m, if inputCap <= 0 then m * 2 else inputCap, kinds, mode, logFailures)
  }

  datatype KindStats = KindStats(successful: nat, failed: nat)

  /** A flushed batch, the faults it met and what came of it. */
  datatype Batch = Batch(items: seq<Item>, faults: Faults, ok: bool, dispatched: nat)

  /** Where the loop is. `mark` is how many items had been sent when the flush request
      was accepted, `seen` how many when the channel was then found empty. */
  datatype Phase =
    | Looping
    | Draining(mark: nat)
    | Flushing(mark: nat, seen: nat)
    | Acknowledging(mark: nat, seen: nat)
    | Exited

  /** `uncounted` items are in the channel but not yet in `totalQueued`. The
      program keeps neither `sent` nor `history`; they record what happened. */
  datatype Writer = Writer(
    cfg: Config, input: seq<Item>, closed: bool, buf: seq<Item>, phase: Phase, tables: Tables,
    success: nat, failure: nat, flushes: nat, kindStats: map<string, KindStats>, failLog: seq<seq<Item>>,
    totalQueued: nat, uncounted: nat, sent: seq<Item>, history: seq<Batch>)

  function Initial(cfg: Config, tables: Tables): Writer {
    Writer(cfg, [], false, [], Looping, tables, 0, 0, 0, map[], [], 0, 0, [], [])
  }

  // ---- Counting ------------------------------------------------------------

  function CountKind(items: seq<Item>, kind: string): (n: nat)
    ensures n <= |items|
    ensures n > 0 <==> exists i :: 0 <= i < |items| && items[i].kind == kind
  {
    if items == [] then 0
    else
      assert forall i :: 1 <= i < |items| ==> items[i] == items[1..][i - 1];
      assert forall i :: 0 <= i < |items| - 1 ==> items[1..][i] == items[i + 1];
      (if items[0].kind == kind then 1 else 0) + CountKind(items[1..], kind)
  }

  function KindsIn(items: seq<Item>): set<string> {
    set i | 0 <= i < |items| :: items[i].kind
  }

  function BumpOne(st: KindStats, ok: bool, n: nat): KindStats {
    if ok then st.(successful := st.successful + n) else st.(failed := st.failed + n)
  }

  function StatsOf(stats: map<string, KindStats>, kind: string): KindStats {
    if kind in stats then stats[kind] else KindStats(0, 0)
  }

  function BumpKinds(stats: map<string, KindStats>, items: seq<Item>, ok: bool): map<string, KindStats> {
    map k | k in stats.Keys + KindsIn(items) :: BumpOne(StatsOf(stats, k), ok, CountKind(items, k))
  }

  // ---- Steps ---------------------------------------------------------------

  function FlushBuf(w: Writer, faults: Faults): Writer {
    if w.buf == [] then w
    else
      var r := Flush(w.tables, w.buf, w.cfg.kinds, w.cfg.mode, faults);
      w.(buf := [],
         tables := r.tables,
         success := if r.ok then w.success + |w.buf| else w.success,
         failure := if r.ok then w.failure else w.failure + |w.buf|,
         flushes := w.flushes + 1,
         kindStats := BumpKinds(w.kindStats, w.buf, r.ok),
         failLog := if r.ok || !w.cfg.logFailures then w.failLog else w.failLog + [w.buf],
         history := w.history + [Batch(w.buf, faults, r.ok, r.dispatched)])
  }

  /** An item arrives in the buffer, which is flushed when full. */
  function Push(w: Writer, faults: Faults): Writer
    requires w.input != []
  {
    var w1 := w.(input := w.input[1..], buf := w.buf + [w.input[0]]);
    if |w1.buf| >= w.cfg.maxBatch then FlushBuf(w1, faults) else w1
  }

  datatype Event =
    | Send(it: Item)                 // a producer's channel send
    | CountSend                      // the same producer's totalQueued.Add
    | CloseInput
    | Receive(faults: Faults)        // the loop takes an item
    | AcceptFlush                    // the loop takes a flush request
    | DrainOne(faults: Faults)
    | SeeEmpty                       // the drain finds nothing more
    | FlushForRequest(faults: Faults)
    | Acknowledge                    // the Flush call returns
    | Tick(faults: Faults)
    | SeeClosed(faults: Faults)      // closed and drained: final flush

  predicate Enabled(w: Writer, e: Event) {
    match e
    case Send(_) => !w.closed && |w.input| < w.cfg.inputCap
    case CountSend => w.uncounted > 0
    case CloseInput => !w.closed && w.uncounted == 0
    case Receive(_) => w.phase.Looping? && w.input != []
    case AcceptFlush => w.phase.Looping?
    case DrainOne(_) => w.phase.Draining? && w.input != []
    case SeeEmpty => w.phase.Draining? && w.input == []
    case FlushForRequest(_) => w.phase.Flushing?
    case Acknowledge => w.phase.Acknowledging?
    case Tick(_) => w.phase.Looping?
    case SeeClosed(_) => w.phase.Looping? && w.closed && w.input == []
  }

  function Apply(w: Writer, e: Event): Writer
    requires Enabled(w, e)
  {
    match e
    case Send(it) => w.(input := w.input + [it], sent := w.sent + [it], uncounted := w.uncounted + 1)
    case CountSend => w.(uncounted := w.uncounted - 1, totalQueued := w.totalQueued + 1)
    case CloseInput => w.(closed := true)
    case Receive(f) => Push(w, f)
    case AcceptFlush => w.(phase := Draining(|w.sent|))
    case DrainOne(f) => Push(w, f)
    case SeeEmpty => w.(phase := Flushing(w.phase.mark, |w.sent|))
    case FlushForRequest(f) => FlushBuf(w, f).(phase := Acknowledging(w.phase.mark, w.phase.seen))
    case Acknowledge => w.(phase := Looping)
    case Tick(f) => FlushBuf(w, f)
    case SeeClosed(f) => FlushBuf(w, f).(phase := Exited)
  }

  predicate Runs(w: Writer, es: seq<Event>)
    decreases |es|
  {
    es == [] || (Enabled(w, es[0]) && Runs(Apply(w, es[0]), es[1..]))
  }

  function Exec(w: Writer, es: seq<Event>): Writer
    requires Runs(w, es)
    decreases |es|
  {
    if es == [] then w else Exec(Apply(w, es[0]), es[1..])
  }
}
