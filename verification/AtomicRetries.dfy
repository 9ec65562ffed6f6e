/** How often releases can go round their compare-and-swap loops. */
module AtomicRetries {
  import opened ThrottleAtomic

  /** The steps a release still takes if `live` does not change again. */
  function RetryWork(changes: nat, w: Worker): nat {
    match w.pc
    case Outside => 0
    case Holding => 3
    case LoadedLive(_, at) => if at == changes then 2 else 5
    case LoadedBoth(_, _, at) => if at == changes then 1 else 4
  }

  function RetriesLeft(changes: nat, ws: seq<Worker>): nat {
    if ws == [] then 0 else RetryWork(changes, ws[0]) + RetriesLeft(changes, ws[1..])
  }

  function Retries(s: Atomics): nat {
    RetriesLeft(s.changes, s.workers)
  }

  lemma {:induction false} RetriesAfterMove(changes: nat, ws: seq<Worker>, i: nat, w: Worker)
    requires i < |ws|
    ensures RetriesLeft(changes, ws[i := w]) + RetryWork(changes, ws[i]) == RetriesLeft(changes, ws) + RetryWork(changes, w)
  {
    if i == 0 {
      assert ws[i := w][1..] == ws[1..];
    } else {
      assert ws[i := w][1..] == ws[1..][i - 1 := w];
      RetriesAfterMove(changes, ws[1..], i - 1, w);
    }
  }

  function LoadedAt(w: Worker): nat {
    if w.pc.LoadedLive? || w.pc.LoadedBoth? then w.pc.at else 0
  }

  /** A change of `live` sends each release that has loaded it round once more. */
  lemma {:induction false} RetriesAfterChange(changes: nat, ws: seq<Worker>)
    requires forall i :: 0 <= i < |ws| ==> LoadedAt(ws[i]) <= changes
    ensures RetriesLeft(changes + 1, ws) <= RetriesLeft(changes, ws) + 3 * |ws|
  {
    if ws != [] {
      assert LoadedAt(ws[0]) <= changes;
      RetriesAfterChange(changes, ws[1..]);
    }
  }

  predicate IsReleaseStep(e: Event) {
    e.LoadLive? || e.LoadLimit? || e.Cas? || e.Send?
  }

  /** What a step can add to the release steps still to come. */
  function Adds(s: Atomics, e: Event): nat
    requires Enabled(s, e)
  {
    if e.Acquire? then 3
    else if Apply(s, e).changes != s.changes then 3 * |s.workers|
    else 0
  }

  lemma WorkerStepRetries(s: Atomics, e: Event)
    requires Inv(s) && Enabled(s, e) && IsWorkerStep(e)
    ensures Retries(Apply(s, e)) + (if IsReleaseStep(e) then 1 else 0) <= Retries(s) + Adds(s, e)
  {
    var t := Apply(s, e);
    StepFrame(s, e);
    assert LoadsAreHonest(s, s.workers[e.w]);
    RetriesAfterMove(s.changes, s.workers, e.w, t.workers[e.w]);
    if t.changes != s.changes {
      forall i | 0 <= i < |t.workers| ensures LoadedAt(t.workers[i]) <= s.changes {
        assert LoadsAreHonest(s, s.workers[i]);
      }
      RetriesAfterChange(s.changes, t.workers);
    }
  }

  lemma StepRetries(s: Atomics, e: Event)
    requires Inv(s) && Enabled(s, e)
    ensures Retries(Apply(s, e)) + (if IsReleaseStep(e) then 1 else 0) <= Retries(s) + Adds(s, e)
  {
    StepFrame(s, e);
    if IsWorkerStep(e) {
      WorkerStepRetries(s, e);
    } else if e.SubtractLive? || e.AddLive? {
      forall i | 0 <= i < |s.workers| ensures LoadedAt(s.workers[i]) <= s.changes {
        assert LoadsAreHonest(s, s.workers[i]);
      }
      RetriesAfterChange(s.changes, s.workers);
    }
  }

  function ReleaseSteps(es: seq<Event>): nat {
    if es == [] then 0 else (if IsReleaseStep(es[0]) then 1 else 0) + ReleaseSteps(es[1..])
  }

  function Acquires(es: seq<Event>): nat {
    if es == [] then 0 else (if es[0].Acquire? then 1 else 0) + Acquires(es[1..])
  }

  function AllAdds(s: Atomics, es: seq<Event>): nat
    requires Runs(s, es)
    decreases |es|
  {
    if es == [] then 0 else Adds(s, es[0]) + AllAdds(Apply(s, es[0]), es[1..])
  }

  lemma {:induction false} RunRetries(s: Atomics, es: seq<Event>)
    requires Inv(s) && Runs(s, es)
    ensures ReleaseSteps(es) + Retries(Exec(s, es)) <= Retries(s) + AllAdds(s, es)
    decreases |es|
  {
    if es != [] {
      StepKeepsInv(s, es[0]);
      StepRetries(s, es[0]);
      RunRetries(Apply(s, es[0]), es[1..]);
    }
  }

  lemma OneMore(k: nat, d: int)
    ensures k * (d + 1) == k * d + k
  {
  }

  lemma {:induction false} AddsPerChange(s: Atomics, es: seq<Event>, k: nat)
    requires Runs(s, es) && k == 3 * |s.workers|
    ensures AllAdds(s, es) == 3 * Acquires(es) + k * (Exec(s, es).changes - s.changes)
    decreases |es|
  {
    if es != [] {
      var t := Apply(s, es[0]);
      StepFrame(s, es[0]);
      ChangesCountLiveChanges(s, es[0]);
      AddsPerChange(t, es[1..], k);
      OneMore(k, Exec(s, es).changes - t.changes);
    }
  }

  /** Releases cannot spin by themselves: over any run they take at most three steps
      per token acquired, and three per worker each time `live` changes. */
  lemma ReleasesAreBounded(s: Atomics, es: seq<Event>)
    requires Inv(s) && Runs(s, es)
    ensures ReleaseSteps(es) + Retries(Exec(s, es))
         <= Retries(s) + 3 * Acquires(es) + (3 * |s.workers|) * (Exec(s, es).changes - s.changes)
  {
    RunRetries(s, es);
    AddsPerChange(s, es, 3 * |s.workers|);
  }
}
