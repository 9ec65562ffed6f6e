/** From the dropped tracker to the counted success or failure: counters, outcomes and
    history agree in every reachable state, up to the workers in between. */
module PipelineSettlement {
  import opened Sums
  import opened PipelineModel
  import opened PipelineStructure
  import opened PipelineTrackers
  import opened PipelineOutcomes
  import Throttle = ThrottleModel

  // ---- Workers in between ----------------------------------------------------

  /** The tracker is dropped and the site not yet counted as completed. */
  function IsClosing(w: Worker): nat {
    if w.pc.Closing? then 1 else 0
  }

  /** The site is counted as completed, not yet as a success or by its outcome. */
  function IsSettling(w: Worker): nat {
    if w.pc.Settling? then 1 else 0
  }

  /** The outcome is recorded and the failure not yet counted. */
  function IsFailing(w: Worker): nat {
    if w.pc.Failing? then 1 else 0
  }

  function ClosingCount(s: State): nat {
    Sum(s.pool.workers, IsClosing)
  }

  function SettlingCount(s: State): nat {
    Sum(s.pool.workers, IsSettling)
  }

  function FailingCount(s: State): nat {
    Sum(s.pool.workers, IsFailing)
  }

  function HandOn(w: Worker, site: Site): nat {
    if (w.pc.Closing? || w.pc.Settling?) && w.pc.tracker.site == site then 1 else 0
  }

  function CountHand(ws: seq<Worker>, site: Site): nat {
    if ws == [] then 0 else HandOn(ws[0], site) + CountHand(ws[1..], site)
  }

  lemma {:induction false} HandAfterMove(ws: seq<Worker>, i: nat, w: Worker, site: Site)
    requires i < |ws|
    ensures CountHand(ws[i := w], site) + HandOn(ws[i], site) == CountHand(ws, site) + HandOn(w, site)
  {
    if i == 0 {
      assert ws[i := w][1..] == ws[1..];
    } else {
      assert ws[i := w][1..] == ws[1..][i - 1 := w];
      HandAfterMove(ws[1..], i - 1, w, site);
    }
  }

  lemma {:induction false} NothingInHand(ws: seq<Worker>, site: Site)
    requires forall i :: 0 <= i < |ws| ==> ws[i].pc.Idle? || ws[i].pc.Exited?
    ensures CountHand(ws, site) == 0
  {
    if ws != [] {
      NothingInHand(ws[1..], site);
    }
  }

  // ---- Invariant -------------------------------------------------------------

  /** The tracker a worker goes on with is the one the API answers call for. */
  predicate HandFits(cfg: Config, w: Worker) {
    w.pc.Closing? || w.pc.Settling? ==>
      var t := w.pc.tracker;
      t.user == ExpectedUser(cfg, t.site) && t.group == ExpectedGroup(cfg, t.site)
  }

  ghost predicate Recorded(cfg: Config, s: State) {
    var b, c := s.book, s.book.counters;
    && b.outcomes == ExpectedOutcomes(cfg, b.settled)
    && c.completed + ClosingCount(s) == |b.finished|
    && |b.settled| + SettlingCount(s) == c.completed
    && c.succeeded + c.failed + FailingCount(s) == |b.settled|
    && c.failed + FailingCount(s) == |b.outcomes|
    && c.dispatched == |b.dispatched|
    && (forall i :: 0 <= i < |s.pool.workers| ==> HandFits(cfg, s.pool.workers[i]))
  }

  predicate HandedOn(s: State, site: Site) {
    multiset(s.book.finished)[site] == multiset(s.book.settled)[site] + CountHand(s.pool.workers, site)
  }

  /** Every site whose tracker was dropped is settled or in hand, once. */
  ghost predicate AllHandedOn(s: State) {
    forall site :: HandedOn(s, site)
  }

  lemma BetweenAfterMove(s: State, t: State, w: nat)
    requires OnlyWorker(s, t, w)
    ensures ClosingCount(t) + IsClosing(s.pool.workers[w]) == ClosingCount(s) + IsClosing(t.pool.workers[w])
    ensures SettlingCount(t) + IsSettling(s.pool.workers[w]) == SettlingCount(s) + IsSettling(t.pool.workers[w])
    ensures FailingCount(t) + IsFailing(s.pool.workers[w]) == FailingCount(s) + IsFailing(t.pool.workers[w])
  {
    SumUpdate(s.pool.workers, w, t.pool.workers[w], IsClosing);
    SumUpdate(s.pool.workers, w, t.pool.workers[w], IsSettling);
    SumUpdate(s.pool.workers, w, t.pool.workers[w], IsFailing);
  }

  /** A step that neither settles anything nor touches what is settled. */
  ghost predicate Apart(s: State, t: State) {
    && t.book.outcomes == s.book.outcomes && t.book.settled == s.book.settled && t.book.finished == s.book.finished
    && t.book.counters.completed == s.book.counters.completed
    && t.book.counters.succeeded == s.book.counters.succeeded
    && t.book.counters.failed == s.book.counters.failed
    && t.book.counters.dispatched == s.book.counters.dispatched
    && t.book.dispatched == s.book.dispatched
  }

  predicate Between(pc: Pc) {
    pc.Closing? || pc.Settling? || pc.Failing?
  }

  lemma WorkerStepIsApart(cfg: Config, s: State, w: nat, act: WorkerAct)
    requires WorkerEnabled(s, w, act) && Tracked(cfg, s)
    ensures var t := ApplyWorker(cfg, s, w, act);
            Apart(s, t) && !Between(s.pool.workers[w].pc) && !Between(t.pool.workers[w].pc)
  {
    if act.LookUp? {
      LookUpSucceeds(cfg, s, w);
    }
  }

  lemma ApartMoveKeepsRecorded(cfg: Config, s: State, t: State, w: nat)
    requires OnlyWorker(s, t, w) && Apart(s, t) && !Between(s.pool.workers[w].pc) && !Between(t.pool.workers[w].pc)
    requires Recorded(cfg, s) && AllHandedOn(s)
    ensures Recorded(cfg, t) && AllHandedOn(t)
  {
    BetweenAfterMove(s, t, w);
    forall site ensures HandedOn(t, site) {
      assert HandedOn(s, site);
      HandAfterMove(s.pool.workers, w, t.pool.workers[w], site);
    }
  }

  // ---- The steps in between --------------------------------------------------

  /** The last worker finds its site's tracker complete. */
  lemma FinishTakesCompleteTracker(cfg: Config, s: State, w: nat)
    requires EndEnabled(s, w, Finish) && Tracked(cfg, s) && PartsFit(cfg, s)
    ensures HandFits(cfg, FinishSite(s, w).pool.workers[w])
    ensures FinishSite(s, w).book.finished == s.book.finished + [s.pool.workers[w].pc.site]
    ensures FinishSite(s, w).pool.workers[w].pc.tracker.site == s.pool.workers[w].pc.site
  {
    var u := s.pool.workers[w].pc.site.url;
    assert WorkerKnown(s, s.pool.workers[w]);
    assert SettledAt(cfg, s, u) && TrackedAt(cfg, s, u);
    CountsAfterMove(s.pool.workers, w, s.pool.workers[w], UserRole, u);
  }

  lemma FinishKeepsRecorded(cfg: Config, s: State, w: nat)
    requires EndEnabled(s, w, Finish) && Tracked(cfg, s) && PartsFit(cfg, s) && Recorded(cfg, s)
    ensures Recorded(cfg, FinishSite(s, w))
  {
    EndFrame(s, w, Finish);
    BetweenAfterMove(s, FinishSite(s, w), w);
    FinishTakesCompleteTracker(cfg, s, w);
  }

  lemma CompleteKeepsRecorded(cfg: Config, s: State, w: nat)
    requires EndEnabled(s, w, Complete) && Recorded(cfg, s)
    ensures Recorded(cfg, CompleteSite(s, w))
  {
    EndFrame(s, w, Complete);
    BetweenAfterMove(s, CompleteSite(s, w), w);
    assert HandFits(cfg, s.pool.workers[w]);
  }

  lemma SettleRecords(cfg: Config, s: State, w: nat)
    requires EndEnabled(s, w, Settle) && Recorded(cfg, s)
    ensures SettleSite(s, w).book.outcomes == ExpectedOutcomes(cfg, SettleSite(s, w).book.settled)
  {
    var t := s.pool.workers[w].pc.tracker;
    assert HandFits(cfg, s.pool.workers[w]);
    assert (s.book.settled + [t.site])[..|s.book.settled + [t.site]| - 1] == s.book.settled;
  }

  lemma SettleKeepsRecorded(cfg: Config, s: State, w: nat)
    requires EndEnabled(s, w, Settle) && Recorded(cfg, s)
    ensures Recorded(cfg, SettleSite(s, w))
  {
    EndFrame(s, w, Settle);
    SettleRecords(cfg, s, w);
    BetweenAfterMove(s, SettleSite(s, w), w);
  }

  lemma CountFailureKeepsRecorded(cfg: Config, s: State, w: nat)
    requires EndEnabled(s, w, CountFailed) && Recorded(cfg, s)
    ensures Recorded(cfg, CountFailure(s, w))
  {
    EndFrame(s, w, CountFailed);
    BetweenAfterMove(s, CountFailure(s, w), w);
  }

  lemma ReleaseKeepsRecorded(cfg: Config, s: State, w: nat, op: ReleaseOp)
    requires EndEnabled(s, w, Release(op)) && Recorded(cfg, s)
    ensures Recorded(cfg, ReleaseOn(s, w, op))
  {
    EndFrame(s, w, Release(op));
    BetweenAfterMove(s, ReleaseOn(s, w, op), w);
  }

  lemma EndStepKeepsRecorded(cfg: Config, s: State, w: nat, ending: EndAct)
    requires EndEnabled(s, w, ending) && Tracked(cfg, s) && PartsFit(cfg, s) && Recorded(cfg, s)
    ensures Recorded(cfg, ApplyEnd(s, w, ending))
  {
    match ending
    case Finish => FinishKeepsRecorded(cfg, s, w);
    case Complete => CompleteKeepsRecorded(cfg, s, w);
    case Settle => SettleKeepsRecorded(cfg, s, w);
    case CountFailed => CountFailureKeepsRecorded(cfg, s, w);
    case Release(op) => ReleaseKeepsRecorded(cfg, s, w, op);
  }

  lemma FinishHandsOn(cfg: Config, s: State, w: nat, site: Site)
    requires EndEnabled(s, w, Finish) && Tracked(cfg, s) && PartsFit(cfg, s) && HandedOn(s, site)
    ensures HandedOn(FinishSite(s, w), site)
  {
    EndFrame(s, w, Finish);
    HandAfterMove(s.pool.workers, w, FinishSite(s, w).pool.workers[w], site);
    FinishTakesCompleteTracker(cfg, s, w);
  }

  lemma LaterStepHandsOn(s: State, w: nat, ending: EndAct, site: Site)
    requires EndEnabled(s, w, ending) && !ending.Finish?
    ensures var t := ApplyEnd(s, w, ending);
            && t.book.finished == s.book.finished
            && multiset(t.book.settled)[site] + HandOn(t.pool.workers[w], site)
            == multiset(s.book.settled)[site] + HandOn(s.pool.workers[w], site)
  {
  }

  lemma EndStepKeepsHandedOn(cfg: Config, s: State, w: nat, ending: EndAct, site: Site)
    requires EndEnabled(s, w, ending) && Tracked(cfg, s) && PartsFit(cfg, s) && HandedOn(s, site)
    ensures HandedOn(ApplyEnd(s, w, ending), site)
  {
    if ending.Finish? {
      FinishHandsOn(cfg, s, w, site);
    } else {
      var t := ApplyEnd(s, w, ending);
      assert t.pool.workers == s.pool.workers[w := t.pool.workers[w]] by {
        EndFrame(s, w, ending);
      }
      HandAfterMove(s.pool.workers, w, t.pool.workers[w], site);
      LaterStepHandsOn(s, w, ending, site);
    }
  }

  // ---- All steps ---------------------------------------------------------------

  lemma OtherStepIsApart(cfg: Config, s: State, e: Event)
    requires Enabled(cfg, s, e) && IsFar(e)
    ensures Apart(s, Apply(cfg, s, e)) && Apply(cfg, s, e).pool.workers == s.pool.workers
  {
    match e
    case Filter(f) => FilterFrame(cfg, s, f);
    case Sink(x) => SinkFrame(cfg, s, x);
    case Monitor(_) =>
  }

  lemma SamePoolKeepsRecorded(cfg: Config, s: State, t: State)
    requires t.pool.workers == s.pool.workers && Recorded(cfg, s) && AllHandedOn(s)
    requires t.book.outcomes == s.book.outcomes && t.book.settled == s.book.settled && t.book.finished == s.book.finished
    requires t.book.counters.completed == s.book.counters.completed
             && t.book.counters.succeeded == s.book.counters.succeeded && t.book.counters.failed == s.book.counters.failed
    requires t.book.counters.dispatched == |t.book.dispatched|
    ensures Recorded(cfg, t) && AllHandedOn(t)
  {
    forall site ensures HandedOn(t, site) {
      assert HandedOn(s, site);
    }
  }

  lemma StepKeepsRecorded(cfg: Config, s: State, e: Event)
    requires Enabled(cfg, s, e) && Tracked(cfg, s) && PartsFit(cfg, s) && Recorded(cfg, s) && AllHandedOn(s)
    ensures Recorded(cfg, Apply(cfg, s, e)) && AllHandedOn(Apply(cfg, s, e))
  {
    var t := Apply(cfg, s, e);
    match e
    case Work(w, act) =>
      WorkerStepFrame(cfg, s, w, act);
      WorkerStepIsApart(cfg, s, w, act);
      ApartMoveKeepsRecorded(cfg, s, t, w);
    case End(w, ending) =>
      EndStepKeepsRecorded(cfg, s, w, ending);
      forall site ensures HandedOn(t, site) {
        assert HandedOn(s, site);
        EndStepKeepsHandedOn(cfg, s, w, ending, site);
      }
    case Dispatch(d) =>
      DispatchFrame(cfg, s, d);
      SamePoolKeepsRecorded(cfg, s, t);
    case Filter(_) =>
      OtherStepIsApart(cfg, s, e);
      SamePoolKeepsRecorded(cfg, s, t);
    case Sink(_) =>
      OtherStepIsApart(cfg, s, e);
      SamePoolKeepsRecorded(cfg, s, t);
    case Monitor(_) =>
      OtherStepIsApart(cfg, s, e);
      SamePoolKeepsRecorded(cfg, s, t);
  }

  lemma QuietPoolHasNoneBetween(s: State)
    requires forall i :: 0 <= i < |s.pool.workers| ==> s.pool.workers[i].pc.Idle? || s.pool.workers[i].pc.Exited?
    ensures ClosingCount(s) == SettlingCount(s) == FailingCount(s) == 0
    ensures forall site :: CountHand(s.pool.workers, site) == 0
  {
    SumZero(s.pool.workers, IsClosing);
    SumZero(s.pool.workers, IsSettling);
    SumZero(s.pool.workers, IsFailing);
    forall site ensures CountHand(s.pool.workers, site) == 0 {
      NothingInHand(s.pool.workers, site);
    }
  }

  lemma InitialRecorded(cfg: Config, raw: seq<Site>, userWorkers: nat, groupWorkers: nat,
                        signals: seq<(Throttle.ScaleAction, int)>, counts: seq<int>)
    requires |counts| == |signals|
    ensures var s := Initial(cfg, raw, userWorkers, groupWorkers, signals, counts);
            Recorded(cfg, s) && AllHandedOn(s)
  {
    var s := Initial(cfg, raw, userWorkers, groupWorkers, signals, counts);
    QuietPoolHasNoneBetween(s);
    assert forall site :: HandedOn(s, site);
  }
}
