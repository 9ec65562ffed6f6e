/** The map of atomic counters with double-checked creation: concurrent adds as
    interleaved lock sections, and the data structure itself. */
module CounterMapModel {

  /** Where an Add call is: before its read-locked check, after missing, holding a
      counter, or returned. */
  datatype Pc = Start | Missed | Found(cell: nat) | Done

  datatype Adder = Adder(key: string, n: int, pc: Pc)

  datatype State = State(index: map<string, nat>, cells: seq<int>, adders: seq<Adder>)

  datatype Event = Check(i: nat) | Create(i: nat) | Bump(i: nat)

  predicate Enabled(s: State, e: Event) {
    && e.i < |s.adders|
    && match e
       case Check(i) => s.adders[i].pc.Start?
       case Create(i) => s.adders[i].pc.Missed?
       case Bump(i) => s.adders[i].pc.Found? && s.adders[i].pc.cell < |s.cells|
  }

  function Move(s: State, i: nat, pc: Pc): State
    requires i < |s.adders|
  {
    s.(adders := s.adders[i := s.adders[i].(pc := pc)])
  }

  function Apply(s: State, e: Event): State
    requires Enabled(s, e)
  {
    var a := s.adders[e.i];
    match e
    case Check(i) => Move(s, i, if a.key in s.index then Found(s.index[a.key]) else Missed)
    case Create(i) =>
      // the key may have been created since the check
      if a.key in s.index then Move(s, i, Found(s.index[a.key]))
      else Move(s, i, Found(|s.cells|)).(index := s.index[a.key := |s.cells|], cells := s.cells + [0])
    case Bump(i) => Move(s, i, Done).(cells := s.cells[a.pc.cell := s.cells[a.pc.cell] + a.n])
  }

  predicate Runs(s: State, es: seq<Event>)
    decreases |es|
  {
    es == [] || (Enabled(s, es[0]) && Runs(Apply(s, es[0]), es[1..]))
  }

  function Exec(s: State, es: seq<Event>): State
    requires Runs(s, es)
    decreases |es|
  {
    if es == [] then s else Exec(Apply(s, es[0]), es[1..])
  }

  function Initial(calls: seq<(string, int)>): State {
    State(map[], [], seq(|calls|, i requires 0 <= i < |calls| => Adder(calls[i].0, calls[i].1, Start)))
  }

  /** What the returned calls have added under a key. */
  function Returned(adders: seq<Adder>, key: string): int {
    if adders == [] then 0
    else (if adders[0].pc.Done? && adders[0].key == key then adders[0].n else 0) + Returned(adders[1..], key)
  }

  function Requested(calls: seq<(string, int)>, key: string): int {
    if calls == [] then 0 else (if calls[0].0 == key then calls[0].1 else 0) + Requested(calls[1..], key)
  }

  /** What the cells hold at one moment. */
  function Held(s: State): map<string, int>
    requires CellsIndexed(s)
  {
    map k | k in s.index :: s.cells[s.index[k]]
  }

  predicate CellsIndexed(s: State) {
    forall k :: k in s.index ==> s.index[k] < |s.cells|
  }

  /** One cell per key. */
  ghost predicate OneCellPerKey(s: State) {
    && CellsIndexed(s)
    && (forall k, k' :: k in s.index && k' in s.index && s.index[k] == s.index[k'] ==> k == k')
    && |s.cells| == |s.index|
  }

  /** Who has found a counter found its key's counter, and keys come from calls. */
  ghost predicate CallsFit(s: State) {
    && (forall i :: 0 <= i < |s.adders| ==> AdderFits(s, s.adders[i]))
    && (forall k :: k in s.index ==> exists i :: 0 <= i < |s.adders| && s.adders[i].key == k)
  }

  predicate AdderFits(s: State, a: Adder) {
    && (a.pc.Found? ==> a.key in s.index && s.index[a.key] == a.pc.cell)
    && (a.pc.Done? ==> a.key in s.index)
  }

  ghost predicate ValuesFit(s: State)
    requires CellsIndexed(s)
  {
    forall k :: k in s.index ==> s.cells[s.index[k]] == Returned(s.adders, k)
  }

  ghost predicate Inv(s: State) {
    OneCellPerKey(s) && CallsFit(s) && ValuesFit(s)
  }

  lemma {:induction false} ReturnedAfterMove(adders: seq<Adder>, i: nat, pc: Pc, key: string)
    requires i < |adders| && !adders[i].pc.Done?
    ensures Returned(adders[i := adders[i].(pc := pc)], key)
         == Returned(adders, key) + (if pc.Done? && adders[i].key == key then adders[i].n else 0)
  {
    var moved := adders[i := adders[i].(pc := pc)];
    if i == 0 {
      assert moved[1..] == adders[1..];
    } else {
      assert moved[1..] == adders[1..][i - 1 := adders[1..][i - 1].(pc := pc)];
      ReturnedAfterMove(adders[1..], i - 1, pc, key);
    }
  }

  lemma {:induction false} NothingReturned(adders: seq<Adder>, key: string)
    requires forall i :: 0 <= i < |adders| && adders[i].key == key ==> !adders[i].pc.Done?
    ensures Returned(adders, key) == 0
  {
    if adders != [] {
      NothingReturned(adders[1..], key);
    }
  }

  predicate SameCalls(s: State, t: State) {
    && |t.adders| == |s.adders|
    && forall i :: 0 <= i < |s.adders| ==> t.adders[i].key == s.adders[i].key && t.adders[i].n == s.adders[i].n
  }

  lemma CreateKeepsCells(s: State, key: string)
    requires OneCellPerKey(s) && key !in s.index
    ensures OneCellPerKey(s.(index := s.index[key := |s.cells|], cells := s.cells + [0]))
  {
    var index := s.index[key := |s.cells|];
    assert index.Keys == s.index.Keys + {key};
    assert |index| == |index.Keys| && |s.index| == |s.index.Keys|;
  }

  lemma StepKeepsCells(s: State, e: Event)
    requires OneCellPerKey(s) && Enabled(s, e)
    ensures OneCellPerKey(Apply(s, e)) && SameCalls(s, Apply(s, e))
  {
    var key := s.adders[e.i].key;
    if e.Create? && key !in s.index {
      CreateKeepsCells(s, key);
    }
  }

  lemma StepKeepsAdders(s: State, e: Event)
    requires CallsFit(s) && Enabled(s, e)
    ensures forall i :: 0 <= i < |Apply(s, e).adders| ==> AdderFits(Apply(s, e), Apply(s, e).adders[i])
  {
    CellsStay(s, e);
    assert AdderFits(s, s.adders[e.i]);
  }

  lemma StepKeepsCalls(s: State, e: Event)
    requires CallsFit(s) && Enabled(s, e)
    ensures CallsFit(Apply(s, e))
  {
    var t := Apply(s, e);
    StepKeepsAdders(s, e);
    forall k | k in t.index ensures exists i :: 0 <= i < |t.adders| && t.adders[i].key == k {
      if k in s.index {
        var i :| 0 <= i < |s.adders| && s.adders[i].key == k;
        assert t.adders[i].key == k;
      } else {
        assert t.adders[e.i].key == k;
      }
    }
  }

  lemma StepKeepsValueAt(s: State, e: Event, k: string)
    requires Inv(s) && Enabled(s, e) && k in Apply(s, e).index
    requires OneCellPerKey(Apply(s, e))
    ensures Apply(s, e).cells[Apply(s, e).index[k]] == Returned(Apply(s, e).adders, k)
  {
    var t := Apply(s, e);
    var a := s.adders[e.i];
    ReturnedAfterMove(s.adders, e.i, t.adders[e.i].pc, k);
    assert t.adders == s.adders[e.i := a.(pc := t.adders[e.i].pc)];
    if k !in s.index {
      NothingReturned(s.adders, k);
    }
  }

  lemma StepKeepsValues(s: State, e: Event)
    requires Inv(s) && Enabled(s, e) && OneCellPerKey(Apply(s, e))
    ensures ValuesFit(Apply(s, e))
  {
    forall k | k in Apply(s, e).index
      ensures Apply(s, e).cells[Apply(s, e).index[k]] == Returned(Apply(s, e).adders, k)
    {
      StepKeepsValueAt(s, e, k);
    }
  }

  /** A key's cell once created is its cell for good. */
  lemma CellsStay(s: State, e: Event)
    requires Enabled(s, e)
    ensures forall k :: k in s.index ==> k in Apply(s, e).index && Apply(s, e).index[k] == s.index[k]
  {
  }

  /** Every step keeps one cell per key, for good. */
  lemma StepKeepsInv(s: State, e: Event)
    requires Inv(s) && Enabled(s, e)
    ensures Inv(Apply(s, e)) && SameCalls(s, Apply(s, e))
    ensures forall k :: k in s.index ==> k in Apply(s, e).index && Apply(s, e).index[k] == s.index[k]
  {
    StepKeepsCells(s, e);
    StepKeepsCalls(s, e);
    StepKeepsValues(s, e);
    CellsStay(s, e);
  }

  lemma {:induction false} RunKeepsInv(s: State, es: seq<Event>)
    requires Inv(s) && Runs(s, es)
    ensures var t := Exec(s, es);
            Inv(t) && SameCalls(s, t)
    decreases |es|
  {
    if es != [] {
      StepKeepsInv(s, es[0]);
      RunKeepsInv(Apply(s, es[0]), es[1..]);
    }
  }

  lemma {:induction false} AllReturned(adders: seq<Adder>, calls: seq<(string, int)>, key: string)
    requires |adders| == |calls|
    requires forall i :: 0 <= i < |adders| ==> adders[i] == Adder(calls[i].0, calls[i].1, Done)
    ensures Returned(adders, key) == Requested(calls, key)
  {
    if adders != [] {
      AllReturned(adders[1..], calls[1..], key);
    }
  }

  /** Once every call has returned, the cells hold what was requested. */
  lemma {:induction false} AllDoneHoldsRequests(s: State, calls: seq<(string, int)>)
    requires Inv(s) && |s.adders| == |calls|
    requires forall i :: 0 <= i < |calls| ==> s.adders[i] == Adder(calls[i].0, calls[i].1, Done)
    ensures forall k :: k in s.index <==> exists i :: 0 <= i < |calls| && calls[i].0 == k
    ensures forall k :: k in s.index ==> s.cells[s.index[k]] == Requested(calls, k)
  {
    forall k ensures k in s.index <==> exists i :: 0 <= i < |calls| && calls[i].0 == k {
      if k in s.index {
        var i :| 0 <= i < |s.adders| && s.adders[i].key == k;
        assert calls[i].0 == k;
      }
      if i :| 0 <= i < |calls| && calls[i].0 == k {
        assert s.adders[i].pc.Done? && s.adders[i].key == k;
      }
    }
    forall k | k in s.index ensures s.cells[s.index[k]] == Requested(calls, k) {
      AllReturned(s.adders, calls, k);
    }
  }

  predicate AllDone(s: State) {
    forall i :: 0 <= i < |s.adders| ==> s.adders[i].pc.Done?
  }

  /** No lost update: whatever the interleaving, the cells hold at any moment for each
      key exactly what the returned calls added, with one cell per key; once all calls
      have returned they hold the requested totals, for exactly the requested keys. */
  lemma NoLostUpdate(calls: seq<(string, int)>, es: seq<Event>)
    requires Runs(Initial(calls), es)
    ensures var s := Exec(Initial(calls), es);
            && CellsIndexed(s)
            && |s.cells| == |s.index|
            && (forall k :: k in Held(s) ==> Held(s)[k] == Returned(s.adders, k))
            && (forall k :: k !in Held(s) ==> Returned(s.adders, k) == 0)
            && (AllDone(s) ==>
                  && (forall k :: k in Held(s) <==> exists i :: 0 <= i < |calls| && calls[i].0 == k)
                  && (forall k :: k in Held(s) ==> Held(s)[k] == Requested(calls, k)))
  {
    var s0 := Initial(calls);
    RunKeepsInv(s0, es);
    var s := Exec(s0, es);
    forall k | k !in s.index ensures Returned(s.adders, k) == 0 {
      NothingReturned(s.adders, k);
    }
    if AllDone(s) {
      forall i | 0 <= i < |calls| ensures s.adders[i] == Adder(calls[i].0, calls[i].1, Done) {
        assert s0.adders[i].key == calls[i].0;
      }
      AllDoneHoldsRequests(s, calls);
    }
  }
}

/** The counter map and its atomic cells, updated in place. */
module CounterMaps {

  class AtomicInt64 {
    var value: int

    constructor ()
      ensures value == 0
    {
      value := 0;
    }

    method Add(n: int)
      modifies this
      ensures value == old(value) + n
    {
      value := value + n;
    }
  }

  class CounterMap {
    var counters: map<string, AtomicInt64>

    ghost function Cells(): set<AtomicInt64>
      reads this
    {
      counters.Values
    }

    /** No two keys share a counter. */
    ghost predicate Valid()
      reads this
    {
      forall k, k' :: k in counters && k' in counters && counters[k] == counters[k'] ==> k == k'
    }

    ghost function Contents(): map<string, int>
      reads this, Cells()
    {
      map k | k in counters :: counters[k].value
    }

    constructor ()
      ensures Valid() && Contents() == map[] && counters == map[]
    {
      counters := map[];
    }

    /** The counter for the key, created unless it exists by the time the write lock
        is held. */
    method FindOrCreate(key: string) returns (counter: AtomicInt64)
      requires Valid()
      modifies this
      ensures Valid() && fresh(Cells() - old(Cells()))
      ensures key in counters && counters[key] == counter
      ensures if key in old(counters) then counters == old(counters)
              else fresh(counter) && counter.value == 0 && counters == old(counters)[key := counter]
    {
      if key in counters {
        return counters[key];
      }
      counter := new AtomicInt64();
      counters := counters[key := counter];
    }

    /** Looks the key up, and again under the write lock if it is missing; then adds. */
    method Add(key: string, n: int)
      requires Valid()
      modifies this, Cells()
      ensures Valid() && fresh(Cells() - old(Cells()))
      ensures Contents() == old(Contents())[key := (if key in old(Contents()) then old(Contents())[key] else 0) + n]
    {
      if key in counters {
        assert counters[key] in Cells();
        counters[key].Add(n);
        return;
      }
      var counter := FindOrCreate(key);
      counter.Add(n);
    }

    /** A copy of all counters, loaded one by one. */
    method Snapshot() returns (result: map<string, int>)
      requires Valid()
      ensures result == Contents()
    {
      result := map[];
      var left := counters.Keys;
      while left != {}
        invariant left <= counters.Keys
        invariant result.Keys == counters.Keys - left
        invariant forall k :: k in result ==> result[k] == counters[k].value
        decreases left
      {
        var key :| key in left;
        result := result[key := counters[key].value];
        left := left - {key};
      }
    }
  }
}
