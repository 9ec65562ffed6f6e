/** The database as the writer sees it: rows keyed by table and primary key, one
    operation per item, and a transaction around each batch. */
module StorageModel {

  /** An item on its way to storage. Its kind names the table; its key is the
      primary key, never null. */
  datatype Item = Item(kind: string, key: string, row: string)

  datatype RowId = RowId(table: string, key: string)

  type Tables = map<RowId, string>

  /** Plain inserts into a recreated database, upserts otherwise. */
  datatype WriteMode = Insert | Upsert

  /** What the database refuses during one flush, beyond duplicate keys: the begin,
      the operations at these positions, the commit. */
  datatype Faults = Faults(begin: bool, ops: set<nat>, commit: bool)

  const NO_FAULTS := Faults(false, {}, false)

  function IdOf(it: Item): RowId {
    RowId(it.kind, it.key)
  }

  function Write(t: Tables, it: Item): Tables {
    t[IdOf(it) := it.row]
  }

  function WriteAll(t: Tables, items: seq<Item>): Tables
    decreases |items|
  {
    if items == [] then t else WriteAll(Write(t, items[0]), items[1..])
  }

  predicate OpFails(t: Tables, it: Item, kinds: set<string>, mode: WriteMode, refused: bool) {
    it.kind !in kinds || refused || (mode.Insert? && IdOf(it) in t)
  }

  datatype Progress = Finished(tables: Tables) | Stopped(at: nat, tables: Tables)

  /** Items are executed one by one from position `i`; the first failure stops. */
  function RunOps(t: Tables, items: seq<Item>, i: nat, kinds: set<string>, mode: WriteMode, faults: Faults): Progress
    requires i <= |items|
    decreases |items| - i
  {
    if i == |items| then Finished(t)
    else if OpFails(t, items[i], kinds, mode, i in faults.ops) then Stopped(i, t)
    else RunOps(Write(t, items[i]), items, i + 1, kinds, mode, faults)
  }

  /** `dispatched` counts the items handed to a registered operation. */
  datatype FlushResult = FlushResult(ok: bool, tables: Tables, dispatched: nat)

  function Flush(t: Tables, items: seq<Item>, kinds: set<string>, mode: WriteMode, faults: Faults): FlushResult {
    if faults.begin then FlushResult(false, t, 0)
    else match RunOps(t, items, 0, kinds, mode, faults)
      case Stopped(at, _) =>
        FlushResult(false, t, if at < |items| && items[at].kind in kinds then at + 1 else at)
      case Finished(written) =>
        if faults.commit then FlushResult(false, t, |items|) else FlushResult(true, written, |items|)
  }

  // ---- Laws of writing -----------------------------------------------------

  lemma {:induction false} WriteAllAppend(t: Tables, xs: seq<Item>, ys: seq<Item>)
    ensures WriteAll(t, xs + ys) == WriteAll(WriteAll(t, xs), ys)
    decreases |xs|
  {
    if xs == [] {
      assert xs + ys == ys;
    } else {
      assert (xs + ys)[1..] == xs[1..] + ys;
      WriteAllAppend(Write(t, xs[0]), xs[1..], ys);
    }
  }

  /** Last write wins: a row is the last item written under its key, or what was
      there before if there is none. */
  lemma {:induction false} LastWriteWins(t: Tables, items: seq<Item>, id: RowId)
    ensures id in WriteAll(t, items) <==> id in t || exists i :: 0 <= i < |items| && IdOf(items[i]) == id
    ensures (forall i :: 0 <= i < |items| ==> IdOf(items[i]) != id) && id in t ==>
              id in WriteAll(t, items) && WriteAll(t, items)[id] == t[id]
    ensures forall last :: 0 <= last < |items| && IdOf(items[last]) == id
                           && (forall i :: last < i < |items| ==> IdOf(items[i]) != id) ==>
              id in WriteAll(t, items) && WriteAll(t, items)[id] == items[last].row
    decreases |items|
  {
    if items != [] {
      var n := |items| - 1;
      var init := items[..n];
      assert items == init + [items[n]];
      LastWriteWins(t, init, id);
      WriteAllAppend(t, init, [items[n]]);
      assert WriteAll(WriteAll(t, init), [items[n]]) == Write(WriteAll(t, init), items[n]) by {
        assert [items[n]][1..] == [];
      }
      assert forall i :: 0 <= i < n ==> init[i] == items[i];
    }
  }

  predicate DistinctIds(items: seq<Item>) {
    forall i, j :: 0 <= i < j < |items| ==> IdOf(items[i]) != IdOf(items[j])
  }

  predicate FreshIds(t: Tables, items: seq<Item>) {
    forall i :: 0 <= i < |items| ==> IdOf(items[i]) !in t
  }

  /** Equal keys carry equal rows. */
  predicate Consistent(items: seq<Item>) {
    forall i, j :: 0 <= i < |items| && 0 <= j < |items| && IdOf(items[i]) == IdOf(items[j]) ==> items[i].row == items[j].row
  }

  /** Under each key the same items leave the same row. */
  lemma SameItemsSameRow(t: Tables, xs: seq<Item>, ys: seq<Item>, id: RowId)
    requires Consistent(xs) && forall it :: it in xs <==> it in ys
    ensures id in WriteAll(t, xs) <==> id in WriteAll(t, ys)
    ensures id in WriteAll(t, xs) ==> WriteAll(t, xs)[id] == WriteAll(t, ys)[id]
  {
    LastWriteWins(t, xs, id);
    LastWriteWins(t, ys, id);
    if i :| 0 <= i < |xs| && IdOf(xs[i]) == id {
      assert xs[i] in ys;
      var j :| 0 <= j < |ys| && ys[j] == xs[i];
      var m := LastUnder(xs, i, id);
      var n := LastUnder(ys, j, id);
      assert ys[n] in xs;
    } else {
      assert forall j :: 0 <= j < |ys| ==> ys[j] in xs;
    }
  }

  lemma SameItemsSameTables(t: Tables, xs: seq<Item>, ys: seq<Item>)
    requires Consistent(xs) && forall it :: it in xs <==> it in ys
    ensures WriteAll(t, xs) == WriteAll(t, ys)
  {
    var a, b := WriteAll(t, xs), WriteAll(t, ys);
    forall id ensures id in a <==> id in b
              ensures id in a && id in b ==> a[id] == b[id]
    {
      SameItemsSameRow(t, xs, ys, id);
    }
    assert a.Keys == b.Keys;
  }

  /** The last position of a key that occurs. */
  lemma {:induction false} LastUnder(items: seq<Item>, i: nat, id: RowId) returns (last: nat)
    requires i < |items| && IdOf(items[i]) == id
    ensures i <= last < |items| && IdOf(items[last]) == id
    ensures forall j :: last < j < |items| ==> IdOf(items[j]) != id
    decreases |items| - i
  {
    if j :| i < j < |items| && IdOf(items[j]) == id {
      last := LastUnder(items, j, id);
    } else {
      last := i;
    }
  }

  /** The same items with item `i` moved to the end. */
  function MovedLast(items: seq<Item>, i: nat): seq<Item>
    requires i < |items|
  {
    items[..i] + items[i + 1..] + [items[i]]
  }

  lemma MovedLastIsWritten(t: Tables, items: seq<Item>, i: nat)
    requires i < |items|
    ensures multiset(MovedLast(items, i)) == multiset(items)
    ensures IdOf(items[i]) in WriteAll(t, MovedLast(items, i))
            && WriteAll(t, MovedLast(items, i))[IdOf(items[i])] == items[i].row
  {
    assert items == items[..i] + [items[i]] + items[i + 1..];
    LastWriteWins(t, MovedLast(items, i), IdOf(items[i]));
    assert MovedLast(items, i)[|items| - 1] == items[i];
  }

  /** The tables do not depend on the order of the items if and only if equal keys
      carry equal rows. */
  lemma OrderIsIrrelevantExactly(t: Tables, items: seq<Item>)
    ensures (forall order: seq<Item> :: multiset(order) == multiset(items) ==> WriteAll(t, order) == WriteAll(t, items))
            <==> Consistent(items)
  {
    if Consistent(items) {
      forall order: seq<Item> | multiset(order) == multiset(items) ensures WriteAll(t, order) == WriteAll(t, items) {
        assert forall it :: it in order <==> it in multiset(order);
        assert forall it :: it in items <==> it in multiset(items);
        SameItemsSameTables(t, items, order);
      }
    } else {
      var i, j :| 0 <= i < |items| && 0 <= j < |items| && IdOf(items[i]) == IdOf(items[j]) && items[i].row != items[j].row;
      MovedLastIsWritten(t, items, i);
      MovedLastIsWritten(t, items, j);
      assert WriteAll(t, MovedLast(items, i)) != WriteAll(t, MovedLast(items, j));
    }
  }

  // ---- Laws of a flush -----------------------------------------------------

  /** Item `j` fails when it is executed after the items before it. */
  predicate FailsAt(t: Tables, items: seq<Item>, j: nat, kinds: set<string>, mode: WriteMode, faults: Faults)
    requires j < |items|
  {
    OpFails(WriteAll(t, items[..j]), items[j], kinds, mode, j in faults.ops)
  }

  lemma {:induction false} RunOpsFrom(t0: Tables, items: seq<Item>, i: nat, kinds: set<string>, mode: WriteMode, faults: Faults)
    requires i <= |items|
    ensures match RunOps(WriteAll(t0, items[..i]), items, i, kinds, mode, faults)
            case Finished(t) =>
              && t == WriteAll(t0, items)
              && forall j :: i <= j < |items| ==> !FailsAt(t0, items, j, kinds, mode, faults)
            case Stopped(at, t) =>
              && i <= at < |items| && t == WriteAll(t0, items[..at])
              && FailsAt(t0, items, at, kinds, mode, faults)
              && forall j :: i <= j < at ==> !FailsAt(t0, items, j, kinds, mode, faults)
    decreases |items| - i
  {
    if i == |items| {
      assert items[..i] == items;
    } else if !FailsAt(t0, items, i, kinds, mode, faults) {
      assert items[..i + 1] == items[..i] + [items[i]];
      WriteAllAppend(t0, items[..i], [items[i]]);
      assert [items[i]][1..] == [];
      RunOpsFrom(t0, items, i + 1, kinds, mode, faults);
    }
  }

  predicate FirstFailure(t: Tables, items: seq<Item>, j: nat, kinds: set<string>, mode: WriteMode, faults: Faults)
    requires j < |items|
  {
    && FailsAt(t, items, j, kinds, mode, faults)
    && forall i :: 0 <= i < j ==> !FailsAt(t, items, i, kinds, mode, faults)
  }

  /** A flush is a transaction: it succeeds exactly when the begin, the commit and
      every operation in turn succeed, and then all items are written; otherwise
      nothing is. A failed begin hands on no item, a failing item is the last one
      handed on, and an item of an unregistered kind is not handed on at all. */
  lemma FlushIsTransaction(t: Tables, items: seq<Item>, kinds: set<string>, mode: WriteMode, faults: Faults)
    ensures var r := Flush(t, items, kinds, mode, faults);
            && (r.ok <==> !faults.begin && !faults.commit
                          && forall j :: 0 <= j < |items| ==> !FailsAt(t, items, j, kinds, mode, faults))
            && r.tables == (if r.ok then WriteAll(t, items) else t)
            && (faults.begin ==> r.dispatched == 0)
            && (!faults.begin ==>
                  forall j :: 0 <= j < |items| && FirstFailure(t, items, j, kinds, mode, faults) ==>
                                r.dispatched == j + (if items[j].kind in kinds then 1 else 0))
            && (!faults.begin && (forall j :: 0 <= j < |items| ==> !FailsAt(t, items, j, kinds, mode, faults)) ==>
                  r.dispatched == |items|)
  {
    assert items[..0] == [];
    RunOpsFrom(t, items, 0, kinds, mode, faults);
    if !faults.begin {
      match RunOps(t, items, 0, kinds, mode, faults)
      case Finished(_) =>
      case Stopped(at, _) =>
        forall j | 0 <= j < |items| && FirstFailure(t, items, j, kinds, mode, faults) ensures j == at {
          assert !(at < j) && !(j < at);
        }
    }
  }

  // ---- From the items and the refusals ---------------------------------------

  predicate SameRow(a: Item, b: Item) {
    a.kind == b.kind && a.key == b.key
  }

  /** What stops item `j`, told from the items, the refusals and the rows there were. */
  predicate BadAt(t: Tables, items: seq<Item>, j: nat, kinds: set<string>, mode: WriteMode, faults: Faults)
    requires j < |items|
  {
    || j in faults.ops || items[j].kind !in kinds
    || (mode == Insert && (RowId(items[j].kind, items[j].key) in t || exists i :: 0 <= i < j && SameRow(items[i], items[j])))
  }

  lemma FailsAtExactly(t: Tables, items: seq<Item>, j: nat, kinds: set<string>, mode: WriteMode, faults: Faults)
    requires j < |items|
    ensures FailsAt(t, items, j, kinds, mode, faults) <==> BadAt(t, items, j, kinds, mode, faults)
  {
    LastWriteWins(t, items[..j], IdOf(items[j]));
    assert forall i :: 0 <= i < j ==> (IdOf(items[..j][i]) == IdOf(items[j]) <==> SameRow(items[i], items[j]));
  }

  /** The batch meets nothing that would stop it. */
  ghost predicate Unobjectionable(t: Tables, items: seq<Item>, kinds: set<string>, mode: WriteMode, refused: set<nat>) {
    && (forall j :: 0 <= j < |items| ==> j !in refused && items[j].kind in kinds)
    && (mode == Insert ==>
          && (forall i, j :: 0 <= i < j < |items| ==> !(items[i].kind == items[j].kind && items[i].key == items[j].key))
          && (forall j :: 0 <= j < |items| ==> RowId(items[j].kind, items[j].key) !in t))
  }

  lemma NoneBadExactly(t: Tables, items: seq<Item>, kinds: set<string>, mode: WriteMode, faults: Faults)
    ensures (forall j :: 0 <= j < |items| ==> !BadAt(t, items, j, kinds, mode, faults))
            <==> Unobjectionable(t, items, kinds, mode, faults.ops)
  {
    if forall j :: 0 <= j < |items| ==> !BadAt(t, items, j, kinds, mode, faults) {
      forall i, j | 0 <= i < j < |items| && mode == Insert ensures !SameRow(items[i], items[j]) {
        assert !BadAt(t, items, j, kinds, mode, faults);
      }
      forall j | 0 <= j < |items|
        ensures j !in faults.ops && items[j].kind in kinds
        ensures mode == Insert ==> RowId(items[j].kind, items[j].key) !in t
      {
        assert !BadAt(t, items, j, kinds, mode, faults);
      }
    }
  }

  /** Item `j` is the first that something stops. */
  predicate FirstBad(t: Tables, items: seq<Item>, j: nat, kinds: set<string>, mode: WriteMode, faults: Faults)
    requires j < |items|
  {
    BadAt(t, items, j, kinds, mode, faults) && forall i :: 0 <= i < j ==> !BadAt(t, items, i, kinds, mode, faults)
  }

  /** A flush commits if and only if begin and commit are granted, no operation is
      refused, every kind is registered, and for inserts all keys are new and pairwise
      distinct. If not, it leaves the tables as they were. It hands on the items before
      the first one that something stops, and that one too if its kind is
      registered. */
  lemma FlushCommitsExactly(t: Tables, items: seq<Item>, kinds: set<string>, mode: WriteMode, faults: Faults)
    ensures var r := Flush(t, items, kinds, mode, faults);
            && (r.ok <==> !faults.begin && !faults.commit && Unobjectionable(t, items, kinds, mode, faults.ops))
            && (!r.ok ==> r.tables == t)
            && (r.ok ==> r.tables == WriteAll(t, items) && r.dispatched == |items|)
            && (faults.begin ==> r.dispatched == 0)
            && forall j :: 0 <= j < |items| && !faults.begin && FirstBad(t, items, j, kinds, mode, faults) ==>
                             r.dispatched == j + (if items[j].kind in kinds then 1 else 0)
  {
    FlushIsTransaction(t, items, kinds, mode, faults);
    forall j | 0 <= j < |items| ensures FailsAt(t, items, j, kinds, mode, faults) <==> BadAt(t, items, j, kinds, mode, faults) {
      FailsAtExactly(t, items, j, kinds, mode, faults);
    }
    NoneBadExactly(t, items, kinds, mode, faults);
    forall j | 0 <= j < |items| && !faults.begin && FirstBad(t, items, j, kinds, mode, faults)
      ensures FirstFailure(t, items, j, kinds, mode, faults)
    {
      assert forall i :: 0 <= i < j ==> !BadAt(t, items, i, kinds, mode, faults);
    }
  }

  /** The operations alone, as a flush runs them. */
  lemma RunOpsFinishesExactly(t: Tables, items: seq<Item>, kinds: set<string>, mode: WriteMode, faults: Faults)
    ensures RunOps(t, items, 0, kinds, mode, faults).Finished? <==> Unobjectionable(t, items, kinds, mode, faults.ops)
  {
    FlushCommitsExactly(t, items, kinds, mode, Faults(false, faults.ops, false));
    SameOps(t, items, 0, kinds, mode, faults, Faults(false, faults.ops, false));
  }

  lemma {:induction false} SameOps(t: Tables, items: seq<Item>, i: nat, kinds: set<string>, mode: WriteMode, f: Faults, g: Faults)
    requires i <= |items| && f.ops == g.ops
    ensures RunOps(t, items, i, kinds, mode, f) == RunOps(t, items, i, kinds, mode, g)
    decreases |items| - i
  {
    if i < |items| {
      SameOps(Write(t, items[i]), items, i + 1, kinds, mode, f, g);
    }
  }
}
