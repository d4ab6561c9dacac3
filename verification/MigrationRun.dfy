/**
 The migration script as it runs: batches of legacy rows in key order, one transaction each.
 */
module MigrationRun {
  import opened Common
  import opened RevocationKeys
  import opened VersionStore
  import opened KeyMigration

  // ---------------------------------------------------------------- key order

  // The database's collation, a strict total order on keys.
  type Order<!T> = (T, T) -> bool

  ghost predicate TotalOrder<T(!new)>(before: Order<T>) {
    && (forall a :: !before(a, a))
    && (forall a, b :: a == b || before(a, b) || before(b, a))
    && (forall a, b, c :: before(a, b) && before(b, c) ==> before(a, c))
  }

  predicate IsLeast<T(==)>(before: Order<T>, all: set<T>, k: T) {
    k in all && forall j :: j in all ==> j == k || before(k, j)
  }

  lemma {:induction false} LeastExists<T(!new)>(before: Order<T>, all: set<T>)
    requires TotalOrder(before) && all != {}
    ensures exists k :: IsLeast(before, all, k)
    decreases |all|
  {
    var x :| x in all;
    var rest := all - {x};
    if rest == {} {
      assert all == {x} && IsLeast(before, all, x);
    } else {
      LeastExists(before, rest);
      var k :| IsLeast(before, rest, k);
      if before(x, k) {
        forall j | j in rest ensures before(x, j) {
          assert j == k || before(k, j);
        }
        assert IsLeast(before, all, x);
      } else {
        assert IsLeast(before, all, k);
      }
    }
  }

  lemma LeastUnique<T(!new)>(before: Order<T>, all: set<T>, j: T, k: T)
    requires TotalOrder(before) && IsLeast(before, all, j) && IsLeast(before, all, k)
    ensures j == k
  {
  }

  ghost function Least<T(!new)>(before: Order<T>, all: set<T>): (k: T)
    requires TotalOrder(before) && all != {}
    ensures IsLeast(before, all, k)
  {
    hide TotalOrder;
    LeastExists(before, all);
    var k :| IsLeast(before, all, k);
    k
  }

  // ORDER BY key LIMIT n, for n within the size of the set.
  ghost function First<T(!new)>(before: Order<T>, all: set<T>, n: nat): (r: seq<T>)
    requires TotalOrder(before) && n <= |all|
    ensures |r| == n && Lists(r, all) && |all - Elems(r)| == |all| - n
    decreases n
  {
    hide TotalOrder, Lists;
    if n == 0 then
      ListsNothing(all);
      assert all - {} == all;
      []
    else
      var r := First(before, all, n - 1);
      var left := all - Elems(r);
      var k := Least(before, left);
      ListsAppend(r, k, all);
      assert all - Elems(r + [k]) == left - {k};
      r + [k]
  }

  ghost function InOrder<T(!new)>(before: Order<T>, all: set<T>): (r: seq<T>)
    requires TotalOrder(before)
    ensures |r| == |all| && Elems(r) == all
  {
    hide TotalOrder, First;
    var r := First(before, all, |all|);
    ListsBound(r, all);
    assert all == Elems(r) + (all - Elems(r));
    r
  }

  lemma FirstStep<T(!new)>(before: Order<T>, all: set<T>, n: nat)
    requires TotalOrder(before) && n < |all|
    ensures var r := First(before, all, n); var left := all - Elems(r);
      left != {} && First(before, all, n + 1) == r + [Least(before, left)]
  {
    hide TotalOrder, Lists, Elems;
  }

  // A list is sorted, and all of it comes before everything that is left.
  ghost predicate SortedThen<T(!new)>(before: Order<T>, r: seq<T>, left: set<T>) {
    && (forall i, j :: 0 <= i < j < |r| ==> before(r[i], r[j]))
    && (forall i, k :: 0 <= i < |r| && k in left ==> before(r[i], k))
  }

  lemma SortedOneMore<T(!new)>(before: Order<T>, r: seq<T>, left: set<T>, k: T)
    requires SortedThen(before, r, left) && IsLeast(before, left, k)
    ensures SortedThen(before, r + [k], left - {k})
  {
  }

  lemma {:induction false} FirstSorted<T(!new)>(before: Order<T>, all: set<T>, n: nat)
    requires TotalOrder(before) && n <= |all|
    ensures SortedThen(before, First(before, all, n), all - Elems(First(before, all, n)))
    decreases n
  {
    hide TotalOrder, Lists, Elems, SortedThen, IsLeast;
    if n == 0 {
      SortedNothing(before, all - Elems(First(before, all, 0)));
    } else {
      FirstSorted(before, all, n - 1);
      var r := First(before, all, n - 1);
      var left := all - Elems(r);
      SortedOneMore(before, r, left, Least(before, left));
      ElemsSplit(First(before, all, n));
      assert all - Elems(First(before, all, n)) == left - {Least(before, left)};
    }
  }

  lemma SortedNothing<T(!new)>(before: Order<T>, left: set<T>)
    ensures SortedThen(before, [], left)
  {
  }

  lemma {:induction false} FirstIsPrefix<T(!new)>(before: Order<T>, all: set<T>, m: nat, n: nat)
    requires TotalOrder(before) && m <= n <= |all|
    ensures First(before, all, m) == First(before, all, n)[..m]
    decreases n
  {
    hide TotalOrder, Lists, Elems;
    if m < n {
      FirstIsPrefix(before, all, m, n - 1);
      assert First(before, all, n)[..n - 1] == First(before, all, n - 1);
    }
  }

  // The first n of what the first m leave are the next n.
  lemma {:induction false} FirstOfRest<T(!new)>(before: Order<T>, all: set<T>, m: nat, n: nat)
    requires TotalOrder(before) && m + n <= |all|
    ensures var rest := all - Elems(First(before, all, m));
      First(before, all, m + n) == First(before, all, m) + First(before, rest, n)
    decreases n
  {
    hide TotalOrder, Lists, Elems, First, IsLeast;
    var done := First(before, all, m);
    var rest := all - Elems(done);
    if n == 0 {
      FirstNothing(before, rest);
    } else {
      FirstOfRest(before, all, m, n - 1);
      FirstStep(before, all, m + n - 1);
      FirstStep(before, rest, n - 1);
      var more := First(before, rest, n - 1);
      ElemsJoin(done, more);
      MinusTwice(all, Elems(done), Elems(more));
      JoinOneMore(done, more, Least(before, rest - Elems(more)));
    }
  }

  lemma {:induction false} FirstNothing<T(!new)>(before: Order<T>, all: set<T>)
    requires TotalOrder(before)
    ensures First(before, all, 0) == []
  {
  }

  lemma JoinOneMore<T>(a: seq<T>, b: seq<T>, k: T)
    ensures (a + b) + [k] == a + (b + [k])
  {
  }

  lemma MinusTwice<T>(all: set<T>, a: set<T>, b: set<T>)
    ensures (all - a) - b == all - (a + b)
  {
  }

  lemma MinusNothing<T>(all: set<T>)
    ensures all - {} == all
  {
  }

  lemma ElemsJoin<T>(a: seq<T>, b: seq<T>)
    ensures Elems(a + b) == Elems(a) + Elems(b)
  {
  }

  // ---------------------------------------------------------------- the batch loop

  datatype Outcome = Migrated(total: nat) | Unrecognized

  // Where the first key without a translation stands.
  predicate FirstUnknown(ks: KeyScheme, order: seq<string>, q: nat) {
    q < |order| && ks.translate(order[q]).None? && forall i :: 0 <= i < q ==> ks.translate(order[i]).Some?
  }

  // No effective version has gone down.
  ghost predicate NoneFell(ks: KeyScheme, old_: Rows, rows: Rows) {
    forall sc :: Safe(ks, sc) ==> Version(rows, sc) >= Version(old_, sc)
  }

  lemma {:induction false} BatchNoneFell(ks: KeyScheme, old_: Rows, rows: Rows, batch: seq<string>)
    requires Sound(ks) && Batch(ks, rows, batch) && NoneFell(ks, old_, rows)
    ensures NoneFell(ks, old_, MovedAll(ks, rows, batch))
  {
    hide Sound, Safe, Batch, MovedAll, Version;
    forall sc | Safe(ks, sc) ensures Version(MovedAll(ks, rows, batch), sc) >= Version(old_, sc) {
      BatchKeepsVersion(ks, rows, batch, sc);
    }
  }

  // Where the run stands between two batches.
  ghost predicate Progress(ks: KeyScheme, order: seq<string>, was: Rows, rows: Rows, total: nat, b: nat, n: nat) {
    && HasMoved(ks, order, was, rows, total) && AllKnown(ks, order[..total]) && NoneFell(ks, was, rows)
    && (total == 0 ==> rows == was)
    && (total == BatchStart(b, n) || total == |order|)
    && (n == 0 ==> total == 0)
  }

  // Where a failing run stops.
  ghost predicate FailedRun(ks: KeyScheme, order: seq<string>, was: Rows, rows: Rows, n: nat) {
    && n > 0
    && CommittedBefore(ks, was, rows, order, n)
    && (rows == was <==> exists i :: 0 <= i < Min(n, |order|) && ks.translate(order[i]).None?)
    && (exists k :: k in LegacyKeys(ks, was) && ks.translate(k).None?)
  }

  // Every key of the list has a translation.
  predicate AllKnown(ks: KeyScheme, keys: seq<string>) {
    forall i :: 0 <= i < |keys| ==> ks.translate(keys[i]).Some?
  }

  class Migration {
    const store: TokenVersionStore
    const before: Order<string>

    constructor (store: TokenVersionStore, before: Order<string>)
      ensures this.store == store && this.before == before
    {
      this.store, this.before := store, before;
    }

    // The dry run's count.
    method CountLegacy(ks: KeyScheme) returns (n: nat)
      ensures n == |LegacyKeys(ks, store.rows)|
    {
      n := 0;
      var left := store.rows.Keys;
      ghost var counted: set<string> := {};
      while left != {}
        invariant left <= store.rows.Keys
        invariant counted == set k | k in store.rows && k !in left && ks.isLegacy(k)
        invariant n == |counted|
        decreases |left|
      {
        var k :| k in left;
        if ks.isLegacy(k) {
          n := n + 1;
          counted := counted + {k};
        }
        left := left - {k};
      }
      assert counted == LegacyKeys(ks, store.rows);
    }

    // SELECT ... ORDER BY key LIMIT batch_size FOR UPDATE SKIP LOCKED: the first legacy rows in
    // key order among those that no other transaction has locked.
    method SelectBatch(ks: KeyScheme, locked: set<string>, batchSize: nat) returns (batch: seq<string>)
      requires TotalOrder(before)
      ensures var free := LegacyKeys(ks, store.rows) - locked;
        batch == First(before, free, Min(batchSize, |free|))
    {
      hide TotalOrder, Lists, Elems, First, LegacyKeys;
      var free := LegacyKeys(ks, store.rows) - locked;
      var left := free;
      batch := [];
      ListsNothing(free);
      FirstNothing(before, free);
      while left != {} && |batch| < batchSize
        invariant |batch| <= Min(batchSize, |free|)
        invariant batch == First(before, free, |batch|)
        invariant left == free - Elems(batch)
        decreases |left|
      {
        LeastExists(before, left);
        var k :| IsLeast(before, left, k);
        LeastUnique(before, left, k, Least(before, left));
        FirstStep(before, free, |batch|);
        ListsAppend(batch, k, free);
        batch := batch + [k];
        left := left - {k};
      }
    }

    // One batch transaction. A row that cannot be translated aborts it, changing nothing.
    method MoveBatch(ks: KeyScheme, batch: seq<string>) returns (ok: bool)
      requires Sound(ks)
      requires Lists(batch, LegacyKeys(ks, store.rows))
      modifies store
      ensures ok <==> AllKnown(ks, batch)
      ensures !ok ==> store.rows == old(store.rows)
      ensures ok ==> Batch(ks, old(store.rows), batch)
      ensures ok ==> store.rows == MovedAll(ks, old(store.rows), batch)
    {
      hide Sound, Lists, LegacyKeys, MovedAll, Batch;
      assert Batch(ks, store.rows, batch[..0]) && MovedAll(ks, store.rows, batch[..0]) == store.rows by {
        EmptyBatch(ks, store.rows, batch[..0]);
      }
      var rows := store.rows;
      var i := 0;
      while i < |batch|
        invariant 0 <= i <= |batch|
        invariant store.rows == old(store.rows)
        invariant forall n :: 0 <= n < i ==> ks.translate(batch[n]).Some?
        invariant Batch(ks, store.rows, batch[..i]) && rows == MovedAll(ks, store.rows, batch[..i])
      {
        var k := batch[i];
        var n := ks.translate(k);
        if n.None? {
          return false;
        }
        BatchExtends(ks, store.rows, batch, i);
        MovedAllLast(ks, store.rows, batch[..i], batch[..i + 1]);
        rows := rows[n.value := Max(Get(rows, n.value), store.rows[k])] - {k};
        i := i + 1;
      }
      assert batch[..i] == batch;
      store.rows := rows;
      ok := true;
    }

    // One turn of the loop: select a batch and move it.
    method RunBatch(ks: KeyScheme, batchSize: nat, ghost was: Rows, ghost order: seq<string>, ghost total: nat,
                    ghost b: nat)
      returns (batch: seq<string>, ok: bool)
      requires Sound(ks) && TotalOrder(before) && order == InOrder(before, LegacyKeys(ks, was))
      requires Progress(ks, order, was, store.rows, total, b, batchSize) && total <= |order|
      modifies store
      ensures |batch| == Min(batchSize, |order| - total)
      ensures ok ==> Progress(ks, order, was, store.rows, total + |batch|, b + 1, batchSize)
      ensures !ok ==> NoneFell(ks, was, store.rows) && FailedRun(ks, order, was, store.rows, batchSize)
    {
      hide Sound, Safe, Lists, Batch, Merging, MovedAll, TotalOrder, First, InOrder, Elems, LegacyKeys, HasMoved,
        NoneFell, AllKnown, Progress, FailedRun;
      ghost var rows := store.rows;
      batch := SelectBatch(ks, {}, batchSize);
      SelectedIsNext(ks, before, order, was, rows, total, b, batchSize, batch);
      ok := MoveBatch(ks, batch);
      AfterBatch(ks, order, was, rows, store.rows, total, b, batchSize, batch);
    }

    /** Run to the end without concurrent writers. A complete run yields exactly the merged table
        and reports every legacy row; it fails exactly when some legacy row has no translation.
        A failing run has committed exactly the full batches before the one that holds the first
        such key in key order, so it leaves the table as it was if and only if one of the first
        batchSize legacy keys has no translation. No effective version goes down either way. */
    method Migrate(ks: KeyScheme, batchSize: nat) returns (r: Outcome)
      requires Sound(ks) && TotalOrder(before)
      modifies store
      ensures batchSize >= 1 ==>
        (r.Unrecognized? <==> exists k :: k in LegacyKeys(ks, old(store.rows)) && ks.translate(k).None?)
      ensures batchSize >= 1 && r.Migrated? ==>
        Merged(ks, old(store.rows), store.rows) && r.total == |LegacyKeys(ks, old(store.rows))|
      ensures batchSize == 0 ==> r == Migrated(0) && store.rows == old(store.rows)
      ensures r.Unrecognized? ==>
        var order := InOrder(before, LegacyKeys(ks, old(store.rows)));
        && CommittedBefore(ks, old(store.rows), store.rows, order, batchSize)
        && (store.rows == old(store.rows) <==>
              exists i :: 0 <= i < Min(batchSize, |order|) && ks.translate(order[i]).None?)
      ensures NoneFell(ks, old(store.rows), store.rows)
    {
      hide Sound, TotalOrder, First, InOrder, Elems, LegacyKeys, NoneFell, Progress, CommittedBefore, Merged;
      ghost var was := store.rows;
      ghost var order := InOrder(before, LegacyKeys(ks, was));
      NoProgress(ks, order, was, batchSize);
      var total := 0;
      ghost var b: nat := 0;
      while true
        invariant Progress(ks, order, was, store.rows, total, b, batchSize) && total <= |order|
        invariant batchSize == 0 ==> total == 0
        decreases |order| - total
      {
        var batch, ok := RunBatch(ks, batchSize, was, order, total, b);
        if !ok {
          FailedEnd(ks, order, was, store.rows, batchSize);
          return Unrecognized;
        }
        total := total + |batch|;
        b := b + 1;
        if batch == [] {
          break;
        }
      }
      CompleteEnd(ks, order, was, store.rows, total, b, batchSize);
      return Migrated(total);
    }

    /** The dry run foretells the applied one: if the run that follows completes, it reports just
        the number the dry run gave. */
    method CountThenMigrate(ks: KeyScheme, batchSize: nat) returns (n: nat, r: Outcome)
      requires Sound(ks) && TotalOrder(before) && batchSize >= 1
      modifies store
      ensures r.Migrated? ==> r.total == n
      ensures n == 0 ==> store.rows == old(store.rows)
    {
      n := CountLegacy(ks);
      r := Migrate(ks, batchSize);
      if n == 0 {
        NothingToMove(ks, old(store.rows), store.rows);
      }
    }
  }

  // ---------------------------------------------------------------- what a run has moved

  // The first `total` of the legacy keys, listed in key order, have been moved.
  ghost predicate HasMoved(ks: KeyScheme, order: seq<string>, old_: Rows, cur: Rows, total: nat) {
    && total <= |order| && Merging(ks, old_, cur)
    && LegacyKeys(ks, cur) == LegacyKeys(ks, old_) - Elems(order[..total])
  }

  lemma StartsMoved(ks: KeyScheme, order: seq<string>, rows: Rows)
    ensures HasMoved(ks, order, rows, rows, 0)
  {
    MergingStart(ks, rows);
  }

  // A slice of the keys in order is the first keys of what is left.
  lemma {:induction false} SliceInOrder(before: Order<string>, all: set<string>, total: nat, m: nat)
    requires TotalOrder(before) && total + m <= |all|
    ensures var order := InOrder(before, all); var rest := all - Elems(order[..total]);
      && |rest| == |all| - total
      && First(before, rest, m) == order[total..total + m]
  {
    hide TotalOrder, Elems, Lists, First;
    var order := InOrder(before, all);
    FirstIsPrefix(before, all, total, |all|);
    FirstIsPrefix(before, all, total + m, |all|);
    FirstOfRest(before, all, total, m);
    assert order[..total + m] == order[..total] + order[total..total + m];
  }

  lemma {:induction false} NextBatch(
    ks: KeyScheme, before: Order<string>, was: Rows, rows: Rows, order: seq<string>, total: nat, m: nat)
    requires TotalOrder(before) && HasMoved(ks, order, was, rows, total)
    requires order == InOrder(before, LegacyKeys(ks, was)) && total + m <= |order|
    ensures |LegacyKeys(ks, rows)| == |order| - total
    ensures First(before, LegacyKeys(ks, rows), m) == order[total..total + m]
  {
    hide TotalOrder, Elems, Lists, Merging, First, LegacyKeys, InOrder;
    SliceInOrder(before, LegacyKeys(ks, was), total, m);
  }

  lemma SliceElems<T>(order: seq<T>, total: nat, m: nat)
    requires total + m <= |order|
    ensures Elems(order[..total + m]) == Elems(order[..total]) + Elems(order[total..total + m])
  {
    hide Elems;
    assert order[..total + m] == order[..total] + order[total..total + m];
    ElemsJoin(order[..total], order[total..total + m]);
  }

  lemma {:induction false} BatchMoved(
    ks: KeyScheme, was: Rows, rows: Rows, order: seq<string>, total: nat, batch: seq<string>)
    requires Sound(ks) && HasMoved(ks, order, was, rows, total) && Batch(ks, rows, batch)
    requires total + |batch| <= |order| && batch == order[total..total + |batch|]
    ensures HasMoved(ks, order, was, MovedAll(ks, rows, batch), total + |batch|)
  {
    hide Elems, Lists, Merging, Sound, Batch, LegacyKeys;
    BatchMerges(ks, was, rows, batch);
    SliceElems(order, total, |batch|);
    MinusTwice(LegacyKeys(ks, was), Elems(order[..total]), Elems(batch));
  }

  lemma {:induction false} FirstUnknownExists(ks: KeyScheme, order: seq<string>, i: nat)
    requires i < |order| && ks.translate(order[i]).None?
    ensures exists q :: 0 <= q <= i && FirstUnknown(ks, order, q)
    decreases i
  {
    if j: nat :| j < i && ks.translate(order[j]).None? {
      FirstUnknownExists(ks, order, j);
    } else {
      assert FirstUnknown(ks, order, i);
    }
  }

  // Where the batch numbered b starts.
  function BatchStart(b: nat, n: nat): nat {
    b * n
  }

  lemma NextStart(b: nat, n: nat)
    ensures BatchStart(b + 1, n) == BatchStart(b, n) + n
  {
  }

  // Every batch before the one that holds the first unknown key has been moved, and nothing else.
  ghost predicate CommittedBefore(ks: KeyScheme, was: Rows, rows: Rows, order: seq<string>, n: nat) {
    exists q: nat, b: nat ::
      && FirstUnknown(ks, order, q) && HasMoved(ks, order, was, rows, BatchStart(b, n))
      && BatchStart(b, n) <= q < BatchStart(b, n) + n
  }

  lemma FailedBatch(ks: KeyScheme, was: Rows, rows: Rows, order: seq<string>, total: nat, b: nat, n: nat,
                    batch: seq<string>)
    requires Progress(ks, order, was, rows, total, b, n) && Elems(order) == LegacyKeys(ks, was)
    requires total + |batch| <= |order| && |batch| <= n && batch == order[total..total + |batch|]
    requires !AllKnown(ks, batch)
    ensures FailedRun(ks, order, was, rows, n) && NoneFell(ks, was, rows)
  {
    hide HasMoved, LegacyKeys, NoneFell;
    var i: nat :| i < |batch| && ks.translate(batch[i]).None?;
    assert ks.translate(order[total + i]).None?;
    FirstUnknownExists(ks, order, total + i);
    var q: nat :| q <= total + i && FirstUnknown(ks, order, q);
    assert forall p :: 0 <= p < total ==> order[..total][p] == order[p];
    assert BatchStart(b, n) <= q < BatchStart(b, n) + n;
    assert order[q] in Elems(order);
    if total == 0 {
      assert 0 <= q < Min(n, |order|);
    } else {
      MovedChanges(ks, was, rows, order, total);
      FullBatch(b, n);
    }
  }

  // An undisturbed selection is the next stretch of the order.
  lemma {:induction false} SelectedIsNext(
    ks: KeyScheme, before: Order<string>, order: seq<string>, was: Rows, rows: Rows, total: nat, b: nat, n: nat,
    batch: seq<string>)
    requires TotalOrder(before) && order == InOrder(before, LegacyKeys(ks, was))
    requires Progress(ks, order, was, rows, total, b, n) && total <= |order|
    requires var free := LegacyKeys(ks, rows) - {}; batch == First(before, free, Min(n, |free|))
    ensures |batch| == Min(n, |order| - total) && batch == order[total..total + |batch|]
    ensures Lists(batch, LegacyKeys(ks, rows)) && Elems(order) == LegacyKeys(ks, was)
  {
    hide *;
    MinusNothing(LegacyKeys(ks, rows));
    FirstIsNext(ks, before, order, was, rows, total, b, n);
  }

  lemma FirstIsNext(
    ks: KeyScheme, before: Order<string>, order: seq<string>, was: Rows, rows: Rows, total: nat, b: nat, n: nat)
    requires TotalOrder(before) && order == InOrder(before, LegacyKeys(ks, was))
    requires Progress(ks, order, was, rows, total, b, n) && total <= |order|
    ensures Elems(order) == LegacyKeys(ks, was) && |LegacyKeys(ks, rows)| == |order| - total
    ensures var batch := First(before, LegacyKeys(ks, rows), Min(n, |LegacyKeys(ks, rows)|));
      && |batch| == Min(n, |order| - total) && batch == order[total..total + |batch|]
      && Lists(batch, LegacyKeys(ks, rows))
  {
    hide TotalOrder, First, InOrder, Elems, LegacyKeys, Lists, HasMoved, Progress;
    ProgressMoved(ks, order, was, rows, total, b, n);
    NextBatch(ks, before, was, rows, order, total, Min(n, |order| - total));
  }

  // A batch that was moved is progress, and one that could not be moved ends the run.
  lemma {:induction false} AfterBatch(
    ks: KeyScheme, order: seq<string>, was: Rows, rows: Rows, rows': Rows, total: nat, b: nat, n: nat,
    batch: seq<string>)
    requires Sound(ks) && Progress(ks, order, was, rows, total, b, n) && Elems(order) == LegacyKeys(ks, was)
    requires total <= |order| && |batch| == Min(n, |order| - total) && batch == order[total..total + |batch|]
    requires if AllKnown(ks, batch) then Batch(ks, rows, batch) && rows' == MovedAll(ks, rows, batch) else rows' == rows
    ensures AllKnown(ks, batch) ==> Progress(ks, order, was, rows', total + |batch|, b + 1, n)
    ensures !AllKnown(ks, batch) ==> NoneFell(ks, was, rows') && FailedRun(ks, order, was, rows', n)
  {
    hide Sound, Batch, MovedAll, Elems, LegacyKeys, NoneFell, AllKnown, Progress, FailedRun;
    if AllKnown(ks, batch) {
      MoreProgress(ks, order, was, rows, total, b, n, batch);
    } else {
      FailedBatch(ks, was, rows, order, total, b, n, batch);
    }
  }

  lemma ProgressMoved(ks: KeyScheme, order: seq<string>, was: Rows, rows: Rows, total: nat, b: nat, n: nat)
    requires Progress(ks, order, was, rows, total, b, n)
    ensures HasMoved(ks, order, was, rows, total)
  {
  }

  lemma NoProgress(ks: KeyScheme, order: seq<string>, rows: Rows, n: nat)
    ensures Progress(ks, order, rows, rows, 0, 0, n)
  {
    StartsMoved(ks, order, rows);
  }

  lemma {:induction false} MoreProgress(
    ks: KeyScheme, order: seq<string>, was: Rows, rows: Rows, total: nat, b: nat, n: nat, batch: seq<string>)
    requires Sound(ks) && Progress(ks, order, was, rows, total, b, n) && Batch(ks, rows, batch) && AllKnown(ks, batch)
    requires total <= |order| && |batch| == Min(n, |order| - total) && batch == order[total..total + |batch|]
    ensures Progress(ks, order, was, MovedAll(ks, rows, batch), total + |batch|, b + 1, n)
  {
    hide Sound, HasMoved, AllKnown, NoneFell, Batch, BatchStart;
    BatchMoved(ks, was, rows, order, total, batch);
    MoreKnown(ks, order, total, batch);
    BatchNoneFell(ks, was, rows, batch);
    NextStart(b, n);
    if batch == [] {
      EmptyBatch(ks, rows, batch);
    }
  }

  lemma FailedEnd(ks: KeyScheme, order: seq<string>, was: Rows, rows: Rows, n: nat)
    requires FailedRun(ks, order, was, rows, n)
    ensures n > 0 && CommittedBefore(ks, was, rows, order, n)
    ensures rows == was <==> exists i :: 0 <= i < Min(n, |order|) && ks.translate(order[i]).None?
    ensures exists k :: k in LegacyKeys(ks, was) && ks.translate(k).None?
  {
  }

  lemma CompleteEnd(ks: KeyScheme, order: seq<string>, was: Rows, rows: Rows, total: nat, b: nat, n: nat)
    requires Progress(ks, order, was, rows, total, b, n) && Elems(order) == LegacyKeys(ks, was)
    requires |order| == |LegacyKeys(ks, was)| && (n > 0 ==> total == |order|)
    ensures NoneFell(ks, was, rows) && (n == 0 ==> rows == was)
    ensures n > 0 ==> Merged(ks, was, rows) && forall k :: k in LegacyKeys(ks, was) ==> ks.translate(k).Some?
  {
    if n > 0 {
      AllMoved(ks, was, rows, order);
    }
  }

  lemma MoreKnown(ks: KeyScheme, order: seq<string>, total: nat, batch: seq<string>)
    requires AllKnown(ks, batch) && total + |batch| <= |order| && batch == order[total..total + |batch|]
    requires AllKnown(ks, order[..total])
    ensures AllKnown(ks, order[..total + |batch|])
  {
    assert order[..total + |batch|] == order[..total] + batch;
  }

  lemma FullBatch(b: nat, n: nat)
    ensures BatchStart(b, n) > 0 ==> BatchStart(b, n) >= n
  {
    if b > 0 {
      NextStart(b - 1, n);
    }
  }

  lemma MovedChanges(ks: KeyScheme, was: Rows, rows: Rows, order: seq<string>, total: nat)
    requires HasMoved(ks, order, was, rows, total) && total > 0 && Elems(order) == LegacyKeys(ks, was)
    ensures rows != was
  {
    assert order[..total][0] == order[0];
    assert order[0] in Elems(order) && order[0] in Elems(order[..total]);
  }

  lemma AllMoved(ks: KeyScheme, was: Rows, rows: Rows, order: seq<string>)
    requires HasMoved(ks, order, was, rows, |order|) && Elems(order) == LegacyKeys(ks, was)
    requires AllKnown(ks, order[..|order|])
    ensures Merged(ks, was, rows)
    ensures forall k :: k in LegacyKeys(ks, was) ==> ks.translate(k).Some?
  {
    assert order[..|order|] == order;
    forall k | k in LegacyKeys(ks, was) ensures ks.translate(k).Some? {
      assert k in Elems(order);
    }
  }

  lemma NothingToMove(ks: KeyScheme, was: Rows, rows: Rows)
    requires LegacyKeys(ks, was) == {} && Merging(ks, was, rows) && LegacyKeys(ks, rows) == {}
    ensures rows == was
  {
    MergingStart(ks, was);
    MergedUnique(ks, was, rows, was);
  }

  // ---------------------------------------------------------------- a failing run that changed rows

  lemma PlainRowMoves(c: Crypto)
    ensures IsLegacyRow("account_ver:a") && HmacKeyFromLegacyKey(c, "account_ver:a").Some?
  {
    assert LegacyAccountVersionKey("a") == "account_ver:a";
    AccountTranslationExact(c, "a");
    AppendDropsPrefix("account_ver:", "a");
    UpToColonIsV2("a");
  }

  lemma NamelessRowFails(c: Crypto)
    ensures IsLegacyRow("chain_ver:x") && HmacKeyFromLegacyKey(c, "chain_ver:x") == None
  {
    assert "chain_ver:x" == "chain_ver:" + "x";
    ChainKeyTranslation(c, "x");
    AppendDropsPrefix("chain_ver:", "x");
    UpToColonIsV2("x");
  }

  // In a table of two legacy rows, the second of which has no translation.
  lemma FailsInSecondBatch(ks: KeyScheme, before: Order<string>, rows: Rows, a: string, b: string)
    requires TotalOrder(before) && before(a, b) && LegacyKeys(ks, rows) == {a, b} && a != b
    requires ks.translate(a).Some? && ks.translate(b).None?
    ensures InOrder(before, LegacyKeys(ks, rows)) == [a, b]
  {
    var all := LegacyKeys(ks, rows);
    assert IsLeast(before, all, a);
    LeastUnique(before, all, a, Least(before, all));
    assert First(before, all, 0) == [] && all - Elems<string>([]) == all;
    assert First(before, all, 1) == [a];
    assert all - Elems([a]) == {b};
    assert First(before, all, 2) == [a, b];
  }

  lemma SecondBatchLeaves(ks: KeyScheme, before: Order<string>, was: Rows, rows: Rows, a: string, b: string)
    requires TotalOrder(before) && before(a, b) && LegacyKeys(ks, was) == {a, b} && a != b
    requires ks.translate(a).Some? && ks.translate(b).None?
    requires CommittedBefore(ks, was, rows, InOrder(before, LegacyKeys(ks, was)), 1)
    ensures a !in LegacyKeys(ks, rows)
  {
    FailsInSecondBatch(ks, before, was, a, b);
    hide TotalOrder, First, InOrder;
    var order := [a, b];
    var q: nat, n: nat :| FirstUnknown(ks, order, q) && HasMoved(ks, order, was, rows, BatchStart(n, 1))
      && BatchStart(n, 1) <= q < BatchStart(n, 1) + 1;
    assert q == 1;
    assert order[..1] == [a];
  }

  /** A run can change rows and then report that no rows changed: with batches of one row, any
      two legacy rows of which only the later in key order has no translation will do. */
  method CommitsThenFails(ks: KeyScheme, before: Order<string>, a: string, b: string)
    returns (was: Rows, rows: Rows, r: Outcome)
    requires Sound(ks) && TotalOrder(before) && before(a, b) && a != b
    requires ks.isLegacy(a) && ks.translate(a).Some? && ks.isLegacy(b) && ks.translate(b).None?
    ensures was == map[a := 1, b := 1]
    ensures r == Unrecognized && a !in rows
  {
    hide Sound, TotalOrder, NoneFell, InOrder, CommittedBefore;
    was := map[a := 1, b := 1];
    assert LegacyKeys(ks, was) == {a, b};
    var store := new TokenVersionStore();
    store.rows := was;
    var script := new Migration(store, before);
    r := script.Migrate(ks, 1);
    rows := store.rows;
    assert b in LegacyKeys(ks, was);
    SecondBatchLeaves(ks, before, was, rows, a, b);
  }

  /** The deployed key formats have such rows. */
  lemma FailingRowsExist(c: Crypto)
    ensures var ks := Scheme(c); var a, b := "account_ver:a", "chain_ver:x";
      ks.isLegacy(a) && ks.translate(a).Some? && ks.isLegacy(b) && ks.translate(b).None?
  {
    PlainRowMoves(c);
    NamelessRowFails(c);
  }
}
