/** What a caller can rely on when comparing an eager load with per-node lookups: exactly when they
    agree, and laws that follow when they do. */
module Agreement {
  import opened Relational
  import opened Lookup

  /** What `All` returns: the selected rows with their batched edges. */
  function Load(db: Database, q: Query): seq<Tree> {
    BatchTrees(db, q, Selected(q), Select(db, q))
  }

  function Naive(db: Database, q: Query): seq<Tree> {
    Trees(db, q, Selected(q), Select(db, q))
  }

  ghost predicate Unfiltered(q: Query) {
    q.preds == [] && forall e :: e in q.with ==> Unfiltered(q.with[e])
  }

  ghost predicate AgreesEverywhere(q: Query) {
    forall db :: WellFormed(db) ==> Load(db, q) == Naive(db, q)
  }

  // ---------------------------------------------------------------- the diagonal database

  /** Row i of each table in a database where everything numbered i is tied to everything numbered i. */
  function DiagonalRow(t: Table, i: int): Row {
    match t
    case Accounts => map[Id := i, ProxyId := i, ParentAccountId := i]
    case Groups => map[Id := i]
    case Proxies => map[Id := i]
    case UsageLogs => map[Id := i, AccountId := i]
    case AccountGroups => map[AccountId := i, GroupId := i]
  }

  function DiagonalRows(t: Table, n: nat): seq<Row> {
    seq(n, i => DiagonalRow(t, i))
  }

  function Diagonal(n: nat): Database {
    Database(DiagonalRows(Accounts, n), DiagonalRows(Groups, n), DiagonalRows(Proxies, n),
             DiagonalRows(UsageLogs, n), DiagonalRows(AccountGroups, n))
  }

  function Number(t: Table, r: Row): int {
    KeyOf(if t == AccountGroups then AccountId else Id, r)
  }

  lemma DiagonalRowsOf(n: nat, t: Table)
    ensures Rows(Diagonal(n), t) == DiagonalRows(t, n)
  {
  }

  lemma DiagonalWellFormed(n: nat)
    ensures WellFormed(Diagonal(n))
  {
  }

  /** The rows are all rows of the table, each once. */
  ghost predicate Whole(n: nat, t: Table, rows: seq<Row>) {
    && |rows| == n
    && (forall r :: r in rows <==> r in DiagonalRows(t, n))
    && Distinct(rows)
  }

  ghost predicate Distinct(rows: seq<Row>) {
    forall i, j :: 0 <= i < j < |rows| ==> rows[i] != rows[j]
  }

  lemma {:induction false} InsertDistinct(order: Order, rows: seq<Row>, r: Row)
    requires Distinct(rows) && r !in rows
    ensures Distinct(Insert(order, rows, r)) && |Insert(order, rows, r)| == |rows| + 1
  {
    if rows != [] && !Before(order, rows[|rows| - 1], r) {
      var front, last := rows[..|rows| - 1], rows[|rows| - 1];
      InsertDistinct(order, front, r);
      InsertMembers(order, front, r);
      assert last !in front;
    }
  }

  lemma {:induction false} SortDistinct(order: Order, rows: seq<Row>)
    requires Distinct(rows)
    ensures Distinct(Sort(order, rows)) && |Sort(order, rows)| == |rows|
  {
    if rows != [] {
      var front, last := rows[..|rows| - 1], rows[|rows| - 1];
      assert last !in front;
      SortDistinct(order, front);
      SortMembers(order, front);
      InsertDistinct(order, Sort(order, front), last);
    }
  }

  lemma {:induction false} FilterKeepsAll(db: Database, preds: seq<Pred>, rows: seq<Row>)
    requires forall r :: r in rows ==> Sat(db, preds, r)
    ensures Filter(db, preds, rows) == rows
  {
    if rows != [] {
      var front, last := rows[..|rows| - 1], rows[|rows| - 1];
      assert rows == front + [last];
      FilterKeepsAll(db, preds, front);
      FilterAppend(db, preds, front, last);
    }
  }

  lemma {:induction false} FilterKeepsOne(db: Database, preds: seq<Pred>, rows: seq<Row>, k: nat)
    requires k < |rows| && forall i :: 0 <= i < |rows| ==> (Sat(db, preds, rows[i]) <==> i == k)
    ensures Filter(db, preds, rows) == [rows[k]]
  {
    var front, last := rows[..|rows| - 1], rows[|rows| - 1];
    assert rows == front + [last];
    FilterAppend(db, preds, front, last);
    if k < |front| {
      FilterKeepsOne(db, preds, front, k);
    } else {
      FilterKeepsNone(db, preds, front);
    }
  }

  lemma {:induction false} FilterKeepsNone(db: Database, preds: seq<Pred>, rows: seq<Row>)
    requires forall i :: 0 <= i < |rows| ==> !Sat(db, preds, rows[i])
    ensures Filter(db, preds, rows) == []
  {
    if rows != [] {
      FilterKeepsNone(db, preds, rows[..|rows| - 1]);
    }
  }

  lemma {:induction false} PickNone<T>(e: Edge, stream: seq<(int, Row)>, owner: Row, rows: seq<Row>, xs: seq<T>)
    requires |rows| == |xs| && forall i :: 0 <= i < |rows| ==> !Linked(e, stream, owner, rows[i])
    ensures Pick(e, stream, owner, rows, xs) == []
  {
    if rows != [] {
      PickNone(e, stream, owner, rows[..|rows| - 1], xs[..|rows| - 1]);
    }
  }

  lemma {:induction false} PickOne<T>(e: Edge, stream: seq<(int, Row)>, owner: Row, rows: seq<Row>, xs: seq<T>, k: nat)
    requires |rows| == |xs| && k < |rows|
    requires forall i :: 0 <= i < |rows| ==> (Linked(e, stream, owner, rows[i]) <==> i == k)
    ensures Pick(e, stream, owner, rows, xs) == [xs[k]]
  {
    var n := |rows| - 1;
    if k < n {
      PickOne(e, stream, owner, rows[..n], xs[..n], k);
    } else {
      PickNone(e, stream, owner, rows[..n], xs[..n]);
    }
  }

  lemma DiagonalDistinct(n: nat, t: Table)
    ensures Distinct(DiagonalRows(t, n))
  {
    var rows := DiagonalRows(t, n);
    forall i, j | 0 <= i < j < n ensures rows[i] != rows[j] {
      assert Number(t, rows[i]) == i && Number(t, rows[j]) == j;
    }
  }

  lemma WholeMatching(n: nat, q: Query)
    requires forall i :: 0 <= i < n ==> Sat(Diagonal(n), q.preds, DiagonalRow(q.table, i))
    ensures Whole(n, q.table, Matching(Diagonal(n), q))
  {
    var rows := DiagonalRows(q.table, n);
    DiagonalRowsOf(n, q.table);
    DiagonalDistinct(n, q.table);
    FilterKeepsAll(Diagonal(n), q.preds, rows);
    SortDistinct(q.order, rows);
    SortMembers(q.order, rows);
  }

  lemma WholeRow(n: nat, t: Table, rows: seq<Row>, r: Row)
    requires Whole(n, t, rows) && r in rows
    ensures 0 <= Number(t, r) < n && r == DiagonalRow(t, Number(t, r))
  {
    var i :| 0 <= i < n && DiagonalRows(t, n)[i] == r;
  }

  /** On the diagonal, an edge leads from number i to number i and nowhere else. */
  lemma DiagonalEdge(n: nat, e: Edge, i: nat, k: nat)
    requires i < n && k < n
    ensures Holds(Diagonal(n), NeighborPred(e, DiagonalRow(Owner(e), i)), DiagonalRow(Target(e), k)) <==> i == k
  {
    if RelOf(e) == M2M {
      var joins, r := Diagonal(n).accountGroups, DiagonalRow(Groups, k);
      if i == k {
        assert joins[i] in joins && Joins(joins[i], i, r[Id]);
      } else {
        forall j | j in joins && AccountId in j && j[AccountId] in [i] ensures !Joins(j, j[AccountId], r[Id]) {
          var m :| 0 <= m < n && joins[m] == j;
        }
      }
    }
  }

  lemma DiagonalBatch(n: nat, e: Edge, owners: seq<Row>, k: nat)
    requires Whole(n, Owner(e), owners) && k < n
    ensures Holds(Diagonal(n), BatchPred(e, owners), DiagonalRow(Target(e), k))
  {
    var owner := DiagonalRow(Owner(e), k);
    assert DiagonalRows(Owner(e), n)[k] == owner;
    DiagonalEdge(n, e, k, k);
    BatchWiderThanOwner(Diagonal(n), e, owners, owner);
  }

  lemma DiagonalNeighbors(n: nat, e: Edge, sub: Query, i: nat)
    requires i < n && sub.preds == [] && sub.table == Target(e)
    ensures Neighbors(Diagonal(n), e, sub, DiagonalRow(Owner(e), i))
         == Window([DiagonalRow(Target(e), i)], sub.offset, sub.limit)
  {
    var p := NeighborPred(e, DiagonalRow(Owner(e), i));
    var rows := DiagonalRows(Target(e), n);
    assert [] + [p] == [p];
    forall k | 0 <= k < n ensures Sat(Diagonal(n), [p], rows[k]) <==> k == i {
      DiagonalEdge(n, e, i, k);
      SatAppend(Diagonal(n), [], p, rows[k]);
    }
    DiagonalRowsOf(n, Target(e));
    FilterKeepsOne(Diagonal(n), [p], rows, i);
    SortAppend(sub.order, [], rows[i]);
    assert [] + [rows[i]] == [rows[i]];
  }

  // The joined stream on the diagonal pairs each group row with the account of its own number.

  function Paired(rows: seq<Row>): seq<(int, Row)> {
    seq(|rows|, i requires 0 <= i < |rows| => (KeyOf(Id, rows[i]), rows[i]))
  }

  lemma {:induction false} JoinedWithOne(n: nat, m: nat, ids: seq<int>, i: nat)
    requires m <= n && i < n && i in ids
    ensures JoinedWith(DiagonalRows(AccountGroups, n)[..m], ids, DiagonalRow(Groups, i))
         == if i < m then [(i, DiagonalRow(Groups, i))] else []
  {
    if m > 0 {
      JoinedWithOne(n, m - 1, ids, i);
      assert DiagonalRows(AccountGroups, n)[..m][..m - 1] == DiagonalRows(AccountGroups, n)[..m - 1];
    }
  }

  ghost predicate OnDiagonal(n: nat, ids: seq<int>, r: Row) {
    exists i :: 0 <= i < n && i in ids && r == DiagonalRow(Groups, i)
  }

  lemma JoinedWithPaired(n: nat, ids: seq<int>, r: Row)
    requires OnDiagonal(n, ids, r)
    ensures JoinedWith(DiagonalRows(AccountGroups, n), ids, r) == [(KeyOf(Id, r), r)]
  {
    var i :| 0 <= i < n && i in ids && r == DiagonalRow(Groups, i);
    JoinedWithOne(n, n, ids, i);
    assert DiagonalRows(AccountGroups, n)[..n] == DiagonalRows(AccountGroups, n);
  }

  lemma {:induction false} JoinAllPaired(n: nat, ids: seq<int>, rows: seq<Row>)
    requires forall i :: 0 <= i < |rows| ==> OnDiagonal(n, ids, rows[i])
    ensures JoinAll(DiagonalRows(AccountGroups, n), ids, rows) == Paired(rows)
  {
    if rows != [] {
      var front, last := rows[..|rows| - 1], rows[|rows| - 1];
      assert forall i :: 0 <= i < |front| ==> front[i] == rows[i];
      JoinAllPaired(n, ids, front);
      JoinedWithPaired(n, ids, last);
      PairedAppend(front, last);
      assert rows == front + [last];
    }
  }

  lemma PairedAppend(rows: seq<Row>, last: Row)
    ensures Paired(rows + [last]) == Paired(rows) + [(KeyOf(Id, last), last)]
  {
  }

  lemma {:induction false} FirstSeenPaired(rows: seq<Row>)
    requires forall i, j :: 0 <= i < j < |rows| ==> KeyOf(Id, rows[i]) != KeyOf(Id, rows[j])
    ensures FirstSeen(Paired(rows)) == rows
  {
    if rows != [] {
      var front := rows[..|rows| - 1];
      assert Paired(rows)[..|front|] == Paired(front);
      FirstSeenPaired(front);
    }
  }

  function AllTargets(n: nat, e: Edge, sub: Query, owners: seq<Row>): seq<Row> {
    Matching(Diagonal(n), Where(sub, BatchPred(e, owners)))
  }

  lemma AllTargetsWhole(n: nat, e: Edge, sub: Query, owners: seq<Row>)
    requires Whole(n, Owner(e), owners) && sub.preds == [] && sub.table == Target(e)
    ensures Whole(n, Target(e), AllTargets(n, e, sub, owners))
  {
    var q := Where(sub, BatchPred(e, owners));
    forall i | 0 <= i < n ensures Sat(Diagonal(n), q.preds, DiagonalRow(q.table, i)) {
      DiagonalBatch(n, e, owners, i);
      SatAppend(Diagonal(n), [], BatchPred(e, owners), DiagonalRow(q.table, i));
    }
    WholeMatching(n, q);
  }

  lemma WholeIds(n: nat, all: seq<Row>)
    requires Whole(n, Groups, all)
    ensures forall i, j :: 0 <= i < j < |all| ==> KeyOf(Id, all[i]) != KeyOf(Id, all[j])
  {
    forall i, j | 0 <= i < j < |all| ensures KeyOf(Id, all[i]) != KeyOf(Id, all[j]) {
      WholeRow(n, Groups, all, all[i]);
      WholeRow(n, Groups, all, all[j]);
    }
  }

  lemma PairedWindow(n: nat, all: seq<Row>, offset: nat, limit: nat)
    requires Whole(n, Groups, all)
    ensures FirstSeen(Window(Paired(all), offset, limit)) == Window(all, offset, limit)
    ensures Window(Paired(all), offset, limit) == Paired(Window(all, offset, limit))
  {
    var rows := Window(all, offset, limit);
    var start := if offset <= n then offset else n;
    assert rows == all[start..start + |rows|];
    WholeIds(n, all);
    FirstSeenPaired(rows);
    assert Window(Paired(all), offset, limit) == Paired(rows);
  }

  /** On the diagonal a batch is the window of all target rows. */
  lemma DiagonalBatchRows(n: nat, e: Edge, sub: Query, owners: seq<Row>)
    requires Whole(n, Owner(e), owners) && sub.preds == [] && sub.table == Target(e)
    ensures BatchRows(Diagonal(n), e, sub, owners) == Window(AllTargets(n, e, sub, owners), sub.offset, sub.limit)
    ensures RelOf(e) == M2M ==>
      StreamOf(Diagonal(n), e, sub, owners) == Paired(BatchRows(Diagonal(n), e, sub, owners))
  {
    var all := AllTargets(n, e, sub, owners);
    AllTargetsWhole(n, e, sub, owners);
    if RelOf(e) == M2M {
      DiagonalStream(n, owners, all);
      PairedWindow(n, all, sub.offset, sub.limit);
    } else if RelOf(e) == M2O && n > 0 {
      DistinctKeysMembers(FkColumn(e), owners);
      WholeRow(n, Owner(e), owners, owners[0]);
      assert FkColumn(e) in owners[0] && owners[0] in owners;
      assert owners[0][FkColumn(e)] in DistinctKeys(FkColumn(e), owners);
    }
  }

  /** There, a row of the batch goes to the owner of its own number. */
  lemma DiagonalLinked(n: nat, e: Edge, sub: Query, owners: seq<Row>, owner: Row, r: Row)
    requires Whole(n, Owner(e), owners) && sub.preds == [] && sub.table == Target(e)
    requires owner in owners && r in BatchRows(Diagonal(n), e, sub, owners)
    ensures Linked(e, StreamOf(Diagonal(n), e, sub, owners), owner, r) <==> Number(Owner(e), owner) == Number(Target(e), r)
  {
    AllTargetsWhole(n, e, sub, owners);
    DiagonalBatchRows(n, e, sub, owners);
    WholeRow(n, Target(e), AllTargets(n, e, sub, owners), r);
    WholeRow(n, Owner(e), owners, owner);
    if RelOf(e) == M2M {
      var rows := BatchRows(Diagonal(n), e, sub, owners);
      var i :| 0 <= i < |rows| && rows[i] == r;
      assert Paired(rows)[i] == (KeyOf(Id, r), r);
    }
  }

  lemma DiagonalStream(n: nat, owners: seq<Row>, all: seq<Row>)
    requires Whole(n, Accounts, owners) && Whole(n, Groups, all)
    ensures JoinAll(Diagonal(n).accountGroups, Keys(Id, owners), all) == Paired(all)
  {
    forall k | 0 <= k < |all| ensures OnDiagonal(n, Keys(Id, owners), all[k]) {
      var r := all[k];
      WholeRow(n, Groups, all, r);
      var owner := DiagonalRow(Accounts, Number(Groups, r));
      assert DiagonalRows(Accounts, n)[Number(Groups, r)] == owner;
      KeysMember(owners, owner);
    }
    JoinAllPaired(n, Keys(Id, owners), all);
  }

  // ---------------------------------------------------------------- exactly when they agree

  lemma EdgeDiffers(db: Database, q: Query, rows: seq<Row>, owner: Row, e: Edge)
    requires owner in rows && e in q.with
    requires BatchEdge(db, e, q.with[e], rows, owner)
          != Trees(db, q.with[e], Selected(WithKey(e, q.with[e])), Neighbors(db, e, q.with[e], owner))
    ensures forall columns :: BatchTrees(db, q, columns, rows) != Trees(db, q, columns, rows)
  {
    var i :| 0 <= i < |rows| && rows[i] == owner;
    assert BatchKids(db, q, rows, owner)[e] != Kids(db, q, owner)[e];
    forall columns ensures BatchTrees(db, q, columns, rows) != Trees(db, q, columns, rows) {
      assert BatchTrees(db, q, columns, rows)[i].kids != Trees(db, q, columns, rows)[i].kids;
    }
  }

  /** The owner a target row belongs to on the diagonal. */
  function OwnerOf(e: Edge, target: Row): Row {
    DiagonalRow(Owner(e), Number(Target(e), target))
  }

  lemma OwnerLinked(n: nat, e: Edge, sub: Query, rows: seq<Row>, target: Row, r: Row)
    requires sub.preds == [] && sub.table == Target(e)
    requires Whole(n, Owner(e), rows) && target in AllTargets(n, e, sub, rows)
    requires OwnerOf(e, target) in rows && r in BatchRows(Diagonal(n), e, sub, rows)
    ensures Linked(e, StreamOf(Diagonal(n), e, sub, rows), OwnerOf(e, target), r) <==> r == target
  {
    var all := AllTargets(n, e, sub, rows);
    AllTargetsWhole(n, e, sub, rows);
    DiagonalBatchRows(n, e, sub, rows);
    DiagonalLinked(n, e, sub, rows, OwnerOf(e, target), r);
    NumberOfRow(Owner(e), Number(Target(e), target));
    WholeNumbers(n, Target(e), all, r, target);
  }

  lemma NumberOfRow(t: Table, i: int)
    ensures Number(t, DiagonalRow(t, i)) == i
  {
  }

  lemma WholeNumbers(n: nat, t: Table, rows: seq<Row>, r: Row, x: Row)
    requires Whole(n, t, rows) && r in rows && x in rows
    ensures Number(t, r) == Number(t, x) <==> r == x
  {
    WholeRow(n, t, rows, r);
    WholeRow(n, t, rows, x);
  }

  /** What the owner of a target row gets under either form. */
  lemma DiagonalOwner(n: nat, e: Edge, sub: Query, rows: seq<Row>, target: Row)
    requires sub.preds == [] && sub.table == Target(e)
    requires Whole(n, Owner(e), rows) && target in AllTargets(n, e, sub, rows)
    ensures OwnerOf(e, target) in rows
    ensures Neighbors(Diagonal(n), e, sub, OwnerOf(e, target)) == Window([target], sub.offset, sub.limit)
  {
    AllTargetsWhole(n, e, sub, rows);
    WholeRow(n, Target(e), AllTargets(n, e, sub, rows), target);
    var i := Number(Target(e), target);
    assert DiagonalRows(Owner(e), n)[i] == OwnerOf(e, target);
    DiagonalNeighbors(n, e, sub, i);
  }

  /** The owner's share of the batch is its target, if the window let it through. */
  lemma OwnerShare(n: nat, e: Edge, sub: Query, rows: seq<Row>, target: Row, k: nat)
    requires sub.preds == [] && sub.table == Target(e)
    requires Whole(n, Owner(e), rows) && target in AllTargets(n, e, sub, rows) && OwnerOf(e, target) in rows
    requires var nb := BatchRows(Diagonal(n), e, sub, rows);
      k <= |nb| && (k < |nb| ==> nb[k] == target) && forall i :: 0 <= i < |nb| && i != k ==> nb[i] != target
    ensures var cs, nb := Selected(WithKey(e, sub)), BatchRows(Diagonal(n), e, sub, rows);
      BatchEdge(Diagonal(n), e, sub, rows, OwnerOf(e, target))
      == if k < |nb| then [BatchTrees(Diagonal(n), sub, cs, nb)[k]] else []
  {
    var cs, nb := Selected(WithKey(e, sub)), BatchRows(Diagonal(n), e, sub, rows);
    var stream := StreamOf(Diagonal(n), e, sub, rows);
    forall i | 0 <= i < |nb| ensures Linked(e, stream, OwnerOf(e, target), nb[i]) <==> i == k {
      OwnerLinked(n, e, sub, rows, target, nb[i]);
    }
    if k < |nb| {
      PickOne(e, stream, OwnerOf(e, target), nb, BatchTrees(Diagonal(n), sub, cs, nb), k);
    } else {
      PickNone(e, stream, OwnerOf(e, target), nb, BatchTrees(Diagonal(n), sub, cs, nb));
    }
  }

  function WindowSize(sub: Query): nat {
    if sub.offset != 0 then sub.offset + 1 else sub.limit + 1
  }

  /** What the last target is to its owner: the batch leaves it out, or brings nothing else. */
  lemma LastTarget(e: Edge, sub: Query, rows: seq<Row>)
    requires sub.preds == [] && sub.table == Target(e) && (sub.offset != 0 || sub.limit != 0)
    requires Whole(WindowSize(sub), Owner(e), rows)
    ensures var n := WindowSize(sub);
      var all, nb := AllTargets(n, e, sub, rows), BatchRows(Diagonal(n), e, sub, rows);
      && |all| == n && Distinct(all)
      && nb == if sub.offset == 0 then all[..n - 1] else [all[n - 1]]
  {
    AllTargetsWhole(WindowSize(sub), e, sub, rows);
    DiagonalBatchRows(WindowSize(sub), e, sub, rows);
  }

  /** A limit or offset on a nested query shows on the diagonal with one row more than it lets through. */
  lemma WindowDiffers(e: Edge, sub: Query, rows: seq<Row>) returns (owner: Row)
    requires sub.preds == [] && sub.table == Target(e) && (sub.offset != 0 || sub.limit != 0)
    requires Whole(WindowSize(sub), Owner(e), rows)
    ensures owner in rows
    ensures BatchEdge(Diagonal(WindowSize(sub)), e, sub, rows, owner)
         != Trees(Diagonal(WindowSize(sub)), sub, Selected(WithKey(e, sub)),
                  Neighbors(Diagonal(WindowSize(sub)), e, sub, owner))
  {
    var n := WindowSize(sub);
    LastTarget(e, sub, rows);
    var target := AllTargets(n, e, sub, rows)[n - 1];
    owner := OwnerOf(e, target);
    DiagonalOwner(n, e, sub, rows, target);
    OwnerShare(n, e, sub, rows, target, if sub.offset == 0 then n - 1 else 0);
    WindowCounts(target, sub.offset, sub.limit);
  }

  /** An owner's own lookup finds its target under a limit, and nothing under an offset. */
  lemma WindowCounts(target: Row, offset: nat, limit: nat)
    requires offset != 0 || limit != 0
    ensures |Window([target], offset, limit)| == if offset == 0 then 1 else 0
  {
  }

  /** A difference between the trees of one level shows on the level above. */
  lemma NestedDiffers(n: nat, e: Edge, sub: Query, rows: seq<Row>, k: nat) returns (owner: Row)
    requires sub.preds == [] && sub.table == Target(e) && sub.offset == sub.limit == 0
    requires Whole(n, Owner(e), rows)
    requires var cs, nb := Selected(WithKey(e, sub)), AllTargets(n, e, sub, rows);
      k < |nb| && BatchTrees(Diagonal(n), sub, cs, nb)[k] != Trees(Diagonal(n), sub, cs, nb)[k]
    ensures owner in rows
    ensures BatchEdge(Diagonal(n), e, sub, rows, owner)
         != Trees(Diagonal(n), sub, Selected(WithKey(e, sub)), Neighbors(Diagonal(n), e, sub, owner))
  {
    var cs, nb := Selected(WithKey(e, sub)), AllTargets(n, e, sub, rows);
    AllTargetsWhole(n, e, sub, rows);
    DiagonalBatchRows(n, e, sub, rows);
    owner := OwnerOf(e, nb[k]);
    DiagonalOwner(n, e, sub, rows, nb[k]);
    OwnerShare(n, e, sub, rows, nb[k], k);
    assert Trees(Diagonal(n), sub, cs, [nb[k]])[0] == Trees(Diagonal(n), sub, cs, nb)[k];
  }

  /** The size of a diagonal on which a query with a nested limit or offset goes wrong. */
  lemma {:induction false} WindowsDiffer(q: Query) returns (n: nat)
    requires Typed(q) && Unfiltered(q) && !Unwindowed(q)
    ensures forall columns, rows :: Whole(n, q.table, rows) ==>
      BatchTrees(Diagonal(n), q, columns, rows) != Trees(Diagonal(n), q, columns, rows)
    decreases q
  {
    var e :| e in q.with && !(q.with[e].offset == 0 && q.with[e].limit == 0 && Unwindowed(q.with[e]));
    var sub := q.with[e];
    if sub.offset != 0 || sub.limit != 0 {
      n := WindowSize(sub);
      forall columns, rows | Whole(n, q.table, rows)
        ensures BatchTrees(Diagonal(n), q, columns, rows) != Trees(Diagonal(n), q, columns, rows)
      {
        var owner := WindowDiffers(e, sub, rows);
        EdgeDiffers(Diagonal(n), q, rows, owner, e);
      }
    } else {
      n := WindowsDiffer(sub);
      forall columns, rows | Whole(n, q.table, rows)
        ensures BatchTrees(Diagonal(n), q, columns, rows) != Trees(Diagonal(n), q, columns, rows)
      {
        AllTargetsWhole(n, e, sub, rows);
        var cs, nb := Selected(WithKey(e, sub)), AllTargets(n, e, sub, rows);
        var k :| 0 <= k < |nb| && BatchTrees(Diagonal(n), sub, cs, nb)[k] != Trees(Diagonal(n), sub, cs, nb)[k];
        var owner := NestedDiffers(n, e, sub, rows, k);
        EdgeDiffers(Diagonal(n), q, rows, owner, e);
      }
    }
  }

  /** An eager load without filters agrees with per-node lookups on every database exactly when no
      nested query, at any depth, carries a limit or an offset. */
  lemma AgreementIffUnwindowed(q: Query)
    requires Typed(q) && Unfiltered(q) && q.offset == q.limit == 0
    ensures AgreesEverywhere(q) <==> Unwindowed(q)
  {
    if Unwindowed(q) {
      forall db | WellFormed(db) ensures Load(db, q) == Naive(db, q) {
        BatchedIsNaive(db, q, Selected(q), Select(db, q));
      }
    } else {
      var n := WindowsDiffer(q);
      DiagonalWellFormed(n);
      WholeMatching(n, q);
      assert Load(Diagonal(n), q) != Naive(Diagonal(n), q);
    }
  }
}
