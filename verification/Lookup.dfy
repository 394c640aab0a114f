/** Eager loading twice: the naive form looks up every node's neighbours with a query of its own;
    the batched form issues one query per edge for all nodes and deals the rows out. */
module Lookup {
  import opened Wrappers
  import opened Relational

  /** A loaded row, the columns that were fetched (None: all), and its requested edges. */
  datatype Tree = Tree(row: Row, columns: Option<seq<Column>>, kids: map<Edge, Forest>)
  datatype Forest = Forest(trees: seq<Tree>)

  // ---------------------------------------------------------------- selected columns

  function Fetch(row: Row, columns: Option<seq<Column>>): Row {
    match columns
    case None => row
    case Some(cs) => map c | c in row && c in cs :: row[c]
  }

  function AddOnce(columns: seq<Column>, c: Column): seq<Column> {
    if c in columns then columns else columns + [c]
  }

  function WithoutId(fields: seq<Column>): seq<Column> {
    if fields == [] then [] else
      (if fields[0] == Id then [] else [fields[0]]) + WithoutId(fields[1..])
  }

  function AddForeignKeys(columns: seq<Column>, edges: seq<Edge>, requested: set<Edge>): seq<Column>
    decreases edges
  {
    if edges == [] then columns else
      AddForeignKeys(if edges[0] in requested then AddOnce(columns, FkColumn(edges[0])) else columns, edges[1..], requested)
  }

  /** The columns a query fetches: the chosen fields, the id first, and the requested foreign keys. */
  function SelectedColumns(t: Table, fields: seq<Column>, requested: set<Edge>): Option<seq<Column>> {
    if fields == [] then None else
      var chosen := if HasKey(t) then [Id] + WithoutId(fields) else fields;
      Some(AddForeignKeys(chosen, [ProxyEdge, ParentEdge, ThroughAccount, ThroughGroup], requested))
  }

  function Selected(q: Query): Option<seq<Column>> {
    SelectedColumns(q.table, q.fields, q.with.Keys)
  }

  /** A query reached over a one-to-many edge also fetches the column that points back. */
  function WithKey(e: Edge, sub: Query): Query {
    if RelOf(e) == O2M && sub.fields != [] then sub.(fields := AddOnce(sub.fields, FkColumn(e))) else sub
  }

  // ---------------------------------------------------------------- naive lookup

  /** The filter that finds the neighbours of one owner. */
  function NeighborPred(e: Edge, owner: Row): Pred {
    match RelOf(e)
    case M2M => JoinGroups([KeyOf(Id, owner)])
    case M2O => ColumnIn(Id, if FkColumn(e) in owner then [owner[FkColumn(e)]] else [])
    case O2M => ColumnIn(FkColumn(e), [KeyOf(Id, owner)])
  }

  function Neighbors(db: Database, e: Edge, sub: Query, owner: Row): seq<Row> {
    Select(db, Where(sub, NeighborPred(e, owner)))
  }

  function Kids(db: Database, q: Query, row: Row): map<Edge, Forest>
    decreases q, 0
  {
    map e | e in q.with ::
      Forest(Trees(db, q.with[e], Selected(WithKey(e, q.with[e])), Neighbors(db, e, q.with[e], row)))
  }

  function Trees(db: Database, q: Query, columns: Option<seq<Column>>, rows: seq<Row>): seq<Tree>
    decreases q, 1
  {
    seq(|rows|, i requires 0 <= i < |rows| => Tree(rows[i], columns, Kids(db, q, rows[i])))
  }

  // ---------------------------------------------------------------- batched loading

  function Keys(c: Column, rows: seq<Row>): seq<int> {
    seq(|rows|, i requires 0 <= i < |rows| => KeyOf(c, rows[i]))
  }

  /** The non-NULL values of a column, each once, in order of first appearance. */
  function DistinctKeys(c: Column, rows: seq<Row>): seq<int> {
    if rows == [] then [] else
      var front, r := DistinctKeys(c, rows[..|rows| - 1]), rows[|rows| - 1];
      if c !in r || r[c] in front then front else front + [r[c]]
  }

  function BatchPred(e: Edge, owners: seq<Row>): Pred {
    match RelOf(e)
    case M2M => JoinGroups(Keys(Id, owners))
    case M2O => ColumnIn(Id, DistinctKeys(FkColumn(e), owners))
    case O2M => ColumnIn(FkColumn(e), Keys(Id, owners))
  }

  /** The rows of the joined query behind a many-to-many load, each with the account it was joined to. */
  function Stream(db: Database, q: Query, ids: seq<int>): seq<(int, Row)> {
    Window(JoinAll(db.accountGroups, ids, Matching(db, q)), q.offset, q.limit)
  }

  function StreamOf(db: Database, e: Edge, sub: Query, owners: seq<Row>): seq<(int, Row)> {
    if RelOf(e) == M2M then Stream(db, Where(sub, BatchPred(e, owners)), Keys(Id, owners)) else []
  }

  /** The neighbours one batched query brings back for all owners. */
  function BatchRows(db: Database, e: Edge, sub: Query, owners: seq<Row>): seq<Row> {
    if RelOf(e) == M2M then FirstSeen(StreamOf(db, e, sub, owners))
    else if RelOf(e) == M2O && DistinctKeys(FkColumn(e), owners) == [] then []
    else Select(db, Where(sub, BatchPred(e, owners)))
  }

  /** Whether a row of the batch goes to this owner. */
  predicate Linked(e: Edge, stream: seq<(int, Row)>, owner: Row, r: Row) {
    match RelOf(e)
    case M2M => exists p :: p in stream && p.0 == KeyOf(Id, owner) && KeyOf(Id, p.1) == KeyOf(Id, r)
    case M2O => FkColumn(e) in owner && KeyOf(Id, r) == owner[FkColumn(e)]
    case O2M => KeyOf(FkColumn(e), r) == KeyOf(Id, owner)
  }

  function Pick<T>(e: Edge, stream: seq<(int, Row)>, owner: Row, rows: seq<Row>, xs: seq<T>): seq<T>
    requires |rows| == |xs|
  {
    if rows == [] then [] else
      var n := |rows| - 1;
      var front := Pick(e, stream, owner, rows[..n], xs[..n]);
      if Linked(e, stream, owner, rows[n]) then front + [xs[n]] else front
  }

  function BatchKids(db: Database, q: Query, rows: seq<Row>, owner: Row): map<Edge, Forest>
    decreases q, 0
  {
    map e | e in q.with ::
      Forest(BatchEdge(db, e, q.with[e], rows, owner))
  }

  /** One owner's share of the trees the batch for one edge loads. */
  function BatchEdge(db: Database, e: Edge, sub: Query, rows: seq<Row>, owner: Row): seq<Tree>
    decreases sub, 2
  {
    var nb := BatchRows(db, e, sub, rows);
    Pick(e, StreamOf(db, e, sub, rows), owner, nb, BatchTrees(db, sub, Selected(WithKey(e, sub)), nb))
  }

  function BatchTrees(db: Database, q: Query, columns: Option<seq<Column>>, rows: seq<Row>): (trees: seq<Tree>)
    ensures |trees| == |rows|
    decreases q, 1
  {
    seq(|rows|, i requires 0 <= i < |rows| => Tree(rows[i], columns, BatchKids(db, q, rows, rows[i])))
  }

  // ---------------------------------------------------------------- the batch refines the lookup

  /** Every nested query is on the table its edge leads to. */
  ghost predicate Typed(q: Query) {
    forall e :: e in q.with ==> Owner(e) == q.table && q.with[e].table == Target(e) && Typed(q.with[e])
  }

  /** No nested query carries a limit or an offset. */
  ghost predicate Unwindowed(q: Query) {
    forall e :: e in q.with ==> q.with[e].offset == 0 && q.with[e].limit == 0 && Unwindowed(q.with[e])
  }

  lemma {:induction false} DistinctKeysMembers(c: Column, rows: seq<Row>)
    ensures forall k :: k in DistinctKeys(c, rows) <==> exists r :: r in rows && c in r && r[c] == k
    ensures forall i, j :: 0 <= i < j < |DistinctKeys(c, rows)| ==> DistinctKeys(c, rows)[i] != DistinctKeys(c, rows)[j]
  {
    if rows != [] {
      var front, last := rows[..|rows| - 1], rows[|rows| - 1];
      assert rows == front + [last];
      DistinctKeysMembers(c, front);
    }
  }

  lemma {:induction false} PickIsFilter(db: Database, e: Edge, stream: seq<(int, Row)>, owner: Row, rows: seq<Row>)
    requires forall r :: r in rows ==> (Linked(e, stream, owner, r) <==> Holds(db, NeighborPred(e, owner), r))
    ensures Pick(e, stream, owner, rows, rows) == Filter(db, [NeighborPred(e, owner)], rows)
  {
    if rows != [] {
      var front, last := rows[..|rows| - 1], rows[|rows| - 1];
      assert rows == front + [last];
      PickIsFilter(db, e, stream, owner, front);
      FilterAppend(db, [NeighborPred(e, owner)], front, last);
      SatAppend(db, [], NeighborPred(e, owner), last);
      assert [] + [NeighborPred(e, owner)] == [NeighborPred(e, owner)];
    }
  }

  lemma {:induction false} PickTrees(
    db: Database, q: Query, columns: Option<seq<Column>>,
    e: Edge, stream: seq<(int, Row)>, owner: Row, rows: seq<Row>)
    ensures Pick(e, stream, owner, rows, Trees(db, q, columns, rows))
         == Trees(db, q, columns, Pick(e, stream, owner, rows, rows))
  {
    if rows != [] {
      var front := rows[..|rows| - 1];
      PickTrees(db, q, columns, e, stream, owner, front);
      assert Trees(db, q, columns, rows)[..|front|] == Trees(db, q, columns, front);
    }
  }

  lemma {:induction false} JoinedWithMembers(joins: seq<Row>, ids: seq<int>, r: Row)
    ensures forall p :: p in JoinedWith(joins, ids, r) <==>
      Id in r && p.1 == r && p.0 in ids && exists j :: j in joins && Joins(j, p.0, r[Id])
  {
    if joins != [] {
      var front, last := joins[..|joins| - 1], joins[|joins| - 1];
      assert joins == front + [last];
      JoinedWithMembers(front, ids, r);
    }
  }

  lemma {:induction false} JoinAllMembers(joins: seq<Row>, ids: seq<int>, rows: seq<Row>)
    ensures forall p :: p in JoinAll(joins, ids, rows) <==>
      p.1 in rows && Id in p.1 && p.0 in ids && exists j :: j in joins && Joins(j, p.0, p.1[Id])
  {
    if rows != [] {
      var front, last := rows[..|rows| - 1], rows[|rows| - 1];
      assert rows == front + [last];
      JoinAllMembers(joins, ids, front);
      JoinedWithMembers(joins, ids, last);
    }
  }

  lemma {:induction false} FirstSeenSource(stream: seq<(int, Row)>, r: Row)
    requires r in FirstSeen(stream)
    ensures exists p :: p in stream && p.1 == r
  {
    var front, last := stream[..|stream| - 1], stream[|stream| - 1];
    assert stream == front + [last];
    if r in FirstSeen(front) {
      FirstSeenSource(front, r);
    }
  }

  lemma {:induction false} FirstSeenDistinct(stream: seq<(int, Row)>)
    ensures forall i, j :: 0 <= i < j < |FirstSeen(stream)| ==> KeyOf(Id, FirstSeen(stream)[i]) != KeyOf(Id, FirstSeen(stream)[j])
  {
    if stream != [] {
      var front, last := stream[..|stream| - 1], stream[|stream| - 1];
      FirstSeenDistinct(front);
      assert FirstSeen(stream) == FirstSeen(front) || FirstSeen(stream) == FirstSeen(front) + [last.1];
    }
  }

  /** A run of pairs for one new row adds that row once. */
  lemma {:induction false} FirstSeenRun(stream: seq<(int, Row)>, run: seq<(int, Row)>, r: Row)
    requires run != [] && forall p :: p in run ==> p.1 == r
    requires forall x :: x in FirstSeen(stream) ==> KeyOf(Id, x) != KeyOf(Id, r)
    ensures FirstSeen(stream + run) == FirstSeen(stream) + [r]
  {
    var front, last := run[..|run| - 1], run[|run| - 1];
    assert last in run;
    assert (stream + run)[..|stream + run| - 1] == stream + front;
    if front == [] {
      assert stream + front == stream;
    } else {
      FirstSeenRun(stream, front, r);
      assert r in FirstSeen(stream + front) by {
        assert (FirstSeen(stream) + [r])[|FirstSeen(stream)|] == r;
      }
      assert (stream + run)[|stream + run| - 1] == last;
    }
  }

  /** De-duplicating the joined stream gives back the matching rows in their own order. */
  lemma {:induction false} FirstSeenJoin(joins: seq<Row>, ids: seq<int>, rows: seq<Row>)
    requires Keyed(rows)
    requires forall r :: r in rows ==> exists j :: j in joins && AccountId in j && j[AccountId] in ids && Joins(j, j[AccountId], r[Id])
    ensures FirstSeen(JoinAll(joins, ids, rows)) == rows
  {
    if rows != [] {
      var front, last := rows[..|rows| - 1], rows[|rows| - 1];
      assert rows == front + [last];
      FirstSeenJoin(joins, ids, front);
      JoinedWithMembers(joins, ids, last);
      var j :| j in joins && AccountId in j && j[AccountId] in ids && Joins(j, j[AccountId], last[Id]);
      assert (j[AccountId], last) in JoinedWith(joins, ids, last);
      forall x | x in front ensures KeyOf(Id, x) != KeyOf(Id, last) {
        var i :| 0 <= i < |front| && front[i] == x;
      }
      FirstSeenRun(JoinAll(joins, ids, front), JoinedWith(joins, ids, last), last);
    }
  }

  lemma KeysMember(rows: seq<Row>, owner: Row)
    requires owner in rows
    ensures KeyOf(Id, owner) in Keys(Id, rows)
  {
    var i :| 0 <= i < |rows| && rows[i] == owner;
    assert Keys(Id, rows)[i] == KeyOf(Id, owner);
  }

  lemma BatchWiderThanOwner(db: Database, e: Edge, rows: seq<Row>, owner: Row)
    requires owner in rows
    ensures forall r :: Holds(db, NeighborPred(e, owner), r) ==> Holds(db, BatchPred(e, rows), r)
  {
    KeysMember(rows, owner);
    DistinctKeysMembers(FkColumn(e), rows);
    forall r | Holds(db, NeighborPred(e, owner), r) ensures Holds(db, BatchPred(e, rows), r) {
      if RelOf(e) == M2M {
        var j :| j in db.accountGroups && AccountId in j && j[AccountId] in [KeyOf(Id, owner)] && Joins(j, j[AccountId], r[Id]);
        assert j[AccountId] in Keys(Id, rows);
      } else if RelOf(e) == M2O {
        assert r[Id] == owner[FkColumn(e)];
      } else {
        assert r[FkColumn(e)] == KeyOf(Id, owner);
      }
    }
  }

  /** Without limits the one batched query returns every row that matches some owner. */
  lemma BatchRowsAreMatching(db: Database, e: Edge, sub: Query, rows: seq<Row>)
    requires WellFormed(db) && sub.table == Target(e) && sub.offset == sub.limit == 0
    ensures BatchRows(db, e, sub, rows) == Matching(db, Where(sub, BatchPred(e, rows)))
  {
    var q := Where(sub, BatchPred(e, rows));
    MatchingMembers(db, q);
    forall r | r in Matching(db, q) ensures Holds(db, BatchPred(e, rows), r) {
      SatAppend(db, sub.preds, BatchPred(e, rows), r);
    }
    if RelOf(e) == M2M {
      MatchingKeyed(db, q);
      FirstSeenJoin(db.accountGroups, Keys(Id, rows), Matching(db, q));
    } else if RelOf(e) == M2O && DistinctKeys(FkColumn(e), rows) == [] {
      assert |Matching(db, q)| == 0 || Matching(db, q)[0] in Matching(db, q);
    }
  }

  lemma LinkedIsNeighbor(db: Database, e: Edge, sub: Query, rows: seq<Row>, owner: Row, r: Row)
    requires WellFormed(db) && sub.table == Target(e) && sub.offset == sub.limit == 0
    requires owner in rows && r in Matching(db, Where(sub, BatchPred(e, rows)))
    ensures Linked(e, StreamOf(db, e, sub, rows), owner, r) <==> Holds(db, NeighborPred(e, owner), r)
  {
    var q := Where(sub, BatchPred(e, rows));
    MatchingMembers(db, q);
    SatAppend(db, sub.preds, BatchPred(e, rows), r);
    if RelOf(e) == M2M {
      KeysMember(rows, owner);
      JoinAllMembers(db.accountGroups, Keys(Id, rows), Matching(db, q));
      if Holds(db, NeighborPred(e, owner), r) {
        assert (KeyOf(Id, owner), r) in StreamOf(db, e, sub, rows);
      }
    }
  }

  /** One owner's share of the batch is what that owner's own query returns. */
  lemma BatchShare(db: Database, e: Edge, sub: Query, rows: seq<Row>, owner: Row)
    requires WellFormed(db) && sub.table == Target(e) && sub.offset == sub.limit == 0
    requires owner in rows
    ensures var nb := BatchRows(db, e, sub, rows);
      Pick(e, StreamOf(db, e, sub, rows), owner, nb, nb) == Neighbors(db, e, sub, owner)
  {
    var nb := BatchRows(db, e, sub, rows);
    BatchRowsAreMatching(db, e, sub, rows);
    forall r | r in nb
      ensures Linked(e, StreamOf(db, e, sub, rows), owner, r) <==> Holds(db, NeighborPred(e, owner), r)
    {
      LinkedIsNeighbor(db, e, sub, rows, owner, r);
    }
    PickIsFilter(db, e, StreamOf(db, e, sub, rows), owner, nb);
    BatchWiderThanOwner(db, e, rows, owner);
    MatchingNarrow(db, sub, BatchPred(e, rows), NeighborPred(e, owner));
  }

  lemma EdgeAgrees(db: Database, e: Edge, sub: Query, rows: seq<Row>, owner: Row)
    requires WellFormed(db) && sub.table == Target(e) && sub.offset == sub.limit == 0
    requires owner in rows
    ensures var nb, cs := BatchRows(db, e, sub, rows), Selected(WithKey(e, sub));
      Pick(e, StreamOf(db, e, sub, rows), owner, nb, Trees(db, sub, cs, nb))
      == Trees(db, sub, cs, Neighbors(db, e, sub, owner))
  {
    PickTrees(db, sub, Selected(WithKey(e, sub)), e, StreamOf(db, e, sub, rows), owner, BatchRows(db, e, sub, rows));
    BatchShare(db, e, sub, rows, owner);
  }

  /** For every tree of nested eager loads without nested limits, and every database, dealing out
      the batched queries builds the graph that looking up each node's neighbours builds. */
  lemma {:induction false} BatchedIsNaive(db: Database, q: Query, columns: Option<seq<Column>>, rows: seq<Row>)
    requires WellFormed(db) && Typed(q) && Unwindowed(q)
    ensures BatchTrees(db, q, columns, rows) == Trees(db, q, columns, rows)
    decreases q, 1
  {
    forall i | 0 <= i < |rows| ensures BatchKids(db, q, rows, rows[i]) == Kids(db, q, rows[i]) {
      KidsAgree(db, q, rows, rows[i]);
    }
  }

  lemma {:induction false} KidsAgree(db: Database, q: Query, rows: seq<Row>, owner: Row)
    requires WellFormed(db) && Typed(q) && Unwindowed(q) && owner in rows
    ensures BatchKids(db, q, rows, owner) == Kids(db, q, owner)
    decreases q, 0
  {
    forall e | e in q.with ensures BatchKids(db, q, rows, owner)[e] == Kids(db, q, owner)[e] {
      BatchedIsNaive(db, q.with[e], Selected(WithKey(e, q.with[e])), BatchRows(db, e, q.with[e], rows));
      EdgeAgrees(db, e, q.with[e], rows, owner);
    }
  }
}
