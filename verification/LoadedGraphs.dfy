/** What the loaded nodes hold, in terms of the database: their lists, what their accessors answer, and
    which of their columns a field selection leaves. */
module LoadedGraphs {
  import opened Wrappers
  import opened Relational
  import opened Lookup
  import opened Agreement
  import opened Reuse
  import opened EagerLoading

  // ---------------------------------------------------------------- lists

  /** The trees of some of the rows that a batch loaded together. */
  function TreesFor(db: Database, q: Query, columns: Option<seq<Column>>, batch: seq<Row>, rows: seq<Row>): seq<Tree> {
    seq(|rows|, i requires 0 <= i < |rows| => Tree(rows[i], columns, BatchKids(db, q, batch, rows[i])))
  }

  lemma {:induction false} PickTreesFor(
    db: Database, q: Query, columns: Option<seq<Column>>, batch: seq<Row>,
    e: Edge, stream: seq<(int, Row)>, owner: Row, rows: seq<Row>)
    ensures Pick(e, stream, owner, rows, TreesFor(db, q, columns, batch, rows))
         == TreesFor(db, q, columns, batch, Pick(e, stream, owner, rows, rows))
  {
    if rows != [] {
      var front := rows[..|rows| - 1];
      PickTreesFor(db, q, columns, batch, e, stream, owner, front);
      assert TreesFor(db, q, columns, batch, rows)[..|front|] == TreesFor(db, q, columns, batch, front);
    }
  }

  /** The rows of a batch that go to one owner. */
  function Share(db: Database, e: Edge, sub: Query, rows: seq<Row>, owner: Row): seq<Row> {
    var nb := BatchRows(db, e, sub, rows);
    Pick(e, StreamOf(db, e, sub, rows), owner, nb, nb)
  }

  lemma EdgeIsShare(db: Database, e: Edge, sub: Query, rows: seq<Row>, owner: Row)
    ensures BatchEdge(db, e, sub, rows, owner)
         == TreesFor(db, sub, Selected(WithKey(e, sub)), BatchRows(db, e, sub, rows), Share(db, e, sub, rows, owner))
  {
    var cs, nb := Selected(WithKey(e, sub)), BatchRows(db, e, sub, rows);
    PickTreesFor(db, sub, cs, nb, e, StreamOf(db, e, sub, rows), owner, nb);
    assert BatchTrees(db, sub, cs, nb) == TreesFor(db, sub, cs, nb, nb);
  }

  /** The nodes hold the fetched cells of the rows. */
  ghost predicate HoldRows(nodes: seq<Node>, rows: seq<Row>, columns: Option<seq<Column>>) {
    |nodes| == |rows| && forall k :: 0 <= k < |nodes| ==> nodes[k].cells == Fetch(rows[k], columns)
  }

  /** Without a window, a loaded edge holds exactly the owner's own neighbours, in their order. */
  lemma ListIsNeighbors(db: Database, q: Query, columns: Option<seq<Column>>, rows: seq<Row>, i: nat, n: Node, S: set<Node>, e: Edge)
    requires WellFormed(db) && Typed(q) && e in q.with && q.with[e].offset == q.with[e].limit == 0
    requires i < |rows| && Denotes(n, BatchTrees(db, q, columns, rows)[i], S)
    ensures HoldRows(n.List(e), Neighbors(db, e, q.with[e], rows[i]), Selected(WithKey(e, q.with[e])))
  {
    var sub, t := q.with[e], BatchTrees(db, q, columns, rows)[i];
    assert t == Tree(rows[i], columns, BatchKids(db, q, rows, rows[i]));
    assert ListDenotes(n.List(e), t.kids[e], S);
    EdgeIsShare(db, e, sub, rows, rows[i]);
    BatchShare(db, e, sub, rows, rows[i]);
  }

  // ---------------------------------------------------------------- what each edge means

  /** The row x lies at the end of the edge from the row r, column by column. */
  ghost predicate Reaches(db: Database, e: Edge, r: Row, x: Row) {
    match e
    case GroupsEdge =>
      && x in db.groups && Id in r && Id in x
      && exists j :: j in db.accountGroups && AccountId in j && GroupId in j && j[AccountId] == r[Id] && j[GroupId] == x[Id]
    case ProxyEdge => x in db.proxies && ProxyId in r && Id in x && x[Id] == r[ProxyId]
    case ParentEdge => x in db.accounts && ParentAccountId in r && Id in x && x[Id] == r[ParentAccountId]
    case ChildrenEdge => x in db.accounts && Id in r && ParentAccountId in x && x[ParentAccountId] == r[Id]
    case UsageLogsEdge => x in db.usageLogs && Id in r && AccountId in x && x[AccountId] == r[Id]
    case AccountGroupsEdge => x in db.accountGroups && Id in r && AccountId in x && x[AccountId] == r[Id]
    case ThroughAccount => x in db.accounts && AccountId in r && Id in x && x[Id] == r[AccountId]
    case ThroughGroup => x in db.groups && GroupId in r && Id in x && x[Id] == r[GroupId]
  }

  /** The table at the end of an edge. */
  function EndRows(db: Database, e: Edge): seq<Row> {
    match e
    case GroupsEdge => db.groups
    case ProxyEdge => db.proxies
    case ParentEdge => db.accounts
    case ChildrenEdge => db.accounts
    case UsageLogsEdge => db.usageLogs
    case AccountGroupsEdge => db.accountGroups
    case ThroughAccount => db.accounts
    case ThroughGroup => db.groups
  }

  lemma {:induction false} FilterCount(db: Database, preds: seq<Pred>, rows: seq<Row>, x: Row)
    ensures multiset(Filter(db, preds, rows))[x] == if Sat(db, preds, x) then multiset(rows)[x] else 0
  {
    if rows != [] {
      var front, last := rows[..|rows| - 1], rows[|rows| - 1];
      assert rows == front + [last];
      FilterCount(db, preds, front, x);
    }
  }

  lemma {:induction false} InsertCount(order: Order, rows: seq<Row>, r: Row)
    ensures multiset(Insert(order, rows, r)) == multiset(rows) + multiset{r}
  {
    if rows != [] {
      var front, last := rows[..|rows| - 1], rows[|rows| - 1];
      assert rows == front + [last];
      InsertCount(order, front, r);
    }
  }

  lemma {:induction false} SortCount(order: Order, rows: seq<Row>)
    ensures multiset(Sort(order, rows)) == multiset(rows)
  {
    if rows != [] {
      var front, last := rows[..|rows| - 1], rows[|rows| - 1];
      assert rows == front + [last];
      SortCount(order, front);
      InsertCount(order, Sort(order, front), last);
    }
  }

  /** The whole meaning of a select without a window. */
  lemma MatchingCount(db: Database, q: Query, x: Row)
    ensures multiset(Matching(db, q))[x] == if Sat(db, q.preds, x) then multiset(Rows(db, q.table))[x] else 0
  {
    var rows := Filter(db, q.preds, Rows(db, q.table));
    FilterCount(db, q.preds, Rows(db, q.table), x);
    SortCount(q.order, rows);
  }

  /** A lookup over an edge finds exactly the rows at its end that pass the filters, in the order asked for. */
  lemma NeighborsAreReached(db: Database, e: Edge, sub: Query, r: Row)
    requires WellFormed(db) && r in Rows(db, Owner(e)) && sub.table == Target(e) && sub.offset == sub.limit == 0
    ensures forall x :: multiset(Neighbors(db, e, sub, r))[x]
                     == if Reaches(db, e, r, x) && Sat(db, sub.preds, x) then multiset(EndRows(db, e))[x] else 0
    ensures Sorted(sub.order, Neighbors(db, e, sub, r))
  {
    var q := Where(sub, NeighborPred(e, r));
    SortSorted(sub.order, Filter(db, q.preds, Rows(db, sub.table)));
    forall x ensures multiset(Neighbors(db, e, sub, r))[x]
                  == if Reaches(db, e, r, x) && Sat(db, sub.preds, x) then multiset(EndRows(db, e))[x] else 0
    {
      MatchingCount(db, q, x);
      SatAppend(db, sub.preds, NeighborPred(e, r), x);
      if x in EndRows(db, e) {
        EndIsReached(db, e, r, x);
      }
    }
  }

  lemma EndIsReached(db: Database, e: Edge, r: Row, x: Row)
    requires WellFormed(db) && r in Rows(db, Owner(e)) && x in EndRows(db, e)
    ensures Holds(db, NeighborPred(e, r), x) <==> Reaches(db, e, r, x)
  {
    if e == GroupsEdge {
      GroupReached(db, r, x);
    }
  }

  lemma GroupReached(db: Database, r: Row, x: Row)
    requires Id in r && x in db.groups
    ensures Holds(db, NeighborPred(GroupsEdge, r), x) <==> Reaches(db, GroupsEdge, r, x)
  {
    if Holds(db, NeighborPred(GroupsEdge, r), x) {
      var j :| j in db.accountGroups && AccountId in j && j[AccountId] in [r[Id]] && Joins(j, j[AccountId], x[Id]);
    }
    if Reaches(db, GroupsEdge, r, x) {
      var j :| j in db.accountGroups && AccountId in j && GroupId in j && j[AccountId] == r[Id] && j[GroupId] == x[Id];
      assert j[AccountId] in [r[Id]];
    }
  }

  /** The nodes hold the fetched cells of exactly the rows at the end of an edge that pass the filters, each as
      often as the table holds it, in the order asked for. */
  ghost predicate HoldReached(db: Database, e: Edge, sub: Query, r: Row, nodes: seq<Node>) {
    exists found ::
      && HoldRows(nodes, found, Selected(WithKey(e, sub)))
      && Sorted(sub.order, found)
      && forall x :: multiset(found)[x] == if Reaches(db, e, r, x) && Sat(db, sub.preds, x) then multiset(EndRows(db, e))[x] else 0
  }

  /** What each of the eight edges holds on a node that a query loaded at any depth, rows[i] being the row it
      stands for. */
  lemma EdgeHolds(db: Database, q: Query, columns: Option<seq<Column>>, rows: seq<Row>, i: nat, n: Node, S: set<Node>, e: Edge)
    requires WellFormed(db) && Typed(q) && e in q.with && q.with[e].offset == q.with[e].limit == 0
    requires i < |rows| && rows[i] in Rows(db, q.table) && Denotes(n, BatchTrees(db, q, columns, rows)[i], S)
    ensures HoldReached(db, e, q.with[e], rows[i], n.List(e))
  {
    ListIsNeighbors(db, q, columns, rows, i, n, S, e);
    NeighborsAreReached(db, e, q.with[e], rows[i]);
  }

  /** In particular on the nodes that a load returns. */
  lemma LoadedEdgeHolds(db: Database, q: Query, nodes: seq<Node>, S: set<Node>, i: nat, e: Edge)
    requires WellFormed(db) && Typed(q) && e in q.with && q.with[e].offset == q.with[e].limit == 0
    requires ListDenotes(nodes, Forest(Load(db, q)), S) && i < |nodes|
    ensures |nodes| == |Select(db, q)| && nodes[i].cells == Fetch(Select(db, q)[i], Selected(q))
    ensures HoldReached(db, e, q.with[e], Select(db, q)[i], nodes[i].List(e))
  {
    var rows := Select(db, q);
    assert Denotes(nodes[i], Load(db, q)[i], S);
    MatchingMembers(db, q);
    assert rows[i] in Matching(db, q);
    EdgeHolds(db, q, Selected(q), rows, i, nodes[i], S, e);
  }

  /** The rows that a batch finds are rows of its table, so that the above applies to them in turn. */
  lemma BatchRowsInTable(db: Database, e: Edge, sub: Query, owners: seq<Row>)
    ensures forall r :: r in BatchRows(db, e, sub, owners) ==> r in Rows(db, sub.table)
  {
    var q := Where(sub, BatchPred(e, owners));
    MatchingMembers(db, q);
    if RelOf(e) == M2M {
      forall r | r in BatchRows(db, e, sub, owners) ensures r in Rows(db, sub.table) {
        FirstSeenSource(StreamOf(db, e, sub, owners), r);
        JoinAllMembers(db.accountGroups, Keys(Id, owners), Matching(db, q));
      }
    }
  }

  // ---------------------------------------------------------------- accessors

  /** The row a to-one edge of `row` leads to: the one its key names, if the filters let it through. */
  ghost predicate IsTarget(db: Database, e: Edge, sub: Query, row: Row, target: Row) {
    Reaches(db, e, row, target) && Sat(db, sub.preds, target)
  }

  predicate ToOne(e: Edge) {
    e == ProxyEdge || e == ParentEdge || e == ThroughAccount || e == ThroughGroup
  }

  /** What the accessors answer on a node that a query loaded at any depth, rows[i] being the row it stands for.
      A to-one edge is not loaded exactly when it was not requested; it is not found exactly when it was
      requested and the key is NULL or names no row that passes the filters; otherwise it is found and
      holds that row. A to-many edge is found exactly when it was requested, and holds the rows it reaches. */
  lemma AccessorTrichotomy(db: Database, q: Query, columns: Option<seq<Column>>, rows: seq<Row>, i: nat, n: Node, S: set<Node>, e: Edge)
    requires WellFormed(db) && Typed(q) && (e in q.with ==> q.with[e].offset == q.with[e].limit == 0)
    requires i < |rows| && rows[i] in Rows(db, q.table) && Denotes(n, BatchTrees(db, q, columns, rows)[i], S)
    ensures n.UniqueOrErr(e).NotLoaded? <==> e !in q.with
    ensures ToOne(e) ==>
      (n.UniqueOrErr(e).NotFound? <==> e in q.with && !exists x :: IsTarget(db, e, q.with[e], rows[i], x))
    ensures ToOne(e) && n.UniqueOrErr(e).Found? ==>
      e in q.with && exists x ::
        IsTarget(db, e, q.with[e], rows[i], x) && n.UniqueOrErr(e).value.cells == Fetch(x, Selected(WithKey(e, q.with[e])))
    ensures n.ManyOrErr(e).Found? <==> e in q.with
    ensures n.ManyOrErr(e).Found? ==> HoldReached(db, e, q.with[e], rows[i], n.ManyOrErr(e).value)
  {
    var t := BatchTrees(db, q, columns, rows)[i];
    assert t == Tree(rows[i], columns, BatchKids(db, q, rows, rows[i]));
    assert t.kids.Keys == q.with.Keys;
    if e in q.with {
      EdgeHolds(db, q, columns, rows, i, n, S, e);
      var found := HeldMembers(db, e, q.with[e], rows[i], n.List(e));
      assert found != [] ==> found[0] in found;
    }
  }

  /** The rows behind a list are those at the end of the edge that pass the filters. */
  lemma HeldMembers(db: Database, e: Edge, sub: Query, r: Row, nodes: seq<Node>) returns (found: seq<Row>)
    requires HoldReached(db, e, sub, r, nodes)
    ensures HoldRows(nodes, found, Selected(WithKey(e, sub)))
    ensures forall x :: x in found <==> IsTarget(db, e, sub, r, x)
  {
    found :| HoldRows(nodes, found, Selected(WithKey(e, sub)))
      && forall x :: multiset(found)[x] == if Reaches(db, e, r, x) && Sat(db, sub.preds, x) then multiset(EndRows(db, e))[x] else 0;
    forall x ensures x in found <==> IsTarget(db, e, sub, r, x) {
      assert x in found <==> x in multiset(found);
      assert x in EndRows(db, e) <==> x in multiset(EndRows(db, e));
    }
  }

  // ---------------------------------------------------------------- column selection

  /** The query with every field selection dropped. */
  function AllFields(q: Query): Query {
    q.(fields := [], with := map e | e in q.with :: AllFields(q.with[e]))
  }

  lemma AllFieldsRows(db: Database, e: Edge, sub: Query, rows: seq<Row>)
    ensures BatchRows(db, e, AllFields(sub), rows) == BatchRows(db, e, sub, rows)
    ensures StreamOf(db, e, AllFields(sub), rows) == StreamOf(db, e, sub, rows)
  {
  }

  /** A column reads the same, NULL included. */
  predicate SameCell(cells: Row, full: Row, c: Column) {
    (c in cells <==> c in full) && (c in cells ==> cells[c] == full[c])
  }

  /** The columns that are fetched besides the selected ones. */
  predicate IsKey(q: Query, c: Column) {
    || (c == Id && q.table != AccountGroups)
    || (c == ProxyId && ProxyEdge in q.with) || (c == ParentAccountId && ParentEdge in q.with)
    || (c == AccountId && ThroughAccount in q.with) || (c == GroupId && ThroughGroup in q.with)
  }

  /** What a node loaded with a field selection keeps of the node loaded with all fields: every selected
      field, its id, the key of every requested to-one edge, and nothing else. */
  ghost predicate Keeps(q: Query, fields: seq<Column>, cells: Row, full: Row) {
    && (fields == [] ==> cells == full)
    && (forall c :: c in fields || IsKey(q, c) ==> SameCell(cells, full, c))
    && (forall c :: c in cells && fields != [] ==> c in fields || IsKey(q, c))
  }

  /** Node by node and edge by edge, the two graphs are the same but for the columns that were not selected. */
  ghost predicate Pruned(q: Query, fields: seq<Column>, ns: seq<Node>, ms: seq<Node>, S: set<Node>, S': set<Node>)
    reads S, S'
    decreases q
  {
    && |ns| == |ms|
    && forall i :: 0 <= i < |ns| ==>
      && ns[i] in S && ms[i] in S' && Keeps(q, fields, ns[i].cells, ms[i].cells) && ns[i].loadedTypes == ms[i].loadedTypes
      && forall e :: e in q.with ==>
        Pruned(q.with[e], WithKey(e, q.with[e]).fields, ns[i].List(e), ms[i].List(e), S, S')
  }

  lemma {:induction false} WithoutIdOnly(fields: seq<Column>, c: Column)
    ensures c in WithoutId(fields) <==> c in fields && c != Id
  {
    if fields != [] {
      WithoutIdOnly(fields[1..], c);
    }
  }

  lemma {:induction false} ForeignKeysOnly(columns: seq<Column>, edges: seq<Edge>, requested: set<Edge>, c: Column)
    ensures c in AddForeignKeys(columns, edges, requested)
       <==> c in columns || exists e :: e in edges && e in requested && FkColumn(e) == c
    decreases edges
  {
    if edges != [] {
      ForeignKeysOnly(if edges[0] in requested then AddOnce(columns, FkColumn(edges[0])) else columns, edges[1..], requested, c);
      assert edges == [edges[0]] + edges[1..];
    }
  }

  lemma RequestedKey(q: Query, c: Column)
    requires Typed(q)
    ensures (exists e :: e in [ProxyEdge, ParentEdge, ThroughAccount, ThroughGroup] && e in q.with.Keys && FkColumn(e) == c)
       <==> IsKey(q, c) && c != Id
  {
    var edges := [ProxyEdge, ParentEdge, ThroughAccount, ThroughGroup];
    assert edges[0] in edges && edges[1] in edges && edges[2] in edges && edges[3] in edges;
    assert FkColumn(edges[0]) == ProxyId && FkColumn(edges[1]) == ParentAccountId;
    assert FkColumn(edges[2]) == AccountId && FkColumn(edges[3]) == GroupId;
  }

  /** Exactly the selected fields and the keys are fetched. */
  lemma SelectedExactly(q: Query, fields: seq<Column>, c: Column)
    requires Typed(q) && fields != []
    ensures c in SelectedColumns(q.table, fields, q.with.Keys).value <==> c in fields || IsKey(q, c)
  {
    WithoutIdOnly(fields, c);
    RequestedKey(q, c);
    ForeignKeysOnly(if HasKey(q.table) then [Id] + WithoutId(fields) else fields,
      [ProxyEdge, ParentEdge, ThroughAccount, ThroughGroup], q.with.Keys, c);
  }

  lemma FetchKeeps(q: Query, fields: seq<Column>, row: Row)
    requires Typed(q)
    ensures Keeps(q, fields, Fetch(row, SelectedColumns(q.table, fields, q.with.Keys)), row)
  {
    if fields != [] {
      forall c ensures c in SelectedColumns(q.table, fields, q.with.Keys).value <==> c in fields || IsKey(q, c) {
        SelectedExactly(q, fields, c);
      }
    }
  }

  /** Two loads of the same rows, one with field selections and one without, at any depth. */
  lemma {:induction false} PrunedNodes(
    db: Database, q: Query, fields: seq<Column>, batch: seq<Row>, rows: seq<Row>,
    ns: seq<Node>, S: set<Node>, ms: seq<Node>, S': set<Node>)
    requires Typed(q) && ListDenotes(ns, Forest(TreesFor(db, q, SelectedColumns(q.table, fields, q.with.Keys), batch, rows)), S)
    requires ListDenotes(ms, Forest(TreesFor(db, AllFields(q), None, batch, rows)), S')
    ensures Pruned(q, fields, ns, ms, S, S')
    decreases q, 1
  {
    var columns := SelectedColumns(q.table, fields, q.with.Keys);
    forall i | 0 <= i < |ns|
      ensures ns[i] in S && ms[i] in S' && Keeps(q, fields, ns[i].cells, ms[i].cells) && ns[i].loadedTypes == ms[i].loadedTypes
      ensures forall e :: e in q.with ==>
        Pruned(q.with[e], WithKey(e, q.with[e]).fields, ns[i].List(e), ms[i].List(e), S, S')
    {
      var s, t := TreesFor(db, q, columns, batch, rows)[i], TreesFor(db, AllFields(q), None, batch, rows)[i];
      assert s == Tree(rows[i], columns, BatchKids(db, q, batch, rows[i]));
      assert t == Tree(rows[i], None, BatchKids(db, AllFields(q), batch, rows[i]));
      assert Denotes(ns[i], s, S) && Denotes(ms[i], t, S');
      assert s.kids.Keys == q.with.Keys == t.kids.Keys;
      FetchKeeps(q, fields, rows[i]);
      forall e | e in q.with
        ensures Pruned(q.with[e], WithKey(e, q.with[e]).fields, ns[i].List(e), ms[i].List(e), S, S')
      {
        assert ListDenotes(ns[i].List(e), s.kids[e], S) && ListDenotes(ms[i].List(e), t.kids[e], S');
        PrunedLists(db, e, q.with[e], batch, rows[i], ns[i].List(e), S, ms[i].List(e), S');
      }
    }
  }

  lemma {:induction false} PrunedLists(
    db: Database, e: Edge, sub: Query, batch: seq<Row>, owner: Row, ns: seq<Node>, S: set<Node>, ms: seq<Node>, S': set<Node>)
    requires Typed(sub) && ListDenotes(ns, Forest(BatchEdge(db, e, sub, batch, owner)), S)
    requires ListDenotes(ms, Forest(BatchEdge(db, e, AllFields(sub), batch, owner)), S')
    ensures Pruned(sub, WithKey(e, sub).fields, ns, ms, S, S')
    decreases sub, 2
  {
    EdgeIsShare(db, e, sub, batch, owner);
    EdgeIsShare(db, e, AllFields(sub), batch, owner);
    AllFieldsRows(db, e, sub, batch);
    PrunedNodes(db, sub, WithKey(e, sub).fields, BatchRows(db, e, sub, batch), Share(db, e, sub, batch, owner), ns, S, ms, S');
  }

  lemma {:induction false} AllFieldsTyped(q: Query)
    requires Typed(q)
    ensures Typed(AllFields(q))
    decreases q
  {
    forall e | e in q.with ensures Typed(AllFields(q.with[e])) {
      AllFieldsTyped(q.with[e]);
    }
  }

  /** A field selection does not decide whether a load breaks off. */
  lemma {:induction false} AllFieldsBreaks(db: Database, q: Query, rows: seq<Row>)
    ensures Breaks(db, AllFields(q), rows) <==> Breaks(db, q, rows)
    decreases q
  {
    forall e | e in q.with ensures BreaksBelow(db, e, AllFields(q).with[e], rows) <==> BreaksBelow(db, e, q.with[e], rows) {
      AllFieldsRows(db, e, q.with[e], rows);
      AllFieldsBreaks(db, q.with[e], BatchRows(db, e, q.with[e], rows));
    }
  }

  /** Field selections change no edge of what is loaded: run with them and without them, the loader builds
      the same nodes with the same lists, the former keeping the selected columns and all keys; or both
      runs break off. */
  method PruningKeepsEdges(q: Query, driver: Driver)
    returns (broken: bool, pruned: seq<Node>, whole: seq<Node>, ghost S: set<Node>, ghost S': set<Node>)
    requires Typed(q) && WellFormed(driver.db)
    modifies driver
    ensures fresh(S) && fresh(S')
    ensures broken <==> Breaks(driver.db, q, Select(driver.db, q))
    ensures !broken ==> Pruned(q, q.fields, pruned, whole, S, S')
  {
    var used, used';
    var rows := Select(driver.db, q);
    AllFieldsTyped(q);
    AllFieldsBreaks(driver.db, q, rows);
    pruned, used, S := SqlAll(q, driver);
    whole, used', S' := SqlAll(AllFields(q), driver);
    broken := used.None?;
    assert used'.None? <==> broken;
    if broken {
      return;
    }
    assert Load(driver.db, q) == TreesFor(driver.db, q, Selected(q), rows, rows);
    assert Load(driver.db, AllFields(q)) == TreesFor(driver.db, AllFields(q), None, rows, rows);
    PrunedNodes(driver.db, q, q.fields, rows, rows, pruned, S, whole, S');
  }

  // ---------------------------------------------------------------- any joined stream

  lemma {:induction false} JoinedIsPick(
    e: Edge, stream: seq<(int, Row)>, nids: map<int, set<Node>>, m: Node, rows: seq<Row>, nb: seq<Node>)
    requires |rows| == |nb|
    requires forall k :: 0 <= k < |nb| ==>
      var id := KeyOf(Id, nb[k].cells); (Linked(e, stream, m.cells, rows[k]) <==> id in nids && m in nids[id])
    ensures JoinedTo(nids, m, nb) == Pick(e, stream, m.cells, rows, nb)
  {
    if nb != [] {
      var n := |nb| - 1;
      JoinedIsPick(e, stream, nids, m, rows[..n], nb[..n]);
    }
  }

  /** The whole many-to-many load over any stream of joined rows, in any order and with any interleaving of
      groups: each node gets exactly the groups it was joined to, each once, in first-seen order. */
  method LoadStream(e: Edge, nodes: seq<Node>, stream: seq<(int, Row)>, columns: Option<seq<Column>>, requested: set<Edge>)
    returns (nb: seq<Node>)
    requires RelOf(e) == M2M && DistinctIds(nodes)
    requires forall p :: p in stream ==> p.0 in NodeIds(nodes) && KeyOf(Id, Fetch(p.1, columns)) == KeyOf(Id, p.1)
    modifies set m | m in nodes
    ensures Bound(nb, FirstSeen(stream), columns, requested)
    ensures forall m :: m in nodes ==> m.List(e) == Pick(e, stream, m.cells, FirstSeen(stream), nb)
    ensures forall m :: m in nodes ==> Others(m.edges, e) == old(Others(m.edges, e))
  {
    var ids, byID := IndexNodes(e, nodes);
    IndexedIds(byID, nodes);
    var broken, nids;
    broken, nb, nids := ScanJoined(Own(Id), stream, byID, columns, requested);
    StreamOwners(e, nodes, byID, stream, columns, requested, nb);
    var err := StitchJoined(e, nids, nodes, nb);
    assert !err;
  }

  lemma StreamOwners(
    e: Edge, nodes: seq<Node>, byID: map<int, Node>, stream: seq<(int, Row)>,
    columns: Option<seq<Column>>, requested: set<Edge>, nb: seq<Node>)
    requires RelOf(e) == M2M && Indexed(byID, nodes) && forall p :: p in stream ==> p.0 in byID
    requires forall p :: p in stream ==> KeyOf(Id, Fetch(p.1, columns)) == KeyOf(Id, p.1)
    requires Bound(nb, FirstSeen(stream), columns, requested)
    ensures forall n :: n in nb ==> KeyOf(Id, n.cells) in OwnersOf(byID, stream)
    ensures forall id, m :: id in OwnersOf(byID, stream) && m in OwnersOf(byID, stream)[id] ==> m in nodes
    ensures forall m :: m in nodes ==> JoinedTo(OwnersOf(byID, stream), m, nb) == Pick(e, stream, m.cells, FirstSeen(stream), nb)
  {
    var nids, rows := OwnersOf(byID, stream), FirstSeen(stream);
    forall k | 0 <= k < |nb| ensures KeyOf(Id, nb[k].cells) == KeyOf(Id, rows[k]) && KeyOf(Id, rows[k]) in nids {
      FirstSeenSource(stream, rows[k]);
      OwnersOfKeys(byID, stream, KeyOf(Id, rows[k]));
    }
    forall id, m | id in nids && m in nids[id] ensures m in nodes {
      OwnersOfMembers(byID, stream, id, m);
      var p :| p in stream && KeyOf(Id, p.1) == id && byID[p.0] == m;
      IndexedNode(byID, nodes, p.0);
    }
    forall m | m in nodes ensures JoinedTo(nids, m, nb) == Pick(e, stream, m.cells, rows, nb) {
      forall k | 0 <= k < |nb|
        ensures var id := KeyOf(Id, nb[k].cells); (Linked(e, stream, m.cells, rows[k]) <==> id in nids && m in nids[id])
      {
        OwnersOfMembers(byID, stream, KeyOf(Id, rows[k]), m);
        assert forall p :: p in stream ==> (byID[p.0] == m <==> p.0 == KeyOf(Id, m.cells));
      }
      JoinedIsPick(e, stream, nids, m, rows, nb);
    }
  }
}
