/** The query builder and its eager-loading code over mutable nodes, proved against `Load`. */
module EagerLoading {
  import opened Wrappers
  import opened Relational
  import opened Lookup
  import opened Agreement
  import opened Reuse

  datatype EdgeResult<T> = Found(value: T) | NotFound | NotLoaded

  function ListIn(edges: map<Edge, seq<Node>>, e: Edge): seq<Node> {
    if e in edges then edges[e] else []
  }

  function Others(edges: map<Edge, seq<Node>>, e: Edge): map<Edge, seq<Node>> {
    edges - {e}
  }

  /** A loaded entity. An edge absent from `edges` is the nil pointer or nil slice. */
  class Node {
    const cells: Row
    const loadedTypes: set<Edge>
    var edges: map<Edge, seq<Node>>

    constructor (cells: Row, loadedTypes: set<Edge>)
      ensures this.cells == cells && this.loadedTypes == loadedTypes && edges == map[]
    {
      this.cells := cells;
      this.loadedTypes := loadedTypes;
      edges := map[];
    }

    function List(e: Edge): seq<Node>
      reads this
    {
      ListIn(edges, e)
    }

    /** The accessor of a to-one edge. */
    function UniqueOrErr(e: Edge): EdgeResult<Node>
      reads this
    {
      if List(e) != [] then Found(List(e)[0])
      else if e in loadedTypes then NotFound
      else NotLoaded
    }

    /** The accessor of a to-many edge. */
    function ManyOrErr(e: Edge): EdgeResult<seq<Node>>
      reads this
    {
      if e in loadedTypes then Found(List(e)) else NotLoaded
    }
  }

  /** The node and everything loaded below it, all inside S, is the graph t. */
  ghost predicate Denotes(n: Node, t: Tree, S: set<Node>)
    reads S
    decreases t
  {
    && n in S
    && n.cells == Fetch(t.row, t.columns)
    && n.loadedTypes == t.kids.Keys
    && (forall e :: e in n.edges ==> e in t.kids)
    && (forall e :: e in t.kids ==> ListDenotes(n.List(e), t.kids[e], S))
  }

  ghost predicate ListDenotes(ns: seq<Node>, f: Forest, S: set<Node>)
    reads S
    decreases f
  {
    |ns| == |f.trees| && forall i :: 0 <= i < |ns| ==> Denotes(ns[i], f.trees[i], S)
  }

  lemma {:induction false} DenotesWider(n: Node, t: Tree, S: set<Node>, S': set<Node>)
    requires S <= S' && Denotes(n, t, S)
    ensures Denotes(n, t, S')
    decreases t
  {
    forall e | e in t.kids ensures ListDenotes(n.List(e), t.kids[e], S') {
      ListDenotesWider(n.List(e), t.kids[e], S, S');
    }
  }

  lemma {:induction false} ListDenotesWider(ns: seq<Node>, f: Forest, S: set<Node>, S': set<Node>)
    requires S <= S' && ListDenotes(ns, f, S)
    ensures ListDenotes(ns, f, S')
    decreases f
  {
    forall i | 0 <= i < |ns| ensures Denotes(ns[i], f.trees[i], S') {
      DenotesWider(ns[i], f.trees[i], S, S');
    }
  }

  // ---------------------------------------------------------------- the database

  class Driver {
    const db: Database
    var selects: nat

    constructor (db: Database)
      ensures this.db == db && selects == 0
    {
      this.db := db;
      selects := 0;
    }

    method Run(spec: Query) returns (rows: seq<Row>)
      modifies this
      ensures rows == Select(db, spec)
      ensures selects == old(selects) + 1
    {
      selects := selects + 1;
      rows := Select(db, spec);
    }

    /** Runs a query joined to the accounts in `ids`. */
    method RunJoined(spec: Query, ids: seq<int>) returns (columns: seq<Selection>, stream: seq<(int, Row)>)
      modifies this
      ensures columns == Selections(spec.preds, OwnColumns(spec)) && stream == Stream(db, spec, ids)
      ensures selects == old(selects) + 1
    {
      selects := selects + 1;
      columns, stream := Selections(spec.preds, OwnColumns(spec)), Stream(db, spec, ids);
    }
  }

  /** One round trip per query of the tree, whatever the number of rows. */
  function Cost(q: Query): nat
    decreases q, 0
  {
    1 + CostOf(q, EDGE_ORDER)
  }

  function CostOf(q: Query, edges: seq<Edge>): nat
    decreases q, 0, |edges|
  {
    if edges == [] then 0 else
      var e := edges[|edges| - 1];
      CostOf(q, edges[..|edges| - 1]) + if e in q.with then Cost(q.with[e]) else 0
  }

  const EDGE_ORDER: seq<Edge> :=
    [GroupsEdge, ProxyEdge, ParentEdge, ChildrenEdge, UsageLogsEdge, AccountGroupsEdge, ThroughAccount, ThroughGroup]

  // ---------------------------------------------------------------- stitching

  /** A neighbour the one-to-many loader refuses. */
  predicate Stray(e: Edge, n: Node, ids: set<int>) {
    (FkColumn(e) == ParentAccountId && ParentAccountId !in n.cells) || KeyOf(FkColumn(e), n.cells) !in ids
  }

  function Owned(e: Edge, id: int, nb: seq<Node>): seq<Node> {
    if nb == [] then [] else
      var front, n := Owned(e, id, nb[..|nb| - 1]), nb[|nb| - 1];
      if KeyOf(FkColumn(e), n.cells) == id then front + [n] else front
  }

  /** The index from id to node that the loaders build. */
  ghost predicate Indexed(nodeids: map<int, Node>, nodes: seq<Node>) {
    && (forall n :: n in nodes ==> KeyOf(Id, n.cells) in nodeids && nodeids[KeyOf(Id, n.cells)] == n)
    && (forall id :: id in nodeids ==> nodeids[id] in nodes && KeyOf(Id, nodeids[id].cells) == id)
  }

  ghost predicate DistinctIds(nodes: seq<Node>) {
    forall i, j :: 0 <= i < j < |nodes| ==> KeyOf(Id, nodes[i].cells) != KeyOf(Id, nodes[j].cells)
  }

  function NodeIds(nodes: seq<Node>): seq<int> {
    seq(|nodes|, i requires 0 <= i < |nodes| => KeyOf(Id, nodes[i].cells))
  }

  /** Indexes the nodes by id and clears their lists. */
  method IndexNodes(e: Edge, nodes: seq<Node>) returns (ids: seq<int>, nodeids: map<int, Node>)
    requires DistinctIds(nodes)
    modifies set m | m in nodes
    ensures ids == NodeIds(nodes) && Indexed(nodeids, nodes)
    ensures forall m :: m in nodes ==> e in m.edges && m.edges[e] == []
    ensures forall m :: m in nodes ==> Others(m.edges, e) == old(Others(m.edges, e))
  {
    ids, nodeids := [], map[];
    for i := 0 to |nodes|
      invariant ids == NodeIds(nodes[..i]) && Indexed(nodeids, nodes[..i])
      invariant forall m :: m in nodes[..i] ==> e in m.edges && m.edges[e] == []
      invariant forall m :: m in nodes ==> Others(m.edges, e) == old(Others(m.edges, e))
    {
      var node := nodes[i];
      assert nodes[..i + 1] == nodes[..i] + [node];
      assert KeyOf(Id, node.cells) !in nodeids;
      ids := ids + [KeyOf(Id, node.cells)];
      nodeids := nodeids[KeyOf(Id, node.cells) := node];
      node.edges := node.edges[e := []];
    }
    assert nodes[..|nodes|] == nodes;
  }

  /** The `assign` callback of a to-many edge. */
  method Assign(e: Edge, node: Node, n: Node)
    modifies node
    ensures e in node.edges && node.edges[e] == old(node.List(e)) + [n]
    ensures Others(node.edges, e) == old(Others(node.edges, e))
  {
    node.edges := node.edges[e := node.List(e) + [n]];
  }

  lemma OwnedAppend(e: Edge, id: int, nb: seq<Node>, n: Node)
    ensures Owned(e, id, nb + [n]) == if KeyOf(FkColumn(e), n.cells) == id then Owned(e, id, nb) + [n] else Owned(e, id, nb)
  {
    assert (nb + [n])[..|nb|] == nb;
  }

  /** Hands one neighbour to the node its foreign key names. */
  method HandOver(e: Edge, nodeids: map<int, Node>, nodes: seq<Node>, n: Node, ghost nb: seq<Node>)
    requires Indexed(nodeids, nodes) && KeyOf(FkColumn(e), n.cells) in nodeids
    requires forall m :: m in nodes ==> e in m.edges && m.edges[e] == Owned(e, KeyOf(Id, m.cells), nb)
    modifies set m | m in nodes
    ensures forall m :: m in nodes ==> e in m.edges && m.edges[e] == Owned(e, KeyOf(Id, m.cells), nb + [n])
    ensures forall m :: m in nodes ==> Others(m.edges, e) == old(Others(m.edges, e))
  {
    forall id ensures Owned(e, id, nb + [n])
                   == if KeyOf(FkColumn(e), n.cells) == id then Owned(e, id, nb) + [n] else Owned(e, id, nb)
    {
      OwnedAppend(e, id, nb, n);
    }
    Assign(e, nodeids[KeyOf(FkColumn(e), n.cells)], n);
  }

  /** Hands each neighbour to the node its foreign key names. */
  method StitchMany(e: Edge, nodeids: map<int, Node>, nodes: seq<Node>, nb: seq<Node>) returns (err: bool)
    requires Indexed(nodeids, nodes)
    requires forall m :: m in nodes ==> e in m.edges && m.edges[e] == []
    modifies set m | m in nodes
    ensures err <==> exists n :: n in nb && Stray(e, n, nodeids.Keys)
    ensures !err ==> forall m :: m in nodes ==> e in m.edges && m.edges[e] == Owned(e, KeyOf(Id, m.cells), nb)
    ensures forall m :: m in nodes ==> Others(m.edges, e) == old(Others(m.edges, e))
  {
    for k := 0 to |nb|
      invariant forall x :: x in nb[..k] ==> !Stray(e, x, nodeids.Keys)
      invariant forall m :: m in nodes ==> e in m.edges && m.edges[e] == Owned(e, KeyOf(Id, m.cells), nb[..k])
      invariant forall m :: m in nodes ==> Others(m.edges, e) == old(Others(m.edges, e))
    {
      var n := nb[k];
      if Stray(e, n, nodeids.Keys) {
        assert n in nb;
        return true;
      }
      assert nb[..k + 1] == nb[..k] + [n];
      HandOver(e, nodeids, nodes, n, nb[..k]);
    }
    assert nb[..|nb|] == nb;
    err := false;
  }

  function LastWithId(id: int, nb: seq<Node>): seq<Node> {
    if nb == [] then [] else
      if KeyOf(Id, nb[|nb| - 1].cells) == id then [nb[|nb| - 1]] else LastWithId(id, nb[..|nb| - 1])
  }

  /** The index from foreign key to nodes that the to-one loader builds. */
  ghost predicate Grouped(e: Edge, nodeids: map<int, seq<Node>>, nodes: seq<Node>) {
    && (forall n :: n in nodes && FkColumn(e) in n.cells ==>
      n.cells[FkColumn(e)] in nodeids && n in nodeids[n.cells[FkColumn(e)]])
    && (forall id, n :: id in nodeids && n in nodeids[id] ==>
      n in nodes && FkColumn(e) in n.cells && n.cells[FkColumn(e)] == id)
  }

  /** What a node's to-one list is once the neighbours have been handed out. */
  function UniqueOf(e: Edge, n: Node, nb: seq<Node>): seq<Node> {
    if FkColumn(e) in n.cells then LastWithId(n.cells[FkColumn(e)], nb) else []
  }

  /** The `assign` callback of a to-one edge, for all nodes that share a foreign key. */
  method AssignUnique(e: Edge, nodes: seq<Node>, n: Node)
    modifies set m | m in nodes
    ensures forall m :: m in nodes ==> m.List(e) == [n]
    ensures forall m :: m in nodes ==> Others(m.edges, e) == old(Others(m.edges, e))
  {
    for i := 0 to |nodes|
      invariant forall m :: m in nodes[..i] ==> m.List(e) == [n]
      invariant forall m :: m in nodes ==> Others(m.edges, e) == old(Others(m.edges, e))
    {
      nodes[i].edges := nodes[i].edges[e := [n]];
      assert nodes[..i + 1] == nodes[..i] + [nodes[i]];
    }
    assert nodes[..|nodes|] == nodes;
  }

  /** Points every node that holds a foreign key at the neighbour with that id. */
  method StitchUnique(e: Edge, nodeids: map<int, seq<Node>>, nodes: seq<Node>, nb: seq<Node>) returns (err: bool)
    requires Grouped(e, nodeids, nodes)
    requires forall n :: n in nodes ==> n.List(e) == []
    modifies set m | m in nodes
    ensures err <==> exists n :: n in nb && KeyOf(Id, n.cells) !in nodeids
    ensures !err ==> forall m :: m in nodes ==> m.List(e) == UniqueOf(e, m, nb)
    ensures forall m :: m in nodes ==> Others(m.edges, e) == old(Others(m.edges, e))
  {
    for k := 0 to |nb|
      invariant forall j :: 0 <= j < k ==> KeyOf(Id, nb[j].cells) in nodeids
      invariant forall m :: m in nodes ==> m.List(e) == UniqueOf(e, m, nb[..k])
      invariant forall m :: m in nodes ==> Others(m.edges, e) == old(Others(m.edges, e))
    {
      var n := nb[k];
      var key := KeyOf(Id, n.cells);
      if key !in nodeids {
        assert n in nb;
        return true;
      }
      forall m | m in nodes ensures UniqueOf(e, m, nb[..k + 1]) == if m in nodeids[key] then [n] else UniqueOf(e, m, nb[..k]) {
        assert nb[..k + 1][..k] == nb[..k];
      }
      assert forall m :: m in nodeids[key] ==> m in nodes;
      AssignUnique(e, nodeids[key], n);
    }
    assert nb[..|nb|] == nb;
    err := false;
  }

  function JoinedTo(nids: map<int, set<Node>>, m: Node, nb: seq<Node>): seq<Node> {
    if nb == [] then [] else
      var front, n := JoinedTo(nids, m, nb[..|nb| - 1]), nb[|nb| - 1];
      if KeyOf(Id, n.cells) in nids && m in nids[KeyOf(Id, n.cells)] then front + [n] else front
  }

  /** Appends one neighbour to a set of nodes, taken in any order. */
  method AssignToAll(e: Edge, nodes: set<Node>, n: Node)
    modifies set m | m in nodes
    ensures forall m :: m in nodes ==> e in m.edges && m.edges[e] == old(m.List(e)) + [n]
    ensures forall m :: m in nodes ==> Others(m.edges, e) == old(Others(m.edges, e))
  {
    var todo := nodes;
    while todo != {}
      invariant todo <= nodes
      invariant forall m :: m in todo ==> m.edges == old(m.edges)
      invariant forall m :: m in nodes && m !in todo ==> e in m.edges && m.edges[e] == old(m.List(e)) + [n]
      invariant forall m :: m in nodes ==> Others(m.edges, e) == old(Others(m.edges, e))
    {
      var kn :| kn in todo;
      Assign(e, kn, n);
      todo := todo - {kn};
    }
  }

  lemma JoinedToAppend(nids: map<int, set<Node>>, m: Node, nb: seq<Node>, n: Node)
    requires KeyOf(Id, n.cells) in nids
    ensures JoinedTo(nids, m, nb + [n])
         == if m in nids[KeyOf(Id, n.cells)] then JoinedTo(nids, m, nb) + [n] else JoinedTo(nids, m, nb)
  {
    assert (nb + [n])[..|nb|] == nb;
  }

  /** Hands one neighbour to every node it was joined to. */
  method HandToAll(e: Edge, nids: map<int, set<Node>>, nodes: seq<Node>, n: Node, ghost nb: seq<Node>)
    requires KeyOf(Id, n.cells) in nids && forall m :: m in nids[KeyOf(Id, n.cells)] ==> m in nodes
    requires forall m :: m in nodes ==> e in m.edges && m.edges[e] == JoinedTo(nids, m, nb)
    modifies set m | m in nodes
    ensures forall m :: m in nodes ==> e in m.edges && m.edges[e] == JoinedTo(nids, m, nb + [n])
    ensures forall m :: m in nodes ==> Others(m.edges, e) == old(Others(m.edges, e))
  {
    forall m ensures JoinedTo(nids, m, nb + [n])
                  == if m in nids[KeyOf(Id, n.cells)] then JoinedTo(nids, m, nb) + [n] else JoinedTo(nids, m, nb)
    {
      JoinedToAppend(nids, m, nb, n);
    }
    AssignToAll(e, nids[KeyOf(Id, n.cells)], n);
  }

  /** Hands each neighbour to every node it was joined to. */
  method StitchJoined(e: Edge, nids: map<int, set<Node>>, nodes: seq<Node>, nb: seq<Node>) returns (err: bool)
    requires forall id, m :: id in nids && m in nids[id] ==> m in nodes
    requires forall m :: m in nodes ==> e in m.edges && m.edges[e] == []
    modifies set m | m in nodes
    ensures err <==> exists n :: n in nb && KeyOf(Id, n.cells) !in nids
    ensures !err ==> forall m :: m in nodes ==> e in m.edges && m.edges[e] == JoinedTo(nids, m, nb)
    ensures forall m :: m in nodes ==> Others(m.edges, e) == old(Others(m.edges, e))
  {
    for k := 0 to |nb|
      invariant forall j :: 0 <= j < k ==> KeyOf(Id, nb[j].cells) in nids
      invariant forall m :: m in nodes ==> e in m.edges && m.edges[e] == JoinedTo(nids, m, nb[..k])
      invariant forall m :: m in nodes ==> Others(m.edges, e) == old(Others(m.edges, e))
    {
      var n := nb[k];
      if KeyOf(Id, n.cells) !in nids {
        assert n in nb;
        return true;
      }
      assert nb[..k + 1] == nb[..k] + [n];
      HandToAll(e, nids, nodes, n, nb[..k]);
    }
    assert nb[..|nb|] == nb;
    err := false;
  }

  // ---------------------------------------------------------------- what the key columns promise

  lemma {:induction false} WithoutIdMembers(fields: seq<Column>, c: Column)
    requires c in fields && c != Id
    ensures c in WithoutId(fields)
  {
    if fields[0] != c {
      WithoutIdMembers(fields[1..], c);
    }
  }

  lemma {:induction false} AddForeignKeysMembers(columns: seq<Column>, edges: seq<Edge>, requested: set<Edge>, c: Column)
    requires c in columns || exists e :: e in edges && e in requested && FkColumn(e) == c
    ensures c in AddForeignKeys(columns, edges, requested)
    decreases edges
  {
    if edges != [] {
      AddForeignKeysMembers(
        if edges[0] in requested then AddOnce(columns, FkColumn(edges[0])) else columns, edges[1..], requested, c);
    }
  }

  /** Whatever fields are chosen, the id of an entity that has one is fetched. */
  lemma IdIsFetched(q: Query, row: Row)
    requires HasKey(q.table)
    ensures KeyOf(Id, Fetch(row, Selected(q))) == KeyOf(Id, row)
  {
    if q.fields != [] {
      AddForeignKeysMembers([Id] + WithoutId(q.fields), [ProxyEdge, ParentEdge, ThroughAccount, ThroughGroup], q.with.Keys, Id);
    }
  }

  /** So is the foreign key of every requested to-one edge, and NULL stays NULL. */
  lemma ForeignKeyIsFetched(q: Query, e: Edge, row: Row)
    requires e in q.with && RelOf(e) == M2O
    ensures FkColumn(e) in Fetch(row, Selected(q)) <==> FkColumn(e) in row
    ensures KeyOf(FkColumn(e), Fetch(row, Selected(q))) == KeyOf(FkColumn(e), row)
  {
    if q.fields != [] {
      var edges := [ProxyEdge, ParentEdge, ThroughAccount, ThroughGroup];
      assert e == edges[0] || e == edges[1] || e == edges[2] || e == edges[3];
      AddForeignKeysMembers(if HasKey(q.table) then [Id] + WithoutId(q.fields) else q.fields, edges, q.with.Keys, FkColumn(e));
    }
  }

  /** And so is the column that points back from a row reached over a one-to-many edge. */
  lemma BackKeyIsFetched(e: Edge, sub: Query, row: Row)
    requires RelOf(e) == O2M
    ensures FkColumn(e) in Fetch(row, Selected(WithKey(e, sub))) <==> FkColumn(e) in row
    ensures KeyOf(FkColumn(e), Fetch(row, Selected(WithKey(e, sub)))) == KeyOf(FkColumn(e), row)
  {
    if sub.fields != [] {
      var q := WithKey(e, sub);
      assert FkColumn(e) in q.fields;
      WithoutIdMembers(q.fields, FkColumn(e));
      AddForeignKeysMembers(if HasKey(q.table) then [Id] + WithoutId(q.fields) else q.fields,
        [ProxyEdge, ParentEdge, ThroughAccount, ThroughGroup], q.with.Keys, FkColumn(e));
    }
  }

  // ---------------------------------------------------------------- stitched lists are the picked trees

  lemma {:induction false} OwnedDenotes(
    e: Edge, stream: seq<(int, Row)>, owner: Row, nb: seq<Node>, rows: seq<Row>, trees: seq<Tree>, S: set<Node>)
    requires RelOf(e) == O2M && |rows| == |nb| && ListDenotes(nb, Forest(trees), S)
    requires forall k :: 0 <= k < |nb| ==> KeyOf(FkColumn(e), nb[k].cells) == KeyOf(FkColumn(e), rows[k])
    ensures ListDenotes(Owned(e, KeyOf(Id, owner), nb), Forest(Pick(e, stream, owner, rows, trees)), S)
  {
    if nb != [] {
      var n := |nb| - 1;
      OwnedDenotes(e, stream, owner, nb[..n], rows[..n], trees[..n], S);
    }
  }

  lemma {:induction false} JoinedDenotes(
    e: Edge, stream: seq<(int, Row)>, owner: Row, nids: map<int, set<Node>>, m: Node,
    nb: seq<Node>, rows: seq<Row>, trees: seq<Tree>, S: set<Node>)
    requires |rows| == |nb| && ListDenotes(nb, Forest(trees), S)
    requires forall k :: 0 <= k < |nb| ==>
      var id := KeyOf(Id, nb[k].cells); (Linked(e, stream, owner, rows[k]) <==> id in nids && m in nids[id])
    ensures ListDenotes(JoinedTo(nids, m, nb), Forest(Pick(e, stream, owner, rows, trees)), S)
  {
    if nb != [] {
      var n := |nb| - 1;
      JoinedDenotes(e, stream, owner, nids, m, nb[..n], rows[..n], trees[..n], S);
    }
  }

  lemma {:induction false} UniqueDenotes(
    e: Edge, stream: seq<(int, Row)>, owner: Row, nb: seq<Node>, rows: seq<Row>, trees: seq<Tree>, S: set<Node>)
    requires RelOf(e) == M2O && FkColumn(e) in owner && |rows| == |nb| && ListDenotes(nb, Forest(trees), S)
    requires Keyed(rows)
    requires forall k :: 0 <= k < |nb| ==> KeyOf(Id, nb[k].cells) == KeyOf(Id, rows[k])
    ensures ListDenotes(LastWithId(owner[FkColumn(e)], nb), Forest(Pick(e, stream, owner, rows, trees)), S)
  {
    if nb != [] {
      var n := |nb| - 1;
      if KeyOf(Id, nb[n].cells) == owner[FkColumn(e)] {
        PickNone(e, stream, owner, rows[..n], trees[..n]);
      } else {
        UniqueDenotes(e, stream, owner, nb[..n], rows[..n], trees[..n], S);
      }
    }
  }

  // ---------------------------------------------------------------- trees depend on the nested loads only

  /** Running the nested query with the batch filter added loads the trees of the batch. */
  lemma NestedLoad(db: Database, e: Edge, sub: Query, rows: seq<Row>)
    requires RelOf(e) != M2M && (RelOf(e) == M2O ==> DistinctKeys(FkColumn(e), rows) != [])
    ensures Load(db, Where(WithKey(e, sub), BatchPred(e, rows)))
         == BatchTrees(db, sub, Selected(WithKey(e, sub)), BatchRows(db, e, sub, rows))
    ensures Select(db, Where(WithKey(e, sub), BatchPred(e, rows))) == BatchRows(db, e, sub, rows)
  {
    var q := Where(WithKey(e, sub), BatchPred(e, rows));
    SameNested(db, q, sub, Selected(WithKey(e, sub)), BatchRows(db, e, sub, rows));
  }

  // ---------------------------------------------------------------- loaded edges

  /** The nodes stand for the rows, as fetched by one query. */
  ghost predicate Bound(nodes: seq<Node>, rows: seq<Row>, columns: Option<seq<Column>>, requested: set<Edge>) {
    && |nodes| == |rows|
    && forall i :: 0 <= i < |nodes| ==>
      nodes[i].cells == Fetch(rows[i], columns) && nodes[i].loadedTypes == requested
  }

  /** The `Assign` callback of a query: makes the node of one scanned row. */
  method AppendNode(nodes: seq<Node>, ghost rows: seq<Row>, row: Row, columns: Option<seq<Column>>, requested: set<Edge>)
    returns (more: seq<Node>)
    requires Bound(nodes, rows, columns, requested) && forall n :: n in nodes ==> n.edges == map[]
    ensures Bound(more, rows + [row], columns, requested) && forall n :: n in more ==> n.edges == map[]
    ensures forall n :: n in more ==> n in nodes || fresh(n)
  {
    var node := new Node(Fetch(row, columns), requested);
    more := nodes + [node];
  }

  method NewNodes(rows: seq<Row>, columns: Option<seq<Column>>, requested: set<Edge>) returns (nodes: seq<Node>)
    ensures Bound(nodes, rows, columns, requested)
    ensures fresh(set n | n in nodes) && forall n :: n in nodes ==> n.edges == map[]
  {
    nodes := [];
    for i := 0 to |rows|
      invariant Bound(nodes, rows[..i], columns, requested)
      invariant fresh(set n | n in nodes) && forall n :: n in nodes ==> n.edges == map[]
    {
      assert rows[..i + 1] == rows[..i] + [rows[i]];
      nodes := AppendNode(nodes, rows[..i], rows[i], columns, requested);
    }
    assert rows[..|rows|] == rows;
  }

  ghost function EdgesOf(nodes: seq<Node>): seq<map<Edge, seq<Node>>>
    reads set n | n in nodes
  {
    seq(|nodes|, i requires 0 <= i < |nodes| reads set n | n in nodes => nodes[i].edges)
  }

  /** Every owner's list for the edge is its share of the batch. */
  ghost predicate EdgeLoaded(
    db: Database, e: Edge, sub: Query, edges: seq<map<Edge, seq<Node>>>, rows: seq<Row>, S: set<Node>)
    requires |edges| == |rows|
    reads S
  {
    forall i :: 0 <= i < |edges| ==> ListDenotes(ListIn(edges[i], e), Forest(BatchEdge(db, e, sub, rows, rows[i])), S)
  }

  lemma EdgeLoadedWider(
    db: Database, e: Edge, sub: Query, edges: seq<map<Edge, seq<Node>>>, rows: seq<Row>, S: set<Node>, S': set<Node>)
    requires |edges| == |rows| && S <= S' && EdgeLoaded(db, e, sub, edges, rows, S)
    ensures EdgeLoaded(db, e, sub, edges, rows, S')
  {
    forall i | 0 <= i < |edges|
      ensures ListDenotes(ListIn(edges[i], e), Forest(BatchEdge(db, e, sub, rows, rows[i])), S')
    {
      ListDenotesWider(ListIn(edges[i], e), Forest(BatchEdge(db, e, sub, rows, rows[i])), S, S');
    }
  }

  /** Loading another edge leaves a loaded one as it was. */
  lemma EdgeKept(
    db: Database, e: Edge, kept: Edge, sub: Query,
    before: seq<map<Edge, seq<Node>>>, after: seq<map<Edge, seq<Node>>>, rows: seq<Row>, S: set<Node>)
    requires |before| == |after| == |rows| && kept != e && EdgeLoaded(db, kept, sub, before, rows, S)
    requires forall i :: 0 <= i < |rows| ==> Others(after[i], e) == Others(before[i], e)
    ensures EdgeLoaded(db, kept, sub, after, rows, S)
  {
    forall i | 0 <= i < |rows| ensures ListIn(after[i], kept) == ListIn(before[i], kept) {
      assert kept in after[i] <==> kept in Others(after[i], e);
      assert kept in before[i] <==> kept in Others(before[i], e);
      assert kept in after[i] ==> after[i][kept] == Others(after[i], e)[kept];
      assert kept in before[i] ==> before[i][kept] == Others(before[i], e)[kept];
    }
  }

  lemma EdgeOrderIsComplete()
    ensures forall e: Edge :: e in EDGE_ORDER
  {
    forall e: Edge ensures e in EDGE_ORDER {
      var order := EDGE_ORDER;
      match e {
        case GroupsEdge => assert order[0] == e;
        case ProxyEdge => assert order[1] == e;
        case ParentEdge => assert order[2] == e;
        case ChildrenEdge => assert order[3] == e;
        case UsageLogsEdge => assert order[4] == e;
        case AccountGroupsEdge => assert order[5] == e;
        case ThroughAccount => assert order[6] == e;
        case ThroughGroup => assert order[7] == e;
      }
    }
  }

  ghost function Done(k: nat): set<Edge>
    requires k <= |EDGE_ORDER|
  {
    set e | e in EDGE_ORDER[..k]
  }

  lemma DoneStep(k: nat)
    requires k < |EDGE_ORDER|
    ensures EDGE_ORDER[k] !in Done(k) && Done(k + 1) == Done(k) + {EDGE_ORDER[k]}
    ensures forall q :: CostOf(q, EDGE_ORDER[..k + 1])
                     == CostOf(q, EDGE_ORDER[..k]) + if EDGE_ORDER[k] in q.with then Cost(q.with[EDGE_ORDER[k]]) else 0
  {
    assert EDGE_ORDER[..k + 1] == EDGE_ORDER[..k] + [EDGE_ORDER[k]];
    assert EDGE_ORDER[..k + 1][..k] == EDGE_ORDER[..k];
  }

  /** The requested edges among `done`, and no others, are loaded. */
  ghost predicate Progress(
    db: Database, q: Query, edges: seq<map<Edge, seq<Node>>>, rows: seq<Row>, done: set<Edge>, S: set<Node>)
    requires |edges| == |rows|
    reads S
  {
    && (forall i :: 0 <= i < |edges| ==> edges[i].Keys <= done * q.with.Keys)
    && (forall e :: e in done * q.with.Keys ==> EdgeLoaded(db, e, q.with[e], edges, rows, S))
  }

  lemma ProgressStep(
    db: Database, q: Query, e: Edge, before: seq<map<Edge, seq<Node>>>, after: seq<map<Edge, seq<Node>>>,
    rows: seq<Row>, done: set<Edge>, S: set<Node>, found: set<Node>)
    requires |before| == |after| == |rows| && e in q.with && e !in done
    requires Progress(db, q, before, rows, done, S)
    requires EdgeLoaded(db, e, q.with[e], after, rows, found)
    requires forall i :: 0 <= i < |rows| ==> Others(after[i], e) == Others(before[i], e)
    ensures Progress(db, q, after, rows, done + {e}, S + found)
  {
    forall i | 0 <= i < |after| ensures after[i].Keys <= (done + {e}) * q.with.Keys {
      assert after[i].Keys <= Others(after[i], e).Keys + {e};
    }
    forall d | d in (done + {e}) * q.with.Keys ensures EdgeLoaded(db, d, q.with[d], after, rows, S + found) {
      if d == e {
        EdgeLoadedWider(db, e, q.with[e], after, rows, found, S + found);
      } else {
        KeptAfter(db, e, d, q.with[d], before, after, rows, S, found);
      }
    }
  }

  lemma KeptAfter(
    db: Database, e: Edge, kept: Edge, sub: Query, before: seq<map<Edge, seq<Node>>>, after: seq<map<Edge, seq<Node>>>,
    rows: seq<Row>, S: set<Node>, found: set<Node>)
    requires |before| == |after| == |rows| && kept != e && EdgeLoaded(db, kept, sub, before, rows, S)
    requires forall i :: 0 <= i < |rows| ==> Others(after[i], e) == Others(before[i], e)
    ensures EdgeLoaded(db, kept, sub, after, rows, S + found)
  {
    EdgeKept(db, e, kept, sub, before, after, rows, S);
    EdgeLoadedWider(db, kept, sub, after, rows, S, S + found);
  }

  lemma NodeLoaded(n: Node, t: Tree, S: set<Node>, S': set<Node>)
    requires n in S' && S <= S'
    requires n.cells == Fetch(t.row, t.columns) && n.loadedTypes == t.kids.Keys
    requires forall e :: e in n.edges ==> e in t.kids
    requires forall e :: e in t.kids ==> ListDenotes(n.List(e), t.kids[e], S)
    ensures Denotes(n, t, S')
  {
    forall e | e in t.kids ensures ListDenotes(n.List(e), t.kids[e], S') {
      ListDenotesWider(n.List(e), t.kids[e], S, S');
    }
  }

  /** Once every requested edge is loaded, the nodes are the roots of the batched graph. */
  lemma AllLoaded(db: Database, q: Query, nodes: seq<Node>, rows: seq<Row>, done: set<Edge>, S: set<Node>)
    requires Bound(nodes, rows, Selected(q), q.with.Keys)
    requires Progress(db, q, EdgesOf(nodes), rows, done, S) && q.with.Keys <= done
    ensures ListDenotes(nodes, Forest(BatchTrees(db, q, Selected(q), rows)), S + set n | n in nodes)
  {
    var trees := BatchTrees(db, q, Selected(q), rows);
    forall i | 0 <= i < |nodes| ensures Denotes(nodes[i], trees[i], S + set n | n in nodes) {
      assert nodes[i] in nodes;
      assert trees[i] == Tree(rows[i], Selected(q), BatchKids(db, q, rows, rows[i]));
      assert EdgesOf(nodes)[i] == nodes[i].edges;
      NodeLoaded(nodes[i], trees[i], S, S + set n | n in nodes);
    }
  }

  // ---------------------------------------------------------------- running a query

  lemma {:induction false} CostOfEdges(q: Query, edges: seq<Edge>, e: Edge)
    requires e in edges && e in q.with
    ensures Cost(q.with[e]) <= CostOf(q, edges)
  {
    var front := edges[..|edges| - 1];
    if edges[|edges| - 1] != e {
      assert edges == front + [edges[|edges| - 1]];
      CostOfEdges(q, front, e);
    }
  }

  lemma CostOfNested(q: Query, e: Edge)
    requires e in q.with
    ensures Cost(q.with[e]) < Cost(q)
  {
    EdgeOrderIsComplete();
    CostOfEdges(q, EDGE_ORDER, e);
  }

  /** The cost counts the queries of the nest: one for a query without edges, and each further edge adds the
      cost of its own. */
  lemma CostAdds(q: Query, e: Edge, sub: Query)
    requires e !in q.with
    ensures q.with == map[] ==> Cost(q) == 1
    ensures Cost(q.(with := q.with[e := sub])) == Cost(q) + Cost(sub)
  {
    EdgeOrderIsComplete();
    assert EDGE_ORDER[..|EDGE_ORDER|] == EDGE_ORDER;
    CostOfMore(q, e, sub, |EDGE_ORDER|);
  }

  lemma {:induction false} CostOfMore(q: Query, e: Edge, sub: Query, k: nat)
    requires e !in q.with && k <= |EDGE_ORDER|
    ensures q.with == map[] ==> CostOf(q, EDGE_ORDER[..k]) == 0
    ensures CostOf(q.(with := q.with[e := sub]), EDGE_ORDER[..k])
         == CostOf(q, EDGE_ORDER[..k]) + if e in Done(k) then Cost(sub) else 0
  {
    if k > 0 {
      DoneStep(k - 1);
      CostOfMore(q, e, sub, k - 1);
    }
  }

  lemma {:induction false} SameCost(q: Query, q': Query, edges: seq<Edge>)
    requires q.with == q'.with
    ensures CostOf(q, edges) == CostOf(q', edges)
    decreases edges
  {
    if edges != [] {
      SameCost(q, q', edges[..|edges| - 1]);
    }
  }

  /** Executes the query: one select for its own rows, then one for each requested edge, recursively. The
      result is the query as the load leaves it, or None when the load breaks off. */
  method SqlAll(q: Query, driver: Driver) returns (nodes: seq<Node>, used: Option<Query>, ghost S: set<Node>)
    requires Typed(q) && WellFormed(driver.db)
    modifies driver
    ensures fresh(S)
    ensures used.None? <==> Breaks(driver.db, q, Select(driver.db, q))
    ensures used.Some? ==> used.value == After(driver.db, q, Select(driver.db, q))
    ensures used.Some? ==> ListDenotes(nodes, Forest(Load(driver.db, q)), S)
    ensures driver.selects <= old(driver.selects) + Cost(q)
    decreases Cost(q), 2
  {
    var rows := driver.Run(q);
    nodes := NewNodes(rows, Selected(q), q.with.Keys);
    if nodes == [] {
      used, S := Some(q), {};
      return;
    }
    if HasKey(q.table) {
      SelectKeyed(driver.db, q);
    }
    used, S := LoadEdges(q, driver, nodes, rows);
  }

  /** The generated `if query := _q.with...; query != nil` chain, edge by edge in declaration order. */
  method LoadEdges(q: Query, driver: Driver, nodes: seq<Node>, ghost rows: seq<Row>)
    returns (used: Option<Query>, ghost S: set<Node>)
    requires Typed(q) && WellFormed(driver.db)
    requires Bound(nodes, rows, Selected(q), q.with.Keys)
    requires HasKey(q.table) ==> Keyed(rows)
    requires nodes != [] && forall n :: n in nodes ==> n.edges == map[]
    modifies driver, set n | n in nodes
    ensures used.None? <==> Breaks(driver.db, q, rows)
    ensures used.Some? ==> used.value == After(driver.db, q, rows)
    ensures forall n :: n in S ==> n in nodes || fresh(n)
    ensures used.Some? ==> ListDenotes(nodes, Forest(BatchTrees(driver.db, q, Selected(q), rows)), S)
    ensures driver.selects <= old(driver.selects) + CostOf(q, EDGE_ORDER)
    decreases Cost(q), 1
  {
    S := {};
    var with := q.with;
    AllUsed(driver.db, q, rows, q.with.Keys);
    for k := 0 to |EDGE_ORDER|
      invariant fresh(S)
      invariant with == UsedWith(driver.db, q, rows, Done(k))
      invariant Progress(driver.db, q, EdgesOf(nodes), rows, Done(k), S)
      invariant driver.selects <= old(driver.selects) + CostOf(q, EDGE_ORDER[..k])
      invariant forall e :: e in Done(k) && e in q.with ==> !BreaksBelow(driver.db, e, q.with[e], rows)
    {
      var more;
      more, S := LoadNext(k, q, driver, nodes, rows, with, S);
      CostSoFar(q, k + 1);
      if more.None? {
        return None, {};
      }
      with := more.value;
    }
    EdgeOrderIsComplete();
    assert EDGE_ORDER[..|EDGE_ORDER|] == EDGE_ORDER;
    AllLoaded(driver.db, q, nodes, rows, Done(|EDGE_ORDER|), S);
    AllUsed(driver.db, q, rows, Done(|EDGE_ORDER|));
    used := Some(q.(with := with));
    S := S + set n | n in nodes;
  }

  lemma {:induction false} CostSoFar(q: Query, k: nat)
    requires k <= |EDGE_ORDER|
    ensures CostOf(q, EDGE_ORDER[..k]) <= CostOf(q, EDGE_ORDER)
    decreases |EDGE_ORDER| - k
  {
    if k < |EDGE_ORDER| {
      DoneStep(k);
      CostSoFar(q, k + 1);
    } else {
      assert EDGE_ORDER[..k] == EDGE_ORDER;
    }
  }

  /** The next link of the chain: loads edge k if it was requested. */
  method LoadNext(
    k: nat, q: Query, driver: Driver, nodes: seq<Node>, ghost rows: seq<Row>, with: map<Edge, Query>, ghost S: set<Node>)
    returns (with': Option<map<Edge, Query>>, ghost S': set<Node>)
    requires k < |EDGE_ORDER| && Typed(q) && WellFormed(driver.db)
    requires Bound(nodes, rows, Selected(q), q.with.Keys)
    requires HasKey(q.table) ==> Keyed(rows)
    requires with == UsedWith(driver.db, q, rows, Done(k)) && Progress(driver.db, q, EdgesOf(nodes), rows, Done(k), S)
    requires forall n :: n in nodes ==> n !in S
    modifies driver, set n | n in nodes
    ensures S <= S' && fresh(S' - S)
    ensures var e := EDGE_ORDER[k]; with'.None? <==> e in q.with && BreaksBelow(driver.db, e, q.with[e], rows)
    ensures with'.Some? ==> with'.value == UsedWith(driver.db, q, rows, Done(k + 1))
    ensures with'.Some? ==> Progress(driver.db, q, EdgesOf(nodes), rows, Done(k + 1), S')
    ensures driver.selects - old(driver.selects) <= CostOf(q, EDGE_ORDER[..k + 1]) - CostOf(q, EDGE_ORDER[..k])
    decreases Cost(q), 0, 3
  {
    var e := EDGE_ORDER[k];
    DoneStep(k);
    UsedStep(driver.db, q, rows, Done(k), e);
    with', S' := Some(with), S;
    if e in q.with {
      var sub;
      sub, S' := LoadStep(e, q, driver, nodes, rows, Done(k), S);
      with' := if sub.None? then None else Some(with[e := sub.value]);
    } else {
      assert Done(k + 1) * q.with.Keys == Done(k) * q.with.Keys;
    }
  }

  lemma KeysFetched(q: Query, e: Edge, nodes: seq<Node>, rows: seq<Row>)
    requires Typed(q) && e in q.with && Bound(nodes, rows, Selected(q), q.with.Keys)
    ensures RelOf(e) == M2O ==> forall i :: 0 <= i < |nodes| ==> SameKey(FkColumn(e), nodes[i].cells, rows[i])
    ensures RelOf(e) != M2O ==> forall i :: 0 <= i < |nodes| ==> KeyOf(Id, nodes[i].cells) == KeyOf(Id, rows[i])
  {
    forall i | 0 <= i < |nodes|
      ensures RelOf(e) == M2O ==> SameKey(FkColumn(e), nodes[i].cells, rows[i])
      ensures RelOf(e) != M2O ==> KeyOf(Id, nodes[i].cells) == KeyOf(Id, rows[i])
    {
      if RelOf(e) == M2O {
        ForeignKeyIsFetched(q, e, rows[i]);
      } else {
        IdIsFetched(q, rows[i]);
      }
    }
  }

  /** Loads one more edge; what was loaded before stays loaded. */
  method LoadStep(
    e: Edge, q: Query, driver: Driver, nodes: seq<Node>, ghost rows: seq<Row>,
    ghost done: set<Edge>, ghost S: set<Node>)
    returns (used: Option<Query>, ghost S': set<Node>)
    requires Typed(q) && WellFormed(driver.db) && e in q.with
    requires Bound(nodes, rows, Selected(q), q.with.Keys)
    requires HasKey(q.table) ==> Keyed(rows)
    requires e !in done && Progress(driver.db, q, EdgesOf(nodes), rows, done, S)
    requires forall n :: n in nodes ==> n !in S
    modifies driver, set n | n in nodes
    ensures used.None? <==> BreaksBelow(driver.db, e, q.with[e], rows)
    ensures used.Some? ==> used.value == AfterNested(driver.db, e, q.with[e], rows)
    ensures S <= S' && fresh(S' - S)
    ensures used.Some? ==> Progress(driver.db, q, EdgesOf(nodes), rows, done + {e}, S')
    ensures driver.selects <= old(driver.selects) + Cost(q.with[e])
    decreases Cost(q), 0, 2
  {
    ghost var before := EdgesOf(nodes);
    ghost var found: set<Node>;
    used, found := LoadBeside(e, q, driver, nodes, rows, done, S, before);
    S' := S + found;
    if used.Some? {
      ProgressStep(driver.db, q, e, before, EdgesOf(nodes), rows, done, S, found);
    }
  }

  /** Loading an edge does not touch what earlier loads made. */
  method LoadBeside(
    e: Edge, q: Query, driver: Driver, nodes: seq<Node>, ghost rows: seq<Row>,
    ghost done: set<Edge>, ghost S: set<Node>, ghost before: seq<map<Edge, seq<Node>>>)
    returns (used: Option<Query>, ghost found: set<Node>)
    requires Typed(q) && WellFormed(driver.db) && e in q.with
    requires Bound(nodes, rows, Selected(q), q.with.Keys)
    requires HasKey(q.table) ==> Keyed(rows)
    requires before == EdgesOf(nodes) && e !in done && Progress(driver.db, q, before, rows, done, S)
    requires forall n :: n in nodes ==> n !in S
    modifies driver, set n | n in nodes
    ensures Progress(driver.db, q, before, rows, done, S)
    ensures used.None? <==> BreaksBelow(driver.db, e, q.with[e], rows)
    ensures used.Some? ==> used.value == AfterNested(driver.db, e, q.with[e], rows)
    ensures fresh(found) && (used.Some? ==> EdgeLoaded(driver.db, e, q.with[e], EdgesOf(nodes), rows, found))
    ensures forall i :: 0 <= i < |nodes| ==> Others(EdgesOf(nodes)[i], e) == Others(before[i], e)
    ensures driver.selects <= old(driver.selects) + Cost(q.with[e])
    decreases Cost(q), 0, 1
  {
    used, found := LoadEdge(e, q, driver, nodes, rows);
  }

  method LoadEdge(e: Edge, q: Query, driver: Driver, nodes: seq<Node>, ghost rows: seq<Row>)
    returns (used: Option<Query>, ghost found: set<Node>)
    requires Typed(q) && WellFormed(driver.db) && e in q.with
    requires Bound(nodes, rows, Selected(q), q.with.Keys)
    requires HasKey(q.table) ==> Keyed(rows)
    requires forall i :: 0 <= i < |nodes| ==> e !in EdgesOf(nodes)[i]
    modifies driver, set n | n in nodes
    ensures used.None? <==> BreaksBelow(driver.db, e, q.with[e], rows)
    ensures used.Some? ==> used.value == AfterNested(driver.db, e, q.with[e], rows)
    ensures fresh(found) && (used.Some? ==> EdgeLoaded(driver.db, e, q.with[e], EdgesOf(nodes), rows, found))
    ensures forall i :: 0 <= i < |nodes| ==> Others(EdgesOf(nodes)[i], e) == old(Others(EdgesOf(nodes)[i], e))
    ensures driver.selects <= old(driver.selects) + Cost(q.with[e])
    decreases Cost(q), 0, 0
  {
    forall n | n in nodes ensures e !in n.edges {
      var i :| 0 <= i < |nodes| && nodes[i] == n;
      assert EdgesOf(nodes)[i] == n.edges;
    }
    CostOfNested(q, e);
    KeysFetched(q, e, nodes, rows);
    match RelOf(e) {
      case M2M => used, found := LoadJoined(e, q.with[e], driver, nodes, rows);
      case M2O => used, found := LoadUnique(e, q.with[e], driver, nodes, rows);
      case O2M => used, found := LoadMany(e, q.with[e], driver, nodes, rows);
    }
    forall i | 0 <= i < |nodes| ensures Others(EdgesOf(nodes)[i], e) == old(Others(EdgesOf(nodes)[i], e)) {
      assert nodes[i] in nodes;
    }
  }

  /** The nodes one batched query loads for all owners. */
  ghost predicate BatchLoaded(db: Database, e: Edge, sub: Query, rows: seq<Row>, nb: seq<Node>, S: set<Node>)
    reads S
  {
    ListDenotes(nb, Forest(BatchTrees(db, sub, Selected(WithKey(e, sub)), BatchRows(db, e, sub, rows))), S)
  }

  /** Runs the nested query with the batch filter added. */
  method FetchNested(e: Edge, sub: Query, filter: Pred, driver: Driver, ghost rows: seq<Row>)
    returns (nb: seq<Node>, used: Option<Query>, ghost S: set<Node>)
    requires RelOf(e) != M2M && Typed(sub) && WellFormed(driver.db) && filter == BatchPred(e, rows)
    requires RelOf(e) == M2O ==> DistinctKeys(FkColumn(e), rows) != []
    modifies driver
    ensures used.None? <==> BreaksBelow(driver.db, e, sub, rows)
    ensures used.Some? ==> used.value == AfterNested(driver.db, e, sub, rows)
    ensures fresh(S) && (used.Some? ==> BatchLoaded(driver.db, e, sub, rows, nb, S))
    ensures driver.selects <= old(driver.selects) + Cost(sub)
    decreases Cost(sub), 3
  {
    var query := Where(WithKey(e, sub), filter);
    SameCost(query, sub, EDGE_ORDER);
    NestedLoad(driver.db, e, sub, rows);
    SameBreaks(driver.db, query, sub, BatchRows(driver.db, e, sub, rows));
    nb, used, S := SqlAll(query, driver);
    AfterWhere(driver.db, e, sub, filter, BatchRows(driver.db, e, sub, rows));
  }

  /** One-to-many: one query for the rows that point at any node, dealt out by their foreign key. */
  method LoadMany(e: Edge, sub: Query, driver: Driver, nodes: seq<Node>, ghost rows: seq<Row>)
    returns (used: Option<Query>, ghost S: set<Node>)
    requires RelOf(e) == O2M && Typed(sub) && WellFormed(driver.db)
    requires |nodes| == |rows| && Keyed(rows)
    requires forall i :: 0 <= i < |nodes| ==> KeyOf(Id, nodes[i].cells) == KeyOf(Id, rows[i])
    modifies driver, set n | n in nodes
    ensures used.None? <==> BreaksBelow(driver.db, e, sub, rows)
    ensures used.Some? ==> used.value == AfterNested(driver.db, e, sub, rows)
    ensures fresh(S) && (used.Some? ==> EdgeLoaded(driver.db, e, sub, EdgesOf(nodes), rows, S))
    ensures forall n :: n in nodes ==> Others(n.edges, e) == old(Others(n.edges, e))
    ensures driver.selects <= old(driver.selects) + Cost(sub)
    decreases Cost(sub), 4
  {
    var fks, nodeids := IndexNodes(e, nodes);
    assert fks == Keys(Id, rows);
    var nb: seq<Node>;
    nb, used, S := FetchNested(e, sub, ColumnIn(FkColumn(e), fks), driver, rows);
    if used.None? {
      return;
    }
    DealMany(e, sub, nodes, nodeids, nb, driver.db, rows, S);
  }

  /** Deals out the rows of a one-to-many batch; none of them is refused. */
  method DealMany(
    e: Edge, sub: Query, nodes: seq<Node>, nodeids: map<int, Node>, nb: seq<Node>,
    ghost db: Database, ghost rows: seq<Row>, ghost S: set<Node>)
    requires RelOf(e) == O2M && |nodes| == |rows| && Indexed(nodeids, nodes) && NodeIds(nodes) == Keys(Id, rows)
    requires forall m :: m in nodes ==> m !in S && e in m.edges && m.edges[e] == []
    requires BatchLoaded(db, e, sub, rows, nb, S)
    modifies set n | n in nodes
    ensures EdgeLoaded(db, e, sub, EdgesOf(nodes), rows, S)
    ensures forall n :: n in nodes ==> Others(n.edges, e) == old(Others(n.edges, e))
  {
    NoStrays(db, e, sub, nodes, rows, nodeids, nb, S);
    var err := StitchMany(e, nodeids, nodes, nb);
    assert !err;
    forall i | 0 <= i < |nodes| ensures KeyOf(Id, nodes[i].cells) == KeyOf(Id, rows[i]) {
      assert NodeIds(nodes)[i] == Keys(Id, rows)[i];
    }
    ManyLoaded(db, e, sub, nodes, rows, nb, S);
  }

  /** Many-to-one: one query for the distinct foreign keys, each result shared by its nodes. */
  method LoadUnique(e: Edge, sub: Query, driver: Driver, nodes: seq<Node>, ghost rows: seq<Row>)
    returns (used: Option<Query>, ghost S: set<Node>)
    requires RelOf(e) == M2O && Typed(sub) && sub.table == Target(e) && WellFormed(driver.db)
    requires |nodes| == |rows|
    requires forall i :: 0 <= i < |nodes| ==> SameKey(FkColumn(e), nodes[i].cells, rows[i])
    requires forall n :: n in nodes ==> e !in n.edges
    modifies driver, set n | n in nodes
    ensures used.None? <==> BreaksBelow(driver.db, e, sub, rows)
    ensures used.Some? ==> used.value == AfterNested(driver.db, e, sub, rows)
    ensures fresh(S) && (used.Some? ==> EdgeLoaded(driver.db, e, sub, EdgesOf(nodes), rows, S))
    ensures forall n :: n in nodes ==> Others(n.edges, e) == old(Others(n.edges, e))
    ensures driver.selects <= old(driver.selects) + Cost(sub)
    decreases Cost(sub), 4
  {
    var ids, nodeids := GroupNodes(e, nodes, rows);
    if |ids| == 0 {
      used, S := Some(sub), {};
      UniqueLoaded(driver.db, e, sub, nodes, rows, [], S);
      return;
    }
    var nb: seq<Node>;
    nb, used, S := FetchNested(e, sub, ColumnIn(Id, ids), driver, rows);
    if used.None? {
      return;
    }
    DealUnique(e, sub, nodes, nodeids, nb, driver.db, rows, S);
  }

  /** Hands out the rows of a many-to-one batch; each has an id that was asked for. */
  method DealUnique(
    e: Edge, sub: Query, nodes: seq<Node>, nodeids: map<int, seq<Node>>, nb: seq<Node>,
    ghost db: Database, ghost rows: seq<Row>, ghost S: set<Node>)
    requires RelOf(e) == M2O && WellFormed(db) && sub.table == Target(e) && |nodes| == |rows|
    requires forall i :: 0 <= i < |nodes| ==> SameKey(FkColumn(e), nodes[i].cells, rows[i])
    requires Grouped(e, nodeids, nodes) && forall id :: id in nodeids <==> id in DistinctKeys(FkColumn(e), rows)
    requires forall m :: m in nodes ==> m !in S && e !in m.edges
    requires BatchLoaded(db, e, sub, rows, nb, S)
    modifies set n | n in nodes
    ensures EdgeLoaded(db, e, sub, EdgesOf(nodes), rows, S)
    ensures forall n :: n in nodes ==> Others(n.edges, e) == old(Others(n.edges, e))
  {
    UniqueKeys(db, e, sub, rows, nb, S);
    var err := StitchUnique(e, nodeids, nodes, nb);
    assert !err;
    UniqueLoaded(db, e, sub, nodes, rows, nb, S);
  }

  /** Appending to the group of a key, which is nil at first. */
  function WithNode(nodeids: map<int, seq<Node>>, fk: int, node: Node): map<int, seq<Node>> {
    nodeids[fk := (if fk in nodeids then nodeids[fk] else []) + [node]]
  }

  lemma GroupedMore(e: Edge, nodeids: map<int, seq<Node>>, nodes: seq<Node>, node: Node)
    requires Grouped(e, nodeids, nodes)
    ensures Grouped(e, if FkColumn(e) in node.cells then WithNode(nodeids, node.cells[FkColumn(e)], node) else nodeids, nodes + [node])
  {
  }

  /** Groups the nodes by foreign key, listing each key once. */
  method GroupNodes(e: Edge, nodes: seq<Node>, ghost rows: seq<Row>) returns (ids: seq<int>, nodeids: map<int, seq<Node>>)
    requires |nodes| == |rows|
    requires forall i :: 0 <= i < |nodes| ==> SameKey(FkColumn(e), nodes[i].cells, rows[i])
    ensures ids == DistinctKeys(FkColumn(e), rows)
    ensures Grouped(e, nodeids, nodes) && forall id :: id in nodeids <==> id in ids
  {
    ids, nodeids := [], map[];
    for i := 0 to |nodes|
      invariant ids == DistinctKeys(FkColumn(e), rows[..i])
      invariant Grouped(e, nodeids, nodes[..i]) && forall id :: id in nodeids <==> id in ids
    {
      var node := nodes[i];
      assert nodes[..i + 1] == nodes[..i] + [node];
      assert rows[..i + 1][..i] == rows[..i];
      GroupedMore(e, nodeids, nodes[..i], node);
      if FkColumn(e) in node.cells {
        var fk := node.cells[FkColumn(e)];
        if fk !in nodeids {
          ids := ids + [fk];
        }
        nodeids := WithNode(nodeids, fk, node);
      }
    }
    assert nodes[..|nodes|] == nodes && rows[..|rows|] == rows;
  }

  /** Every row of a many-to-one batch has one of the ids asked for, and no id comes twice. */
  lemma UniqueKeys(db: Database, e: Edge, sub: Query, rows: seq<Row>, nb: seq<Node>, S: set<Node>)
    requires RelOf(e) == M2O && WellFormed(db) && sub.table == Target(e)
    requires BatchLoaded(db, e, sub, rows, nb, S)
    ensures |nb| == |BatchRows(db, e, sub, rows)| && Keyed(BatchRows(db, e, sub, rows))
    ensures forall k :: 0 <= k < |nb| ==> KeyOf(Id, nb[k].cells) == KeyOf(Id, BatchRows(db, e, sub, rows)[k])
    ensures forall n :: n in nb ==> KeyOf(Id, n.cells) in DistinctKeys(FkColumn(e), rows)
  {
    var cs, found := Selected(WithKey(e, sub)), BatchRows(db, e, sub, rows);
    var q := Where(sub, BatchPred(e, rows));
    MatchingMembers(db, q);
    SelectKeyed(db, q);
    forall k | 0 <= k < |nb|
      ensures KeyOf(Id, nb[k].cells) == KeyOf(Id, found[k]) && KeyOf(Id, nb[k].cells) in DistinctKeys(FkColumn(e), rows)
    {
      assert Denotes(nb[k], BatchTrees(db, sub, cs, found)[k], S);
      IdIsFetched(WithKey(e, sub), found[k]);
      assert found[k] in Matching(db, q);
      SatAppend(db, sub.preds, BatchPred(e, rows), found[k]);
    }
  }

  lemma UniqueLoaded(db: Database, e: Edge, sub: Query, nodes: seq<Node>, rows: seq<Row>, nb: seq<Node>, S: set<Node>)
    requires RelOf(e) == M2O && WellFormed(db) && sub.table == Target(e) && |nodes| == |rows|
    requires forall i :: 0 <= i < |nodes| ==> SameKey(FkColumn(e), nodes[i].cells, rows[i])
    requires forall m :: m in nodes ==> m.List(e) == UniqueOf(e, m, nb)
    requires BatchLoaded(db, e, sub, rows, nb, S)
    ensures EdgeLoaded(db, e, sub, EdgesOf(nodes), rows, S)
  {
    var cs, found := Selected(WithKey(e, sub)), BatchRows(db, e, sub, rows);
    UniqueKeys(db, e, sub, rows, nb, S);
    forall i | 0 <= i < |nodes|
      ensures ListDenotes(ListIn(EdgesOf(nodes)[i], e), Forest(BatchEdge(db, e, sub, rows, rows[i])), S)
    {
      assert nodes[i] in nodes;
      if FkColumn(e) in rows[i] {
        UniqueDenotes(e, StreamOf(db, e, sub, rows), rows[i], nb, found, BatchTrees(db, sub, cs, found), S);
      } else {
        PickNone(e, StreamOf(db, e, sub, rows), rows[i], found, BatchTrees(db, sub, cs, found));
      }
    }
  }

  /** A column reads the same in the fetched cells as in the row. */
  ghost predicate SameKey(c: Column, cells: Row, row: Row) {
    (c in cells <==> c in row) && KeyOf(c, cells) == KeyOf(c, row)
  }

  function AddOwner(nids: map<int, set<Node>>, id: int, m: Node): map<int, set<Node>> {
    nids[id := (if id in nids then nids[id] else {}) + {m}]
  }

  /** What the hijacked row scanner collects: for each neighbour id, the nodes it was joined to. */
  function OwnersOf(byID: map<int, Node>, stream: seq<(int, Row)>): map<int, set<Node>>
    requires forall p :: p in stream ==> p.0 in byID
  {
    if stream == [] then map[] else
      var p := stream[|stream| - 1];
      AddOwner(OwnersOf(byID, stream[..|stream| - 1]), KeyOf(Id, p.1), byID[p.0])
  }

  lemma {:induction false} OwnersOfMembers(byID: map<int, Node>, stream: seq<(int, Row)>, id: int, m: Node)
    requires forall p :: p in stream ==> p.0 in byID
    ensures id in OwnersOf(byID, stream) && m in OwnersOf(byID, stream)[id]
       <==> exists p :: p in stream && KeyOf(Id, p.1) == id && byID[p.0] == m
  {
    if stream != [] {
      var front, last := stream[..|stream| - 1], stream[|stream| - 1];
      assert stream == front + [last];
      OwnersOfMembers(byID, front, id, m);
    }
  }

  lemma {:induction false} OwnersOfKeys(byID: map<int, Node>, stream: seq<(int, Row)>, id: int)
    requires forall p :: p in stream ==> p.0 in byID
    ensures id in OwnersOf(byID, stream) <==> exists r :: r in FirstSeen(stream) && KeyOf(Id, r) == id
    ensures id in OwnersOf(byID, stream) <==> exists p :: p in stream && KeyOf(Id, p.1) == id
  {
    if stream != [] {
      var front, last := stream[..|stream| - 1], stream[|stream| - 1];
      assert stream == front + [last];
      OwnersOfKeys(byID, front, id);
    }
  }

  lemma FirstSeenStep(byID: map<int, Node>, stream: seq<(int, Row)>, k: nat)
    requires k < |stream| && forall p :: p in stream ==> p.0 in byID
    ensures OwnersOf(byID, stream[..k + 1]) == AddOwner(OwnersOf(byID, stream[..k]), KeyOf(Id, stream[k].1), byID[stream[k].0])
    ensures FirstSeen(stream[..k + 1])
         == if KeyOf(Id, stream[k].1) in OwnersOf(byID, stream[..k]) then FirstSeen(stream[..k])
            else FirstSeen(stream[..k]) + [stream[k].1]
  {
    assert stream[..k + 1][..k] == stream[..k];
    OwnersOfKeys(byID, stream[..k], KeyOf(Id, stream[k].1));
  }

  /** Reads the joined rows: the first row of a neighbour makes its node, later ones only add an owner. It
      breaks off at the first row whose second column is not the group's id. */
  method ScanJoined(
    second: Selection, stream: seq<(int, Row)>, byID: map<int, Node>, columns: Option<seq<Column>>, requested: set<Edge>)
    returns (broken: bool, nodes: seq<Node>, nids: map<int, set<Node>>)
    requires forall p :: p in stream ==> p.0 in byID
    ensures broken <==> stream != [] && second != Own(Id)
    ensures !broken ==> Bound(nodes, FirstSeen(stream), columns, requested) && nids == OwnersOf(byID, stream)
    ensures fresh(set n | n in nodes) && forall n :: n in nodes ==> n.edges == map[]
  {
    nodes, nids := [], map[];
    ghost var seen: seq<Row> := [];
    for k := 0 to |stream|
      invariant seen == FirstSeen(stream[..k]) && Bound(nodes, seen, columns, requested)
      invariant fresh(set n | n in nodes) && forall n :: n in nodes ==> n.edges == map[]
      invariant nids == OwnersOf(byID, stream[..k])
      invariant k > 0 ==> second == Own(Id)
    {
      if second != Own(Id) {
        return true, [], map[];
      }
      var (outValue, row) := stream[k];
      var inValue := KeyOf(Id, row);
      FirstSeenStep(byID, stream, k);
      if inValue !in nids {
        nodes := AppendNode(nodes, seen, row, columns, requested);
        seen := seen + [row];
      }
      nids := AddOwner(nids, inValue, byID[outValue]);
    }
    assert stream[..|stream|] == stream;
    broken := false;
  }

  /** Runs the joined query through the hijacked scanner, then the loads nested below it. */
  method FetchJoined(e: Edge, sub: Query, ids: seq<int>, byID: map<int, Node>, driver: Driver, ghost rows: seq<Row>)
    returns (nb: seq<Node>, nids: map<int, set<Node>>, used: Option<Query>, ghost S: set<Node>)
    requires RelOf(e) == M2M && Typed(sub) && sub.table == Target(e) && WellFormed(driver.db)
    requires ids == Keys(Id, rows) && forall id :: id in ids ==> id in byID
    modifies driver
    ensures used.None? <==> BreaksBelow(driver.db, e, sub, rows)
    ensures used.Some? ==> used.value == AfterNested(driver.db, e, sub, rows)
    ensures fresh(S) && (used.Some? ==> BatchLoaded(driver.db, e, sub, rows, nb, S))
    ensures forall p :: p in StreamOf(driver.db, e, sub, rows) ==> p.0 in byID
    ensures used.Some? ==> nids == OwnersOf(byID, StreamOf(driver.db, e, sub, rows))
    ensures driver.selects <= old(driver.selects) + Cost(sub)
    decreases Cost(sub), 3
  {
    var query := Where(sub, JoinGroups(ids));
    SameCost(query, sub, EDGE_ORDER);
    var columns, stream := driver.RunJoined(query, ids);
    SecondColumn(sub, ids);
    StreamIds(driver.db, e, sub, rows);
    var broken;
    broken, nb, nids := ScanJoined(columns[1], stream, byID, Selected(query), query.with.Keys);
    used, S := None, {};
    if broken {
      return;
    }
    SameNested(driver.db, query, sub, Selected(sub), FirstSeen(stream));
    SameBreaks(driver.db, query, sub, FirstSeen(stream));
    AfterWhere(driver.db, e, sub, JoinGroups(ids), FirstSeen(stream));
    used := Some(query);
    if nb != [] {
      used, S := LoadEdges(query, driver, nb, FirstSeen(stream));
    }
  }

  /** Many-to-many: one joined query; every neighbour goes to all nodes its rows named. */
  method LoadJoined(e: Edge, sub: Query, driver: Driver, nodes: seq<Node>, ghost rows: seq<Row>)
    returns (used: Option<Query>, ghost S: set<Node>)
    requires RelOf(e) == M2M && Typed(sub) && sub.table == Target(e) && WellFormed(driver.db)
    requires |nodes| == |rows| && Keyed(rows)
    requires forall i :: 0 <= i < |nodes| ==> KeyOf(Id, nodes[i].cells) == KeyOf(Id, rows[i])
    modifies driver, set n | n in nodes
    ensures used.None? <==> BreaksBelow(driver.db, e, sub, rows)
    ensures used.Some? ==> used.value == AfterNested(driver.db, e, sub, rows)
    ensures fresh(S) && (used.Some? ==> EdgeLoaded(driver.db, e, sub, EdgesOf(nodes), rows, S))
    ensures forall n :: n in nodes ==> Others(n.edges, e) == old(Others(n.edges, e))
    ensures driver.selects <= old(driver.selects) + Cost(sub)
    decreases Cost(sub), 4
  {
    var edgeIDs, byID := IndexNodes(e, nodes);
    assert edgeIDs == Keys(Id, rows);
    IndexedIds(byID, nodes);
    var nb, nids;
    nb, nids, used, S := FetchJoined(e, sub, edgeIDs, byID, driver, rows);
    if used.None? {
      return;
    }
    DealJoined(e, sub, nodes, byID, nids, nb, driver.db, rows, S);
  }

  /** Hands out the rows of a joined batch; each has its owners among the nodes. */
  method DealJoined(
    e: Edge, sub: Query, nodes: seq<Node>, ghost byID: map<int, Node>, nids: map<int, set<Node>>, nb: seq<Node>,
    ghost db: Database, ghost rows: seq<Row>, ghost S: set<Node>)
    requires RelOf(e) == M2M && WellFormed(db) && sub.table == Target(e) && |nodes| == |rows| && Indexed(byID, nodes)
    requires forall i :: 0 <= i < |nodes| ==> KeyOf(Id, nodes[i].cells) == KeyOf(Id, rows[i])
    requires forall p :: p in StreamOf(db, e, sub, rows) ==> p.0 in byID
    requires nids == OwnersOf(byID, StreamOf(db, e, sub, rows))
    requires forall m :: m in nodes ==> m !in S && e in m.edges && m.edges[e] == []
    requires BatchLoaded(db, e, sub, rows, nb, S)
    modifies set n | n in nodes
    ensures EdgeLoaded(db, e, sub, EdgesOf(nodes), rows, S)
    ensures forall n :: n in nodes ==> Others(n.edges, e) == old(Others(n.edges, e))
  {
    JoinedKnown(db, e, sub, nodes, rows, byID, nb, S);
    var err := StitchJoined(e, nids, nodes, nb);
    assert !err;
    JoinedLoaded(db, e, sub, nodes, rows, byID, nb, S);
  }

  lemma IndexedNode(nodeids: map<int, Node>, nodes: seq<Node>, id: int)
    requires Indexed(nodeids, nodes) && id in nodeids
    ensures nodeids[id] in nodes && KeyOf(Id, nodeids[id].cells) == id
  {
  }

  lemma IndexedIds(nodeids: map<int, Node>, nodes: seq<Node>)
    requires Indexed(nodeids, nodes)
    ensures forall id :: id in NodeIds(nodes) ==> id in nodeids
  {
    forall id | id in NodeIds(nodes) ensures id in nodeids {
      var i :| 0 <= i < |nodes| && NodeIds(nodes)[i] == id;
      assert nodes[i] in nodes;
    }
  }

  lemma ManyLoaded(db: Database, e: Edge, sub: Query, nodes: seq<Node>, rows: seq<Row>, nb: seq<Node>, S: set<Node>)
    requires RelOf(e) == O2M && |nodes| == |rows|
    requires forall i :: 0 <= i < |nodes| ==> KeyOf(Id, nodes[i].cells) == KeyOf(Id, rows[i])
    requires forall m :: m in nodes ==> m.List(e) == Owned(e, KeyOf(Id, m.cells), nb)
    requires BatchLoaded(db, e, sub, rows, nb, S)
    ensures EdgeLoaded(db, e, sub, EdgesOf(nodes), rows, S)
  {
    var cs, found := Selected(WithKey(e, sub)), BatchRows(db, e, sub, rows);
    BackKeys(db, e, sub, rows, nb, S);
    forall i | 0 <= i < |nodes|
      ensures ListDenotes(ListIn(EdgesOf(nodes)[i], e), Forest(BatchEdge(db, e, sub, rows, rows[i])), S)
    {
      assert nodes[i] in nodes;
      OwnedDenotes(e, StreamOf(db, e, sub, rows), rows[i], nb, found, BatchTrees(db, sub, cs, found), S);
    }
  }

  /** Every row of a one-to-many batch carries the foreign key that brought it: no neighbour is refused. */
  lemma BackKeys(db: Database, e: Edge, sub: Query, rows: seq<Row>, nb: seq<Node>, S: set<Node>)
    requires RelOf(e) == O2M
    requires BatchLoaded(db, e, sub, rows, nb, S)
    ensures |nb| == |BatchRows(db, e, sub, rows)|
    ensures forall k :: 0 <= k < |nb| ==> KeyOf(FkColumn(e), nb[k].cells) == KeyOf(FkColumn(e), BatchRows(db, e, sub, rows)[k])
    ensures forall n :: n in nb ==> FkColumn(e) in n.cells && KeyOf(FkColumn(e), n.cells) in Keys(Id, rows)
  {
    var cs, found := Selected(WithKey(e, sub)), BatchRows(db, e, sub, rows);
    var q := Where(sub, BatchPred(e, rows));
    MatchingMembers(db, q);
    forall k | 0 <= k < |nb|
      ensures KeyOf(FkColumn(e), nb[k].cells) == KeyOf(FkColumn(e), found[k])
      ensures FkColumn(e) in nb[k].cells && KeyOf(FkColumn(e), nb[k].cells) in Keys(Id, rows)
    {
      assert Denotes(nb[k], BatchTrees(db, sub, cs, found)[k], S);
      BackKeyIsFetched(e, sub, found[k]);
      assert found[k] in Matching(db, q);
      SatAppend(db, sub.preds, BatchPred(e, rows), found[k]);
    }
  }

  lemma NoStrays(
    db: Database, e: Edge, sub: Query, nodes: seq<Node>, rows: seq<Row>, nodeids: map<int, Node>, nb: seq<Node>, S: set<Node>)
    requires RelOf(e) == O2M && BatchLoaded(db, e, sub, rows, nb, S)
    requires Indexed(nodeids, nodes) && NodeIds(nodes) == Keys(Id, rows)
    ensures forall n :: n in nb ==> !Stray(e, n, nodeids.Keys)
  {
    BackKeys(db, e, sub, rows, nb, S);
    IndexedIds(nodeids, nodes);
  }

  lemma StreamIds(db: Database, e: Edge, sub: Query, rows: seq<Row>)
    requires RelOf(e) == M2M && WellFormed(db) && sub.table == Target(e)
    ensures forall p :: p in StreamOf(db, e, sub, rows) ==> p.0 in Keys(Id, rows) && Id in p.1
    ensures Keyed(FirstSeen(StreamOf(db, e, sub, rows)))
  {
    var q := Where(sub, BatchPred(e, rows));
    var stream := StreamOf(db, e, sub, rows);
    JoinAllMembers(db.accountGroups, Keys(Id, rows), Matching(db, q));
    FirstSeenDistinct(stream);
    forall r | r in FirstSeen(stream) ensures Id in r {
      FirstSeenSource(stream, r);
    }
  }

  lemma JoinedKeys(db: Database, e: Edge, sub: Query, rows: seq<Row>, nb: seq<Node>, S: set<Node>)
    requires RelOf(e) == M2M && WellFormed(db) && sub.table == Target(e)
    requires BatchLoaded(db, e, sub, rows, nb, S)
    ensures |nb| == |BatchRows(db, e, sub, rows)|
    ensures forall k :: 0 <= k < |nb| ==> KeyOf(Id, nb[k].cells) == KeyOf(Id, BatchRows(db, e, sub, rows)[k])
    ensures forall n :: n in nb ==> exists p :: p in StreamOf(db, e, sub, rows) && KeyOf(Id, p.1) == KeyOf(Id, n.cells)
  {
    var found := BatchRows(db, e, sub, rows);
    forall k | 0 <= k < |nb|
      ensures KeyOf(Id, nb[k].cells) == KeyOf(Id, found[k])
      ensures exists p :: p in StreamOf(db, e, sub, rows) && KeyOf(Id, p.1) == KeyOf(Id, nb[k].cells)
    {
      assert Denotes(nb[k], BatchTrees(db, sub, Selected(sub), found)[k], S);
      IdIsFetched(sub, found[k]);
      FirstSeenSource(StreamOf(db, e, sub, rows), found[k]);
    }
  }

  lemma JoinedKnown(
    db: Database, e: Edge, sub: Query, nodes: seq<Node>, rows: seq<Row>, byID: map<int, Node>, nb: seq<Node>, S: set<Node>)
    requires RelOf(e) == M2M && WellFormed(db) && sub.table == Target(e) && BatchLoaded(db, e, sub, rows, nb, S)
    requires Indexed(byID, nodes) && forall p :: p in StreamOf(db, e, sub, rows) ==> p.0 in byID
    ensures forall n :: n in nb ==> KeyOf(Id, n.cells) in OwnersOf(byID, StreamOf(db, e, sub, rows))
    ensures forall id, m :: id in OwnersOf(byID, StreamOf(db, e, sub, rows)) && m in OwnersOf(byID, StreamOf(db, e, sub, rows))[id] ==>
      m in nodes
  {
    var nids := OwnersOf(byID, StreamOf(db, e, sub, rows));
    JoinedKeys(db, e, sub, rows, nb, S);
    forall n | n in nb ensures KeyOf(Id, n.cells) in nids {
      OwnersOfKeys(byID, StreamOf(db, e, sub, rows), KeyOf(Id, n.cells));
    }
    forall id, m | id in nids && m in nids[id] ensures m in nodes {
      OwnersOfMembers(byID, StreamOf(db, e, sub, rows), id, m);
      var p :| p in StreamOf(db, e, sub, rows) && KeyOf(Id, p.1) == id && byID[p.0] == m;
      IndexedNode(byID, nodes, p.0);
    }
  }

  lemma JoinedLoaded(
    db: Database, e: Edge, sub: Query, nodes: seq<Node>, rows: seq<Row>, byID: map<int, Node>, nb: seq<Node>, S: set<Node>)
    requires RelOf(e) == M2M && WellFormed(db) && sub.table == Target(e) && |nodes| == |rows|
    requires forall i :: 0 <= i < |nodes| ==> KeyOf(Id, nodes[i].cells) == KeyOf(Id, rows[i])
    requires Indexed(byID, nodes) && forall p :: p in StreamOf(db, e, sub, rows) ==> p.0 in byID
    requires forall m :: m in nodes ==> m.List(e) == JoinedTo(OwnersOf(byID, StreamOf(db, e, sub, rows)), m, nb)
    requires BatchLoaded(db, e, sub, rows, nb, S)
    ensures EdgeLoaded(db, e, sub, EdgesOf(nodes), rows, S)
  {
    JoinedKeys(db, e, sub, rows, nb, S);
    forall i | 0 <= i < |nodes|
      ensures ListDenotes(ListIn(EdgesOf(nodes)[i], e), Forest(BatchEdge(db, e, sub, rows, rows[i])), S)
    {
      assert nodes[i] in nodes;
      JoinedShare(db, e, sub, nodes, rows, i, byID, nb, S);
    }
  }

  lemma JoinedShare(
    db: Database, e: Edge, sub: Query, nodes: seq<Node>, rows: seq<Row>, i: nat, byID: map<int, Node>, nb: seq<Node>, S: set<Node>)
    requires RelOf(e) == M2M && WellFormed(db) && sub.table == Target(e) && |nodes| == |rows| && i < |nodes|
    requires KeyOf(Id, nodes[i].cells) == KeyOf(Id, rows[i])
    requires Indexed(byID, nodes) && forall p :: p in StreamOf(db, e, sub, rows) ==> p.0 in byID
    requires BatchLoaded(db, e, sub, rows, nb, S)
    ensures ListDenotes(JoinedTo(OwnersOf(byID, StreamOf(db, e, sub, rows)), nodes[i], nb),
                        Forest(BatchEdge(db, e, sub, rows, rows[i])), S)
  {
    var stream, found := StreamOf(db, e, sub, rows), BatchRows(db, e, sub, rows);
    var nids := OwnersOf(byID, stream);
    JoinedKeys(db, e, sub, rows, nb, S);
    assert nodes[i] in nodes;
    forall k | 0 <= k < |nb|
      ensures var id := KeyOf(Id, nb[k].cells);
        (Linked(e, stream, rows[i], found[k]) <==> id in nids && nodes[i] in nids[id])
    {
      OwnersOfMembers(byID, stream, KeyOf(Id, nb[k].cells), nodes[i]);
      assert forall p :: p in stream ==> (byID[p.0] == nodes[i] <==> p.0 == KeyOf(Id, rows[i]));
    }
    JoinedDenotes(e, stream, rows[i], nids, nodes[i], nb, found, BatchTrees(db, sub, Selected(WithKey(e, sub)), found), S);
  }
}
