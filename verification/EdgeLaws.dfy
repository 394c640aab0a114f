/** Laws between edges that loaded graphs obey. */
module EdgeLaws {
  import opened Wrappers
  import opened Relational
  import opened Lookup

  lemma NeighborsMembers(db: Database, e: Edge, sub: Query, owner: Row)
    requires sub.offset == sub.limit == 0
    ensures forall r :: r in Neighbors(db, e, sub, owner) <==>
      r in Rows(db, sub.table) && Sat(db, sub.preds, r) && Holds(db, NeighborPred(e, owner), r)
  {
    MatchingMembers(db, Where(sub, NeighborPred(e, owner)));
    forall r ensures Sat(db, Where(sub, NeighborPred(e, owner)).preds, r)
                <==> Sat(db, sub.preds, r) && Holds(db, NeighborPred(e, owner), r)
    {
      SatAppend(db, sub.preds, NeighborPred(e, owner), r);
    }
  }

  /** A to-one lookup finds at most one row. */
  lemma AtMostOne(db: Database, e: Edge, sub: Query, owner: Row)
    requires WellFormed(db) && RelOf(e) == M2O && sub.table == Target(e)
    ensures |Neighbors(db, e, sub, owner)| <= 1
  {
    var q := Where(sub, NeighborPred(e, owner));
    MatchingKeyed(db, q);
    var rows := Matching(db, q);
    assert |rows| <= 1 || rows[0][Id] != rows[1][Id];
    MatchingMembers(db, q);
    forall i | 0 <= i < |rows| ensures FkColumn(e) in owner && rows[i][Id] == owner[FkColumn(e)] {
      SatAppend(db, sub.preds, NeighborPred(e, owner), rows[i]);
      assert rows[i] in rows;
    }
  }

  function RowSet(trees: seq<Tree>): set<Row> {
    set t | t in trees :: t.row
  }

  /** The groups an account reaches directly, and those it reaches through its join entities. */
  function GroupsDirectly(account: Tree): set<Row> {
    if GroupsEdge in account.kids then RowSet(account.kids[GroupsEdge].trees) else {}
  }

  function GroupsOf(join: Tree): set<Row> {
    if ThroughGroup in join.kids then RowSet(join.kids[ThroughGroup].trees) else {}
  }

  function GroupsThroughJoin(account: Tree): set<Row> {
    if AccountGroupsEdge in account.kids
    then set j, g | j in account.kids[AccountGroupsEdge].trees && g in GroupsOf(j) :: g
    else {}
  }

  lemma RowSetOfTrees(db: Database, q: Query, columns: Option<seq<Column>>, rows: seq<Row>)
    ensures forall r :: r in RowSet(Trees(db, q, columns, rows)) <==> r in rows
    ensures forall t :: t in Trees(db, q, columns, rows) <==>
      t.row in rows && t == Tree(t.row, columns, Kids(db, q, t.row))
  {
    var trees := Trees(db, q, columns, rows);
    forall r | r in rows ensures Tree(r, columns, Kids(db, q, r)) in trees {
      var i :| 0 <= i < |rows| && rows[i] == r;
      assert trees[i] == Tree(r, columns, Kids(db, q, r));
    }
    forall r | r in rows ensures r in RowSet(trees) {
      assert Tree(r, columns, Kids(db, q, r)).row == r;
    }
  }

  lemma JoinedGroup(db: Database, direct: Query, account: Row, g: Row)
    requires Id in account && direct.table == Groups && direct.offset == direct.limit == 0
    ensures g in Neighbors(db, GroupsEdge, direct, account)
       <==> Id in g && g in db.groups && Sat(db, direct.preds, g)
            && exists j :: j in db.accountGroups && Joins(j, account[Id], g[Id])
  {
    NeighborsMembers(db, GroupsEdge, direct, account);
    if Id in g {
      if j :| j in db.accountGroups && Joins(j, account[Id], g[Id]) {
        assert j[AccountId] in [account[Id]];
      }
    }
  }

  lemma JoinOfAccount(db: Database, join: Query, account: Row, j: Row)
    requires Id in account
    requires join.table == AccountGroups && join.offset == join.limit == 0 && join.preds == []
    ensures j in Neighbors(db, AccountGroupsEdge, join, account)
       <==> j in db.accountGroups && AccountId in j && j[AccountId] == account[Id]
  {
    NeighborsMembers(db, AccountGroupsEdge, join, account);
  }

  lemma GroupOfJoin(db: Database, through: Query, j: Row, g: Row)
    requires through.table == Groups && through.offset == through.limit == 0
    ensures g in Neighbors(db, ThroughGroup, through, j)
       <==> g in db.groups && Sat(db, through.preds, g) && Id in g && GroupId in j && g[Id] == j[GroupId]
  {
    NeighborsMembers(db, ThroughGroup, through, j);
  }

  /** Row by row: a group is joined to the account exactly when some join row of the account names it. */
  lemma RouteRows(db: Database, direct: Query, join: Query, through: Query, account: Row, g: Row)
    requires WellFormed(db) && Id in account
    requires direct.table == Groups && direct.offset == direct.limit == 0
    requires join.table == AccountGroups && join.offset == join.limit == 0 && join.preds == []
    requires through.table == Groups && through.offset == through.limit == 0 && through.preds == direct.preds
    ensures g in Neighbors(db, GroupsEdge, direct, account)
       <==> exists j :: j in Neighbors(db, AccountGroupsEdge, join, account) && g in Neighbors(db, ThroughGroup, through, j)
  {
    JoinedGroup(db, direct, account, g);
    if g in Neighbors(db, GroupsEdge, direct, account) {
      var j :| j in db.accountGroups && Joins(j, account[Id], g[Id]);
      JoinOfAccount(db, join, account, j);
      GroupOfJoin(db, through, j, g);
    }
    if j :| j in Neighbors(db, AccountGroupsEdge, join, account) && g in Neighbors(db, ThroughGroup, through, j) {
      JoinOfAccount(db, join, account, j);
      GroupOfJoin(db, through, j, g);
      assert Joins(j, account[Id], g[Id]);
    }
  }

  /** Both routes through the join table reach the same groups, under any filter on the groups
      (soft deletion included), whatever columns, order and further edges either route asks for. */
  lemma TwoRoutes(db: Database, q: Query, columns: Option<seq<Column>>, account: Row)
    requires WellFormed(db) && Typed(q) && Unwindowed(q)
    requires GroupsEdge in q.with && AccountGroupsEdge in q.with && ThroughGroup in q.with[AccountGroupsEdge].with
    requires q.with[AccountGroupsEdge].preds == []
    requires q.with[GroupsEdge].preds == q.with[AccountGroupsEdge].with[ThroughGroup].preds
    requires Id in account
    ensures GroupsDirectly(Tree(account, columns, Kids(db, q, account)))
         == GroupsThroughJoin(Tree(account, columns, Kids(db, q, account)))
  {
    var t := Tree(account, columns, Kids(db, q, account));
    var direct, join := q.with[GroupsEdge], q.with[AccountGroupsEdge];
    RowSetOfTrees(db, direct, Selected(WithKey(GroupsEdge, direct)), Neighbors(db, GroupsEdge, direct, account));
    forall g ensures g in GroupsDirectly(t) <==> g in GroupsThroughJoin(t) {
      RouteRows(db, direct, join, join.with[ThroughGroup], account, g);
      ThroughRows(db, join, Selected(WithKey(AccountGroupsEdge, join)), Neighbors(db, AccountGroupsEdge, join, account), g);
    }
  }

  lemma ThroughRows(db: Database, join: Query, columns: Option<seq<Column>>, rows: seq<Row>, g: Row)
    requires ThroughGroup in join.with
    ensures (exists j :: j in Trees(db, join, columns, rows) && g in GroupsOf(j))
       <==> exists j :: j in rows && g in Neighbors(db, ThroughGroup, join.with[ThroughGroup], j)
  {
    var through := join.with[ThroughGroup];
    var cs := Selected(WithKey(ThroughGroup, through));
    forall j ensures g in GroupsOf(Tree(j, columns, Kids(db, join, j))) <==> g in Neighbors(db, ThroughGroup, through, j) {
      RowSetOfTrees(db, through, cs, Neighbors(db, ThroughGroup, through, j));
    }
    RowSetOfTrees(db, join, columns, rows);
    if j :| j in rows && g in Neighbors(db, ThroughGroup, through, j) {
      assert Tree(j, columns, Kids(db, join, j)) in Trees(db, join, columns, rows);
    }
  }

  lemma ChildOf(db: Database, children: Query, p: Row, c: Row)
    requires Id in p && children.table == Accounts && children.offset == children.limit == 0
    ensures c in Neighbors(db, ChildrenEdge, children, p) <==>
      c in db.accounts && Sat(db, children.preds, c) && ParentAccountId in c && c[ParentAccountId] == p[Id]
  {
    NeighborsMembers(db, ChildrenEdge, children, p);
  }

  lemma ParentOf(db: Database, parent: Query, p: Row, c: Row)
    requires WellFormed(db) && Id in p && parent.table == Accounts && parent.offset == parent.limit == 0
    ensures Neighbors(db, ParentEdge, parent, c) == [p] <==>
      p in db.accounts && Sat(db, parent.preds, p) && ParentAccountId in c && c[ParentAccountId] == p[Id]
  {
    var found := Neighbors(db, ParentEdge, parent, c);
    NeighborsMembers(db, ParentEdge, parent, c);
    AtMostOne(db, ParentEdge, parent, c);
    assert found == [p] ==> p in found;
  }

  /** The two loaders over `parent_account_id` are inverse: under their filters, c is among the
      children of p exactly when the parent of c is p and nothing else. */
  lemma ParentInvertsChildren(db: Database, children: Query, parent: Query, p: Row, c: Row)
    requires WellFormed(db) && p in db.accounts && c in db.accounts
    requires children.table == Accounts && children.offset == children.limit == 0
    requires parent.table == Accounts && parent.offset == parent.limit == 0
    ensures c in Neighbors(db, ChildrenEdge, children, p) && Sat(db, parent.preds, p)
       <==> Neighbors(db, ParentEdge, parent, c) == [p] && Sat(db, children.preds, c)
  {
    ChildOf(db, children, p, c);
    ParentOf(db, parent, p, c);
  }
}
