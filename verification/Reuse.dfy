/** What a load leaves behind in the nested queries, and when a query that has been loaded once can be
    loaded again. */
module Reuse {
  import opened Wrappers
  import opened Relational
  import opened Lookup
  import opened Agreement
  import opened EdgeLaws

  // ---------------------------------------------------------------- what a load leaves behind

  /** A to-one load whose owners hold no key returns before it touches its query. */
  predicate Skipped(e: Edge, owners: seq<Row>) {
    RelOf(e) == M2O && DistinctKeys(FkColumn(e), owners) == []
  }

  /** A query after it has loaded these rows: unless there were none, every nested query has been used. */
  function After(db: Database, q: Query, rows: seq<Row>): Query
    decreases q, 1
  {
    if rows == [] then q else q.(with := map e | e in q.with :: AfterNested(db, e, q.with[e], rows))
  }

  /** A nested query after the load for these owners: it keeps the batch filter and the key column that
      were added to it, and so do the queries below it. */
  function AfterNested(db: Database, e: Edge, sub: Query, owners: seq<Row>): Query
    decreases sub, 2
  {
    if Skipped(e, owners) then sub
    else Where(WithKey(e, After(db, sub, BatchRows(db, e, sub, owners))), BatchPred(e, owners))
  }

  lemma AfterKeys(db: Database, q: Query, rows: seq<Row>)
    ensures After(db, q, rows).with.Keys == q.with.Keys
  {
  }

  lemma AfterWith(db: Database, q: Query, rows: seq<Row>, e: Edge)
    requires rows != [] && e in q.with
    ensures e in After(db, q, rows).with && After(db, q, rows).with[e] == AfterNested(db, e, q.with[e], rows)
  {
  }

  /** Only the filters, the fields and the queries below change; the key column is added to chosen fields. */
  lemma UsedShape(db: Database, e: Edge, sub: Query, owners: seq<Row>)
    requires !Skipped(e, owners)
    ensures var used := AfterNested(db, e, sub, owners);
      && used.table == sub.table && used.order == sub.order && used.offset == sub.offset && used.limit == sub.limit
      && used.preds == sub.preds + [BatchPred(e, owners)]
      && used.fields == WithKey(e, sub).fields && used.locks == sub.locks
      && used.with == After(db, sub, BatchRows(db, e, sub, owners)).with
  {
  }

  lemma AfterWhere(db: Database, e: Edge, sub: Query, p: Pred, rows: seq<Row>)
    ensures After(db, Where(WithKey(e, sub), p), rows) == Where(WithKey(e, After(db, sub, rows)), p)
  {
  }

  /** The nested queries once the edges among `done` have been loaded. */
  ghost function UsedWith(db: Database, q: Query, rows: seq<Row>, done: set<Edge>): map<Edge, Query> {
    map e | e in q.with :: if e in done then AfterNested(db, e, q.with[e], rows) else q.with[e]
  }

  lemma UsedStep(db: Database, q: Query, rows: seq<Row>, done: set<Edge>, e: Edge)
    ensures UsedWith(db, q, rows, done + {e})
         == if e in q.with then UsedWith(db, q, rows, done)[e := AfterNested(db, e, q.with[e], rows)] else UsedWith(db, q, rows, done)
  {
  }

  lemma AllUsed(db: Database, q: Query, rows: seq<Row>, done: set<Edge>)
    requires rows != [] && q.with.Keys <= done
    ensures q.(with := UsedWith(db, q, rows, done)) == After(db, q, rows)
    ensures UsedWith(db, q, rows, {}) == q.with
  {
  }

  // ---------------------------------------------------------------- joins are added once

  predicate NoJoin(preds: seq<Pred>) {
    forall i :: 0 <= i < |preds| ==> !preds[i].JoinGroups?
  }

  /** No many-to-many query of the nest carries the join of an earlier load. */
  ghost predicate Unjoined(q: Query) {
    forall e :: e in q.with ==> (RelOf(e) == M2M ==> NoJoin(q.with[e].preds)) && Unjoined(q.with[e])
  }

  /** A selected column of a joined query: the account of a join row, or a column of the group. */
  datatype Selection = JoinedAccount | Own(column: Column)

  /** Each use of a many-to-many query puts its own join column in front of what was selected. */
  function Selections(preds: seq<Pred>, own: seq<Column>): seq<Selection> {
    if preds == [] then seq(|own|, i requires 0 <= i < |own| => Own(own[i])) else
      var front := Selections(preds[..|preds| - 1], own);
      if preds[|preds| - 1].JoinGroups? then [JoinedAccount] + front else front
  }

  function JoinCount(preds: seq<Pred>): nat {
    if preds == [] then 0 else
      JoinCount(preds[..|preds| - 1]) + if preds[|preds| - 1].JoinGroups? then 1 else 0
  }

  /** The scanner takes the first column for the account and the second for the group's id. That is so
      exactly when the query has been joined once: used again, it meets another account there. */
  lemma {:induction false} ScansGroupIffJoinedOnce(preds: seq<Pred>, own: seq<Column>)
    requires own != [] && JoinCount(preds) > 0
    ensures |Selections(preds, own)| > 1 && Selections(preds, own)[0] == JoinedAccount
    ensures Selections(preds, own)[1] == Own(own[0]) <==> JoinCount(preds) == 1
  {
    var front, last := preds[..|preds| - 1], preds[|preds| - 1];
    if JoinCount(front) > 0 {
      ScansGroupIffJoinedOnce(front, own);
    } else {
      UnjoinedSelections(front, own);
    }
  }

  lemma {:induction false} UnjoinedSelections(preds: seq<Pred>, own: seq<Column>)
    requires own != [] && JoinCount(preds) == 0
    ensures |Selections(preds, own)| == |own| && Selections(preds, own)[0] == Own(own[0])
  {
    if preds != [] {
      UnjoinedSelections(preds[..|preds| - 1], own);
    }
  }

  lemma {:induction false} NoJoinIsZero(preds: seq<Pred>)
    ensures NoJoin(preds) <==> JoinCount(preds) == 0
  {
    if preds != [] {
      var front, last := preds[..|preds| - 1], preds[|preds| - 1];
      NoJoinIsZero(front);
      assert NoJoin(preds) <==> NoJoin(front) && !last.JoinGroups? by {
        assert forall i :: 0 <= i < |front| ==> front[i] == preds[i];
      }
    }
  }

  lemma {:induction false} KeysFollow(columns: seq<Column>, edges: seq<Edge>, requested: set<Edge>)
    requires columns != []
    ensures AddForeignKeys(columns, edges, requested) != [] && AddForeignKeys(columns, edges, requested)[0] == columns[0]
    decreases edges
  {
    if edges != [] {
      KeysFollow(if edges[0] in requested then AddOnce(columns, FkColumn(edges[0])) else columns, edges[1..], requested);
    }
  }

  /** The columns a query selects of its own table, which begin with the id where there is one. */
  function OwnColumns(q: Query): seq<Column> {
    if Selected(q).Some? then Selected(q).value else [Id]
  }

  lemma IdComesFirst(q: Query)
    requires HasKey(q.table)
    ensures OwnColumns(q) != [] && OwnColumns(q)[0] == Id
  {
    if q.fields != [] {
      KeysFollow([Id] + WithoutId(q.fields), [ProxyEdge, ParentEdge, ThroughAccount, ThroughGroup], q.with.Keys);
    }
  }

  /** What a query joined once more selects: its second column is the group's id exactly when it carried
      no join before. */
  lemma SecondColumn(sub: Query, ids: seq<int>)
    requires HasKey(sub.table)
    ensures var q := Where(sub, JoinGroups(ids)); var columns := Selections(q.preds, OwnColumns(q));
      |columns| > 1 && columns[0] == JoinedAccount && (columns[1] == Own(Id) <==> NoJoin(sub.preds))
  {
    var q := Where(sub, JoinGroups(ids));
    assert q.preds[..|sub.preds|] == sub.preds;
    NoJoinIsZero(sub.preds);
    IdComesFirst(q);
    ScansGroupIffJoinedOnce(q.preds, OwnColumns(q));
  }

  // ---------------------------------------------------------------- when a load breaks off

  /** The load for these owners meets a row of a query that was joined before: the scanner finds an account
      where it expects the group's id, and its type assertion fails. */
  ghost predicate Breaks(db: Database, q: Query, rows: seq<Row>)
    decreases q, 1
  {
    rows != [] && exists e :: e in q.with && BreaksBelow(db, e, q.with[e], rows)
  }

  ghost predicate BreaksBelow(db: Database, e: Edge, sub: Query, owners: seq<Row>)
    decreases sub, 2
  {
    || (RelOf(e) == M2M && !NoJoin(sub.preds) && StreamOf(db, e, sub, owners) != [])
    || (!Skipped(e, owners) && Breaks(db, sub, BatchRows(db, e, sub, owners)))
  }

  lemma SameBreaks(db: Database, q: Query, q': Query, rows: seq<Row>)
    requires q.with == q'.with
    ensures Breaks(db, q, rows) <==> Breaks(db, q', rows)
  {
  }

  /** A nest without joins of earlier loads never breaks off. */
  lemma {:induction false} UnjoinedNeverBreaks(db: Database, q: Query, rows: seq<Row>)
    requires Unjoined(q)
    ensures !Breaks(db, q, rows)
    decreases q
  {
    forall e | e in q.with ensures !BreaksBelow(db, e, q.with[e], rows) {
      UnjoinedNeverBreaks(db, q.with[e], BatchRows(db, e, q.with[e], rows));
    }
  }

  /** The load gets as far as a many-to-many query. */
  ghost predicate ReachesJoin(db: Database, q: Query, rows: seq<Row>)
    decreases q, 1
  {
    rows != [] && exists e :: e in q.with && JoinsBelow(db, e, q.with[e], rows)
  }

  ghost predicate JoinsBelow(db: Database, e: Edge, sub: Query, owners: seq<Row>)
    decreases sub, 2
  {
    RelOf(e) == M2M || (!Skipped(e, owners) && ReachesJoin(db, sub, BatchRows(db, e, sub, owners)))
  }

  /** A query is left without joins, so that it can be loaded again, exactly when its load reached no
      many-to-many query. */
  lemma {:induction false} UnjoinedAfterIff(db: Database, q: Query, rows: seq<Row>)
    requires Unjoined(q)
    ensures Unjoined(After(db, q, rows)) <==> !ReachesJoin(db, q, rows)
    decreases q
  {
    if rows != [] {
      var after := After(db, q, rows);
      forall e | e in q.with
        ensures (RelOf(e) == M2M ==> NoJoin(after.with[e].preds)) && Unjoined(after.with[e]) <==> !JoinsBelow(db, e, q.with[e], rows)
      {
        UnjoinedAfterIff(db, q.with[e], BatchRows(db, e, q.with[e], rows));
        NestedUnjoined(db, e, q.with[e], rows);
      }
    }
  }

  lemma NestedUnjoined(db: Database, e: Edge, sub: Query, owners: seq<Row>)
    requires Unjoined(sub) && (RelOf(e) == M2M ==> NoJoin(sub.preds))
    requires var found := BatchRows(db, e, sub, owners);
      Unjoined(After(db, sub, found)) <==> !ReachesJoin(db, sub, found)
    ensures var used := AfterNested(db, e, sub, owners);
      (RelOf(e) == M2M ==> NoJoin(used.preds)) && Unjoined(used) <==> !JoinsBelow(db, e, sub, owners)
  {
    if !Skipped(e, owners) {
      var used, inner := AfterNested(db, e, sub, owners), After(db, sub, BatchRows(db, e, sub, owners));
      UsedShape(db, e, sub, owners);
      SameUnjoined(used, inner);
      if RelOf(e) == M2M {
        assert used.preds[|sub.preds|] == BatchPred(e, owners);
      }
    }
  }

  lemma SameUnjoined(q: Query, q': Query)
    requires q.with == q'.with
    ensures Unjoined(q) <==> Unjoined(q')
  {
  }

  // ---------------------------------------------------------------- loading again

  lemma SameNested(db: Database, q: Query, q': Query, columns: Option<seq<Column>>, rows: seq<Row>)
    requires q.with == q'.with
    ensures BatchTrees(db, q, columns, rows) == BatchTrees(db, q', columns, rows)
  {
    forall owner ensures BatchKids(db, q, rows, owner) == BatchKids(db, q', rows, owner) {
    }
  }

  lemma KeysNarrower(owners: seq<Row>, fewer: seq<Row>)
    requires forall r :: r in fewer ==> r in owners
    ensures forall k :: k in Keys(Id, fewer) ==> k in Keys(Id, owners)
  {
    forall k | k in Keys(Id, fewer) ensures k in Keys(Id, owners) {
      var i :| 0 <= i < |fewer| && Keys(Id, fewer)[i] == k;
      KeysMember(owners, fewer[i]);
    }
  }

  lemma BatchNarrower(db: Database, e: Edge, owners: seq<Row>, fewer: seq<Row>)
    requires forall r :: r in fewer ==> r in owners
    ensures forall r :: Holds(db, BatchPred(e, fewer), r) ==> Holds(db, BatchPred(e, owners), r)
    ensures Skipped(e, owners) ==> Skipped(e, fewer)
  {
    DistinctKeysMembers(FkColumn(e), owners);
    DistinctKeysMembers(FkColumn(e), fewer);
    KeysNarrower(owners, fewer);
    if DistinctKeys(FkColumn(e), fewer) != [] {
      var key := DistinctKeys(FkColumn(e), fewer)[0];
      assert key in DistinctKeys(FkColumn(e), fewer);
      assert key in DistinctKeys(FkColumn(e), owners);
    }
  }

  lemma {:induction false} FilterSame(db: Database, preds: seq<Pred>, preds': seq<Pred>, rows: seq<Row>)
    requires forall r :: Sat(db, preds, r) <==> Sat(db, preds', r)
    ensures Filter(db, preds, rows) == Filter(db, preds', rows)
  {
    if rows != [] {
      FilterSame(db, preds, preds', rows[..|rows| - 1]);
    }
  }

  /** A filter left by a wider batch takes nothing from a narrower one. */
  lemma UsedRows(db: Database, e: Edge, sub: Query, used: Query, owners: seq<Row>, fewer: seq<Row>)
    requires forall r :: r in fewer ==> r in owners
    requires used.table == sub.table && used.order == sub.order && used.offset == sub.offset && used.limit == sub.limit
    requires used.preds == sub.preds + [BatchPred(e, owners)]
    ensures BatchRows(db, e, used, fewer) == BatchRows(db, e, sub, fewer)
    ensures StreamOf(db, e, used, fewer) == StreamOf(db, e, sub, fewer)
  {
    var wide, narrow := BatchPred(e, owners), BatchPred(e, fewer);
    BatchNarrower(db, e, owners, fewer);
    forall r ensures Sat(db, used.preds + [narrow], r) <==> Sat(db, sub.preds + [narrow], r) {
      SatAppend(db, sub.preds, wide, r);
      SatAppend(db, used.preds, narrow, r);
      SatAppend(db, sub.preds, narrow, r);
    }
    FilterSame(db, used.preds + [narrow], sub.preds + [narrow], Rows(db, sub.table));
    assert Matching(db, Where(used, narrow)) == Matching(db, Where(sub, narrow));
  }

  lemma NarrowerRows(db: Database, e: Edge, sub: Query, owners: seq<Row>, fewer: seq<Row>)
    requires WellFormed(db) && forall r :: r in fewer ==> r in owners
    requires sub.table == Target(e) && sub.offset == sub.limit == 0
    ensures forall r :: r in BatchRows(db, e, sub, fewer) ==> r in BatchRows(db, e, sub, owners)
  {
    var wide, narrow := BatchPred(e, owners), BatchPred(e, fewer);
    BatchNarrower(db, e, owners, fewer);
    BatchRowsAreMatching(db, e, sub, owners);
    BatchRowsAreMatching(db, e, sub, fewer);
    MatchingMembers(db, Where(sub, wide));
    MatchingMembers(db, Where(sub, narrow));
    forall r | r in BatchRows(db, e, sub, fewer) ensures r in BatchRows(db, e, sub, owners) {
      SatAppend(db, sub.preds, wide, r);
      SatAppend(db, sub.preds, narrow, r);
    }
  }

  lemma UsedColumns(db: Database, e: Edge, sub: Query, owners: seq<Row>)
    ensures Selected(WithKey(e, AfterNested(db, e, sub, owners))) == Selected(WithKey(e, sub))
  {
    var inner := After(db, sub, BatchRows(db, e, sub, owners));
    assert inner.with.Keys == sub.with.Keys && inner.fields == sub.fields;
    assert WithKey(e, WithKey(e, inner)) == WithKey(e, inner);
  }

  /** Loading again for owners that were all loaded before gives what a query never used gives. */
  lemma {:induction false} RerunTrees(db: Database, q: Query, rows: seq<Row>, fewer: seq<Row>, columns: Option<seq<Column>>)
    requires WellFormed(db) && Typed(q) && Unwindowed(q) && forall r :: r in fewer ==> r in rows
    ensures BatchTrees(db, After(db, q, rows), columns, fewer) == BatchTrees(db, q, columns, fewer)
    decreases q, 1
  {
    forall i | 0 <= i < |fewer|
      ensures BatchKids(db, After(db, q, rows), fewer, fewer[i]) == BatchKids(db, q, fewer, fewer[i])
    {
      RerunKids(db, q, rows, fewer, fewer[i]);
    }
  }

  lemma {:induction false} RerunKids(db: Database, q: Query, rows: seq<Row>, fewer: seq<Row>, owner: Row)
    requires WellFormed(db) && Typed(q) && Unwindowed(q)
    requires owner in fewer && forall r :: r in fewer ==> r in rows
    ensures BatchKids(db, After(db, q, rows), fewer, owner) == BatchKids(db, q, fewer, owner)
    decreases q, 0
  {
    assert owner in rows;
    AfterKeys(db, q, rows);
    forall e | e in q.with
      ensures BatchEdge(db, e, After(db, q, rows).with[e], fewer, owner) == BatchEdge(db, e, q.with[e], fewer, owner)
    {
      AfterWith(db, q, rows, e);
      RerunEdge(db, e, q.with[e], rows, fewer, owner);
    }
    SameShares(db, After(db, q, rows), q, fewer, owner);
  }

  lemma SameShares(db: Database, q: Query, q': Query, rows: seq<Row>, owner: Row)
    requires q.with.Keys == q'.with.Keys
    requires forall e :: e in q'.with ==> BatchEdge(db, e, q.with[e], rows, owner) == BatchEdge(db, e, q'.with[e], rows, owner)
    ensures BatchKids(db, q, rows, owner) == BatchKids(db, q', rows, owner)
  {
  }

  lemma {:induction false} RerunEdge(db: Database, e: Edge, sub: Query, rows: seq<Row>, fewer: seq<Row>, owner: Row)
    requires WellFormed(db) && sub.table == Target(e) && sub.offset == sub.limit == 0 && Typed(sub) && Unwindowed(sub)
    requires forall r :: r in fewer ==> r in rows
    ensures BatchEdge(db, e, AfterNested(db, e, sub, rows), fewer, owner) == BatchEdge(db, e, sub, fewer, owner)
    decreases sub, 2
  {
    if !Skipped(e, rows) {
      var used, found, fewerFound := AfterNested(db, e, sub, rows), BatchRows(db, e, sub, rows), BatchRows(db, e, sub, fewer);
      var inner, cs := After(db, sub, found), Selected(WithKey(e, sub));
      UsedShape(db, e, sub, rows);
      UsedRows(db, e, sub, used, rows, fewer);
      UsedColumns(db, e, sub, rows);
      NarrowerRows(db, e, sub, rows, fewer);
      SameNested(db, used, inner, cs, fewerFound);
      RerunTrees(db, sub, found, fewerFound, cs);
    }
  }

  // ---------------------------------------------------------------- exactly when

  /** The second window lies inside the first. */
  predicate Within(offset: nat, limit: nat, offset': nat, limit': nat) {
    offset <= offset' && (limit == 0 || (limit' != 0 && offset' + limit' <= offset + limit))
  }

  lemma WithinMembers<T>(xs: seq<T>, offset: nat, limit: nat, offset': nat, limit': nat)
    requires Within(offset, limit, offset', limit')
    ensures forall x :: x in Window(xs, offset', limit') ==> x in Window(xs, offset, limit)
  {
    var first, second := Window(xs, offset, limit), Window(xs, offset', limit');
    forall x | x in second ensures x in first {
      var i :| 0 <= i < |second| && second[i] == x;
      assert first[i + offset' - offset] == x;
    }
  }

  /** The query run again with another window, without or with what an earlier load left behind. */
  function Rewindowed(q: Query, offset: nat, limit: nat): Query {
    q.(offset := offset, limit := limit)
  }

  function LoadAgain(db: Database, q: Query, offset: nat, limit: nat): seq<Tree> {
    Load(db, Rewindowed(After(db, q, Select(db, q)), offset, limit))
  }

  /** Whether that second run breaks off. */
  ghost predicate BreaksAgain(db: Database, q: Query, offset: nat, limit: nat) {
    Breaks(db, After(db, q, Select(db, q)), Select(db, Rewindowed(q, offset, limit)))
  }

  /** No many-to-many query anywhere in the nest. */
  ghost predicate NoGroups(q: Query) {
    forall e :: e in q.with ==> RelOf(e) != M2M && NoGroups(q.with[e])
  }

  lemma {:induction false} NoGroupsUnjoined(db: Database, q: Query, rows: seq<Row>)
    requires NoGroups(q)
    ensures Unjoined(q) && !ReachesJoin(db, q, rows)
    decreases q
  {
    forall e | e in q.with ensures Unjoined(q.with[e]) && !JoinsBelow(db, e, q.with[e], rows) {
      NoGroupsUnjoined(db, q.with[e], BatchRows(db, e, q.with[e], rows));
    }
  }

  lemma LoadAgainTrees(db: Database, q: Query, offset: nat, limit: nat)
    ensures var rows, again := Select(db, q), Select(db, Rewindowed(q, offset, limit));
      && LoadAgain(db, q, offset, limit) == BatchTrees(db, After(db, q, rows), Selected(q), again)
      && Load(db, Rewindowed(q, offset, limit)) == BatchTrees(db, q, Selected(q), again)
  {
    var rows, again := Select(db, q), Select(db, Rewindowed(q, offset, limit));
    var after := After(db, q, rows);
    assert after.with.Keys == q.with.Keys;
    SameNested(db, Rewindowed(after, offset, limit), after, Selected(q), again);
    SameNested(db, Rewindowed(q, offset, limit), q, Selected(q), again);
  }

  /** Within the window of the first run, a second run of the same query loads what a first run would. */
  lemma RerunWithin(db: Database, q: Query, offset: nat, limit: nat)
    requires WellFormed(db) && Typed(q) && Unwindowed(q)
    requires Within(q.offset, q.limit, offset, limit)
    ensures LoadAgain(db, q, offset, limit) == Load(db, Rewindowed(q, offset, limit))
  {
    WithinMembers(Matching(db, q), q.offset, q.limit, offset, limit);
    LoadAgainTrees(db, q, offset, limit);
    RerunTrees(db, q, Select(db, q), Select(db, Rewindowed(q, offset, limit)), Selected(q));
  }

  /** A second run, under another window, that ends and gives what a query never run gives. */
  ghost predicate RunsAgain(db: Database, q: Query, offset: nat, limit: nat) {
    !BreaksAgain(db, q, offset, limit) && LoadAgain(db, q, offset, limit) == Load(db, Rewindowed(q, offset, limit))
  }

  /** A query can be run again, under another window and on every database, exactly when it loads no edges,
      or loads no many-to-many edge anywhere and the second window lies inside the first. */
  lemma ReuseIff(q: Query, offset: nat, limit: nat)
    requires Typed(q) && Unfiltered(q) && Unwindowed(q)
    ensures (forall db :: WellFormed(db) ==> RunsAgain(db, q, offset, limit))
       <==> q.with == map[] || (NoGroups(q) && Within(q.offset, q.limit, offset, limit))
  {
    if q.with == map[] {
      forall db | WellFormed(db) ensures RunsAgain(db, q, offset, limit) {
        LoadAgainTrees(db, q, offset, limit);
        assert After(db, q, Select(db, q)).with == q.with;
        SameNested(db, After(db, q, Select(db, q)), q, Selected(q), Select(db, Rewindowed(q, offset, limit)));
      }
    } else if !Within(q.offset, q.limit, offset, limit) {
      var n := OutsideDiffers(q, offset, limit);
      DiagonalWellFormed(n);
      assert !RunsAgain(Diagonal(n), q, offset, limit);
    } else if NoGroups(q) {
      forall db | WellFormed(db) ensures RunsAgain(db, q, offset, limit) {
        NoGroupsUnjoined(db, q, Select(db, q));
        UnjoinedAfterIff(db, q, Select(db, q));
        UnjoinedNeverBreaks(db, After(db, q, Select(db, q)), Select(db, Rewindowed(q, offset, limit)));
        RerunWithin(db, q, offset, limit);
      }
    } else {
      var n := SecondRunBreaks(q, offset, limit);
      DiagonalWellFormed(n);
      assert !RunsAgain(Diagonal(n), q, offset, limit);
    }
  }

  // ---------------------------------------------------------------- where a second use breaks off

  lemma DiagonalWhole(n: nat, t: Table)
    ensures Whole(n, t, DiagonalRows(t, n))
  {
    DiagonalDistinct(n, t);
  }

  /** On the diagonal every batch for some owners finds a row. */
  lemma BatchNotEmpty(n: nat, e: Edge, sub: Query, owners: seq<Row>)
    requires owners != [] && forall r :: r in owners ==> r in DiagonalRows(Owner(e), n)
    requires sub.table == Target(e) && sub.preds == [] && sub.offset == sub.limit == 0
    ensures BatchRows(Diagonal(n), e, sub, owners) != [] && !Skipped(e, owners)
    ensures forall r :: r in BatchRows(Diagonal(n), e, sub, owners) ==> r in DiagonalRows(Target(e), n)
    ensures RelOf(e) == M2M ==> StreamOf(Diagonal(n), e, sub, owners) != []
  {
    var db, owner, p := Diagonal(n), owners[0], BatchPred(e, owners);
    DiagonalWellFormed(n);
    DiagonalRowsOf(n, Target(e));
    DiagonalWhole(n, Owner(e));
    NotSkipped(n, e, DiagonalRows(Owner(e), n), owners);
    WholeRow(n, Owner(e), DiagonalRows(Owner(e), n), owner);
    var i := Number(Owner(e), owner);
    var target := DiagonalRows(Target(e), n)[i];
    DiagonalEdge(n, e, i, i);
    BatchWiderThanOwner(db, e, owners, owner);
    SatAppend(db, [], p, target);
    MatchingMembers(db, Where(sub, p));
    BatchRowsAreMatching(db, e, sub, owners);
    assert target in BatchRows(db, e, sub, owners);
  }

  /** On the diagonal, loading again for some of the owners loaded before breaks off if the nest holds a
      many-to-many query. */
  lemma {:induction false} BreaksOnDiagonal(n: nat, q: Query, rows: seq<Row>, fewer: seq<Row>)
    requires Typed(q) && Unfiltered(q) && Unwindowed(q) && !NoGroups(q)
    requires fewer != [] && forall r :: r in fewer ==> r in rows
    requires forall r :: r in rows ==> r in DiagonalRows(q.table, n)
    ensures Breaks(Diagonal(n), After(Diagonal(n), q, rows), fewer)
    decreases q
  {
    var db := Diagonal(n);
    var e :| e in q.with && !(RelOf(e) != M2M && NoGroups(q.with[e]));
    var sub := q.with[e];
    var used, found := AfterNested(db, e, sub, rows), BatchRows(db, e, sub, rows);
    var fewerFound := BatchRows(db, e, sub, fewer);
    assert fewer[0] in rows;
    DiagonalWellFormed(n);
    BatchNotEmpty(n, e, sub, rows);
    BatchNotEmpty(n, e, sub, fewer);
    AfterWith(db, q, rows, e);
    UsedShape(db, e, sub, rows);
    UsedRows(db, e, sub, used, rows, fewer);
    if RelOf(e) == M2M {
      assert used.preds[|sub.preds|] == BatchPred(e, rows);
    } else {
      NarrowerRows(db, e, sub, rows, fewer);
      BreaksOnDiagonal(n, sub, found, fewerFound);
      SameBreaks(db, used, After(db, sub, found), fewerFound);
    }
    assert BreaksBelow(db, e, used, fewer);
  }

  /** A database on which a second run inside the first window breaks off. */
  lemma SecondRunBreaks(q: Query, offset: nat, limit: nat) returns (n: nat)
    requires Typed(q) && Unfiltered(q) && Unwindowed(q) && !NoGroups(q)
    requires Within(q.offset, q.limit, offset, limit)
    ensures BreaksAgain(Diagonal(n), q, offset, limit)
    ensures !Breaks(Diagonal(n), q, Select(Diagonal(n), q))
  {
    n := offset + 1;
    var db := Diagonal(n);
    WholeMatching(n, q);
    WithinMembers(Matching(db, q), q.offset, q.limit, offset, limit);
    assert Select(db, Rewindowed(q, offset, limit)) != [];
    BreaksOnDiagonal(n, q, Select(db, q), Select(db, Rewindowed(q, offset, limit)));
    UnfilteredUnjoined(q);
    UnjoinedNeverBreaks(db, q, Select(db, q));
  }

  lemma {:induction false} UnfilteredUnjoined(q: Query)
    requires Unfiltered(q)
    ensures Unjoined(q)
    decreases q
  {
    forall e | e in q.with ensures Unjoined(q.with[e]) {
      UnfilteredUnjoined(q.with[e]);
    }
  }

  // ---------------------------------------------------------------- where a second use loses edges

  /** A row of the second window that the first left out. */
  lemma Outside(rows: seq<Row>, offset: nat, limit: nat, offset': nat, limit': nat) returns (k: nat)
    requires !Within(offset, limit, offset', limit') && |rows| == offset + limit + offset' + limit' + 1 && Distinct(rows)
    ensures k < |Window(rows, offset', limit')|
    ensures Window(rows, offset', limit')[k] in rows && Window(rows, offset', limit')[k] !in Window(rows, offset, limit)
    ensures Window(rows, offset, limit) != []
  {
    var first, second := Window(rows, offset, limit), Window(rows, offset', limit');
    k := if offset' < offset then 0 else if offset' < offset + limit then offset + limit - offset' else 0;
    var x := second[k];
    assert x == rows[offset' + k];
    forall i | 0 <= i < |first| ensures first[i] != x {
      assert first[i] == rows[offset + i];
    }
  }

  /** On the diagonal, the filter of an earlier load hides the neighbour of an owner it did not load. */
  lemma Hidden(n: nat, e: Edge, sub: Query, used: Query, all: seq<Row>, loaded: seq<Row>, owner: Row)
    requires Whole(n, Owner(e), all) && owner in all && owner !in loaded && forall r :: r in loaded ==> r in all
    requires sub.table == Target(e) && sub.offset == sub.limit == 0 && sub.preds == []
    requires used.table == Target(e) && used.offset == used.limit == 0 && used.preds == [BatchPred(e, loaded)]
    ensures |Neighbors(Diagonal(n), e, sub, owner)| == 1 && Neighbors(Diagonal(n), e, used, owner) == []
  {
    var db, hidden := Diagonal(n), Neighbors(Diagonal(n), e, used, owner);
    WholeRow(n, Owner(e), all, owner);
    DiagonalNeighbors(n, e, sub, Number(Owner(e), owner));
    NeighborsMembers(db, e, used, owner);
    if hidden != [] {
      var r := hidden[0];
      assert r in hidden && Sat(db, used.preds, r);
      DiagonalRowsOf(n, Target(e));
      assert Holds(db, used.preds[0], r);
      NotLoaded(n, e, all, loaded, owner, r);
    }
  }

  lemma NotLoaded(n: nat, e: Edge, all: seq<Row>, loaded: seq<Row>, owner: Row, r: Row)
    requires Whole(n, Owner(e), all) && owner in all && forall x :: x in loaded ==> x in all
    requires r in DiagonalRows(Target(e), n) && Holds(Diagonal(n), NeighborPred(e, owner), r)
    requires Holds(Diagonal(n), BatchPred(e, loaded), r)
    ensures owner in loaded
  {
    var m :| 0 <= m < n && DiagonalRows(Target(e), n)[m] == r;
    WholeRow(n, Owner(e), all, owner);
    DiagonalEdge(n, e, Number(Owner(e), owner), m);
    DistinctKeysMembers(FkColumn(e), loaded);
    if RelOf(e) == M2O {
      var x :| x in loaded && FkColumn(e) in x && x[FkColumn(e)] == m;
      WholeRow(n, Owner(e), all, x);
    } else {
      if RelOf(e) == M2M {
        JoinedNumber(n, Keys(Id, loaded), m);
      }
      var i :| 0 <= i < |loaded| && Keys(Id, loaded)[i] == m;
      assert loaded[i] in loaded;
      WholeRow(n, Owner(e), all, loaded[i]);
    }
  }

  /** On the diagonal a group is joined to the account of its number only. */
  lemma JoinedNumber(n: nat, ids: seq<int>, m: nat)
    requires Holds(Diagonal(n), JoinGroups(ids), DiagonalRow(Groups, m))
    ensures m in ids
  {
    var joins, r := Diagonal(n).accountGroups, DiagonalRow(Groups, m);
    var j :| j in joins && AccountId in j && j[AccountId] in ids && Joins(j, j[AccountId], r[Id]);
    var i :| 0 <= i < n && joins[i] == j;
  }

  /** Outside the first window, the diagonal tells a query used before from one that was not. */
  lemma OutsideDiffers(q: Query, offset: nat, limit: nat) returns (n: nat)
    requires Typed(q) && Unfiltered(q) && Unwindowed(q) && q.with != map[]
    requires !Within(q.offset, q.limit, offset, limit)
    ensures LoadAgain(Diagonal(n), q, offset, limit) != Load(Diagonal(n), Rewindowed(q, offset, limit))
  {
    n := q.offset + q.limit + offset + limit + 1;
    var db := Diagonal(n);
    var all, rows, again := Matching(db, q), Select(db, q), Select(db, Rewindowed(q, offset, limit));
    WholeMatching(n, q);
    var k := Outside(all, q.offset, q.limit, offset, limit);
    var e :| e in q.with;
    LoadAgainTrees(db, q, offset, limit);
    AfterWith(db, q, rows, e);
    EdgeHidden(n, e, q.with[e], all, rows, again, again[k]);
    assert BatchKids(db, After(db, q, rows), again, again[k])[e] != BatchKids(db, q, again, again[k])[e];
    assert BatchTrees(db, After(db, q, rows), Selected(q), again)[k] != BatchTrees(db, q, Selected(q), again)[k];
  }

  lemma EdgeHidden(n: nat, e: Edge, sub: Query, all: seq<Row>, rows: seq<Row>, again: seq<Row>, owner: Row)
    requires sub.table == Target(e) && sub.offset == sub.limit == 0 && sub.preds == [] && rows != []
    requires Whole(n, Owner(e), all) && owner in again && owner in all && owner !in rows && forall r :: r in rows ==> r in all
    ensures |BatchEdge(Diagonal(n), e, AfterNested(Diagonal(n), e, sub, rows), again, owner)| == 0
    ensures |BatchEdge(Diagonal(n), e, sub, again, owner)| == 1
  {
    var used := AfterNested(Diagonal(n), e, sub, rows);
    NotSkipped(n, e, all, rows);
    UsedShape(Diagonal(n), e, sub, rows);
    Hidden(n, e, sub, used, all, rows, owner);
    LengthOnDiagonal(n, e, sub, again, owner);
    LengthOnDiagonal(n, e, used, again, owner);
  }

  lemma LengthOnDiagonal(n: nat, e: Edge, sub: Query, rows: seq<Row>, owner: Row)
    requires sub.table == Target(e) && sub.offset == sub.limit == 0 && owner in rows
    ensures |BatchEdge(Diagonal(n), e, sub, rows, owner)| == |Neighbors(Diagonal(n), e, sub, owner)|
  {
    DiagonalWellFormed(n);
    BatchShare(Diagonal(n), e, sub, rows, owner);
    ShareLength(Diagonal(n), e, sub, rows, owner);
  }

  lemma NotSkipped(n: nat, e: Edge, all: seq<Row>, rows: seq<Row>)
    requires Whole(n, Owner(e), all) && rows != [] && forall r :: r in rows ==> r in all
    ensures !Skipped(e, rows)
  {
    if RelOf(e) == M2O {
      WholeRow(n, Owner(e), all, rows[0]);
      DistinctKeysMembers(FkColumn(e), rows);
      assert rows[0] in rows && rows[0][FkColumn(e)] in DistinctKeys(FkColumn(e), rows);
    }
  }

  lemma ShareLength(db: Database, e: Edge, sub: Query, rows: seq<Row>, owner: Row)
    ensures var nb := BatchRows(db, e, sub, rows);
      |BatchEdge(db, e, sub, rows, owner)| == |Pick(e, StreamOf(db, e, sub, rows), owner, nb, nb)|
  {
    var nb := BatchRows(db, e, sub, rows);
    PickLength(e, StreamOf(db, e, sub, rows), owner, nb, BatchTrees(db, sub, Selected(WithKey(e, sub)), nb), nb);
  }

  lemma {:induction false} PickLength<S, T>(e: Edge, stream: seq<(int, Row)>, owner: Row, rows: seq<Row>, xs: seq<S>, ys: seq<T>)
    requires |rows| == |xs| == |ys|
    ensures |Pick(e, stream, owner, rows, xs)| == |Pick(e, stream, owner, rows, ys)|
  {
    if rows != [] {
      var n := |rows| - 1;
      PickLength(e, stream, owner, rows[..n], xs[..n], ys[..n]);
    }
  }
}
