/** The relational meaning of what the loaders ask the database for: tables, the edges between
    them, filters, ordering, and the joined stream behind a many-to-many load. */
module Relational {

  datatype Table = Accounts | Groups | Proxies | UsageLogs | AccountGroups

  datatype Column = Id | ProxyId | ParentAccountId | AccountId | GroupId | Data(name: string)

  /** A row maps its non-NULL columns to values. */
  type Row = map<Column, int>

  datatype Database = Database(
    accounts: seq<Row>, groups: seq<Row>, proxies: seq<Row>, usageLogs: seq<Row>, accountGroups: seq<Row>)

  function Rows(db: Database, t: Table): seq<Row> {
    match t
    case Accounts => db.accounts
    case Groups => db.groups
    case Proxies => db.proxies
    case UsageLogs => db.usageLogs
    case AccountGroups => db.accountGroups
  }

  datatype Rel = M2M | M2O | O2M

  /** The six edges of an account and the two edges of the join entity. */
  datatype Edge =
    | GroupsEdge | ProxyEdge | ParentEdge | ChildrenEdge | UsageLogsEdge | AccountGroupsEdge
    | ThroughAccount | ThroughGroup

  function Owner(e: Edge): Table {
    if e == ThroughAccount || e == ThroughGroup then AccountGroups else Accounts
  }

  function Target(e: Edge): Table {
    match e
    case GroupsEdge => Groups
    case ProxyEdge => Proxies
    case ParentEdge => Accounts
    case ChildrenEdge => Accounts
    case UsageLogsEdge => UsageLogs
    case AccountGroupsEdge => AccountGroups
    case ThroughAccount => Accounts
    case ThroughGroup => Groups
  }

  function RelOf(e: Edge): Rel {
    match e
    case GroupsEdge => M2M
    case ProxyEdge => M2O
    case ParentEdge => M2O
    case ThroughAccount => M2O
    case ThroughGroup => M2O
    case ChildrenEdge => O2M
    case UsageLogsEdge => O2M
    case AccountGroupsEdge => O2M
  }

  /** The foreign-key column: on the owner's table for M2O, on the target's for O2M. */
  function FkColumn(e: Edge): Column {
    match e
    case ProxyEdge => ProxyId
    case ParentEdge => ParentAccountId
    case ChildrenEdge => ParentAccountId
    case ThroughGroup => GroupId
    case ThroughAccount => AccountId
    case UsageLogsEdge => AccountId
    case AccountGroupsEdge => AccountId
    case GroupsEdge => GroupId
  }

  /** A filter: one the user wrote, `column IN (ids)`, or the join through `account_groups`. */
  datatype Pred =
    | Custom(holds: Row -> bool)
    | ColumnIn(column: Column, ids: seq<int>)
    | JoinGroups(ids: seq<int>)

  predicate Joins(j: Row, account: int, group: int) {
    AccountId in j && GroupId in j && j[AccountId] == account && j[GroupId] == group
  }

  predicate Holds(db: Database, p: Pred, r: Row) {
    match p
    case Custom(holds) => holds(r)
    case ColumnIn(c, ids) => c in r && r[c] in ids
    case JoinGroups(ids) =>
      Id in r && exists j :: j in db.accountGroups && AccountId in j && j[AccountId] in ids && Joins(j, j[AccountId], r[Id])
  }

  predicate Sat(db: Database, preds: seq<Pred>, r: Row) {
    forall i | 0 <= i < |preds| :: Holds(db, preds[i], r)
  }

  function Filter(db: Database, preds: seq<Pred>, rows: seq<Row>): seq<Row> {
    if rows == [] then [] else
      var front, last := Filter(db, preds, rows[..|rows| - 1]), rows[|rows| - 1];
      if Sat(db, preds, last) then front + [last] else front
  }

  /** The terms of an ORDER BY, the first deciding first. */
  type Order = seq<Row -> int>

  predicate Before(order: Order, a: Row, b: Row) {
    order == [] || order[0](a) < order[0](b) || (order[0](a) == order[0](b) && Before(order[1..], a, b))
  }

  /** Stable insertion sort, the meaning of ORDER BY. */
  function Insert(order: Order, sorted: seq<Row>, r: Row): seq<Row> {
    if sorted == [] then [r] else
      var last := sorted[|sorted| - 1];
      if Before(order, last, r) then sorted + [r]
      else Insert(order, sorted[..|sorted| - 1], r) + [last]
  }

  function Sort(order: Order, rows: seq<Row>): seq<Row> {
    if rows == [] then [] else
      Insert(order, Sort(order, rows[..|rows| - 1]), rows[|rows| - 1])
  }

  /** OFFSET and LIMIT; a limit of zero is no limit, which is also the value of an unset one. */
  function Window<T>(xs: seq<T>, offset: nat, limit: nat): (w: seq<T>)
    ensures forall x :: x in w ==> x in xs
    ensures offset == limit == 0 ==> w == xs
  {
    var rest := if offset <= |xs| then xs[offset..] else [];
    if limit == 0 || |rest| <= limit then rest else rest[..limit]
  }

  /** What a window shows: item k is item offset + k, up to the limit and the end. */
  lemma WindowIs<T>(xs: seq<T>, offset: nat, limit: nat)
    ensures var w := Window(xs, offset, limit);
      && (forall k :: 0 <= k < |w| ==> offset + k < |xs| && w[k] == xs[offset + k])
      && |w| == if offset >= |xs| then 0 else if limit == 0 || |xs| - offset <= limit then |xs| - offset else limit
  {
  }

  datatype Lock = ForUpdate | ForShare

  /** A query with the eager loads nested below it. */
  datatype Query = Query(
    table: Table,
    preds: seq<Pred>,
    order: Order,
    offset: nat,
    limit: nat,
    fields: seq<Column>,
    locks: seq<Lock>,
    with: map<Edge, Query>)

  function Where(q: Query, p: Pred): Query {
    q.(preds := q.preds + [p])
  }

  function Matching(db: Database, q: Query): seq<Row> {
    Sort(q.order, Filter(db, q.preds, Rows(db, q.table)))
  }

  function Select(db: Database, q: Query): seq<Row> {
    Window(Matching(db, q), q.offset, q.limit)
  }

  /** A key column as Go reads it: zero when it is NULL or was not fetched. */
  function KeyOf(c: Column, r: Row): int {
    if c in r then r[c] else 0
  }

  /** The join rows that tie one group row to the accounts in `ids`, as (account id, group row). */
  function JoinedWith(joins: seq<Row>, ids: seq<int>, r: Row): seq<(int, Row)> {
    if joins == [] then [] else
      var front, j := JoinedWith(joins[..|joins| - 1], ids, r), joins[|joins| - 1];
      if Id in r && AccountId in j && j[AccountId] in ids && Joins(j, j[AccountId], r[Id])
      then front + [(j[AccountId], r)] else front
  }

  function JoinAll(joins: seq<Row>, ids: seq<int>, rows: seq<Row>): seq<(int, Row)> {
    if rows == [] then [] else
      JoinAll(joins, ids, rows[..|rows| - 1]) + JoinedWith(joins, ids, rows[|rows| - 1])
  }

  /** The rows of a joined stream, each once, in the order they first appear. */
  function FirstSeen(stream: seq<(int, Row)>): seq<Row> {
    if stream == [] then [] else
      var front, r := FirstSeen(stream[..|stream| - 1]), stream[|stream| - 1].1;
      if exists x :: x in front && KeyOf(Id, x) == KeyOf(Id, r) then front else front + [r]
  }

  /** What the primary keys and NOT NULL constraints of the schema say. */
  ghost predicate WellFormed(db: Database) {
    && Keyed(db.accounts) && Keyed(db.groups) && Keyed(db.proxies) && Keyed(db.usageLogs)
    && (forall r :: r in db.usageLogs ==> AccountId in r)
    && (forall r :: r in db.accountGroups ==> AccountId in r && GroupId in r)
  }

  ghost predicate HasIds(rows: seq<Row>) {
    forall r :: r in rows ==> Id in r
  }

  ghost predicate Keyed(rows: seq<Row>) {
    && HasIds(rows)
    && forall i, j :: 0 <= i < j < |rows| ==> rows[i][Id] != rows[j][Id]
  }

  predicate HasKey(t: Table) {
    t != AccountGroups
  }

  // ---------------------------------------------------------------- filtering and sorting

  lemma {:induction false} FilterMembers(db: Database, preds: seq<Pred>, rows: seq<Row>)
    ensures forall r :: r in Filter(db, preds, rows) <==> r in rows && Sat(db, preds, r)
  {
    if rows != [] {
      var front, last := rows[..|rows| - 1], rows[|rows| - 1];
      assert rows == front + [last];
      FilterMembers(db, preds, front);
    }
  }

  lemma {:induction false} InsertMembers(order: Order, rows: seq<Row>, r: Row)
    ensures forall x :: x in Insert(order, rows, r) <==> x in rows || x == r
  {
    if rows != [] {
      var front, last := rows[..|rows| - 1], rows[|rows| - 1];
      assert rows == front + [last];
      InsertMembers(order, front, r);
    }
  }

  lemma {:induction false} SortMembers(order: Order, rows: seq<Row>)
    ensures forall x :: x in Sort(order, rows) <==> x in rows
  {
    if rows != [] {
      var front, last := rows[..|rows| - 1], rows[|rows| - 1];
      assert rows == front + [last];
      SortMembers(order, front);
      InsertMembers(order, Sort(order, front), last);
    }
  }

  /** A query returns exactly the rows of its table that pass every filter. */
  lemma MatchingMembers(db: Database, q: Query)
    ensures forall r :: r in Matching(db, q) <==> r in Rows(db, q.table) && Sat(db, q.preds, r)
  {
    FilterMembers(db, q.preds, Rows(db, q.table));
    SortMembers(q.order, Filter(db, q.preds, Rows(db, q.table)));
  }

  lemma {:induction false} FilterKeyed(db: Database, preds: seq<Pred>, rows: seq<Row>)
    requires Keyed(rows)
    ensures Keyed(Filter(db, preds, rows))
  {
    if rows != [] {
      var front, last := rows[..|rows| - 1], rows[|rows| - 1];
      FilterKeyed(db, preds, front);
      FilterMembers(db, preds, front);
      forall r | r in Filter(db, preds, front) ensures r[Id] != last[Id] {
        var i :| 0 <= i < |front| && front[i] == r;
      }
    }
  }

  lemma {:induction false} InsertKeyed(order: Order, rows: seq<Row>, r: Row)
    requires Keyed(rows) && Id in r
    requires forall x :: x in rows ==> x[Id] != r[Id]
    ensures Keyed(Insert(order, rows, r))
  {
    if rows != [] && !Before(order, rows[|rows| - 1], r) {
      var front, last := rows[..|rows| - 1], rows[|rows| - 1];
      InsertKeyed(order, front, r);
      InsertMembers(order, front, r);
      forall x | x in Insert(order, front, r) ensures x[Id] != last[Id] {
        if x in front {
          var i :| 0 <= i < |front| && front[i] == x;
        }
      }
    }
  }

  lemma {:induction false} SortKeyed(order: Order, rows: seq<Row>)
    requires Keyed(rows)
    ensures Keyed(Sort(order, rows))
  {
    if rows != [] {
      var front := rows[..|rows| - 1];
      SortKeyed(order, front);
      SortMembers(order, front);
      forall x | x in Sort(order, front) ensures x[Id] != rows[|rows| - 1][Id] {
        var i :| 0 <= i < |front| && front[i] == x;
      }
      InsertKeyed(order, Sort(order, front), rows[|rows| - 1]);
    }
  }

  lemma MatchingKeyed(db: Database, q: Query)
    requires WellFormed(db) && HasKey(q.table)
    ensures Keyed(Matching(db, q))
  {
    FilterKeyed(db, q.preds, Rows(db, q.table));
    SortKeyed(q.order, Filter(db, q.preds, Rows(db, q.table)));
  }

  lemma SelectKeyed(db: Database, q: Query)
    requires WellFormed(db) && HasKey(q.table)
    ensures Keyed(Select(db, q))
  {
    MatchingKeyed(db, q);
  }

  ghost predicate Sorted(order: Order, rows: seq<Row>) {
    forall i, j :: 0 <= i < j < |rows| ==> Before(order, rows[i], rows[j])
  }

  /** The first term that tells two rows apart puts the one with the smaller value first. */
  ghost predicate TellsApart(order: Order, a: Row, b: Row, k: nat) {
    && k < |order| && order[k](a) < order[k](b)
    && forall i :: 0 <= i < k ==> order[i](a) == order[i](b)
  }

  ghost predicate Ties(order: Order, a: Row, b: Row) {
    forall i :: 0 <= i < |order| ==> order[i](a) == order[i](b)
  }

  lemma {:induction false} BeforeIs(order: Order, a: Row, b: Row)
    ensures Before(order, a, b) <==> Ties(order, a, b) || exists k :: TellsApart(order, a, b, k)
  {
    if order != [] {
      var rest := order[1..];
      BeforeIs(rest, a, b);
      if order[0](a) == order[0](b) {
        assert Ties(order, a, b) <==> Ties(rest, a, b) by {
          assert forall i :: 0 <= i < |rest| ==> rest[i] == order[i + 1];
          assert forall i :: 1 <= i < |order| ==> order[i] == rest[i - 1];
        }
        if k: nat :| TellsApart(rest, a, b, k) {
          assert forall i :: 1 <= i < |order| ==> order[i] == rest[i - 1];
          assert TellsApart(order, a, b, k + 1);
        }
        if k: nat :| TellsApart(order, a, b, k) {
          assert forall i :: 0 <= i < |rest| ==> rest[i] == order[i + 1];
          assert TellsApart(rest, a, b, k - 1);
        }
      } else if order[0](a) < order[0](b) {
        assert TellsApart(order, a, b, 0);
      }
    }
  }

  lemma {:induction false} BeforeTotal(order: Order, a: Row, b: Row)
    ensures Before(order, a, b) || Before(order, b, a)
  {
    if order != [] {
      BeforeTotal(order[1..], a, b);
    }
  }

  lemma {:induction false} BeforeTransitive(order: Order, a: Row, b: Row, c: Row)
    requires Before(order, a, b) && Before(order, b, c)
    ensures Before(order, a, c)
  {
    if order != [] && order[0](a) == order[0](b) == order[0](c) {
      BeforeTransitive(order[1..], a, b, c);
    }
  }

  lemma {:induction false} InsertSorted(order: Order, rows: seq<Row>, r: Row)
    requires Sorted(order, rows)
    ensures Sorted(order, Insert(order, rows, r))
  {
    if rows != [] {
      var front, last := rows[..|rows| - 1], rows[|rows| - 1];
      BeforeTotal(order, last, r);
      if Before(order, last, r) {
        SortedEnd(order, rows, r);
      } else {
        InsertSorted(order, front, r);
        InsertMembers(order, front, r);
        var result := Insert(order, front, r);
        forall i | 0 <= i < |result| ensures Before(order, result[i], last) {
          assert result[i] in front || result[i] == r;
        }
      }
    }
  }

  /** What comes after the last of sorted rows comes after all of them. */
  lemma SortedEnd(order: Order, rows: seq<Row>, r: Row)
    requires Sorted(order, rows) && rows != [] && Before(order, rows[|rows| - 1], r)
    ensures forall x :: x in rows ==> Before(order, x, r)
  {
    forall x | x in rows ensures Before(order, x, r) {
      var i :| 0 <= i < |rows| && rows[i] == x;
      if i < |rows| - 1 {
        BeforeTransitive(order, x, rows[|rows| - 1], r);
      }
    }
  }

  lemma {:induction false} SortSorted(order: Order, rows: seq<Row>)
    ensures Sorted(order, Sort(order, rows))
  {
    if rows != [] {
      SortSorted(order, rows[..|rows| - 1]);
      InsertSorted(order, Sort(order, rows[..|rows| - 1]), rows[|rows| - 1]);
    }
  }

  lemma FilterAppend(db: Database, preds: seq<Pred>, rows: seq<Row>, r: Row)
    ensures Filter(db, preds, rows + [r])
         == if Sat(db, preds, r) then Filter(db, preds, rows) + [r] else Filter(db, preds, rows)
  {
    assert (rows + [r])[..|rows|] == rows;
  }

  lemma InsertAppend(order: Order, rows: seq<Row>, last: Row, r: Row)
    ensures Insert(order, rows + [last], r)
         == if Before(order, last, r) then rows + [last, r] else Insert(order, rows, r) + [last]
  {
    assert (rows + [last])[..|rows|] == rows;
    assert rows + [last] + [r] == rows + [last, r];
  }

  /** A row no smaller than all the others is inserted at the end. */
  lemma InsertLast(order: Order, rows: seq<Row>, r: Row)
    requires forall x :: x in rows ==> Before(order, x, r)
    ensures Insert(order, rows, r) == rows + [r]
  {
  }

  lemma {:induction false} FilterInsert(db: Database, preds: seq<Pred>, order: Order, rows: seq<Row>, r: Row)
    requires Sorted(order, rows)
    ensures Filter(db, preds, Insert(order, rows, r))
         == if Sat(db, preds, r) then Insert(order, Filter(db, preds, rows), r) else Filter(db, preds, rows)
  {
    if rows == [] {
      FilterAppend(db, preds, [], r);
    } else {
      var front, last := rows[..|rows| - 1], rows[|rows| - 1];
      assert rows == front + [last];
      FilterAppend(db, preds, front, last);
      if Before(order, last, r) {
        FilterAppend(db, preds, rows, r);
        FilterMembers(db, preds, rows);
        SortedEnd(order, rows, r);
        InsertLast(order, Filter(db, preds, rows), r);
      } else {
        FilterInsert(db, preds, order, front, r);
        FilterAppend(db, preds, Insert(order, front, r), last);
        InsertAppend(order, Filter(db, preds, front), last, r);
      }
    }
  }

  /** A stable sort may be taken before or after a filter. */
  lemma {:induction false} FilterSort(db: Database, preds: seq<Pred>, order: Order, rows: seq<Row>)
    ensures Filter(db, preds, Sort(order, rows)) == Sort(order, Filter(db, preds, rows))
  {
    if rows != [] {
      var front, last := rows[..|rows| - 1], rows[|rows| - 1];
      assert rows == front + [last];
      FilterSort(db, preds, order, front);
      SortSorted(order, front);
      FilterInsert(db, preds, order, Sort(order, front), last);
      FilterAppend(db, preds, front, last);
      SortAppend(order, Filter(db, preds, front), last);
    }
  }

  lemma SortAppend(order: Order, rows: seq<Row>, r: Row)
    ensures Sort(order, rows + [r]) == Insert(order, Sort(order, rows), r)
  {
    assert (rows + [r])[..|rows|] == rows;
  }

  /** Narrowing a wider filter is the narrow filter. */
  lemma {:induction false} FilterNarrow(db: Database, preds: seq<Pred>, wide: Pred, narrow: Pred, rows: seq<Row>)
    requires forall r :: r in rows && Holds(db, narrow, r) ==> Holds(db, wide, r)
    ensures Filter(db, [narrow], Filter(db, preds + [wide], rows)) == Filter(db, preds + [narrow], rows)
  {
    if rows != [] {
      var front, last := rows[..|rows| - 1], rows[|rows| - 1];
      assert rows == front + [last];
      FilterNarrow(db, preds, wide, narrow, front);
      FilterAppend(db, preds + [wide], front, last);
      FilterAppend(db, preds + [narrow], front, last);
      FilterAppend(db, [narrow], Filter(db, preds + [wide], front), last);
      SatAppend(db, preds, wide, last);
      SatAppend(db, preds, narrow, last);
      SatAppend(db, [], narrow, last);
      assert [] + [narrow] == [narrow];
    }
  }

  lemma SatAppend(db: Database, preds: seq<Pred>, p: Pred, r: Row)
    ensures Sat(db, preds + [p], r) <==> Sat(db, preds, r) && Holds(db, p, r)
  {
    var all := preds + [p];
    assert all[|preds|] == p;
    assert forall i | 0 <= i < |preds| :: all[i] == preds[i];
  }

  /** A batch filtered down to one owner is what that owner's own query selects. */
  lemma MatchingNarrow(db: Database, q: Query, wide: Pred, narrow: Pred)
    requires forall r :: r in Rows(db, q.table) && Holds(db, narrow, r) ==> Holds(db, wide, r)
    ensures Filter(db, [narrow], Matching(db, Where(q, wide))) == Matching(db, Where(q, narrow))
  {
    FilterNarrow(db, q.preds, wide, narrow, Rows(db, q.table));
    FilterSort(db, [narrow], q.order, Filter(db, q.preds + [wide], Rows(db, q.table)));
  }
}
