/** The finders of the query builder: `All`, `First` and `Only`. */
module Finders {
  import opened Wrappers
  import opened Relational
  import opened Lookup
  import opened Agreement
  import opened Reuse
  import opened EagerLoading
  import opened QueryBuilder

  /** What the query finds when nothing limits it, each row with its edges looked up one at a time. */
  function Everything(db: Database, q: Query): seq<Tree> {
    Naive(db, q.(limit := 0))
  }

  lemma LimitKeepsNest(q: Query, limit: nat)
    ensures Unwindowed(q.(limit := limit)) <==> Unwindowed(q)
  {
  }

  lemma LimitKeepsKids(db: Database, q: Query, limit: nat, row: Row)
    ensures Kids(db, q.(limit := limit), row) == Kids(db, q, row)
  {
  }

  lemma SelectLimited(db: Database, q: Query, limit: nat)
    requires limit > 0
    ensures var all := Select(db, q.(limit := 0));
      Select(db, q.(limit := limit)) == if |all| <= limit then all else all[..limit]
  {
  }

  /** A limit keeps a prefix of the graph. */
  lemma LimitIsPrefix(db: Database, q: Query, limit: nat)
    requires limit > 0
    ensures var all := Everything(db, q);
      Naive(db, q.(limit := limit)) == if |all| <= limit then all else all[..limit]
  {
    var all, some := Everything(db, q), Naive(db, q.(limit := limit));
    SelectLimited(db, q, limit);
    forall i | 0 <= i < |some| ensures some[i] == all[i] {
      var row := Select(db, q.(limit := 0))[i];
      LimitKeepsKids(db, q, limit, row);
      LimitKeepsKids(db, q, 0, row);
    }
  }

  lemma LoadIsNaive(db: Database, q: Query)
    requires WellFormed(db) && Typed(q)
    ensures Unwindowed(q) ==> Load(db, q) == Naive(db, q)
  {
    if Unwindowed(q) {
      BatchedIsNaive(db, q, Selected(q), Select(db, q));
    }
  }

  /** What a run leaves the builder describing. */
  function Ran(db: Database, q: Query): Query {
    After(db, q, Select(db, q))
  }

  /** Whether a run breaks off: it meets a row of a groups query that an earlier run has joined. */
  ghost predicate BreaksOff(db: Database, q: Query) {
    Breaks(db, q, Select(db, q))
  }

  /** Loads the graph that the builder describes: without nested windows, the one that looking up
      neighbours one at a time builds. The nested builders keep the filters the load added to them. The
      run breaks off exactly when it meets a row of a query that was joined before. */
  method All(b: Builder, driver: Driver, ghost q: Query) returns (broken: bool, nodes: seq<Node>, ghost S: set<Node>)
    requires b.Describes(q) && WellFormed(driver.db) && driver !in b.Repr()
    modifies driver, b.Repr()
    ensures broken <==> BreaksOff(driver.db, q)
    ensures fresh(S) && fresh(b.Repr() - old(b.Repr()))
    ensures !broken ==> b.Describes(Ran(driver.db, q)) && ListDenotes(nodes, Forest(Load(driver.db, q)), S)
    ensures !broken && Unwindowed(q) ==> ListDenotes(nodes, Forest(Naive(driver.db, q)), S)
    ensures driver.selects <= old(driver.selects) + Cost(q)
  {
    var used;
    DescribedIsTyped(b, q);
    nodes, used, S := Execute(b, driver, q);
    broken := used.None?;
    if !broken {
      LeaveUsed(b, driver.db, used.value.with, nodes, S, q);
      LoadIsNaive(driver.db, q);
    }
  }

  /** Runs the query that the builder and its nest describe. */
  method Execute(b: Builder, driver: Driver, ghost q: Query)
    returns (nodes: seq<Node>, used: Option<Query>, ghost S: set<Node>)
    requires b.Describes(q) && WellFormed(driver.db) && driver !in b.Repr()
    modifies driver
    ensures used.None? <==> BreaksOff(driver.db, q)
    ensures fresh(S) && b.Describes(q) && b.Repr() == old(b.Repr())
    ensures used.Some? ==> used.value == Ran(driver.db, q) && ListDenotes(nodes, Forest(Load(driver.db, q)), S)
    ensures driver.selects <= old(driver.selects) + Cost(q)
  {
    DescribedIsTyped(b, q);
    var spec := b.Spec(q);
    nodes, used, S := SqlAll(spec, driver);
  }

  /** Writes what a load added into the nested builders; the loaded nodes are none of them. */
  method LeaveUsed(b: Builder, ghost db: Database, used: map<Edge, Query>, nodes: seq<Node>, ghost S: set<Node>, ghost q: Query)
    requires b.Describes(q) && WellFormed(db) && used == Ran(db, q).with && S !! b.Repr()
    requires ListDenotes(nodes, Forest(Load(db, q)), S)
    modifies b.Repr()
    ensures b.Describes(Ran(db, q)) && fresh(b.Repr() - old(b.Repr()))
    ensures ListDenotes(nodes, Forest(Load(db, q)), S)
  {
    AfterExtends(db, q, Select(db, q));
    b.UseNested(used, q, q);
  }

  /** Runs a builder again after it has been run as q, under another window. If it ends, it loads what the
      first run left to load, and what a builder never run would load if the window lies inside the first. */
  method AllAgain(b: Builder, driver: Driver, offset: nat, limit: nat, ghost q: Query)
    returns (broken: bool, nodes: seq<Node>, ghost S: set<Node>)
    requires b.Describes(Ran(driver.db, q)) && Typed(q) && WellFormed(driver.db) && driver !in b.Repr()
    modifies driver, b.Repr()
    ensures broken <==> BreaksAgain(driver.db, q, offset, limit)
    ensures fresh(S)
    ensures !broken ==> ListDenotes(nodes, Forest(LoadAgain(driver.db, q, offset, limit)), S)
    ensures !broken && Unwindowed(q) && Within(q.offset, q.limit, offset, limit) ==>
      ListDenotes(nodes, Forest(Load(driver.db, Rewindowed(q, offset, limit))), S)
  {
    b.Offset(offset, Ran(driver.db, q));
    b.Limit(limit, Ran(driver.db, q).(offset := offset));
    var again := Rewindowed(Ran(driver.db, q), offset, limit);
    SameBreaks(driver.db, Ran(driver.db, q), again, Select(driver.db, again));
    broken, nodes, S := All(b, driver, again);
    if Unwindowed(q) && Within(q.offset, q.limit, offset, limit) {
      RerunWithin(driver.db, q, offset, limit);
    }
  }

  /** The first entity, or None when nothing is found; the builder keeps the limit, and its nested builders
      the filters for that one entity. */
  method First(b: Builder, driver: Driver, ghost q: Query)
    returns (broken: bool, found: Option<Node>, ghost S: set<Node>)
    requires b.Describes(q) && WellFormed(driver.db) && driver !in b.Repr()
    modifies driver, b.Repr()
    ensures broken <==> BreaksOff(driver.db, q.(limit := 1))
    ensures fresh(S) && (!broken ==> b.Describes(Ran(driver.db, q.(limit := 1))))
    ensures !broken ==> (found.None? <==> Everything(driver.db, q) == [])
    ensures !broken && found.Some? ==>
      var loaded := Load(driver.db, q.(limit := 1)); loaded != [] && Denotes(found.value, loaded[0], S)
    ensures !broken && found.Some? && Unwindowed(q) ==> Denotes(found.value, Everything(driver.db, q)[0], S)
  {
    LimitKeepsNest(q, 1);
    LimitIsPrefix(driver.db, q, 1);
    b.Limit(1, q);
    var nodes;
    broken, nodes, S := All(b, driver, q.(limit := 1));
    found := if broken || nodes == [] then None else Some(nodes[0]);
  }

  datatype Single<T> = One(value: T) | NotFound | NotSingular

  /** The only entity, or which way it fails to be the only one; the builder keeps the limit, and its nested
      builders the filters. */
  method Only(b: Builder, driver: Driver, ghost q: Query)
    returns (broken: bool, found: Single<Node>, ghost S: set<Node>)
    requires b.Describes(q) && WellFormed(driver.db) && driver !in b.Repr()
    modifies driver, b.Repr()
    ensures broken <==> BreaksOff(driver.db, q.(limit := 2))
    ensures fresh(S) && (!broken ==> b.Describes(Ran(driver.db, q.(limit := 2))))
    ensures !broken ==> (found.NotFound? <==> Everything(driver.db, q) == [])
    ensures !broken ==> (found.NotSingular? <==> |Everything(driver.db, q)| > 1)
    ensures !broken && found.One? ==>
      var loaded := Load(driver.db, q.(limit := 2)); loaded != [] && Denotes(found.value, loaded[0], S)
    ensures !broken && found.One? && Unwindowed(q) ==> Denotes(found.value, Everything(driver.db, q)[0], S)
  {
    LimitKeepsNest(q, 2);
    LimitIsPrefix(driver.db, q, 2);
    b.Limit(2, q);
    var nodes;
    broken, nodes, S := All(b, driver, q.(limit := 2));
    found := if broken || nodes == [] then Single.NotFound else if |nodes| == 1 then One(nodes[0]) else NotSingular;
  }
}
