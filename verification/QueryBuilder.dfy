/** The mutable query builder: configuring, cloning, and running a query. */
module QueryBuilder {
  import opened Wrappers
  import opened Relational
  import opened Lookup
  import opened Agreement
  import opened Reuse
  import opened EagerLoading
  import opened Slices

  /** What a clone describes: the whole nest without its row locks, which are not copied. */
  function CloneOf(q: Query): Query {
    q.(locks := [], with := map e | e in q.with :: CloneOf(q.with[e]))
  }

  ghost predicate Unlocked(q: Query) {
    q.locks == [] && forall e :: e in q.with ==> Unlocked(q.with[e])
  }

  /** A clone is equal to its original exactly when no builder in the nest holds a row lock. */
  lemma {:induction false} CloneEqualIffUnlocked(q: Query)
    ensures CloneOf(q) == q <==> Unlocked(q)
    decreases q
  {
    forall e | e in q.with ensures CloneOf(q.with[e]) == q.with[e] <==> Unlocked(q.with[e]) {
      CloneEqualIffUnlocked(q.with[e]);
    }
    if CloneOf(q) == q {
      forall e | e in q.with ensures Unlocked(q.with[e]) {
        assert CloneOf(q).with[e] == CloneOf(q.with[e]);
      }
    }
  }

  /** Cloning loses nothing that decides which graph is loaded. */
  lemma {:induction false} CloneTrees(db: Database, q: Query, columns: Option<seq<Column>>, rows: seq<Row>)
    ensures BatchTrees(db, CloneOf(q), columns, rows) == BatchTrees(db, q, columns, rows)
    decreases q, 1
  {
    forall i | 0 <= i < |rows| ensures BatchKids(db, CloneOf(q), rows, rows[i]) == BatchKids(db, q, rows, rows[i]) {
      forall e | e in q.with
        ensures BatchKids(db, CloneOf(q), rows, rows[i])[e] == BatchKids(db, q, rows, rows[i])[e]
      {
        CloneShare(db, e, q.with[e], rows, rows[i]);
      }
    }
  }

  /** A clone loads the same graph. */
  lemma CloneLoads(db: Database, q: Query)
    ensures Load(db, CloneOf(q)) == Load(db, q)
  {
    CloneTrees(db, q, Selected(q), Select(db, q));
  }

  lemma CloneRows(db: Database, e: Edge, sub: Query, rows: seq<Row>)
    ensures BatchRows(db, e, CloneOf(sub), rows) == BatchRows(db, e, sub, rows)
    ensures StreamOf(db, e, CloneOf(sub), rows) == StreamOf(db, e, sub, rows)
  {
  }

  lemma CloneColumns(e: Edge, sub: Query)
    ensures Selected(WithKey(e, CloneOf(sub))) == Selected(WithKey(e, sub))
  {
  }

  lemma {:induction false} CloneShare(db: Database, e: Edge, sub: Query, rows: seq<Row>, owner: Row)
    ensures BatchEdge(db, e, CloneOf(sub), rows, owner) == BatchEdge(db, e, sub, rows, owner)
    decreases sub, 2
  {
    CloneRows(db, e, sub, rows);
    CloneColumns(e, sub);
    CloneTrees(db, sub, Selected(WithKey(e, sub)), BatchRows(db, e, sub, rows));
  }

  /** The nested builders and all they hold lie in `below`, on the tables their edges lead to, and share
      nothing with one another. */
  ghost predicate Placed(table: Table, with: map<Edge, Builder>, below: set<object>)
    reads below
  {
    && (forall e :: e in with ==>
      with[e] in below && with[e].Repr() <= below && Owner(e) == table && with[e].table == Target(e))
    && (forall d, e :: d in with && e in with && d != e ==> with[d].Repr() !! with[e].Repr())
  }

  /** And they configure the loads of q. */
  ghost predicate Hangs(table: Table, with: map<Edge, Builder>, below: set<object>, q: Query)
    reads below
    decreases q, 0
  {
    && with.Keys == q.with.Keys && Placed(table, with, below)
    && forall e :: e in with ==> with[e].Describes(q.with[e])
  }

  lemma PlacedMore(table: Table, with: map<Edge, Builder>, below: set<object>, e: Edge, nested: Builder)
    requires Placed(table, with, below)
    requires Owner(e) == table && nested.table == Target(e) && nested.Repr() !! below
    ensures Placed(table, with[e := nested], below + nested.Repr())
  {
  }

  lemma HangsMore(table: Table, with: map<Edge, Builder>, below: set<object>, q: Query, e: Edge, nested: Builder, sub: Query)
    requires Hangs(table, with, below, q) && nested.Describes(sub)
    requires Owner(e) == table && nested.table == Target(e) && nested.Repr() !! below
    ensures Hangs(table, with[e := nested], below + nested.Repr(), q.(with := q.with[e := sub]))
  {
    PlacedMore(table, with, below, e, nested);
  }

  /** All nested builders but one, and all they hold, lie in `rest`. */
  ghost predicate Siblings(table: Table, with: map<Edge, Builder>, e: Edge, rest: set<object>, q: Query)
    reads rest
  {
    && with.Keys == q.with.Keys
    && (forall d :: d in with && d != e ==>
      && with[d] in rest && with[d].Repr() <= rest && with[d].Describes(q.with[d])
      && Owner(d) == table && with[d].table == Target(d))
    && (forall c, d :: c in with && d in with && c != e && d != e && c != d ==> with[c].Repr() !! with[d].Repr())
  }

  lemma SplitSiblings(table: Table, with: map<Edge, Builder>, below: set<object>, e: Edge, q: Query)
    requires Hangs(table, with, below, q) && e in with
    ensures Siblings(table, with, e, below - with[e].Repr(), q)
  {
  }

  lemma JoinPlaced(table: Table, with: map<Edge, Builder>, rest: set<object>, e: Edge, q: Query)
    requires Siblings(table, with, e, rest, q) && e in with && with[e].Repr() !! rest
    requires Owner(e) == table && with[e].table == Target(e)
    ensures Placed(table, with, rest + with[e].Repr())
  {
  }

  /** One nested builder describes another query than before, and may hold more. */
  lemma JoinSiblings(table: Table, with: map<Edge, Builder>, rest: set<object>, e: Edge, q: Query, sub: Query)
    requires Siblings(table, with, e, rest, q) && e in with && with[e].Describes(sub) && with[e].Repr() !! rest
    requires Owner(e) == table && with[e].table == Target(e)
    ensures Hangs(table, with, rest + with[e].Repr(), q.(with := q.with[e := sub]))
  {
    JoinPlaced(table, with, rest, e, q);
  }

  /** The query context: what a builder points to rather than holds. */
  class Context {
    var fields: Slice<Column>
    var offset: nat
    var limit: nat

    constructor ()
      ensures Valid(fields) && Items(fields) == [] && fresh(fields.backing) && offset == limit == 0
    {
      var none := Empty<Column>();
      fields, offset, limit := none, 0, 0;
    }

    /** `ctx.Clone()`: a context with its own list of fields. */
    constructor CloneOf(original: Context)
      requires Valid(original.fields)
      ensures Valid(fields) && Items(fields) == Items(original.fields) && fresh(fields.backing)
      ensures offset == original.offset && limit == original.limit
    {
      var copy := Copy(original.fields);
      fields, offset, limit := copy, original.offset, original.limit;
    }
  }

  class Builder {
    const table: Table
    var ctx: Context
    var preds: Slice<Pred>
    var order: Slice<Row -> int>
    var locks: Slice<Lock>
    var with: map<Edge, Builder>
    ghost var own: set<object>
    ghost var below: set<object>

    /** Every object an edit of this builder or of what is nested in it may touch. */
    ghost function Repr(): set<object>
      reads this
    {
      {this} + own + below
    }

    /** The context and the lists, all in `own`, configure the top level of q. */
    ghost predicate Configures(q: Query)
      reads this, own
    {
      && ctx in own && preds.backing in own && order.backing in own && locks.backing in own && ctx.fields.backing in own
      && Valid(preds) && Valid(order) && Valid(locks) && Valid(ctx.fields)
      && q == Query(table, Items(preds), Items(order), ctx.offset, ctx.limit, Items(ctx.fields), Items(locks), q.with)
    }

    /** The builder and the builders nested in it configure the query q. */
    ghost predicate Describes(q: Query)
      reads this, own, below
      decreases q, 1
    {
      && this !in own && this !in below && own !! below
      && Configures(q) && Hangs(table, with, below, q)
    }

    constructor (table: Table)
      ensures this.table == table && fresh(own) && below == {}
      ensures preds.backing.Length == 0
      ensures Describes(Query(table, [], [], 0, 0, [], [], map[]))
    {
      var context := new Context();
      var none := Empty<Pred>();
      var unordered := Empty<Row -> int>();
      var unlocked := Empty<Lock>();
      this.table := table;
      ctx, preds, order, locks, with := context, none, unordered, unlocked, map[];
      own, below := {context, none.backing, unordered.backing, unlocked.backing, context.fields.backing}, {};
    }

    method Where(p: Pred, ghost q: Query)
      requires Describes(q)
      modifies `preds, `own, preds.backing
      ensures Describes(Relational.Where(q, p))
      ensures fresh(own - old(own)) && old(own) <= own
      ensures preds.len == old(preds.len) + 1
      ensures preds.backing.Length == Grown(old(preds.len), old(preds.backing.Length))
      ensures if old(preds.len) < old(preds.backing.Length) then preds.backing == old(preds.backing) else fresh(preds.backing)
      ensures Items(old(preds)) == q.preds
    {
      preds := Append(preds, p);
      own := own + {preds.backing};
    }

    /** `AppendFieldOnce`: adds a field to the chosen ones unless it is among them. */
    method AppendField(c: Column, ghost q: Query)
      requires Describes(q) && c !in q.fields
      modifies ctx, ctx.fields.backing, `own
      ensures Describes(q.(fields := q.fields + [c]))
      ensures fresh(own - old(own)) && old(own) <= own
    {
      var fields := Append(ctx.fields, c);
      ctx.fields := fields;
      own := own + {fields.backing};
    }

    method Order(key: Row -> int, ghost q: Query)
      requires Describes(q)
      modifies `order, `own, order.backing
      ensures Describes(q.(order := q.order + [key]))
      ensures fresh(own - old(own)) && old(own) <= own
    {
      order := Append(order, key);
      own := own + {order.backing};
    }

    method Limit(n: nat, ghost q: Query)
      requires Describes(q)
      modifies ctx`limit
      ensures Describes(q.(limit := n))
    {
      ctx.limit := n;
    }

    method Offset(n: nat, ghost q: Query)
      requires Describes(q)
      modifies ctx`offset
      ensures Describes(q.(offset := n))
    {
      ctx.offset := n;
    }

    method ForUpdate(ghost q: Query)
      requires Describes(q)
      modifies `locks, `own, locks.backing
      ensures Describes(q.(locks := q.locks + [Lock.ForUpdate]))
      ensures fresh(own - old(own)) && old(own) <= own
    {
      locks := Append(locks, Lock.ForUpdate);
      own := own + {locks.backing};
    }

    /** Requests an edge, replacing an earlier request for it. The nested builder is the one made for this
        request, so nothing else hangs on it. */
    method With(e: Edge, nested: Builder, ghost q: Query, ghost sub: Query)
      requires Describes(q) && nested.Describes(sub) && Owner(e) == table && nested.table == Target(e)
      requires nested.Repr() !! Repr()
      modifies `with, `below
      ensures below == old(below) + nested.Repr()
      ensures Describes(q.(with := q.with[e := sub]))
    {
      HangsMore(table, with, below, q, e, nested, sub);
      Rehang(with[e := nested], below + nested.Repr(), q.(with := q.with[e := sub]));
    }

    /** Takes on nested builders and what they hold. */
    method Rehang(with: map<Edge, Builder>, ghost below: set<object>, ghost q: Query)
      requires this !in own && this !in below && own !! below && Configures(q) && Hangs(table, with, below, q)
      modifies `with, `below
      ensures this.with == with && this.below == below && Describes(q)
    {
      this.with, this.below := with, below;
    }

    /** The struct literal that `Clone` returns, around a cloned context and copied lists; the locks are not
        among its fields. */
    constructor Assemble(original: Builder, with: map<Edge, Builder>, ghost q: Query, ghost under: set<object>)
      requires original.Describes(q) && Copied(q, with, under, q.with.Keys)
      ensures Describes(CloneOf(q)) && fresh(own) && below == under && table == original.table
    {
      var context := new Context.CloneOf(original.ctx);
      var copy := Copy(original.preds);
      var terms := Copy(original.order);
      var unlocked := Empty<Lock>();
      table := original.table;
      ctx, preds, order, locks := context, copy, terms, unlocked;
      this.with, below := with, under;
      own := {context, copy.backing, terms.backing, unlocked.backing, context.fields.backing};
    }

    /** What copying the struct alone would give: the same context, the same lists, the same nested builders. */
    constructor Shallow(original: Builder, ghost q: Query)
      requires original.Describes(q)
      ensures table == original.table && ctx == original.ctx && preds == original.preds
      ensures own == original.own && below == original.below && Describes(q)
    {
      table := original.table;
      ctx, preds, order, locks := original.ctx, original.preds, original.order, original.locks;
      with, own, below := original.with, original.own, original.below;
    }

    /** The query to execute, nested queries first. */
    method Spec(ghost q: Query) returns (spec: Query)
      requires Describes(q)
      ensures spec == q
      decreases q
    {
      var nested: map<Edge, Query> := map[];
      for k := 0 to |EDGE_ORDER|
        invariant nested == Nested(q, Done(k))
      {
        var e := EDGE_ORDER[k];
        DoneStep(k);
        if e in with {
          var sub := with[e].Spec(q.with[e]);
          nested := nested[e := sub];
        }
      }
      AllNested(q);
      spec := Query(table, Items(preds), Items(order), ctx.offset, ctx.limit, Items(ctx.fields), Items(locks), nested);
    }

    /** What a load leaves in a nested builder: a filter and perhaps a field were added to it, and to the
        builders below it. */
    method Use(used: Query, ghost q: Query)
      requires Describes(q) && Extended(q, used)
      modifies Repr()
      ensures Describes(used) && Repr() >= old(Repr()) && fresh(Repr() - old(Repr()))
      decreases q, 1
    {
      AddOwn(used, q);
      UseNested(used.with, q, q.(preds := used.preds, fields := used.fields));
    }

    method AddOwn(used: Query, ghost q: Query)
      requires Describes(q) && Extended(q, used)
      modifies `preds, `own, own
      ensures Describes(q.(preds := used.preds, fields := used.fields))
      ensures below == old(below) && own >= old(own) && fresh(own - old(own))
    {
      AddFilter(used.preds, q);
      AddField(used.fields, q.(preds := used.preds));
    }

    method AddFilter(more: seq<Pred>, ghost q: Query)
      requires Describes(q) && Longer(q.preds, more)
      modifies `preds, `own, own
      ensures Describes(q.(preds := more)) && own >= old(own) && fresh(own - old(own))
    {
      if preds.len < |more| {
        Where(more[preds.len], q);
      }
    }

    method AddField(more: seq<Column>, ghost q: Query)
      requires Describes(q) && Longer(q.fields, more) && (more != q.fields ==> more[|q.fields|] !in q.fields)
      modifies `own, own
      ensures Describes(q.(fields := more)) && own >= old(own) && fresh(own - old(own))
    {
      if ctx.fields.len < |more| {
        AppendField(more[ctx.fields.len], q);
      }
    }

    /** What a load leaves in the builders nested in this one. */
    method UseNested(used: map<Edge, Query>, ghost q: Query, ghost now: Query)
      requires Describes(now) && now.with == q.with && ExtendedAll(q, used)
      modifies `with, `below, below
      ensures Describes(now.(with := used)) && below >= old(below) && fresh(below - old(below))
      decreases q, 0, 1
    {
      for k := 0 to |EDGE_ORDER|
        invariant Describes(now.(with := Mixed(q.with, used, Done(k))))
        invariant below >= old(below) && fresh(below - old(below))
      {
        UseNext(k, used, q, now);
      }
      AllMixed(q.with, used);
    }

    method UseNext(k: nat, used: map<Edge, Query>, ghost q: Query, ghost now: Query)
      requires k < |EDGE_ORDER| && now.with == q.with && ExtendedAll(q, used)
      requires Describes(now.(with := Mixed(q.with, used, Done(k))))
      modifies `with, `below, below
      ensures Describes(now.(with := Mixed(q.with, used, Done(k + 1))))
      ensures below >= old(below) && fresh(below - old(below))
      decreases q, 0, 0
    {
      var e := EDGE_ORDER[k];
      ghost var mixed := now.(with := Mixed(q.with, used, Done(k)));
      DoneStep(k);
      MixedStep(q.with, used, Done(k), e);
      if e in with {
        UseEdge(e, used[e], q.with[e], mixed);
      }
    }

    /** What a load leaves in one nested builder; the others share nothing with it. */
    method UseEdge(e: Edge, used: Query, ghost sub: Query, ghost now: Query)
      requires Describes(now) && e in now.with && now.with[e] == sub && Extended(sub, used)
      modifies `with, `below, below
      ensures Describes(now.(with := now.with[e := used])) && below >= old(below) && fresh(below - old(below))
      decreases sub, 3
    {
      ghost var rest := below - with[e].Repr();
      SplitSiblings(table, with, below, e, now);
      UseBuilder(e, used, sub, now, rest);
      JoinSiblings(table, with, rest, e, now, used);
      Rehang(with, rest + with[e].Repr(), now.(with := now.with[e := used]));
    }

    method UseBuilder(e: Edge, used: Query, ghost sub: Query, ghost now: Query, ghost rest: set<object>)
      requires Configures(now) && e in with && with[e].Describes(sub) && Extended(sub, used)
      requires Siblings(table, with, e, rest, now) && with[e].Repr() !! rest + {this} + own
      modifies with[e].Repr()
      ensures Configures(now) && with[e].Describes(used) && Siblings(table, with, e, rest, now)
      ensures with[e].Repr() >= old(with[e].Repr()) && fresh(with[e].Repr() - old(with[e].Repr()))
      decreases sub, 2
    {
      with[e].Use(used, sub);
    }

    /** Clones one nested builder, if there is one. */
    method CloneEdge(e: Edge, nested: map<Edge, Builder>, ghost q: Query, ghost under: set<object>, ghost done: set<Edge>)
      returns (nested': map<Edge, Builder>, ghost under': set<object>)
      requires Describes(q) && Copied(q, nested, under, done)
      ensures under <= under' && fresh(under' - under) && Copied(q, nested', under', done + {e})
      decreases q, 0
    {
      nested', under' := nested, under;
      if e in with {
        var copy := with[e].Clone(q.with[e]);
        CopiedMore(q, nested, under, done, e, copy);
        nested', under' := nested[e := copy], under + copy.Repr();
      } else {
        CopyOfStep(q, done, e);
      }
    }

    /** A deep copy that shares nothing an edit could touch with the original: no context, no list and no
        nested builder. */
    method Clone(ghost q: Query) returns (c: Builder)
      requires Describes(q)
      ensures fresh(c.Repr()) && c.table == table
      ensures c.Describes(CloneOf(q))
      decreases q, 1
    {
      var nested: map<Edge, Builder> := map[];
      ghost var under: set<object> := {};
      for k := 0 to |EDGE_ORDER|
        invariant fresh(under) && Copied(q, nested, under, Done(k))
      {
        DoneStep(k);
        nested, under := CloneEdge(EDGE_ORDER[k], nested, q, under, Done(k));
      }
      AllCopied(q, nested, under);
      c := new Builder.Assemble(this, nested, q, under);
    }
  }

  /** Two builders with one context and lists over one array. */
  ghost predicate Share(b: Builder, c: Builder)
    reads b, c
  {
    b != c && c.ctx == b.ctx && c.preds.backing == b.preds.backing
  }

  /** A filter added to a shallow copy goes into the original's array, past its end. */
  method AddToCopy(b: Builder, c: Builder, p: Pred, ghost q: Query)
    requires b.Describes(q) && c.Describes(q) && Share(b, c) && c.preds == b.preds && c !in b.own + b.below
    requires b.preds.len < b.preds.backing.Length
    modifies c`preds, c`own, c.preds.backing
    ensures c.Configures(Relational.Where(q, p)) && c.preds.len == b.preds.len + 1
    ensures b.Describes(q) && Share(b, c) && fresh(c.own - old(c.own))
  {
    c.Where(p, q);
  }

  /** A filter then added to the original overwrites it, and a limit set on the original limits the copy. */
  method AddToOriginal(b: Builder, c: Builder, p: Pred, p': Pred, n: nat, ghost q: Query)
    requires b.Describes(q) && c.Configures(Relational.Where(q, p)) && Share(b, c) && c !in b.own + b.below && b !in c.own
    requires c.preds.len == b.preds.len + 1
    modifies b`preds, b`own, b.preds.backing, b.ctx
    ensures c.Configures(Relational.Where(q, p').(limit := n))
  {
    b.Where(p', q);
    assert Items(c.preds) == q.preds + [p'];
    b.Limit(n, Relational.Where(q, p'));
  }

  /** Why `Clone` copies the lists and the context: had a copy the original's, then a filter added to the
      original would overwrite the one just added to the copy, and a limit set on the original would limit
      the copy. */
  method ShallowCopyIsOverwritten(b: Builder, p: Pred, p': Pred, n: nat, ghost q: Query) returns (c: Builder)
    requires b.Describes(q) && b.preds.len < b.preds.backing.Length
    modifies b.Repr()
    ensures fresh(c) && c.Configures(Relational.Where(q, p').(limit := n))
  {
    c := new Builder.Shallow(b, q);
    AddToCopy(b, c, p, q);
    AddToOriginal(b, c, p, p', n, q);
  }

  /** Lists do have room to spare: after three appends there is room for a fourth. */
  method FilterThrice(b: Builder, p: Pred, ghost q: Query) returns (ghost q': Query)
    requires b.Describes(q) && b.preds.len == b.preds.backing.Length == 0
    modifies b`preds, b`own, b.preds.backing
    ensures b.Describes(q') && b.preds.len == 3 && b.preds.backing.Length == 4
  {
    var length := 0;
    q' := q;
    while length < 3
      invariant length <= 3 && b.Describes(q') && b.preds.len == length
      invariant b.preds.backing.Length == if length == 3 then 4 else length
      invariant fresh(b.own - old(b.own)) && (b.preds.backing == old(b.preds.backing) || fresh(b.preds.backing))
    {
      b.Where(p, q');
      q' := Relational.Where(q', p);
      length := length + 1;
    }
  }

  /** The nested queries among `done`. */
  ghost function Nested(q: Query, done: set<Edge>): map<Edge, Query> {
    map e | e in q.with && e in done :: q.with[e]
  }

  lemma AllNested(q: Query)
    ensures Nested(q, Done(|EDGE_ORDER|)) == q.with
  {
    EdgeOrderIsComplete();
    assert EDGE_ORDER[..|EDGE_ORDER|] == EDGE_ORDER;
  }

  /** The same list, or the list with one item more. */
  ghost predicate Longer<T>(xs: seq<T>, ys: seq<T>) {
    ys == xs || (|ys| == |xs| + 1 && ys[..|xs|] == xs)
  }

  /** The same nest of queries, but for a filter and a field more. */
  ghost predicate Extended(q: Query, used: Query)
    decreases q, 1
  {
    && used == q.(preds := used.preds, fields := used.fields, with := used.with) && ExtendedAll(q, used.with)
    && Longer(q.preds, used.preds) && Longer(q.fields, used.fields) && (used.fields != q.fields ==> used.fields[|q.fields|] !in q.fields)
  }

  ghost predicate ExtendedAll(q: Query, used: map<Edge, Query>)
    decreases q, 0
  {
    q.with.Keys == used.Keys && forall e :: e in q.with ==> Extended(q.with[e], used[e])
  }

  ghost function Mixed(with: map<Edge, Query>, used: map<Edge, Query>, done: set<Edge>): map<Edge, Query>
    requires with.Keys == used.Keys
  {
    map e | e in with :: if e in done then used[e] else with[e]
  }

  lemma MixedStep(with: map<Edge, Query>, used: map<Edge, Query>, done: set<Edge>, e: Edge)
    requires with.Keys == used.Keys && e !in done
    ensures e in with ==> Mixed(with, used, done)[e] == with[e]
    ensures Mixed(with, used, done + {e}) == if e in with then Mixed(with, used, done)[e := used[e]] else Mixed(with, used, done)
  {
  }

  lemma AllMixed(with: map<Edge, Query>, used: map<Edge, Query>)
    requires with.Keys == used.Keys
    ensures Mixed(with, used, Done(|EDGE_ORDER|)) == used
  {
    EdgeOrderIsComplete();
    assert EDGE_ORDER[..|EDGE_ORDER|] == EDGE_ORDER;
  }

  /** A load only adds filters and fields. */
  lemma {:induction false} AfterExtends(db: Database, q: Query, rows: seq<Row>)
    ensures ExtendedAll(q, After(db, q, rows).with)
    decreases q
  {
    forall e | e in q.with ensures Extended(q.with[e], After(db, q, rows).with[e]) {
      var sub := q.with[e];
      if rows == [] {
        ExtendsItself(sub);
      } else {
        AfterExtends(db, sub, BatchRows(db, e, sub, rows));
        AfterWith(db, q, rows, e);
        NestedExtends(db, e, sub, rows);
      }
    }
  }

  lemma NestedExtends(db: Database, e: Edge, sub: Query, owners: seq<Row>)
    requires ExtendedAll(sub, After(db, sub, BatchRows(db, e, sub, owners)).with)
    ensures Extended(sub, AfterNested(db, e, sub, owners))
  {
    if Skipped(e, owners) {
      ExtendsItself(sub);
    } else {
      UsedShape(db, e, sub, owners);
      KeyIsOneMore(e, sub);
    }
  }

  lemma KeyIsOneMore(e: Edge, sub: Query)
    ensures var fields := WithKey(e, sub).fields;
      Longer(sub.fields, fields) && (fields != sub.fields ==> fields[|sub.fields|] !in sub.fields)
  {
  }

  lemma {:induction false} ExtendsItself(q: Query)
    ensures Extended(q, q)
    decreases q
  {
    forall e | e in q.with ensures Extended(q.with[e], q.with[e]) {
      ExtendsItself(q.with[e]);
    }
  }

  /** Builders only nest along edges of their tables. */
  lemma {:induction false} DescribedIsTyped(b: Builder, q: Query)
    requires b.Describes(q)
    ensures Typed(q)
    decreases q
  {
    forall e | e in q.with ensures Owner(e) == q.table && q.with[e].table == Target(e) && Typed(q.with[e]) {
      assert e in b.with;
      DescribedIsTyped(b.with[e], q.with[e]);
    }
  }

  /** After cloning, no edit whatsoever of the original or of what is nested in it reaches the clone. */
  method EditOriginal(b: Builder, ghost q: Query) returns (c: Builder)
    requires b.Describes(q)
    modifies b.Repr()
    ensures fresh(c.Repr()) && c.Describes(CloneOf(q))
  {
    c := b.Clone(q);
    modify b.Repr();
  }

  /** After cloning, no edit whatsoever of the clone or of what is nested in it reaches the original. */
  method EditClone(b: Builder, ghost q: Query) returns (c: Builder)
    requires b.Describes(q)
    ensures fresh(c) && b.Describes(q)
  {
    c := b.Clone(q);
    modify c.Repr();
  }

  /** The clone with only the nested loads among `done`. */
  function CopyOf(q: Query, done: set<Edge>): Query {
    CloneOf(q).(with := map e | e in q.with && e in done :: CloneOf(q.with[e]))
  }

  lemma CopyOfStep(q: Query, done: set<Edge>, e: Edge)
    ensures CopyOf(q, done + {e}) == if e in q.with
      then CopyOf(q, done).(with := CopyOf(q, done).with[e := CloneOf(q.with[e])])
      else CopyOf(q, done)
  {
    if e !in q.with {
      assert CopyOf(q, done + {e}).with == CopyOf(q, done).with;
    }
  }

  /** The nested builders among `done` have been copied, and the copies live in `under`. */
  ghost predicate Copied(q: Query, nested: map<Edge, Builder>, under: set<object>, done: set<Edge>)
    reads under
  {
    Hangs(q.table, nested, under, CopyOf(q, done))
  }

  lemma CopiedMore(q: Query, nested: map<Edge, Builder>, under: set<object>, done: set<Edge>, e: Edge, copy: Builder)
    requires Copied(q, nested, under, done) && e in q.with && copy.Describes(CloneOf(q.with[e]))
    requires Owner(e) == q.table && copy.table == Target(e)
    requires copy.Repr() !! under
    ensures Copied(q, nested[e := copy], under + copy.Repr(), done + {e})
  {
    CopyOfStep(q, done, e);
    HangsMore(q.table, nested, under, CopyOf(q, done), e, copy, CloneOf(q.with[e]));
  }

  lemma AllCopied(q: Query, nested: map<Edge, Builder>, under: set<object>)
    requires Copied(q, nested, under, Done(|EDGE_ORDER|))
    ensures Copied(q, nested, under, q.with.Keys)
  {
    EdgeOrderIsComplete();
    assert EDGE_ORDER[..|EDGE_ORDER|] == EDGE_ORDER;
    assert CopyOf(q, Done(|EDGE_ORDER|)).with == CopyOf(q, q.with.Keys).with;
  }
}
