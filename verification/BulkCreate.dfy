/** Bulk creation: the hand-built chain in which builder i validates, builds its spec and then calls
    builder i + 1 through that builder's hooks, the last one firing the single batch insert. */
module BulkCreate {
  import opened Wrappers
  import RowCodec

  type Fields = map<RowCodec.Field, RowCodec.Value>

  datatype Node = Node(id: int, fields: Fields)
  datatype Mutation = Mutation(fields: Fields, id: Option<int>, done: bool)

  /** What a mutator is handed: the mutation object at a reference, or something of another type. */
  datatype Arg = Ref(at: nat) | Foreign

  datatype Outcome = Ok(value: Option<Node>) | Err(reason: string)

  /** A hook either returns, or calls the next mutator with a mutation whose fields it has set. */
  datatype Action = Return(outcome: Outcome) | CallNext(arg: Arg, fields: Fields)

  /** A hook decides from what it was handed and the outcomes of its calls so far; it makes at most
      `calls` calls. */
  datatype Hook = Hook(decide: (Arg, Fields, seq<Outcome>) -> Action, calls: nat)

  datatype Event = Enter(builder: nat, hook: nat) | Exit(builder: nat, hook: nat) | Insert

  /** One call of the batch insert: the field maps of its specs (None: a nil spec) and its result. */
  datatype Batch = Batch(specs: seq<Option<Fields>>, ok: bool)

  datatype Config = Config(
    hooks: seq<seq<Hook>>,
    defaults: Fields -> Fields,
    check: Fields -> bool,
    insert: (seq<Option<Fields>>, nat) -> Option<nat -> Option<int>>)

  datatype State = State(
    mutations: map<nat, Mutation>,
    current: seq<nat>,
    nodes: seq<Option<Node>>,
    specs: seq<Option<Fields>>,
    batches: seq<Batch>,
    ids: nat -> Option<int>,
    trace: seq<Event>)

  function MutationAt(s: State, r: nat): Mutation {
    if r in s.mutations then s.mutations[r] else Mutation(map[], None, false)
  }

  function FieldsOf(s: State, a: Arg): Fields {
    match a
    case Ref(r) => MutationAt(s, r).fields
    case Foreign => map[]
  }

  function SetFields(s: State, a: Arg, f: Fields): State {
    match a
    case Ref(r) => s.(mutations := s.mutations[r := MutationAt(s, r).(fields := f)])
    case Foreign => s
  }

  predicate Shaped(c: Config, s: State) {
    |s.current| == |s.nodes| == |s.specs| == |c.hooks|
  }

  // ---------------------------------------------------------------- the chain

  /** Hands a mutation to hook j of builder i, or to the builder itself past its last hook. */
  function Mutate(c: Config, i: nat, j: nat, a: Arg, s: State): (r: (State, Outcome))
    requires i < |c.hooks| && j <= |c.hooks[i]| && Shaped(c, s)
    ensures Shaped(c, r.0)
    decreases |c.hooks| - i, |c.hooks[i]| - j, 1
  {
    if j == |c.hooks[i]| then Core(c, i, a, s)
    else RunHook(c, i, j, a, [], s.(trace := s.trace + [Enter(i, j)]))
  }

  /** Runs a hook from the point where its calls have had the given outcomes. */
  function RunHook(c: Config, i: nat, j: nat, a: Arg, history: seq<Outcome>, s: State): (r: (State, Outcome))
    requires i < |c.hooks| && j < |c.hooks[i]| && Shaped(c, s) && |history| <= c.hooks[i][j].calls
    ensures Shaped(c, r.0)
    decreases |c.hooks| - i, |c.hooks[i]| - j, 0, c.hooks[i][j].calls - |history|
  {
    match c.hooks[i][j].decide(a, FieldsOf(s, a), history)
    case Return(o) => (s.(trace := s.trace + [Exit(i, j)]), o)
    case CallNext(b, f) =>
      if |history| == c.hooks[i][j].calls then (s.(trace := s.trace + [Exit(i, j)]), Err("too many calls"))
      else
        var (s', o) := Mutate(c, i, j + 1, b, SetFields(s, b, f));
        RunHook(c, i, j, a, history + [o], s')
  }

  /** A rebuilt spec has no id yet. */
  function WithoutId(ids: nat -> Option<int>, i: nat): nat -> Option<int> {
    (k: nat) => if k == i then None else ids(k)
  }

  /** The builder adopts the mutation it was handed and builds its node and spec from it. */
  function Start(i: nat, r: nat, s: State): State
    requires i < |s.current| && i < |s.nodes| && i < |s.specs|
  {
    var f := MutationAt(s, r).fields;
    s.(current := s.current[i := r], nodes := s.nodes[i := Some(Node(0, f))], specs := s.specs[i := Some(f)],
       ids := WithoutId(s.ids, i))
  }

  /** The builder's own step, inside all its hooks. */
  function Core(c: Config, i: nat, a: Arg, s: State): (r: (State, Outcome))
    requires i < |c.hooks| && Shaped(c, s)
    ensures Shaped(c, r.0)
    decreases |c.hooks| - i, 0, 0
  {
    if a.Foreign? then (s, Err("unexpected mutation type"))
    else if !c.check(MutationAt(s, s.current[i]).fields) then (s, Err("validation"))
    else
      var s1 := Start(i, a.at, s);
      var (s2, o) := if i < |c.hooks| - 1 then Mutate(c, i + 1, 0, Ref(s1.current[i + 1]), s1) else BatchCreate(c, s1);
      if o.Err? then (s2, o)
      else
        var s3 := Finish(i, a.at, s2);
        (s3, Ok(s3.nodes[i]))
  }

  function BatchCreate(c: Config, s: State): (r: (State, Outcome))
    requires Shaped(c, s)
    ensures Shaped(c, r.0)
  {
    var s' := s.(trace := s.trace + [Insert]);
    match c.insert(s.specs, |s.batches|)
    case None => (s'.(batches := s.batches + [Batch(s.specs, false)]), Err("insert"))
    case Some(ids) => (s'.(batches := s.batches + [Batch(s.specs, true)], ids := ids), Ok(None))
  }

  /** The id reaches the node and, through the pointer the mutation keeps, the mutation. */
  function Finish(i: nat, r: nat, s: State): State
    requires i < |s.nodes|
  {
    match s.nodes[i]
    case None => s
    case Some(node) =>
      var node' := if s.ids(i).Some? then node.(id := s.ids(i).value) else node;
      s.(nodes := s.nodes[i := Some(node')],
         mutations := s.mutations[r := MutationAt(s, r).(id := Some(node'.id), done := true)])
  }

  /** The nodes on success, none on failure. */
  function RunSave(c: Config, s: State): (State, Option<seq<Option<Node>>>)
    requires Shaped(c, s)
  {
    if |c.hooks| == 0 then (s, Some(s.nodes))
    else
      var (s', o) := Mutate(c, 0, 0, Ref(s.current[0]), s);
      (s', if o.Ok? then Some(s'.nodes) else None)
  }

  function SetDefaults(c: Config, r: nat, s: State): State {
    s.(mutations := s.mutations[r := MutationAt(s, r).(fields := c.defaults(MutationAt(s, r).fields))])
  }

  /** Before the chain runs, defaults have been set on the mutations of the first k builders. */
  function Defaulted(c: Config, s: State, k: nat): (d: State)
    requires k <= |s.current|
    ensures Shaped(c, s) ==> Shaped(c, d)
  {
    if k == 0 then s else SetDefaults(c, s.current[k - 1], Defaulted(c, s, k - 1))
  }

  /** Defaults insert nothing, mark nothing done and enter no hook. */
  lemma {:induction false} DefaultedKeeps(c: Config, s: State, k: nat)
    requires k <= |s.current|
    ensures Defaulted(c, s, k) == s.(mutations := Defaulted(c, s, k).mutations)
    ensures DoneRefs(Defaulted(c, s, k)) == DoneRefs(s)
    ensures forall r :: r !in s.current[..k] ==> MutationAt(Defaulted(c, s, k), r) == MutationAt(s, r)
  {
    if k > 0 {
      DefaultedKeeps(c, s, k - 1);
      var before, r := Defaulted(c, s, k - 1), s.current[k - 1];
      assert s.current[..k] == s.current[..k - 1] + [r];
      assert DoneRefs(SetDefaults(c, r, before)) == DoneRefs(before);
    }
  }

  // ---------------------------------------------------------------- hooks are well nested, always

  /** The hooks that a trace has entered and not left, innermost last; None if it is ill nested. */
  function Open(trace: seq<Event>): Option<seq<(nat, nat)>> {
    if trace == [] then Some([]) else
      var before, e := Open(trace[..|trace| - 1]), trace[|trace| - 1];
      if before.None? then None else
        match e
        case Enter(i, j) => Some(before.value + [(i, j)])
        case Exit(i, j) =>
          if before.value != [] && before.value[|before.value| - 1] == (i, j)
          then Some(before.value[..|before.value| - 1]) else None
        case Insert => before
  }

  lemma OpenStep(trace: seq<Event>, e: Event)
    ensures (trace + [e])[..|trace|] == trace && (trace + [e])[|trace|] == e
  {
  }

  /** Whatever the hooks do, a mutator leaves exactly the hooks open that it found open. */
  lemma {:induction false} MutateNested(c: Config, i: nat, j: nat, a: Arg, s: State)
    requires i < |c.hooks| && j <= |c.hooks[i]| && Shaped(c, s) && Open(s.trace).Some?
    ensures Open(Mutate(c, i, j, a, s).0.trace) == Open(s.trace)
    decreases |c.hooks| - i, |c.hooks[i]| - j, 1
  {
    if j == |c.hooks[i]| {
      CoreNested(c, i, a, s);
    } else {
      OpenStep(s.trace, Enter(i, j));
      RunHookNested(c, i, j, a, [], s.(trace := s.trace + [Enter(i, j)]), Open(s.trace).value);
    }
  }

  lemma {:induction false} RunHookNested(
    c: Config, i: nat, j: nat, a: Arg, history: seq<Outcome>, s: State, open: seq<(nat, nat)>)
    requires i < |c.hooks| && j < |c.hooks[i]| && Shaped(c, s) && |history| <= c.hooks[i][j].calls
    requires Open(s.trace) == Some(open + [(i, j)])
    ensures Open(RunHook(c, i, j, a, history, s).0.trace) == Some(open)
    decreases |c.hooks| - i, |c.hooks[i]| - j, 0, c.hooks[i][j].calls - |history|
  {
    OpenStep(s.trace, Exit(i, j));
    match c.hooks[i][j].decide(a, FieldsOf(s, a), history)
    case Return(o) =>
    case CallNext(b, f) =>
      if |history| < c.hooks[i][j].calls {
        MutateNested(c, i, j + 1, b, SetFields(s, b, f));
        var (s', o) := Mutate(c, i, j + 1, b, SetFields(s, b, f));
        RunHookNested(c, i, j, a, history + [o], s', open);
      }
  }

  lemma {:induction false} CoreNested(c: Config, i: nat, a: Arg, s: State)
    requires i < |c.hooks| && Shaped(c, s) && Open(s.trace).Some?
    ensures Open(Core(c, i, a, s).0.trace) == Open(s.trace)
    decreases |c.hooks| - i, 0, 0
  {
    OpenStep(s.trace, Insert);
    if !a.Foreign? && i < |c.hooks| - 1 {
      var s1 := Start(i, a.at, s);
      MutateNested(c, i + 1, 0, Ref(s1.current[i + 1]), s1);
    }
  }

  // ---------------------------------------------------------------- all or nothing

  /** A hook that calls next at most once, succeeds only if that call did, and so passes errors on. */
  ghost predicate WellBehaved(h: Hook) {
    && h.calls <= 1
    && forall a: Arg, f: Fields, history: seq<Outcome> :: |history| <= 1 && h.decide(a, f, history).Return? && h.decide(a, f, history).outcome.Ok? ==>
      |history| == 1 && history[0].Ok?
  }

  /** A hook that, if it makes its call, does not turn the success of that call into a failure. What is no
      account mutation comes without fields. */
  ghost predicate Faithful(h: Hook) {
    forall a: Arg, f: Fields, g: Fields, v: Option<Node> ::
      h.calls > 0 && (a.Foreign? ==> f == g == map[]) && h.decide(a, f, []).CallNext? ==>
        h.decide(a, g, [Ok(v)]).Return? && h.decide(a, g, [Ok(v)]).outcome.Ok?
  }

  ghost predicate AllHooks(c: Config, p: Hook -> bool) {
    forall i, j :: 0 <= i < |c.hooks| && 0 <= j < |c.hooks[i]| ==> p(c.hooks[i][j])
  }

  function DoneRefs(s: State): set<nat> {
    set r | r in s.mutations && s.mutations[r].done
  }

  function RefsFrom(s: State, d: nat): set<nat> {
    set k | d <= k < |s.current| :: s.current[k]
  }

  /** The builders before i hold what they held. */
  ghost predicate Untouched(i: nat, s: State, s': State)
    requires |s.current| == |s.nodes| == |s.specs| == |s'.current| == |s'.nodes| == |s'.specs| && i <= |s.current|
  {
    s.current[..i] == s'.current[..i] && s.nodes[..i] == s'.nodes[..i] && s.specs[..i] == s'.specs[..i]
  }

  /** The first i builders have a spec and a node, both built from the same fields. */
  ghost predicate Built(i: nat, s: State)
    requires i <= |s.nodes| && i <= |s.specs|
  {
    forall k :: 0 <= k < i ==> s.specs[k].Some? && s.nodes[k].Some? && s.nodes[k].value.fields == s.specs[k].value
  }

  /** The builders from d on carry the ids the insert gave their own specs. */
  ghost predicate Numbered(d: nat, s: State)
    requires |s.nodes| == |s.specs|
  {
    forall k :: d <= k < |s.nodes| ==>
      s.specs[k].Some? && s.nodes[k] == Some(Node(if s.ids(k).Some? then s.ids(k).value else 0, s.specs[k].value))
  }

  /** The ways a well-behaved chain ends: the insert was not reached; it was tried once and failed;
      or it was done once, and the builders from some d on have been marked done. */
  ghost predicate Ends(c: Config, i: nat, s: State, s': State, o: Outcome)
    requires Shaped(c, s) && Shaped(c, s') && i <= |c.hooks|
  {
    && Untouched(i, s, s')
    && (|| (o.Err? && s'.batches == s.batches && DoneRefs(s') == DoneRefs(s))
        || (o.Err? && s'.batches == s.batches + [Batch(s'.specs, false)] && Built(|c.hooks|, s') && DoneRefs(s') == DoneRefs(s))
        || (exists d :: Inserted(c, i, d, s, s', o)))
  }

  ghost predicate Inserted(c: Config, i: nat, d: nat, s: State, s': State, o: Outcome)
    requires Shaped(c, s) && Shaped(c, s')
  {
    && i <= d <= |c.hooks| && (o.Ok? ==> d == i) && (d == |c.hooks| ==> o.Ok?)
    && s'.batches == s.batches + [Batch(s'.specs, true)] && Built(|c.hooks|, s') && Numbered(d, s')
    && DoneRefs(s') == DoneRefs(s) + RefsFrom(s', d)
  }

  /** How one call ends does not depend on the fields a hook has set before it. */
  lemma EndsAfterSetFields(c: Config, i: nat, a: Arg, f: Fields, s: State, s': State, o: Outcome)
    requires Shaped(c, s) && Shaped(c, s') && i <= |c.hooks| && Ends(c, i, SetFields(s, a, f), s', o)
    ensures Ends(c, i, s, s', o)
  {
    assert DoneRefs(SetFields(s, a, f)) == DoneRefs(s);
    if d :| Inserted(c, i, d, SetFields(s, a, f), s', o) {
      assert Inserted(c, i, d, s, s', o);
    }
  }

  /** Closing a hook may turn success into failure but not failure into success. */
  lemma EndsAfterExit(c: Config, i: nat, s: State, s': State, o: Outcome, t: seq<Event>, o': Outcome)
    requires Shaped(c, s) && Shaped(c, s') && i < |c.hooks| && Ends(c, i, s, s', o) && (o'.Ok? ==> o.Ok?)
    ensures Ends(c, i, s, s'.(trace := t), o')
  {
    var s'' := s'.(trace := t);
    assert DoneRefs(s'') == DoneRefs(s') && forall d :: RefsFrom(s'', d) == RefsFrom(s', d);
    if d :| Inserted(c, i, d, s, s', o) {
      assert Inserted(c, i, d, s, s'', o');
    }
  }

  lemma {:induction false} MutateEnds(c: Config, i: nat, j: nat, a: Arg, s: State)
    requires i < |c.hooks| && j <= |c.hooks[i]| && Shaped(c, s) && Built(i, s)
    requires AllHooks(c, WellBehaved)
    ensures Ends(c, i, s, Mutate(c, i, j, a, s).0, Mutate(c, i, j, a, s).1)
    decreases |c.hooks| - i, |c.hooks[i]| - j, 1
  {
    if j == |c.hooks[i]| {
      CoreEnds(c, i, a, s);
    } else {
      var s0, h := s.(trace := s.trace + [Enter(i, j)]), c.hooks[i][j];
      assert WellBehaved(h);
      match h.decide(a, FieldsOf(s0, a), []) {
        case Return(o) =>
          assert DoneRefs(Mutate(c, i, j, a, s).0) == DoneRefs(s);
        case CallNext(b, f) =>
          if h.calls == 0 {
            assert DoneRefs(Mutate(c, i, j, a, s).0) == DoneRefs(s);
          } else {
            CallEnds(c, i, j, a, b, f, s0);
            EndsFromTrace(c, i, s, s0, Mutate(c, i, j, a, s).0, Mutate(c, i, j, a, s).1);
          }
      }
    }
  }

  lemma EndsFromTrace(c: Config, i: nat, s: State, s0: State, s': State, o: Outcome)
    requires Shaped(c, s) && Shaped(c, s') && i <= |c.hooks| && s0 == s.(trace := s0.trace) && Ends(c, i, s0, s', o)
    ensures Ends(c, i, s, s', o)
  {
    assert DoneRefs(s0) == DoneRefs(s);
    if d :| Inserted(c, i, d, s0, s', o) {
      assert Inserted(c, i, d, s, s', o);
    }
  }

  /** The outcome a hook ends with once it has made all its calls. */
  function Settled(action: Action): Outcome {
    match action
    case Return(o) => o
    case CallNext(_, _) => Err("too many calls")
  }

  /** What running a hook that calls at most once amounts to. */
  lemma OneCall(c: Config, i: nat, j: nat, a: Arg, s: State)
    requires i < |c.hooks| && j < |c.hooks[i]| && Shaped(c, s) && c.hooks[i][j].calls <= 1
    ensures var h, (s', o) := c.hooks[i][j], RunHook(c, i, j, a, [], s);
      var action := h.decide(a, FieldsOf(s, a), []);
      if action.CallNext? && h.calls == 1 then
        var (s1, o1) := Mutate(c, i, j + 1, action.arg, SetFields(s, action.arg, action.fields));
        s' == s1.(trace := s1.trace + [Exit(i, j)]) && o == Settled(h.decide(a, FieldsOf(s1, a), [o1]))
      else s' == s.(trace := s.trace + [Exit(i, j)]) && o == Settled(action)
  {
    var h := c.hooks[i][j];
    var action := h.decide(a, FieldsOf(s, a), []);
    if action.CallNext? && h.calls == 1 {
      var (s1, o1) := Mutate(c, i, j + 1, action.arg, SetFields(s, action.arg, action.fields));
      assert [] + [o1] == [o1];
      assert RunHook(c, i, j, a, [], s) == RunHook(c, i, j, a, [o1], s1);
    }
  }

  /** A well-behaved hook that makes its one call. */
  lemma {:induction false} CallEnds(c: Config, i: nat, j: nat, a: Arg, b: Arg, f: Fields, s: State)
    requires i < |c.hooks| && j < |c.hooks[i]| && Shaped(c, s) && Built(i, s)
    requires AllHooks(c, WellBehaved) && c.hooks[i][j].calls == 1
    requires c.hooks[i][j].decide(a, FieldsOf(s, a), []) == CallNext(b, f)
    ensures Ends(c, i, s, RunHook(c, i, j, a, [], s).0, RunHook(c, i, j, a, [], s).1)
    decreases |c.hooks| - i, |c.hooks[i]| - j, 0
  {
    var h := c.hooks[i][j];
    assert WellBehaved(h);
    MutateEnds(c, i, j + 1, b, SetFields(s, b, f));
    var (s', o) := Mutate(c, i, j + 1, b, SetFields(s, b, f));
    EndsAfterSetFields(c, i, b, f, s, s', o);
    OneCall(c, i, j, a, s);
    EndsAfterExit(c, i, s, s', o, s'.trace + [Exit(i, j)], RunHook(c, i, j, a, [], s).1);
  }

  lemma {:induction false} CoreEnds(c: Config, i: nat, a: Arg, s: State)
    requires i < |c.hooks| && Shaped(c, s) && Built(i, s)
    requires AllHooks(c, WellBehaved)
    ensures Ends(c, i, s, Core(c, i, a, s).0, Core(c, i, a, s).1)
    decreases |c.hooks| - i, 0, 0
  {
    if !a.Foreign? && c.check(MutationAt(s, s.current[i]).fields) {
      var s1 := Start(i, a.at, s);
      var (s2, o) := if i < |c.hooks| - 1 then Mutate(c, i + 1, 0, Ref(s1.current[i + 1]), s1) else BatchCreate(c, s1);
      if i < |c.hooks| - 1 {
        MutateEnds(c, i + 1, 0, Ref(s1.current[i + 1]), s1);
      } else {
        InsertEnds(c, s1);
      }
      CoreFinish(c, i, a.at, s, s1, s2, o);
    }
  }

  lemma InsertEnds(c: Config, s: State)
    requires Shaped(c, s) && Built(|c.hooks|, s)
    ensures Ends(c, |c.hooks|, s, BatchCreate(c, s).0, BatchCreate(c, s).1)
  {
    var (s', o) := BatchCreate(c, s);
    assert DoneRefs(s') == DoneRefs(s);
    if o.Ok? {
      assert RefsFrom(s', |c.hooks|) == {};
      assert Inserted(c, |c.hooks|, |c.hooks|, s, s', o);
    }
  }

  /** From how the rest of the chain ended to how this builder's own step ends. */
  lemma CoreFinish(c: Config, i: nat, r: nat, s: State, s1: State, s2: State, o: Outcome)
    requires i < |c.hooks| && Shaped(c, s) && Built(i, s) && s1 == Start(i, r, s)
    requires Shaped(c, s2) && Ends(c, i + 1, s1, s2, o)
    ensures o.Err? ==> Ends(c, i, s, s2, o)
    ensures o.Ok? ==> forall v :: Ends(c, i, s, Finish(i, r, s2), Ok(v))
  {
    assert DoneRefs(s1) == DoneRefs(s);
    assert s2.current[..i] == s2.current[..i + 1][..i] == s.current[..i];
    assert s2.nodes[..i] == s2.nodes[..i + 1][..i] == s.nodes[..i];
    assert s2.specs[..i] == s2.specs[..i + 1][..i] == s.specs[..i];
    if o.Err? {
      var next := i + 1;
      if d :| Inserted(c, next, d, s1, s2, o) {
        assert Inserted(c, i, d, s, s2, o);
      }
    } else {
      assert Inserted(c, i + 1, i + 1, s1, s2, o);
      FinishInserted(c, i, r, s, s1, s2, o);
    }
  }

  lemma FinishInserted(c: Config, i: nat, r: nat, s: State, s1: State, s2: State, o: Outcome)
    requires i < |c.hooks| && Shaped(c, s) && s1 == Start(i, r, s) && DoneRefs(s1) == DoneRefs(s)
    requires Shaped(c, s2) && Untouched(i + 1, s1, s2) && o.Ok? && Inserted(c, i + 1, i + 1, s1, s2, o)
    ensures forall v :: Inserted(c, i, i, s, Finish(i, r, s2), Ok(v))
    ensures Untouched(i, s2, Finish(i, r, s2))
  {
    var s3 := Finish(i, r, s2);
    assert s2.current[i] == s2.current[..i + 1][i] == r;
    assert s2.nodes[i] == s2.nodes[..i + 1][i] == s1.nodes[i];
    assert s2.specs[i] == s2.specs[..i + 1][i] == s1.specs[i];
    assert DoneRefs(s3) == DoneRefs(s2) + {r};
    assert RefsFrom(s3, i) == RefsFrom(s2, i + 1) + {r};
  }

  /** Whether an insert has been done since. */
  ghost predicate Committed(s: State, s': State) {
    |s'.batches| > |s.batches| && s'.batches[|s'.batches| - 1].ok
  }

  /** If no hook vetoes a success, an insert that was done is reported as success. */
  lemma {:induction false} MutateFaithful(c: Config, i: nat, j: nat, a: Arg, s: State)
    requires i < |c.hooks| && j <= |c.hooks[i]| && Shaped(c, s) && Built(i, s)
    requires AllHooks(c, WellBehaved) && AllHooks(c, Faithful)
    ensures Committed(s, Mutate(c, i, j, a, s).0) ==> Mutate(c, i, j, a, s).1.Ok?
    decreases |c.hooks| - i, |c.hooks[i]| - j
  {
    if j == |c.hooks[i]| {
      if !a.Foreign? && c.check(MutationAt(s, s.current[i]).fields) && i < |c.hooks| - 1 {
        MutateFaithful(c, i + 1, 0, Ref(Start(i, a.at, s).current[i + 1]), Start(i, a.at, s));
      }
    } else {
      var s0, h := s.(trace := s.trace + [Enter(i, j)]), c.hooks[i][j];
      assert WellBehaved(h) && Faithful(h);
      var action := h.decide(a, FieldsOf(s0, a), []);
      OneCall(c, i, j, a, s0);
      if action.CallNext? && h.calls == 1 {
        MutateFaithful(c, i, j + 1, action.arg, SetFields(s0, action.arg, action.fields));
      }
    }
  }

  /** Bulk creation is all or nothing. With well-behaved hooks the insert is tried at most once, and
      then with a spec for every builder, the one its node was built from. Success means it was done,
      every node carries its own id, and every mutation is marked done. Failure returns no nodes; then
      a mutation is marked done exactly if the insert was done and a hook failed afterwards. */
  lemma SaveAllOrNothing(c: Config, s: State)
    requires Shaped(c, s) && |c.hooks| > 0 && AllHooks(c, WellBehaved)
    requires s.batches == [] && DoneRefs(s) == {}
    ensures var (s', r) := RunSave(c, s);
      && (s'.batches == [] || (exists ok :: s'.batches == [Batch(s'.specs, ok)] && Built(|c.hooks|, s')))
      && (r.Some? ==> r.value == s'.nodes && Committed(s, s') && Numbered(0, s') && DoneRefs(s') == RefsFrom(s', 0))
      && (r.None? ==> (DoneRefs(s') == {} <==> !Committed(s, s')))
  {
    MutateEnds(c, 0, 0, Ref(s.current[0]), s);
    var (s', o) := Mutate(c, 0, 0, Ref(s.current[0]), s);
    var none: nat := 0;
    if d: nat :| Inserted(c, none, d, s, s', o) {
      if o.Err? {
        assert s'.current[d] in RefsFrom(s', d);
      }
    }
  }

  /** If moreover no hook vetoes a success, a failing bulk create has inserted nothing and marked nothing. */
  lemma SaveFaithful(c: Config, s: State)
    requires Shaped(c, s) && |c.hooks| > 0 && AllHooks(c, WellBehaved) && AllHooks(c, Faithful)
    requires s.batches == [] && DoneRefs(s) == {}
    ensures var (s', r) := RunSave(c, s); r.None? <==> !Committed(s, s') && DoneRefs(s') == {}
  {
    SaveAllOrNothing(c, s);
    MutateFaithful(c, 0, 0, Ref(s.current[0]), s);
  }

  // ---------------------------------------------------------------- when failure means nothing inserted

  /** One builder, with one hook, before its run. */
  function Single(r: nat, f0: Fields, hook: Hook, check: Fields -> bool, ids: nat -> Option<int>): (Config, State) {
    (Config([[hook]], (f: Fields) => f, check, (specs: seq<Option<Fields>>, n: nat) => Some(ids)),
     State(map[r := Mutation(f0, None, false)], [r], [None], [None], [], ids, []))
  }

  function IdOf(id: Option<int>): int {
    if id.Some? then id.value else 0
  }

  /** The fields the hook finds in the builder's mutation after it has passed on the one at m with fields g. */
  function Seen(r: nat, f0: Fields, m: nat, g: Fields): Fields {
    if m == r then g else f0
  }

  /** The whole run, for any hook that calls next at most once. */
  lemma SingleRun(r: nat, h: Hook, f0: Fields, check: Fields -> bool, ids: nat -> Option<int>)
    requires h.calls <= 1
    ensures var (c, s) := Single(r, f0, h, check, ids);
      var (s', nodes) := RunSave(c, s);
      var action := h.decide(Ref(r), f0, []);
      if h.calls == 1 && action.CallNext? && action.arg.Ref? && check(Seen(r, f0, action.arg.at, action.fields)) then
        var m, g := action.arg.at, action.fields;
        && s'.batches == [Batch([Some(g)], true)] && DoneRefs(s') == {m}
        && (nodes.None? <==> Settled(h.decide(Ref(r), Seen(r, f0, m, g), [Ok(Some(Node(IdOf(ids(0)), g)))])).Err?)
      else s'.batches == []
  {
    var (c, s) := Single(r, f0, h, check, ids);
    var s0 := s.(trace := s.trace + [Enter(0, 0)]);
    var action := h.decide(Ref(r), f0, []);
    OneCall(c, 0, 0, Ref(r), s0);
    assert FieldsOf(s0, Ref(r)) == f0;
    if h.calls == 1 && action.CallNext? {
      SingleCore(r, h, f0, check, ids, s0.trace, action.arg, action.fields);
    }
  }

  /** The builder's own step of that run. */
  lemma SingleCore(r: nat, h: Hook, f0: Fields, check: Fields -> bool, ids: nat -> Option<int>, trace: seq<Event>, b: Arg, g: Fields)
    ensures var (c, s) := Single(r, f0, h, check, ids);
      var (s1, o1) := Mutate(c, 0, 1, b, SetFields(s.(trace := trace), b, g));
      if b.Ref? && check(Seen(r, f0, b.at, g)) then
        && s1.batches == [Batch([Some(g)], true)] && DoneRefs(s1) == {b.at}
        && FieldsOf(s1, Ref(r)) == Seen(r, f0, b.at, g) && o1 == Ok(Some(Node(IdOf(ids(0)), g)))
      else s1.batches == []
  {
    var (c, s) := Single(r, f0, h, check, ids);
    var t := SetFields(s.(trace := trace), b, g);
    if b.Ref? {
      assert MutationAt(t, b.at).fields == g && MutationAt(t, r).fields == Seen(r, f0, b.at, g);
      var s1 := Start(0, b.at, t);
      assert s1.specs == [Some(g)] && s1.nodes == [Some(Node(0, g))];
      assert DoneRefs(s1) == {};
      var s2 := BatchCreate(c, s1).0;
      assert s2.batches == [] + [Batch([Some(g)], true)];
    }
  }

  /** A failing run has inserted nothing. */
  ghost predicate FailsClean(run: (Config, State))
    requires Shaped(run.0, run.1)
  {
    RunSave(run.0, run.1).1.None? ==> !Committed(run.1, RunSave(run.0, run.1).0)
  }

  /** If the hook passes a mutation on and gets its node back, it succeeds. */
  predicate PassesOn(r: nat, h: Hook, f0: Fields, id: int) {
    var action := h.decide(Ref(r), f0, []);
    h.calls == 1 && action.CallNext? && action.arg.Ref? ==>
      Settled(h.decide(Ref(r), Seen(r, f0, action.arg.at, action.fields), [Ok(Some(Node(id, action.fields)))])).Ok?
  }

  /** Failure means that nothing was inserted, under every check and every id the insert gives, exactly
      when the hook succeeds whenever it has made its call and the node came back. */
  lemma FailsCleanIffPassesOn(r: nat, h: Hook)
    requires WellBehaved(h)
    ensures (forall f0: Fields, check: Fields -> bool, ids: nat -> Option<int> :: FailsClean(Single(r, f0, h, check, ids)))
       <==> (forall f0: Fields, id: int :: PassesOn(r, h, f0, id))
  {
    if forall f0: Fields, check: Fields -> bool, ids: nat -> Option<int> :: FailsClean(Single(r, f0, h, check, ids)) {
      forall f0: Fields, id: int ensures PassesOn(r, h, f0, id) {
        var check, ids := (f: Fields) => true, (k: nat) => Some(id);
        SingleRun(r, h, f0, check, ids);
        assert FailsClean(Single(r, f0, h, check, ids));
      }
    }
    if forall f0: Fields, id: int :: PassesOn(r, h, f0, id) {
      forall f0: Fields, check: Fields -> bool, ids: nat -> Option<int> ensures FailsClean(Single(r, f0, h, check, ids)) {
        SingleRun(r, h, f0, check, ids);
        assert PassesOn(r, h, f0, IdOf(ids(0)));
      }
    }
  }

  /** A hook that hands its mutation on and fails whatever came back. */
  function Veto(m: nat, f: Fields): Hook {
    Hook((a: Arg, g: Fields, history: seq<Outcome>) => if history == [] then CallNext(Ref(m), f) else Return(Err("veto")), 1)
  }

  /** Such a hook is well behaved, and makes a bulk create fail after its row was inserted and its
      mutation was marked done. */
  lemma VetoAfterInsert(r: nat, f: Fields, ids: nat -> Option<int>)
    ensures WellBehaved(Veto(r, f)) && !Faithful(Veto(r, f))
    ensures var (c, s) := Single(r, f, Veto(r, f), (g: Fields) => true, ids);
      RunSave(c, s).1.None? && Committed(s, RunSave(c, s).0) && DoneRefs(RunSave(c, s).0) == {r}
  {
    var h := Veto(r, f);
    SingleRun(r, h, f, (g: Fields) => true, ids);
    assert h.decide(Ref(r), f, []).CallNext? && h.decide(Ref(r), f, [Ok(None)]).outcome.Err?;
  }

  // ---------------------------------------------------------------- the order of the hooks

  /** A hook that calls next at most once, whatever it makes of the outcome. */
  predicate CallsOnce(h: Hook) {
    h.calls <= 1
  }

  /** The hooks in the order they are entered: by builder, then by position. */
  function Path(c: Config, i: nat, j: nat): seq<(nat, nat)>
    requires i <= |c.hooks|
    decreases |c.hooks| - i, if i < |c.hooks| then |c.hooks[i]| - j else 0
  {
    if i == |c.hooks| then []
    else if j >= |c.hooks[i]| then Path(c, i + 1, 0)
    else [(i, j)] + Path(c, i, j + 1)
  }

  function Enters(path: seq<(nat, nat)>): seq<Event> {
    if path == [] then [] else [Enter(path[0].0, path[0].1)] + Enters(path[1..])
  }

  function Exits(path: seq<(nat, nat)>): seq<Event> {
    if path == [] then [] else Exits(path[1..]) + [Exit(path[0].0, path[0].1)]
  }

  /** The hooks up to some point are entered in order and left in reverse; the insert, if it is
      tried, is in the middle, inside all of them. */
  ghost predicate Bracketed(path: seq<(nat, nat)>, k: nat, s: State, s': State) {
    && k <= |path| && (s'.batches != s.batches ==> k == |path|)
    && s'.trace == s.trace + Enters(path[..k]) + (if s'.batches != s.batches then [Insert] else []) + Exits(path[..k])
  }

  lemma BracketedOuter(path: seq<(nat, nat)>, k: nat, s0: State, s1: State, s: State, s': State)
    requires path != [] && s0.batches == s.batches && s'.batches == s1.batches
    requires s.trace == s0.trace + [Enter(path[0].0, path[0].1)]
    requires s'.trace == s1.trace + [Exit(path[0].0, path[0].1)]
    requires Bracketed(path[1..], k, s, s1)
    ensures Bracketed(path, k + 1, s0, s')
  {
    assert path[..k + 1][1..] == path[1..][..k];
    assert path[..k + 1][0] == path[0];
  }

  lemma {:induction false} MutateOrdered(c: Config, i: nat, j: nat, a: Arg, s: State) returns (k: nat)
    requires i < |c.hooks| && j <= |c.hooks[i]| && Shaped(c, s)
    requires AllHooks(c, CallsOnce)
    ensures Bracketed(Path(c, i, j), k, s, Mutate(c, i, j, a, s).0)
    decreases |c.hooks| - i, |c.hooks[i]| - j, 1
  {
    if j == |c.hooks[i]| {
      k := CoreOrdered(c, i, a, s);
    } else {
      var s0, h := s.(trace := s.trace + [Enter(i, j)]), c.hooks[i][j];
      assert CallsOnce(h);
      var action := h.decide(a, FieldsOf(s0, a), []);
      var s' := Mutate(c, i, j, a, s).0;
      assert Path(c, i, j)[1..] == Path(c, i, j + 1);
      OneCall(c, i, j, a, s0);
      k := 0;
      if action.CallNext? && h.calls == 1 {
        var t := SetFields(s0, action.arg, action.fields);
        k := MutateOrdered(c, i, j + 1, action.arg, t);
        var s1 := Mutate(c, i, j + 1, action.arg, t).0;
        BracketedOuter(Path(c, i, j), k, s, s1, t, s');
      } else {
        assert Bracketed(Path(c, i, j)[1..], 0, s0, s0);
        BracketedOuter(Path(c, i, j), 0, s, s0, s0, s');
      }
      k := k + 1;
    }
  }

  lemma {:induction false} CoreOrdered(c: Config, i: nat, a: Arg, s: State) returns (k: nat)
    requires i < |c.hooks| && Shaped(c, s) && AllHooks(c, CallsOnce)
    ensures Bracketed(Path(c, i, |c.hooks[i]|), k, s, Core(c, i, a, s).0)
    decreases |c.hooks| - i, 0, 0
  {
    k := 0;
    var path := Path(c, i, |c.hooks[i]|);
    assert path == Path(c, i + 1, 0);
    if !a.Foreign? && c.check(MutationAt(s, s.current[i]).fields) {
      var s1, s' := Start(i, a.at, s), Core(c, i, a, s).0;
      if i < |c.hooks| - 1 {
        k := MutateOrdered(c, i + 1, 0, Ref(s1.current[i + 1]), s1);
        var s2 := Mutate(c, i + 1, 0, Ref(s1.current[i + 1]), s1).0;
        assert s'.trace == s2.trace && s'.batches == s2.batches;
      } else {
        assert path == [];
        assert s'.trace == s.trace + [Insert] && |s'.batches| == |s.batches| + 1;
      }
    }
  }

  // ---------------------------------------------------------------- what is inserted has been checked

  /** A hook that hands on the mutation it was given in the calls it makes. */
  ghost predicate HandsOn(h: Hook) {
    forall a: Arg, f: Fields, history: seq<Outcome> ::
      |history| < h.calls && h.decide(a, f, history).CallNext? ==> h.decide(a, f, history).arg == a
  }

  /** A hook that in the calls it makes hands on the mutation it was given, or something that is no
      account mutation; something of another type comes without fields. */
  ghost predicate HandsOwn(h: Hook) {
    forall a: Arg, f: Fields, history: seq<Outcome> ::
      |history| < h.calls && (a.Foreign? ==> f == map[]) && h.decide(a, f, history).CallNext? ==>
        h.decide(a, f, history).arg == a || h.decide(a, f, history).arg.Foreign?
  }

  predicate Passes(c: Config, spec: Option<Fields>) {
    spec.Some? && c.check(spec.value)
  }

  /** The specs of the first i builders, and all specs ever inserted, have passed the check. */
  ghost predicate Checked(c: Config, i: nat, s: State) {
    && i <= |s.specs|
    && (forall k :: 0 <= k < i ==> Passes(c, s.specs[k]))
    && (forall b, k :: 0 <= b < |s.batches| && 0 <= k < |s.batches[b].specs| ==> Passes(c, s.batches[b].specs[k]))
  }

  /** What builder i's hooks are handed: its own mutation, or nothing of use. */
  predicate OwnArg(s: State, i: nat, a: Arg)
    requires i < |s.current|
  {
    a == Ref(s.current[i]) || a.Foreign?
  }

  lemma {:induction false} MutateChecked(c: Config, i: nat, j: nat, a: Arg, s: State)
    requires i < |c.hooks| && j <= |c.hooks[i]| && Shaped(c, s) && OwnArg(s, i, a) && Checked(c, i, s)
    requires AllHooks(c, HandsOwn)
    ensures var s' := Mutate(c, i, j, a, s).0; s'.current == s.current && Checked(c, i, s')
    decreases |c.hooks| - i, |c.hooks[i]| - j, 1
  {
    if j == |c.hooks[i]| {
      if a.Ref? && c.check(MutationAt(s, a.at).fields) {
        var s1 := Start(i, a.at, s);
        StartChecked(c, i, s);
        if i < |c.hooks| - 1 {
          MutateChecked(c, i + 1, 0, Ref(s1.current[i + 1]), s1);
        } else {
          InsertChecked(c, s1);
        }
      }
    } else {
      RunHookChecked(c, i, j, a, [], s.(trace := s.trace + [Enter(i, j)]));
    }
  }

  lemma StartChecked(c: Config, i: nat, s: State)
    requires i < |c.hooks| && Shaped(c, s) && Checked(c, i, s) && c.check(MutationAt(s, s.current[i]).fields)
    ensures Start(i, s.current[i], s).current == s.current && Checked(c, i + 1, Start(i, s.current[i], s))
  {
    var s1 := Start(i, s.current[i], s);
    assert s1.batches == s.batches && forall k :: 0 <= k < i ==> s1.specs[k] == s.specs[k];
    assert Passes(c, s1.specs[i]);
  }

  lemma InsertChecked(c: Config, s: State)
    requires Shaped(c, s) && Checked(c, |c.hooks|, s)
    ensures BatchCreate(c, s).0.current == s.current && Checked(c, |c.hooks|, BatchCreate(c, s).0)
  {
  }

  lemma {:induction false} RunHookChecked(c: Config, i: nat, j: nat, a: Arg, history: seq<Outcome>, s: State)
    requires i < |c.hooks| && j < |c.hooks[i]| && Shaped(c, s) && |history| <= c.hooks[i][j].calls
    requires OwnArg(s, i, a) && Checked(c, i, s) && AllHooks(c, HandsOwn)
    ensures var s' := RunHook(c, i, j, a, history, s).0; s'.current == s.current && Checked(c, i, s')
    decreases |c.hooks| - i, |c.hooks[i]| - j, 0, c.hooks[i][j].calls - |history|
  {
    var h := c.hooks[i][j];
    assert HandsOwn(h);
    var action := h.decide(a, FieldsOf(s, a), history);
    if action.CallNext? && |history| < h.calls {
      var t := SetFields(s, action.arg, action.fields);
      MutateChecked(c, i, j + 1, action.arg, t);
      var (s', o) := Mutate(c, i, j + 1, action.arg, t);
      RunHookChecked(c, i, j, a, history + [o], s');
    }
  }

  /** Hooks may edit mutations, call next often, veto or swallow errors: as long as each hands on the
      mutation it was given, nothing that fails the check is ever inserted. */
  lemma SaveInsertsChecked(c: Config, s: State)
    requires Shaped(c, s) && |c.hooks| > 0 && AllHooks(c, HandsOwn) && s.batches == []
    ensures forall b, k :: 0 <= b < |RunSave(c, s).0.batches| && 0 <= k < |RunSave(c, s).0.batches[b].specs| ==>
      Passes(c, RunSave(c, s).0.batches[b].specs[k])
  {
    MutateChecked(c, 0, 0, Ref(s.current[0]), s);
  }

  ghost predicate OnlyChecked(run: (Config, State))
    requires Shaped(run.0, run.1)
  {
    forall b, k :: 0 <= b < |RunSave(run.0, run.1).0.batches| && 0 <= k < |RunSave(run.0, run.1).0.batches[b].specs| ==>
      Passes(run.0, RunSave(run.0, run.1).0.batches[b].specs[k])
  }

  /** Whatever mutation the hook passes on, it is the builder's own or has the fields of the builder's own. */
  predicate OwnOrSame(r: nat, h: Hook, f0: Fields) {
    var action := h.decide(Ref(r), f0, []);
    h.calls == 1 && action.CallNext? && action.arg.Ref? ==> action.arg.at == r || action.fields == f0
  }

  /** The check looks at the builder's mutation before the builder adopts the one it was handed: a
      hook keeps unchecked fields out, under every check, exactly when it never passes on another
      mutation with other fields. */
  lemma CheckedIffOwnMutation(r: nat, h: Hook)
    requires CallsOnce(h)
    ensures (forall f0: Fields, check: Fields -> bool, ids: nat -> Option<int> :: OnlyChecked(Single(r, f0, h, check, ids)))
       <==> (forall f0: Fields :: OwnOrSame(r, h, f0))
  {
    if forall f0: Fields, check: Fields -> bool, ids: nat -> Option<int> :: OnlyChecked(Single(r, f0, h, check, ids)) {
      forall f0: Fields ensures OwnOrSame(r, h, f0) {
        var check, ids := (f: Fields) => f == f0, (k: nat) => None;
        CheckedSpec(r, h, f0, check, ids);
        assert OnlyChecked(Single(r, f0, h, check, ids));
      }
    }
    if forall f0: Fields :: OwnOrSame(r, h, f0) {
      forall f0: Fields, check: Fields -> bool, ids: nat -> Option<int> ensures OnlyChecked(Single(r, f0, h, check, ids)) {
        CheckedSpec(r, h, f0, check, ids);
        assert OwnOrSame(r, h, f0);
      }
    }
  }

  /** What is checked and what is inserted in the run of one hook. */
  lemma CheckedSpec(r: nat, h: Hook, f0: Fields, check: Fields -> bool, ids: nat -> Option<int>)
    requires CallsOnce(h)
    ensures var action := h.decide(Ref(r), f0, []);
      OnlyChecked(Single(r, f0, h, check, ids)) <==>
        (h.calls == 1 && action.CallNext? && action.arg.Ref? && check(Seen(r, f0, action.arg.at, action.fields)) ==>
          check(action.fields))
  {
    var (c, s) := Single(r, f0, h, check, ids);
    var batches := RunSave(c, s).0.batches;
    SingleRun(r, h, f0, check, ids);
    assert c.check == check;
    if batches != [] && OnlyChecked((c, s)) {
      assert Passes(c, batches[0].specs[0]);
    }
  }

  // ---------------------------------------------------------------- each spec is its builder's own

  /** No two builders share a mutation. */
  ghost predicate Apart(s: State) {
    forall i, j :: 0 <= i < j < |s.current| ==> s.current[i] != s.current[j]
  }

  function Own(s: State, k: nat): Mutation
    requires k < |s.current|
  {
    MutationAt(s, s.current[k])
  }

  /** Builder k's spec and node hold the fields of its mutation. */
  predicate BuiltFromOwn(s: State, k: nat)
    requires k < |s.current| && k < |s.nodes| && k < |s.specs|
  {
    s.specs[k] == Some(Own(s, k).fields) && s.nodes[k].Some? && s.nodes[k].value.fields == Own(s, k).fields
  }

  /** Builder k's mutation is marked done and holds the id of its node. */
  predicate Filed(s: State, k: nat)
    requires k < |s.current| && k < |s.nodes|
  {
    s.nodes[k].Some? && Own(s, k) == Mutation(s.nodes[k].value.fields, Some(s.nodes[k].value.id), true)
  }

  ghost predicate OwnUpTo(i: nat, s: State)
    requires i <= |s.current| == |s.nodes| == |s.specs|
  {
    forall k :: 0 <= k < i ==> BuiltFromOwn(s, k)
  }

  /** The first i builders hold what they held, their mutations included. */
  ghost predicate OwnKept(i: nat, s: State, s': State)
    requires i <= |s.current| == |s.nodes| == |s.specs| == |s'.nodes| == |s'.specs|
  {
    s'.current == s.current && forall k :: 0 <= k < i ==>
      s'.specs[k] == s.specs[k] && s'.nodes[k] == s.nodes[k] && MutationAt(s', s.current[k]) == Own(s, k)
  }

  /** Nothing was inserted, or every builder's spec, built from its own mutation; on success every
      mutation from builder i on has been filed. */
  ghost predicate OwnEnds(c: Config, i: nat, s: State, s': State, o: Outcome)
    requires Shaped(c, s) && Shaped(c, s') && i <= |c.hooks|
  {
    && OwnKept(i, s, s')
    && (s'.batches == s.batches
        || exists ok :: s'.batches == s.batches + [Batch(s'.specs, ok)] && OwnUpTo(|c.hooks|, s'))
    && (o.Ok? ==> s'.batches != s.batches && forall k :: i <= k < |c.hooks| ==> Filed(s', k))
  }

  ghost predicate Orderly(h: Hook) {
    WellBehaved(h) && HandsOn(h)
  }

  lemma {:induction false} MutateOwn(c: Config, i: nat, j: nat, s: State)
    requires i < |c.hooks| && j <= |c.hooks[i]| && Shaped(c, s) && Apart(s) && OwnUpTo(i, s)
    requires AllHooks(c, Orderly)
    ensures OwnEnds(c, i, s, Mutate(c, i, j, Ref(s.current[i]), s).0, Mutate(c, i, j, Ref(s.current[i]), s).1)
    decreases |c.hooks| - i, |c.hooks[i]| - j
  {
    var a := Ref(s.current[i]);
    if j == |c.hooks[i]| {
      if c.check(Own(s, i).fields) {
        var s1 := Start(i, a.at, s);
        StartOwn(c, i, s);
        if i < |c.hooks| - 1 {
          MutateOwn(c, i + 1, 0, s1);
          FinishOwn(c, i, s, s1, Mutate(c, i + 1, 0, Ref(s1.current[i + 1]), s1).0, Mutate(c, i + 1, 0, Ref(s1.current[i + 1]), s1).1);
        } else {
          InsertOwn(c, s1);
          FinishOwn(c, i, s, s1, BatchCreate(c, s1).0, BatchCreate(c, s1).1);
        }
      }
    } else {
      var s0, h := s.(trace := s.trace + [Enter(i, j)]), c.hooks[i][j];
      assert Orderly(h);
      var action := h.decide(a, FieldsOf(s0, a), []);
      OneCall(c, i, j, a, s0);
      if action.CallNext? && h.calls == 1 {
        var t := SetFields(s0, a, action.fields);
        assert OwnKept(i, s, t);
        KeptUpTo(i, s, t);
        MutateOwn(c, i, j + 1, t);
        var (s1, o1) := Mutate(c, i, j + 1, a, t);
        HookOwn(c, i, s, t, s1, o1, s1.trace + [Exit(i, j)], Mutate(c, i, j, a, s).1);
      }
    }
  }

  lemma KeptUpTo(i: nat, s: State, s': State)
    requires i <= |s.current| == |s.nodes| == |s.specs| == |s'.nodes| == |s'.specs|
    requires OwnKept(i, s, s') && OwnUpTo(i, s)
    ensures OwnUpTo(i, s')
  {
    forall k | 0 <= k < i ensures BuiltFromOwn(s', k) {
      assert BuiltFromOwn(s, k) && s'.specs[k] == s.specs[k];
    }
  }

  /** A hook around the call: what it set before is its builder's own, and it may only fail after. */
  lemma HookOwn(c: Config, i: nat, s: State, t: State, s1: State, o1: Outcome, trace: seq<Event>, o: Outcome)
    requires i < |c.hooks| && Shaped(c, s) && Shaped(c, t) && Shaped(c, s1)
    requires OwnKept(i, s, t) && t.batches == s.batches && OwnEnds(c, i, t, s1, o1) && (o.Ok? ==> o1.Ok?)
    ensures OwnEnds(c, i, s, s1.(trace := trace), o)
  {
    var s' := s1.(trace := trace);
    assert OwnKept(i, s, s') by {
      forall k | 0 <= k < i ensures s'.specs[k] == s.specs[k] && s'.nodes[k] == s.nodes[k] && MutationAt(s', s.current[k]) == Own(s, k) {
        assert t.specs[k] == s.specs[k] && t.nodes[k] == s.nodes[k] && MutationAt(t, t.current[k]) == Own(s, k);
      }
    }
    if ok :| s1.batches == t.batches + [Batch(s1.specs, ok)] && OwnUpTo(|c.hooks|, s1) {
      SameUpTo(|c.hooks|, s1, s');
      assert s'.batches == s.batches + [Batch(s'.specs, ok)] && OwnUpTo(|c.hooks|, s');
    }
    if o.Ok? {
      forall k | i <= k < |c.hooks| ensures Filed(s', k) {
        assert Filed(s1, k) && Own(s', k) == Own(s1, k);
      }
    }
  }

  lemma SameUpTo(n: nat, s: State, s': State)
    requires n <= |s.current| == |s.nodes| == |s.specs| && OwnUpTo(n, s)
    requires s'.current == s.current && s'.nodes == s.nodes && s'.specs == s.specs && s'.mutations == s.mutations
    ensures OwnUpTo(n, s')
  {
    forall k | 0 <= k < n ensures BuiltFromOwn(s', k) {
      assert BuiltFromOwn(s, k) && Own(s', k) == Own(s, k);
    }
  }

  lemma StartOwn(c: Config, i: nat, s: State)
    requires i < |c.hooks| && Shaped(c, s) && Apart(s) && OwnUpTo(i, s)
    ensures var s1 := Start(i, s.current[i], s);
      Shaped(c, s1) && s1.current == s.current && OwnUpTo(i + 1, s1) && OwnKept(i, s, s1) && s1.batches == s.batches
  {
    var s1 := Start(i, s.current[i], s);
    assert s1.current == s.current && OwnKept(i, s, s1);
    KeptUpTo(i, s, s1);
    assert Own(s1, i) == Own(s, i) && BuiltFromOwn(s1, i);
  }

  lemma InsertOwn(c: Config, s: State)
    requires Shaped(c, s) && OwnUpTo(|c.hooks|, s)
    ensures OwnEnds(c, |c.hooks|, s, BatchCreate(c, s).0, BatchCreate(c, s).1)
  {
    var s' := BatchCreate(c, s).0;
    assert forall k :: 0 <= k < |c.hooks| ==> BuiltFromOwn(s, k) ==> BuiltFromOwn(s', k);
    assert s'.batches == s.batches + [Batch(s'.specs, true)] || s'.batches == s.batches + [Batch(s'.specs, false)];
  }

  /** From how the rest of the chain ended to how this builder's own step ends. */
  lemma FinishOwn(c: Config, i: nat, s: State, s1: State, s2: State, o: Outcome)
    requires i < |c.hooks| && Shaped(c, s) && Shaped(c, s1) && Shaped(c, s2) && Apart(s)
    requires s1.current == s.current && s1.batches == s.batches && OwnKept(i, s, s1) && OwnUpTo(i + 1, s1)
    requires OwnEnds(c, i + 1, s1, s2, o)
    ensures o.Err? ==> OwnEnds(c, i, s, s2, o)
    ensures o.Ok? ==> forall v :: OwnEnds(c, i, s, Finish(i, s.current[i], s2), Ok(v))
  {
    assert OwnKept(i, s, s2);
    if o.Ok? {
      assert BuiltFromOwn(s1, i) && s2.specs[i] == s1.specs[i];
      assert BuiltFromOwn(s2, i);
      FileOwn(c, i, s2);
      var s3 := Finish(i, s.current[i], s2);
      assert OwnKept(i, s, s3);
      var ok :| s2.batches == s.batches + [Batch(s2.specs, ok)] && OwnUpTo(|c.hooks|, s2);
      assert s3.batches == s.batches + [Batch(s3.specs, ok)];
      forall k | 0 <= k < |c.hooks| ensures BuiltFromOwn(s3, k) {
        assert BuiltFromOwn(s2, k);
      }
      assert OwnUpTo(|c.hooks|, s3);
      forall k | i <= k < |c.hooks| ensures Filed(s3, k) {
        assert k > i ==> Filed(s2, k);
      }
    }
  }

  /** Filing builder i changes no other mutation, and no fields. */
  lemma FileOwn(c: Config, i: nat, s: State)
    requires i < |c.hooks| && Shaped(c, s) && Apart(s) && BuiltFromOwn(s, i)
    ensures var s' := Finish(i, s.current[i], s);
      && Shaped(c, s') && s'.current == s.current && s'.specs == s.specs && s'.batches == s.batches && Filed(s', i)
      && (forall k :: 0 <= k < |c.hooks| && k != i ==> s'.nodes[k] == s.nodes[k] && Own(s', k) == Own(s, k))
      && (forall k :: 0 <= k < |c.hooks| && BuiltFromOwn(s, k) ==> BuiltFromOwn(s', k))
  {
  }

  /** With orderly hooks on builders of their own mutations: if anything is inserted, spec k is what
      builder k's mutation holds and has passed the check, for every k; and on success that mutation
      is marked done with the id of node k. */
  lemma SaveInsertsOwn(c: Config, s: State)
    requires Shaped(c, s) && |c.hooks| > 0 && AllHooks(c, Orderly) && Apart(s) && s.batches == []
    ensures var (s', r) := RunSave(c, s);
      && s'.current == s.current
      && (s'.batches != [] ==> |s'.batches| == 1 && |s'.batches[0].specs| == |c.hooks| && forall k :: 0 <= k < |c.hooks| ==>
           s'.batches[0].specs[k] == Some(Own(s', k).fields) && c.check(Own(s', k).fields))
      && (r.Some? ==> s'.batches != [] && forall k :: 0 <= k < |c.hooks| ==> Filed(s', k) && r.value[k] == s'.nodes[k])
  {
    MutateOwn(c, 0, 0, s);
    assert AllHooks(c, HandsOwn) by {
      forall i, j | 0 <= i < |c.hooks| && 0 <= j < |c.hooks[i]| ensures HandsOwn(c.hooks[i][j]) {
        assert Orderly(c.hooks[i][j]);
      }
    }
    SaveInsertsChecked(c, s);
    var s' := RunSave(c, s).0;
    if s'.batches != [] {
      forall k | 0 <= k < |c.hooks| ensures s'.batches[0].specs[k] == Some(Own(s', k).fields) && c.check(Own(s', k).fields) {
        assert BuiltFromOwn(s', k);
        assert Passes(c, s'.batches[0].specs[k]);
      }
    }
  }

  // ---------------------------------------------------------------- a field that nobody fills

  /** A hook that hands on the mutation at r with x set only if it was handed that mutation with x set. */
  ghost predicate NeverFills(x: RowCodec.Field, r: nat, h: Hook) {
    forall a: Arg, f: Fields, history: seq<Outcome> ::
      h.decide(a, f, history).CallNext? && h.decide(a, f, history).arg == Ref(r) && x in h.decide(a, f, history).fields ==>
        a == Ref(r) && x in f
  }

  ghost predicate NobodyFills(c: Config, x: RowCodec.Field, r: nat) {
    forall i, j :: 0 <= i < |c.hooks| && 0 <= j < |c.hooks[i]| ==> NeverFills(x, r, c.hooks[i][j])
  }

  /** The check fails when x is missing. */
  ghost predicate Insists(c: Config, x: RowCodec.Field) {
    forall f: Fields :: c.check(f) ==> x in f
  }

  /** Builder k's mutation is the one at r, and lacks x. */
  predicate Lacks(s: State, k: nat, r: nat, x: RowCodec.Field)
    requires k < |s.current|
  {
    s.current[k] == r && x !in MutationAt(s, r).fields
  }

  /** If the check insists on x, builder k lacks it and no hook fills it in there, the chain never reaches
      the insert, whatever else the hooks do and whatever mutations they hand on. */
  lemma {:induction false} MutateLacking(c: Config, i: nat, j: nat, a: Arg, s: State, k: nat, r: nat, x: RowCodec.Field)
    requires i <= k < |c.hooks| && j <= |c.hooks[i]| && Shaped(c, s) && Lacks(s, k, r, x)
    requires NobodyFills(c, x, r) && Insists(c, x)
    ensures var s' := Mutate(c, i, j, a, s).0; s'.batches == s.batches && Lacks(s', k, r, x)
    decreases |c.hooks| - i, |c.hooks[i]| - j, 1
  {
    if j == |c.hooks[i]| {
      if a.Ref? && c.check(MutationAt(s, s.current[i]).fields) {
        assert i != k;
        var s1 := Start(i, a.at, s);
        MutateLacking(c, i + 1, 0, Ref(s1.current[i + 1]), s1, k, r, x);
        FinishLacking(i, a.at, Mutate(c, i + 1, 0, Ref(s1.current[i + 1]), s1).0, k, r, x);
      }
    } else {
      RunHookLacking(c, i, j, a, [], s.(trace := s.trace + [Enter(i, j)]), k, r, x);
    }
  }

  lemma FinishLacking(i: nat, m: nat, s: State, k: nat, r: nat, x: RowCodec.Field)
    requires i < |s.nodes| && k < |s.current| && Lacks(s, k, r, x)
    ensures Finish(i, m, s).batches == s.batches && |Finish(i, m, s).current| == |s.current| && Lacks(Finish(i, m, s), k, r, x)
  {
  }

  lemma SetLacking(h: Hook, a: Arg, history: seq<Outcome>, s: State, k: nat, r: nat, x: RowCodec.Field)
    requires k < |s.current| && Lacks(s, k, r, x) && NeverFills(x, r, h)
    requires h.decide(a, FieldsOf(s, a), history).CallNext?
    ensures var action := h.decide(a, FieldsOf(s, a), history);
      var t := SetFields(s, action.arg, action.fields);
      t.current == s.current && Lacks(t, k, r, x)
  {
  }

  lemma {:induction false} RunHookLacking(
    c: Config, i: nat, j: nat, a: Arg, history: seq<Outcome>, s: State, k: nat, r: nat, x: RowCodec.Field)
    requires i <= k < |c.hooks| && j < |c.hooks[i]| && Shaped(c, s) && |history| <= c.hooks[i][j].calls
    requires Lacks(s, k, r, x) && NobodyFills(c, x, r) && Insists(c, x)
    ensures var s' := RunHook(c, i, j, a, history, s).0; s'.batches == s.batches && Lacks(s', k, r, x)
    decreases |c.hooks| - i, |c.hooks[i]| - j, 0, c.hooks[i][j].calls - |history|
  {
    var h := c.hooks[i][j];
    var action := h.decide(a, FieldsOf(s, a), history);
    if action.CallNext? && |history| < h.calls {
      var t := SetFields(s, action.arg, action.fields);
      SetLacking(h, a, history, s, k, r, x);
      MutateLacking(c, i, j + 1, action.arg, t, k, r, x);
      var (s', o) := Mutate(c, i, j + 1, action.arg, t);
      RunHookLacking(c, i, j, a, history + [o], s', k, r, x);
    }
  }

  /** Builder k's mutation gets its defaults once. */
  lemma {:induction false} DefaultedOwn(c: Config, s: State, n: nat, k: nat)
    requires k < |s.current| && n <= |s.current| && Apart(s)
    ensures Defaulted(c, s, n).current == s.current
    ensures Own(Defaulted(c, s, n), k).fields == if k < n then c.defaults(Own(s, k).fields) else Own(s, k).fields
  {
    if n > 0 {
      DefaultedOwn(c, s, n - 1, k);
    }
  }

  // ---------------------------------------------------------------- what a run does, exactly

  /** A hook that hands its mutation on once, with whatever fields it likes, and returns the outcome. */
  ghost predicate Forwards(h: Hook) {
    && h.calls == 1
    && (forall a: Arg, f: Fields :: h.decide(a, f, []).CallNext? && h.decide(a, f, []).arg == a)
    && (forall a: Arg, f: Fields, history: seq<Outcome> :: |history| == 1 ==> h.decide(a, f, history) == Return(history[0]))
  }

  /** What such hooks leave in the mutation at r. */
  function LeftBy(hooks: seq<Hook>, r: nat, f: Fields): Fields
    decreases |hooks|
  {
    if hooks == [] then f else
      var action := hooks[0].decide(Ref(r), f, []);
      LeftBy(hooks[1..], r, if action.CallNext? then action.fields else f)
  }

  /** The specs of a run from hook j of builder i on: those that are built, then what the hooks leave. */
  function Planned(c: Config, i: nat, j: nat, s: State): seq<Option<Fields>>
    requires i < |c.hooks| && j <= |c.hooks[i]| && Shaped(c, s)
  {
    seq(|c.hooks|, k requires 0 <= k < |c.hooks| =>
      if k < i then s.specs[k] else Some(LeftBy(if k == i then c.hooks[i][j..] else c.hooks[k], s.current[k], Own(s, k).fields)))
  }

  ghost predicate AllPass(c: Config, i: nat, planned: seq<Option<Fields>>) {
    forall k :: i <= k < |planned| ==> Passes(c, planned[k])
  }

  /** How a run ends: at a failing check, at a failing insert, or with everything inserted. */
  ghost predicate RunsAs(c: Config, planned: seq<Option<Fields>>, pass: bool, s: State, s': State, o: Outcome) {
    if !pass then o.Err? && s'.batches == s.batches
    else match c.insert(planned, |s.batches|)
      case None => o.Err? && s'.batches == s.batches + [Batch(planned, false)]
      case Some(ids) => o.Ok? && s'.batches == s.batches + [Batch(planned, true)] && s'.ids == ids
  }

  lemma {:induction false} MutateRuns(c: Config, i: nat, j: nat, s: State)
    requires i < |c.hooks| && j <= |c.hooks[i]| && Shaped(c, s) && Apart(s) && AllHooks(c, Forwards)
    ensures var planned := Planned(c, i, j, s); var (s', o) := Mutate(c, i, j, Ref(s.current[i]), s);
      RunsAs(c, planned, AllPass(c, i, planned), s, s', o)
    decreases |c.hooks| - i, |c.hooks[i]| - j
  {
    var a, planned := Ref(s.current[i]), Planned(c, i, j, s);
    if j == |c.hooks[i]| {
      assert c.hooks[i][j..] == [];
      assert planned[i] == Some(Own(s, i).fields);
      if c.check(Own(s, i).fields) {
        CoreRuns(c, i, s);
      }
    } else {
      var s0, h := s.(trace := s.trace + [Enter(i, j)]), c.hooks[i][j];
      assert Forwards(h);
      var action := h.decide(a, FieldsOf(s0, a), []);
      var t := SetFields(s0, a, action.fields);
      OneCall(c, i, j, a, s0);
      var (s1, o1) := Mutate(c, i, j + 1, a, t);
      assert h.decide(a, FieldsOf(s1, a), [o1]) == Return(o1);
      MutateRuns(c, i, j + 1, t);
      HookPlanned(c, i, j, s, t, action.fields);
    }
  }

  /** What a hook sets is what is planned. */
  lemma HookPlanned(c: Config, i: nat, j: nat, s: State, t: State, g: Fields)
    requires i < |c.hooks| && j < |c.hooks[i]| && Shaped(c, s) && Shaped(c, t) && Apart(s)
    requires c.hooks[i][j].decide(Ref(s.current[i]), Own(s, i).fields, []) == CallNext(Ref(s.current[i]), g)
    requires t.current == s.current && t.specs == s.specs
    requires t.mutations == SetFields(s, Ref(s.current[i]), g).mutations
    ensures Planned(c, i, j + 1, t) == Planned(c, i, j, s)
  {
    assert c.hooks[i][j..][0] == c.hooks[i][j] && c.hooks[i][j..][1..] == c.hooks[i][j + 1..];
    forall k | 0 <= k < |c.hooks| ensures Planned(c, i, j + 1, t)[k] == Planned(c, i, j, s)[k] {
      assert Own(t, k).fields == if k == i then g else Own(s, k).fields;
    }
  }

  /** The builder's own step, once its check has passed. */
  lemma {:induction false} CoreRuns(c: Config, i: nat, s: State)
    requires i < |c.hooks| && Shaped(c, s) && Apart(s) && AllHooks(c, Forwards) && c.check(Own(s, i).fields)
    ensures var planned := Planned(c, i, |c.hooks[i]|, s); var (s', o) := Core(c, i, Ref(s.current[i]), s);
      RunsAs(c, planned, AllPass(c, i, planned), s, s', o)
    decreases |c.hooks| - i, -1
  {
    var planned, s1 := Planned(c, i, |c.hooks[i]|, s), Start(i, s.current[i], s);
    assert c.hooks[i][|c.hooks[i]|..] == [];
    assert s1.current == s.current;
    assert planned[i] == Some(Own(s, i).fields) == s1.specs[i];
    if i < |c.hooks| - 1 {
      MutateRuns(c, i + 1, 0, s1);
      StartPlanned(c, i, s);
    } else {
      assert planned == s1.specs;
      assert AllPass(c, i, planned);
    }
  }

  lemma StartPlanned(c: Config, i: nat, s: State)
    requires i < |c.hooks| - 1 && Shaped(c, s)
    ensures Planned(c, i + 1, 0, Start(i, s.current[i], s)) == Planned(c, i, |c.hooks[i]|, s)
  {
    var s1 := Start(i, s.current[i], s);
    assert s1.current == s.current && c.hooks[i + 1][0..] == c.hooks[i + 1] && c.hooks[i][|c.hooks[i]|..] == [];
  }

  lemma ForwardsIsOrderly(h: Hook)
    requires Forwards(h)
    ensures Orderly(h)
  {
  }

  /** The fields that builder k's hooks leave, starting from its defaults. */
  function Final(c: Config, s: State, k: nat): Fields
    requires Shaped(c, s) && k < |c.hooks|
  {
    LeftBy(c.hooks[k], s.current[k], c.defaults(Own(s, k).fields))
  }

  /** The ids an insert of what the hooks leave would give, if every builder passes the check and it succeeds. */
  ghost predicate EveryonePasses(c: Config, s: State)
    requires Shaped(c, s)
  {
    forall k :: 0 <= k < |c.hooks| ==> c.check(Final(c, s, k))
  }

  function FinalSpecs(c: Config, s: State): seq<Option<Fields>>
    requires Shaped(c, s)
  {
    seq(|c.hooks|, k requires 0 <= k < |c.hooks| => Some(Final(c, s, k)))
  }

  /** Everything a whole bulk create does, from the builders as they were: nothing is inserted if a mutation
      as its hooks leave it fails the check; one failed batch is recorded if the insert fails; otherwise
      one batch holds for each builder what its hooks left, and node and mutation k have the k-th id. */
  ghost predicate Creates(c: Config, s: State, s': State, r: Option<seq<Option<Node>>>)
    requires Shaped(c, s) && Shaped(c, s')
  {
    if |c.hooks| == 0 then r == Some([]) && s'.batches == s.batches
    else if !EveryonePasses(c, s) then r == None && s'.batches == s.batches
    else match c.insert(FinalSpecs(c, s), |s.batches|)
      case None => r == None && s'.batches == s.batches + [Batch(FinalSpecs(c, s), false)]
      case Some(ids) =>
        && s'.batches == s.batches + [Batch(FinalSpecs(c, s), true)] && s'.current == s.current
        && r.Some? && |r.value| == |c.hooks|
        && forall k :: 0 <= k < |c.hooks| ==>
          && r.value[k] == Some(Node(IdOf(ids(k)), Final(c, s, k)))
          && Own(s', k) == Mutation(Final(c, s, k), Some(IdOf(ids(k))), true)
  }

  lemma PlannedIsFinal(c: Config, s: State, s0: State)
    requires Shaped(c, s) && Apart(s) && |c.hooks| > 0 && s0 == Defaulted(c, s, |c.hooks|)
    ensures Shaped(c, s0) && s0.current == s.current && Planned(c, 0, 0, s0) == FinalSpecs(c, s)
    ensures AllPass(c, 0, FinalSpecs(c, s)) <==> EveryonePasses(c, s)
  {
    DefaultedKeeps(c, s, |c.hooks|);
    forall k | 0 <= k < |c.hooks| ensures Planned(c, 0, 0, s0)[k] == FinalSpecs(c, s)[k] {
      DefaultedOwn(c, s, |c.hooks|, k);
      assert c.hooks[0][0..] == c.hooks[0];
    }
    assert forall k :: 0 <= k < |c.hooks| ==> (Passes(c, FinalSpecs(c, s)[k]) <==> c.check(Final(c, s, k)));
  }

  /** A bulk create of any number of builders on mutations of their own, with any number of hooks that hand
      their mutation on once and return the outcome, succeeds exactly when every mutation as its hooks
      leave it passes the check and the insert succeeds. */
  lemma SaveCreates(c: Config, s: State)
    requires Shaped(c, s) && Apart(s) && AllHooks(c, Forwards)
    ensures var (s', r) := RunSave(c, Defaulted(c, s, |c.hooks|)); Shaped(c, s') && Creates(c, s, s', r)
  {
    var s0 := Defaulted(c, s, |c.hooks|);
    if |c.hooks| > 0 {
      var (s', o) := Mutate(c, 0, 0, Ref(s0.current[0]), s0);
      PlannedIsFinal(c, s, s0);
      DefaultedKeeps(c, s, |c.hooks|);
      MutateRuns(c, 0, 0, s0);
      forall i, j | 0 <= i < |c.hooks| && 0 <= j < |c.hooks[i]| ensures Orderly(c.hooks[i][j]) {
        assert Forwards(c.hooks[i][j]);
        ForwardsIsOrderly(c.hooks[i][j]);
      }
      MutateOwn(c, 0, 0, s0);
      if o.Ok? {
        CreatedNodes(c, s, s0, s', o);
      }
    }
  }

  lemma CreatedNodes(c: Config, s: State, s0: State, s': State, o: Outcome)
    requires Shaped(c, s) && Shaped(c, s') && Apart(s) && |c.hooks| > 0 && AllHooks(c, Orderly)
    requires Shaped(c, s0) && s0.current == s.current && s0.batches == s.batches
    requires (s', o) == Mutate(c, 0, 0, Ref(s0.current[0]), s0) && o.Ok?
    requires s'.batches == s.batches + [Batch(FinalSpecs(c, s), true)] && OwnEnds(c, 0, s0, s', o)
    ensures forall k :: 0 <= k < |c.hooks| ==>
      && s'.nodes[k] == Some(Node(IdOf(s'.ids(k)), Final(c, s, k)))
      && Own(s', k) == Mutation(Final(c, s, k), Some(IdOf(s'.ids(k))), true)
  {
    forall i, j | 0 <= i < |c.hooks| && 0 <= j < |c.hooks[i]| ensures WellBehaved(c.hooks[i][j]) {
      assert Orderly(c.hooks[i][j]);
    }
    MutateEnds(c, 0, 0, Ref(s0.current[0]), s0);
    assert s'.batches[|s.batches|] == Batch(FinalSpecs(c, s), true);
    var ok :| s'.batches == s0.batches + [Batch(s'.specs, ok)];
    assert s'.specs == FinalSpecs(c, s);
    var none: nat := 0;
    assert Inserted(c, none, none, s0, s', o);
    forall k | 0 <= k < |c.hooks|
      ensures s'.nodes[k] == Some(Node(IdOf(s'.ids(k)), Final(c, s, k)))
           && Own(s', k) == Mutation(Final(c, s, k), Some(IdOf(s'.ids(k))), true)
    {
      assert Filed(s', k);
    }
  }

  // ---------------------------------------------------------------- the builder object

  /** The bulk builder with the slices its closures fill in and the mutations they write to. */
  class AccountCreateBulk {
    const config: Config
    const err: Option<string>
    var mutations: map<nat, Mutation>
    var current: seq<nat>
    var nodes: seq<Option<Node>>
    var specs: seq<Option<Fields>>
    var batches: seq<Batch>
    var ids: nat -> Option<int>
    var trace: seq<Event>

    ghost function Now(): State
      reads this
    {
      State(mutations, current, nodes, specs, batches, ids, trace)
    }

    constructor (config: Config, err: Option<string>, mutations: map<nat, Mutation>, current: seq<nat>)
      requires |current| == |config.hooks|
      ensures this.config == config && this.err == err && Shaped(config, Now())
      ensures this.mutations == mutations && this.current == current && batches == [] && trace == []
      ensures forall i :: 0 <= i < |nodes| ==> nodes[i] == None && specs[i] == None
    {
      this.config, this.err, this.mutations, this.current := config, err, mutations, current;
      nodes := seq(|current|, _ => None);
      specs := seq(|current|, _ => None);
      batches, ids, trace := [], _ => None, [];
    }

    method MutateNext(i: nat, j: nat, a: Arg) returns (o: Outcome)
      requires Shaped(config, Now()) && i < |config.hooks| && j <= |config.hooks[i]|
      modifies this
      ensures (Now(), o) == Mutate(config, i, j, a, old(Now()))
      decreases |config.hooks| - i, |config.hooks[i]| - j, 1
    {
      if j == |config.hooks[i]| {
        o := SaveOwn(i, a);
      } else {
        trace := trace + [Enter(i, j)];
        o := CallHook(i, j, a, []);
      }
    }

    method CallHook(i: nat, j: nat, a: Arg, history: seq<Outcome>) returns (o: Outcome)
      requires Shaped(config, Now()) && i < |config.hooks| && j < |config.hooks[i]| && |history| <= config.hooks[i][j].calls
      modifies this
      ensures (Now(), o) == RunHook(config, i, j, a, history, old(Now()))
      decreases |config.hooks| - i, |config.hooks[i]| - j, 0, config.hooks[i][j].calls - |history|
    {
      var fields: Fields := if a.Ref? && a.at in mutations then mutations[a.at].fields else map[];
      match config.hooks[i][j].decide(a, fields, history) {
        case Return(outcome) =>
          o := outcome;
          trace := trace + [Exit(i, j)];
        case CallNext(b, f) =>
          if |history| == config.hooks[i][j].calls {
            o := Err("too many calls");
            trace := trace + [Exit(i, j)];
          } else {
            if b.Ref? {
              mutations := mutations[b.at := (if b.at in mutations then mutations[b.at] else Mutation(map[], None, false)).(fields := f)];
            }
            o := MutateNext(i, j + 1, b);
            o := CallHook(i, j, a, history + [o]);
          }
      }
    }

    /** The mutator each builder contributes. */
    method SaveOwn(i: nat, a: Arg) returns (o: Outcome)
      requires Shaped(config, Now()) && i < |config.hooks|
      modifies this
      ensures (Now(), o) == Core(config, i, a, old(Now()))
      decreases |config.hooks| - i, 0, 0
    {
      if a.Foreign? {
        return Err("unexpected mutation type");
      }
      var own: Fields := if current[i] in mutations then mutations[current[i]].fields else map[];
      if !config.check(own) {
        return Err("validation");
      }
      var fields: Fields := if a.at in mutations then mutations[a.at].fields else map[];
      current := current[i := a.at];
      nodes, specs := nodes[i := Some(Node(0, fields))], specs[i := Some(fields)];
      ids := WithoutId(ids, i);
      if i < |config.hooks| - 1 {
        o := MutateNext(i + 1, 0, Ref(current[i + 1]));
      } else {
        o := InsertBatch();
      }
      if o.Err? {
        return;
      }
      File(i, a.at);
      o := Ok(nodes[i]);
    }

    method InsertBatch() returns (o: Outcome)
      requires Shaped(config, Now())
      modifies this
      ensures (Now(), o) == BatchCreate(config, old(Now()))
    {
      trace := trace + [Insert];
      match config.insert(specs, |batches|) {
        case None =>
          batches, o := batches + [Batch(specs, false)], Err("insert");
        case Some(given) =>
          batches, ids, o := batches + [Batch(specs, true)], given, Ok(None);
      }
    }

    /** Writes the generated id and the done flag. */
    method File(i: nat, r: nat)
      requires i < |nodes|
      modifies this
      ensures Now() == Finish(i, r, old(Now()))
    {
      if nodes[i].Some? {
        var node := nodes[i].value;
        if ids(i).Some? {
          node := node.(id := ids(i).value);
        }
        nodes := nodes[i := Some(node)];
        mutations := mutations[r :=
          (if r in mutations then mutations[r] else Mutation(map[], None, false)).(id := Some(node.id), done := true)];
      }
    }

    /** The whole operation: a stored error comes first, then the defaults of every builder, then the chain. */
    method Save() returns (r: Option<seq<Option<Node>>>)
      requires Shaped(config, Now())
      modifies this
      ensures err.Some? ==> r.None? && Now() == old(Now())
      ensures err.None? ==> (Now(), r) == RunSave(config, Defaulted(config, old(Now()), |config.hooks|))
      ensures Shaped(config, Now())
      ensures err.None? && Apart(old(Now())) && AllHooks(config, Forwards) ==> Creates(config, old(Now()), Now(), r)
    {
      if err.Some? {
        return None;
      }
      ghost var start := Now();
      if Apart(start) && AllHooks(config, Forwards) {
        SaveCreates(config, start);
      }
      for i := 0 to |config.hooks|
        invariant Now() == Defaulted(config, start, i)
        invariant start == old(Now())
        invariant Shaped(config, Now()) && current == start.current
      {
        var own := if current[i] in mutations then mutations[current[i]] else Mutation(map[], None, false);
        mutations := mutations[current[i] := own.(fields := config.defaults(own.fields))];
      }
      if |config.hooks| == 0 {
        return Some(nodes);
      }
      var o := MutateNext(0, 0, Ref(current[0]));
      r := if o.Ok? then Some(nodes) else None;
    }
  }
}
