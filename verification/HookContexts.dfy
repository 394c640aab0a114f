/** Which hooks may join any bulk create, with any number of builders and hooks: exactly those that never
    spoil a success, if failure is to mean that nothing was inserted, and exactly those that hand on no
    other mutation, if only checked fields are to be inserted. */
module HookContexts {
  import opened Wrappers
  import opened BulkCreate

  // ---------------------------------------------------------------- one builder with three hooks

  /** Hands on what it was given, with the fields f, and then the outcome. */
  function Pass(f: Fields): Hook {
    Hook((a: Arg, g: Fields, history: seq<Outcome>) => if history == [] then CallNext(a, f) else Return(history[0]), 1)
  }

  /** Hands on something that is no account mutation, and then the outcome. */
  function Drop(): Hook {
    Hook((a: Arg, g: Fields, history: seq<Outcome>) => if history == [] then CallNext(Foreign, map[]) else Return(history[0]), 1)
  }

  /** A hook that makes the next one see `a` with the fields f. */
  function Give(a: Arg, f: Fields): Hook {
    if a.Ref? then Pass(f) else Drop()
  }

  /** Hands on the mutation at m with the fields g whatever it was given, and returns v for a success. */
  function Redirect(m: nat, g: Fields, v: Option<Node>): Hook {
    Hook((a: Arg, f: Fields, history: seq<Outcome>) =>
           if history == [] then CallNext(Ref(m), g) else Return(if history[0].Ok? then Ok(v) else history[0]), 1)
  }

  lemma GiveIsMild(a: Arg, f: Fields)
    ensures WellBehaved(Give(a, f)) && Faithful(Give(a, f)) && HandsOwn(Give(a, f))
  {
  }

  lemma RedirectIsMild(m: nat, g: Fields, v: Option<Node>)
    ensures WellBehaved(Redirect(m, g, v)) && Faithful(Redirect(m, g, v))
  {
  }

  /** One builder on the mutation at r, with these hooks, and an insert that always succeeds. */
  function Lone(r: nat, f0: Fields, hooks: seq<Hook>, check: Fields -> bool): (Config, State) {
    (Config([hooks], (f: Fields) => f, check, (specs: seq<Option<Fields>>, n: nat) => Some((k: nat) => None)),
     State(map[r := Mutation(f0, None, false)], [r], [None], [None], [], (k: nat) => None, []))
  }

  /** The state of a lone builder before its insert, with a trace of no interest. */
  predicate Waiting(s: State, r: nat) {
    s.current == [r] && |s.nodes| == 1 && |s.specs| == 1 && s.batches == []
  }

  lemma LoneStart(r: nat, m: nat, s: State)
    requires Waiting(s, r)
    ensures var s1 := Start(0, m, s);
      && s1.mutations == s.mutations && s1.batches == [] && |s1.nodes| == 1 && s1.current == [m]
      && s1.specs == [Some(MutationAt(s, m).fields)]
  {
  }

  lemma LoneFinish(m: nat, s: State)
    requires |s.nodes| == 1
    ensures Finish(0, m, s).batches == s.batches
    ensures forall q :: MutationAt(Finish(0, m, s), q).fields == MutationAt(s, q).fields
  {
  }

  /** One builder, and an insert that always succeeds. */
  ghost predicate IsLone(c: Config) {
    |c.hooks| == 1 && forall specs: seq<Option<Fields>>, n: nat :: c.insert(specs, n).Some?
  }

  lemma LoneInsert(c: Config, s: State)
    requires IsLone(c) && |s.current| == |s.nodes| == |s.specs| == 1 && s.batches == []
    ensures var (s', o) := BatchCreate(c, s);
      o.Ok? && s'.batches == [Batch(s.specs, true)] && s'.mutations == s.mutations && s'.nodes == s.nodes
  {
  }

  /** Handed the mutation at m, the builder checks its own mutation and inserts the fields of that one. */
  lemma LoneCore(c: Config, m: nat, s: State, r: nat)
    requires IsLone(c) && Waiting(s, r) && c.check(MutationAt(s, r).fields)
    ensures var (s', o) := Mutate(c, 0, |c.hooks[0]|, Ref(m), s);
      && o.Ok? && s'.batches == [Batch([Some(MutationAt(s, m).fields)], true)]
      && forall q :: MutationAt(s', q).fields == MutationAt(s, q).fields
  {
    var s1 := Start(0, m, s);
    LoneStart(r, m, s);
    LoneInsert(c, s1);
    LoneFinish(m, BatchCreate(c, s1).0);
    assert Core(c, 0, Ref(m), s).0 == Finish(0, m, BatchCreate(c, s1).0);
  }

  /** Running hook j of a lone builder when it makes its call, with t the state that call starts from. */
  lemma LoneHook(c: Config, j: nat, a: Arg, s: State, r: nat) returns (t: State)
    requires |c.hooks| == 1 && j < |c.hooks[0]| && Waiting(s, r)
    requires c.hooks[0][j].calls == 1 && c.hooks[0][j].decide(a, FieldsOf(s, a), []).CallNext?
    ensures var h, (s', o) := c.hooks[0][j], Mutate(c, 0, j, a, s);
      var action := h.decide(a, FieldsOf(s, a), []);
      && Waiting(t, r) && t.mutations == SetFields(s, action.arg, action.fields).mutations
      && var (s1, o1) := Mutate(c, 0, j + 1, action.arg, t);
         s'.batches == s1.batches && s'.mutations == s1.mutations && o == Settled(h.decide(a, FieldsOf(s1, a), [o1]))
  {
    var h, s0 := c.hooks[0][j], s.(trace := s.trace + [Enter(0, j)]);
    OneCall(c, 0, j, a, s0);
    var action := h.decide(a, FieldsOf(s, a), []);
    assert FieldsOf(s0, a) == FieldsOf(s, a);
    t := SetFields(s0, action.arg, action.fields);
  }

  /** Running the last hook when it hands on the mutation at m with the fields g, and they get in. */
  lemma LastHook(c: Config, a: Arg, s: State, r: nat, m: nat, g: Fields) returns (v: Option<Node>)
    requires IsLone(c) && c.hooks[0] != [] && Waiting(s, r)
    requires var h := c.hooks[0][|c.hooks[0]| - 1]; h.calls == 1 && h.decide(a, FieldsOf(s, a), []) == CallNext(Ref(m), g)
    requires c.check(if m == r then g else MutationAt(s, r).fields)
    ensures var j := |c.hooks[0]| - 1;
      var (s', o) := Mutate(c, 0, j, a, s);
      && s'.batches == [Batch([Some(g)], true)]
      && (forall q :: MutationAt(s', q).fields == if q == m then g else MutationAt(s, q).fields)
      && o == Settled(c.hooks[0][j].decide(a, FieldsOf(s', a), [Ok(v)]))
  {
    var j := |c.hooks[0]| - 1;
    var t := LoneHook(c, j, a, s, r);
    assert forall q :: MutationAt(t, q).fields == if q == m then g else MutationAt(s, q).fields;
    LoneCore(c, m, t, r);
    v := Mutate(c, 0, j + 1, Ref(m), t).1.value;
  }

  // ---------------------------------------------------------------- hooks that spoil no chain

  /** All hooks are h, or well behaved and faithful. */
  ghost predicate AmongFaithful(c: Config, h: Hook) {
    forall i, j :: 0 <= i < |c.hooks| && 0 <= j < |c.hooks[i]| ==>
      c.hooks[i][j] == h || (WellBehaved(c.hooks[i][j]) && Faithful(c.hooks[i][j]))
  }

  ghost predicate Fresh(c: Config, s: State) {
    Shaped(c, s) && |c.hooks| > 0 && s.batches == [] && DoneRefs(s) == {}
  }

  /** In every bulk create whose other hooks are faithful, failure means that nothing was inserted. */
  ghost predicate SpoilsNothing(h: Hook) {
    forall c: Config, s: State :: Fresh(c, s) && AmongFaithful(c, h) ==> FailsClean((c, s))
  }

  /** A chain in which a hook that is not faithful fails after the insert. */
  function SpoiledRun(h: Hook, a: Arg, f: Fields, g: Fields, v: Option<Node>): (Config, State) {
    var r := if a.Ref? then a.at else 0;
    Lone(r, map[], [Give(a, f), h, Redirect(r, g, v)], (x: Fields) => true)
  }

  lemma SpoiledRunFails(h: Hook, a: Arg, f: Fields, g: Fields, v: Option<Node>)
    requires h.calls == 1 && (a.Foreign? ==> f == g == map[])
    requires h.decide(a, f, []).CallNext? && Settled(h.decide(a, g, [Ok(v)])).Err?
    ensures Fresh(SpoiledRun(h, a, f, g, v).0, SpoiledRun(h, a, f, g, v).1) && !FailsClean(SpoiledRun(h, a, f, g, v))
  {
    var (c, s) := SpoiledRun(h, a, f, g, v);
    var r := s.current[0];
    var t1 := LoneHook(c, 0, Ref(r), s, r);
    assert FieldsOf(t1, a) == f;
    var t2 := LoneHook(c, 1, a, t1, r);
    var b := h.decide(a, f, []).arg;
    var w := LastHook(c, b, t2, r, r, g);
    assert Mutate(c, 0, 2, b, t2).1 == Ok(v);
    assert FieldsOf(Mutate(c, 0, 2, b, t2).0, a) == g;
    assert Mutate(c, 0, 1, a, t1).1.Err?;
    assert Mutate(c, 0, 0, Ref(r), s).1.Err?;
  }

  /** A well-behaved hook can join any bulk create of faithful hooks without making it fail after an
      insert exactly when it is faithful itself. */
  lemma FaithfulIffSpoilsNothing(h: Hook)
    requires WellBehaved(h)
    ensures Faithful(h) <==> SpoilsNothing(h)
  {
    if Faithful(h) {
      forall c: Config, s: State | Fresh(c, s) && AmongFaithful(c, h) ensures FailsClean((c, s)) {
        SaveFaithful(c, s);
      }
    } else {
      var a: Arg, f: Fields, g: Fields, v: Option<Node> :|
        h.calls > 0 && (a.Foreign? ==> f == g == map[]) && h.decide(a, f, []).CallNext?
        && !(h.decide(a, g, [Ok(v)]).Return? && h.decide(a, g, [Ok(v)]).outcome.Ok?);
      var run := SpoiledRun(h, a, f, g, v);
      SpoiledRunFails(h, a, f, g, v);
      GiveIsMild(a, f);
      RedirectIsMild(run.1.current[0], g, v);
      assert AmongFaithful(run.0, h);
      assert !FailsClean((run.0, run.1));
    }
  }

  // ---------------------------------------------------------------- hooks that keep unchecked fields out

  ghost predicate AmongOwn(c: Config, h: Hook) {
    forall i, j :: 0 <= i < |c.hooks| && 0 <= j < |c.hooks[i]| ==> c.hooks[i][j] == h || HandsOwn(c.hooks[i][j])
  }

  /** In every bulk create whose other hooks hand on their own mutation, only checked fields are inserted. */
  ghost predicate KeepsChecked(h: Hook) {
    forall c: Config, s: State :: Fresh(c, s) && AmongOwn(c, h) ==> OnlyChecked((c, s))
  }

  function OtherThan(f: Fields): Fields {
    if f == map[] then map[RowCodec.ID := RowCodec.Int(0)] else map[]
  }

  /** A chain in which a hook hands on the mutation at m in place of its own: what the next hook then sets
      in it is inserted, while the check looks at fields that nobody inserts. */
  function UncheckedRun(h: Hook, a: Arg, f: Fields, m: nat): (Config, State) {
    var r := if a.Ref? then a.at else m + 1;
    var g := OtherThan(f);
    Lone(r, map[], [Give(a, f), h, Pass(g)], (x: Fields) => x != g)
  }

  lemma UncheckedRunInserts(h: Hook, a: Arg, f: Fields, m: nat)
    requires h.calls == 1 && (a.Foreign? ==> f == map[]) && a != Ref(m)
    requires h.decide(a, f, []).CallNext? && h.decide(a, f, []).arg == Ref(m)
    ensures Fresh(UncheckedRun(h, a, f, m).0, UncheckedRun(h, a, f, m).1) && !OnlyChecked(UncheckedRun(h, a, f, m))
  {
    var (c, s) := UncheckedRun(h, a, f, m);
    var r, g := s.current[0], OtherThan(f);
    assert RowCodec.ID in map[RowCodec.ID := RowCodec.Int(0)];
    var t1 := LoneHook(c, 0, Ref(r), s, r);
    assert FieldsOf(t1, a) == f && MutationAt(t1, r).fields == f;
    var t2 := LoneHook(c, 1, a, t1, r);
    assert MutationAt(t2, r).fields == f;
    var v := LastHook(c, Ref(m), t2, r, m, g);
    var s' := RunSave(c, s).0;
    assert s'.batches == [Batch([Some(g)], true)];
    assert !Passes(c, s'.batches[0].specs[0]);
  }

  /** A hook that calls at most once can join any bulk create of hooks that hand on their own mutation,
      without letting unchecked fields in, exactly when it hands on its own mutation too. */
  lemma HandsOwnIffKeepsChecked(h: Hook)
    requires CallsOnce(h)
    ensures HandsOwn(h) <==> KeepsChecked(h)
  {
    if HandsOwn(h) {
      forall c: Config, s: State | Fresh(c, s) && AmongOwn(c, h) ensures OnlyChecked((c, s)) {
        SaveInsertsChecked(c, s);
      }
    } else {
      var a: Arg, f: Fields, history: seq<Outcome> :|
        |history| < h.calls && (a.Foreign? ==> f == map[]) && h.decide(a, f, history).CallNext?
        && !(h.decide(a, f, history).arg == a || h.decide(a, f, history).arg.Foreign?);
      assert history == [];
      var m := h.decide(a, f, []).arg.at;
      var run := UncheckedRun(h, a, f, m);
      UncheckedRunInserts(h, a, f, m);
      GiveIsMild(a, f);
      assert HandsOwn(Pass(OtherThan(f)));
      assert AmongOwn(run.0, h);
      assert !OnlyChecked((run.0, run.1));
    }
  }

  /** For one: a hook that puts another mutation in place of the builder's own gets its fields inserted
      although the check, which never sees them, would refuse them. */
  lemma SwapInsertsUnchecked(r: nat, m: nat, g: Fields)
    requires r != m && g != map[]
    ensures var run := Lone(r, map[], [Redirect(m, g, None)], (x: Fields) => x != g);
      !run.0.check(g) && RunSave(run.0, run.1).0.batches == [Batch([Some(g)], true)]
  {
    var (c, s) := Lone(r, map[], [Redirect(m, g, None)], (x: Fields) => x != g);
    var v := LastHook(c, Ref(r), s, r, m, g);
  }
}
