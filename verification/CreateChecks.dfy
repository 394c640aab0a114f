/** The defaults and checks of the create builder. Bulk creation drops the error of `defaults`; the
    later `check` has to catch what it would have reported. */
module CreateChecks {
  import opened Wrappers
  import opened RowCodec
  import BulkCreate

  /** The package variables a missing runtime import leaves nil, and the constant defaults. */
  datatype Defaults = Defaults(functions: map<Field, Value>, constants: map<Field, Value>)

  datatype Default = ByFunction(field: Field) | ByConstant(field: Field)

  const DEFAULTS: seq<Default> :=
    [ByFunction(CreatedAt), ByFunction(UpdatedAt), ByFunction(Credentials), ByFunction(Extra),
     ByConstant(Concurrency), ByConstant(Priority), ByConstant(RateMultiplier), ByConstant(Status),
     ByConstant(AutoPauseOnExpired), ByConstant(Schedulable), ByConstant(QuotaDimension)]

  ghost predicate Complete(d: Defaults) {
    forall f :: ByConstant(f) in DEFAULTS ==> f in d.constants
  }

  /** Fills unset fields in order, stopping at the first default function that is nil. */
  function ApplyDefaults(d: Defaults, steps: seq<Default>, fields: map<Field, Value>): (map<Field, Value>, Option<Field>)
    requires forall f :: ByConstant(f) in steps ==> f in d.constants
  {
    if steps == [] then (fields, None) else
      var f := steps[0].field;
      if f in fields then ApplyDefaults(d, steps[1..], fields)
      else if steps[0].ByFunction? && f !in d.functions then (fields, Some(f))
      else ApplyDefaults(d, steps[1..], fields[f := if steps[0].ByFunction? then d.functions[f] else d.constants[f]])
  }

  datatype Check = Required(field: Field) | Valid(field: Field)

  const CHECKS: seq<Check> :=
    [Required(CreatedAt), Required(UpdatedAt), Required(Name), Valid(Name), Required(Platform), Valid(Platform),
     Required(Type), Valid(Type), Required(Credentials), Required(Extra), Required(Concurrency), Required(Priority),
     Required(RateMultiplier), Required(Status), Valid(Status), Required(AutoPauseOnExpired), Required(Schedulable),
     Valid(SessionWindowStatus), Required(QuotaDimension), Valid(QuotaDimension)]

  predicate Holds(c: Check, valid: (Field, Value) -> bool, fields: map<Field, Value>) {
    match c
    case Required(f) => f in fields
    case Valid(f) => f in fields ==> valid(f, fields[f])
  }

  /** The first check that fails. */
  function FirstFailure(checks: seq<Check>, valid: (Field, Value) -> bool, fields: map<Field, Value>): Option<Check> {
    if checks == [] then None
    else if !Holds(checks[0], valid, fields) then Some(checks[0])
    else FirstFailure(checks[1..], valid, fields)
  }

  lemma {:induction false} FirstFailureFinds(checks: seq<Check>, valid: (Field, Value) -> bool, fields: map<Field, Value>, c: Check)
    requires c in checks && !Holds(c, valid, fields)
    ensures FirstFailure(checks, valid, fields).Some?
  {
    if Holds(checks[0], valid, fields) {
      FirstFailureFinds(checks[1..], valid, fields, c);
    }
  }

  lemma {:induction false} NoFailureMeansAll(checks: seq<Check>, valid: (Field, Value) -> bool, fields: map<Field, Value>)
    ensures FirstFailure(checks, valid, fields).None? <==> forall c :: c in checks ==> Holds(c, valid, fields)
  {
    if checks != [] {
      NoFailureMeansAll(checks[1..], valid, fields);
      assert checks == [checks[0]] + checks[1..];
    }
  }

  /** Defaults never touch a field that is set; on success they set the fields of all steps, on
      failure they leave unset a field whose default function is nil. */
  lemma {:induction false} DefaultsFill(d: Defaults, steps: seq<Default>, fields: map<Field, Value>)
    requires forall f :: ByConstant(f) in steps ==> f in d.constants
    ensures var (filled, failed) := ApplyDefaults(d, steps, fields);
      && (forall f :: f in fields ==> f in filled && filled[f] == fields[f])
      && (forall f :: f in filled ==> f in fields || exists s :: s in steps && s.field == f)
      && (failed.Some? ==> ByFunction(failed.value) in steps && failed.value !in d.functions && failed.value !in filled)
      && (failed.None? ==> forall s :: s in steps ==> s.field in filled)
  {
    if steps != [] {
      var f := steps[0].field;
      assert steps == [steps[0]] + steps[1..];
      if f in fields {
        DefaultsFill(d, steps[1..], fields);
      } else if !(steps[0].ByFunction? && f !in d.functions) {
        DefaultsFill(d, steps[1..], fields[f := if steps[0].ByFunction? then d.functions[f] else d.constants[f]]);
      }
    }
  }

  /** And a field that was not given holds the default of its own step. */
  lemma {:induction false} DefaultsFillValue(d: Defaults, steps: seq<Default>, fields: map<Field, Value>, f: Field)
    requires forall g :: ByConstant(g) in steps ==> g in d.constants
    requires f !in fields && f in ApplyDefaults(d, steps, fields).0
    ensures var v := ApplyDefaults(d, steps, fields).0[f];
      || (ByFunction(f) in steps && f in d.functions && v == d.functions[f])
      || (ByConstant(f) in steps && v == d.constants[f])
  {
    var g := steps[0].field;
    assert steps == [steps[0]] + steps[1..];
    if g in fields {
      DefaultsFillValue(d, steps[1..], fields, f);
    } else if !(steps[0].ByFunction? && g !in d.functions) {
      var more := fields[g := if steps[0].ByFunction? then d.functions[g] else d.constants[g]];
      if g == f {
        DefaultsFill(d, steps[1..], more);
      } else {
        DefaultsFillValue(d, steps[1..], more, f);
      }
    }
  }

  predicate HasFunctionDefault(f: Field) {
    f == CreatedAt || f == UpdatedAt || f == Credentials || f == Extra
  }

  predicate HasConstantDefault(f: Field) {
    || f == Concurrency || f == Priority || f == RateMultiplier || f == Status
    || f == AutoPauseOnExpired || f == Schedulable || f == QuotaDimension
  }

  lemma StepsAre(steps: seq<Default>, f: Field)
    requires steps == DEFAULTS
    ensures ByFunction(f) in steps <==> HasFunctionDefault(f)
    ensures ByConstant(f) in steps <==> HasConstantDefault(f)
  {
    assert steps[0] == ByFunction(CreatedAt) && steps[1] == ByFunction(UpdatedAt);
    assert steps[2] == ByFunction(Credentials) && steps[3] == ByFunction(Extra);
    assert steps[4] == ByConstant(Concurrency) && steps[5] == ByConstant(Priority);
    assert steps[6] == ByConstant(RateMultiplier) && steps[7] == ByConstant(Status);
    assert steps[8] == ByConstant(AutoPauseOnExpired) && steps[9] == ByConstant(Schedulable);
    assert steps[10] == ByConstant(QuotaDimension);
  }

  /** The value of each field after the defaults have succeeded; None where it is unset. */
  function Defaulted(d: Defaults, fields: map<Field, Value>, f: Field): Option<Value>
    requires Complete(d)
  {
    if f in fields then Some(fields[f])
    else if HasFunctionDefault(f) then if f in d.functions then Some(d.functions[f]) else None
    else if HasConstantDefault(f) then if f in d.constants then Some(d.constants[f]) else None
    else None
  }

  /** Defaults that succeed keep what is given, fill the eleven fields that have one with their own default,
      and touch no other field. */
  lemma DefaultsAre(d: Defaults, fields: map<Field, Value>, f: Field)
    requires Complete(d) && ApplyDefaults(d, DEFAULTS, fields).1.None?
    ensures var filled := ApplyDefaults(d, DEFAULTS, fields).0;
      Defaulted(d, fields, f) == if f in filled then Some(filled[f]) else None
    ensures HasFunctionDefault(f) || HasConstantDefault(f) ==> f in ApplyDefaults(d, DEFAULTS, fields).0
  {
    var filled := ApplyDefaults(d, DEFAULTS, fields).0;
    StepsAre(DEFAULTS, f);
    DefaultsFill(d, DEFAULTS, fields);
    if f in filled && f !in fields {
      DefaultsFillValue(d, DEFAULTS, fields, f);
    }
    if HasFunctionDefault(f) {
      assert ByFunction(f) in DEFAULTS && ByFunction(f).field in filled;
    } else if HasConstantDefault(f) {
      assert ByConstant(f) in DEFAULTS && ByConstant(f).field in filled;
    }
  }

  /** Defaults succeed exactly when each of the four fields with a default function is given or has one. */
  lemma DefaultsSucceedIff(d: Defaults, fields: map<Field, Value>)
    requires Complete(d)
    ensures ApplyDefaults(d, DEFAULTS, fields).1.None? <==>
      forall f :: HasFunctionDefault(f) ==> f in fields || f in d.functions
  {
    DefaultsFill(d, DEFAULTS, fields);
    if ApplyDefaults(d, DEFAULTS, fields).1.None? {
      forall f | HasFunctionDefault(f) ensures f in fields || f in d.functions {
        DefaultsAre(d, fields, f);
      }
    } else {
      StepsAre(DEFAULTS, ApplyDefaults(d, DEFAULTS, fields).1.value);
    }
  }

  lemma FunctionDefaultsAreRequired(f: Field)
    requires ByFunction(f) in DEFAULTS
    ensures Required(f) in CHECKS
  {
    assert f == CreatedAt || f == UpdatedAt || f == Credentials || f == Extra;
  }

  /** The dropped error is caught: if `defaults` failed, then whatever the hooks do to the mutation
      before `check`, the check passes only if a hook has filled in the very field the default was
      missing for. */
  lemma DroppedErrorIsCaught(d: Defaults, fields: map<Field, Value>, later: map<Field, Value>, valid: (Field, Value) -> bool)
    requires Complete(d)
    requires ApplyDefaults(d, DEFAULTS, fields).1.Some?
    ensures FirstFailure(CHECKS, valid, later).None? ==> ApplyDefaults(d, DEFAULTS, fields).1.value in later
    ensures later == ApplyDefaults(d, DEFAULTS, fields).0 ==> FirstFailure(CHECKS, valid, later).Some?
  {
    DefaultsFill(d, DEFAULTS, fields);
    var f := ApplyDefaults(d, DEFAULTS, fields).1.value;
    FunctionDefaultsAreRequired(f);
    if f !in later {
      FirstFailureFinds(CHECKS, valid, later, Required(f));
    }
  }

  /** A bulk create whose builders use these defaults and this check. */
  ghost predicate Uses(c: BulkCreate.Config, d: Defaults, valid: (Field, Value) -> bool)
    requires Complete(d)
  {
    && (forall f: map<Field, Value> :: c.defaults(f) == ApplyDefaults(d, DEFAULTS, f).0)
    && (forall f: map<Field, Value> :: c.check(f) == FirstFailure(CHECKS, valid, f).None?)
  }

  /** Over a whole run: if the defaults of any builder failed, the bulk create inserts nothing, unless a
      hook fills in, in that builder's mutation, the field whose default was missing. */
  lemma FailedDefaultInsertsNothing(
    c: BulkCreate.Config, s: BulkCreate.State, d: Defaults, valid: (Field, Value) -> bool, k: nat)
    requires BulkCreate.Shaped(c, s) && BulkCreate.Apart(s) && k < |c.hooks|
    requires Complete(d) && Uses(c, d, valid)
    requires ApplyDefaults(d, DEFAULTS, BulkCreate.Own(s, k).fields).1.Some?
    requires var missing := ApplyDefaults(d, DEFAULTS, BulkCreate.Own(s, k).fields).1.value;
      BulkCreate.NobodyFills(c, missing, s.current[k])
    ensures BulkCreate.RunSave(c, BulkCreate.Defaulted(c, s, |c.hooks|)).0.batches == s.batches
  {
    var missing := ApplyDefaults(d, DEFAULTS, BulkCreate.Own(s, k).fields).1.value;
    var s0 := BulkCreate.Defaulted(c, s, |c.hooks|);
    DefaultsFill(d, DEFAULTS, BulkCreate.Own(s, k).fields);
    BulkCreate.DefaultedKeeps(c, s, |c.hooks|);
    BulkCreate.DefaultedOwn(c, s, |c.hooks|, k);
    FunctionDefaultsAreRequired(missing);
    forall f: map<Field, Value> | c.check(f) ensures missing in f {
      if missing !in f {
        FirstFailureFinds(CHECKS, valid, f, Required(missing));
      }
    }
    BulkCreate.MutateLacking(c, 0, 0, BulkCreate.Ref(s0.current[0]), s0, k, s.current[k], missing);
  }

  /** A hook that leaves a field of the mutation at r as it finds it. */
  ghost predicate LeavesAlone(f: Field, r: nat, h: BulkCreate.Hook) {
    forall g: map<Field, Value> :: h.decide(BulkCreate.Ref(r), g, []).CallNext? ==>
      var left := h.decide(BulkCreate.Ref(r), g, []).fields;
      (f in left <==> f in g) && (f in g ==> left[f] == g[f])
  }

  lemma {:induction false} LeftAlone(hooks: seq<BulkCreate.Hook>, r: nat, g: map<Field, Value>, f: Field)
    requires forall i :: 0 <= i < |hooks| ==> LeavesAlone(f, r, hooks[i])
    ensures var left := BulkCreate.LeftBy(hooks, r, g); (f in left <==> f in g) && (f in g ==> left[f] == g[f])
    decreases |hooks|
  {
    if hooks != [] {
      var action := hooks[0].decide(BulkCreate.Ref(r), g, []);
      assert LeavesAlone(f, r, hooks[0]);
      LeftAlone(hooks[1..], r, if action.CallNext? then action.fields else g, f);
    }
  }

  /** Over a whole run that succeeds: the row inserted for a builder whose defaults succeeded has in every
      field that its hooks leave alone what was given, or else that field's own default. */
  lemma DefaultsReachTheRow(
    c: BulkCreate.Config, s: BulkCreate.State, d: Defaults, valid: (Field, Value) -> bool, k: nat, f: Field)
    requires BulkCreate.Shaped(c, s) && BulkCreate.Apart(s) && BulkCreate.AllHooks(c, BulkCreate.Forwards) && k < |c.hooks|
    requires Complete(d) && Uses(c, d, valid)
    requires ApplyDefaults(d, DEFAULTS, BulkCreate.Own(s, k).fields).1.None?
    requires forall i :: 0 <= i < |c.hooks[k]| ==> LeavesAlone(f, s.current[k], c.hooks[k][i])
    ensures var (s', r) := BulkCreate.RunSave(c, BulkCreate.Defaulted(c, s, |c.hooks|));
      r.Some? ==>
        && |s'.batches| == |s.batches| + 1 && |s'.batches[|s.batches|].specs| == |c.hooks|
        && var spec := s'.batches[|s.batches|].specs[k];
           spec.Some? && Defaulted(d, BulkCreate.Own(s, k).fields, f) == if f in spec.value then Some(spec.value[f]) else None
  {
    var given := BulkCreate.Own(s, k).fields;
    DefaultsAre(d, given, f);
    LeftAlone(c.hooks[k], s.current[k], c.defaults(given), f);
    BulkCreate.SaveCreates(c, s);
    var (s', r) := BulkCreate.RunSave(c, BulkCreate.Defaulted(c, s, |c.hooks|));
    if r.Some? {
      assert s'.batches[|s.batches|].specs == BulkCreate.FinalSpecs(c, s);
    }
  }

  // ---------------------------------------------------------------- what the check asks for

  predicate IsRequired(f: Field) {
    || f == CreatedAt || f == UpdatedAt || f == Name || f == Platform || f == Type || f == Credentials
    || f == Extra || f == Concurrency || f == Priority || f == RateMultiplier || f == Status
    || f == AutoPauseOnExpired || f == Schedulable || f == QuotaDimension
  }

  predicate IsValidated(f: Field) {
    || f == Name || f == Platform || f == Type || f == Status || f == SessionWindowStatus || f == QuotaDimension
  }

  lemma RequiredAreChecked(checks: seq<Check>, f: Field)
    requires checks == CHECKS && IsRequired(f)
    ensures Required(f) in checks
  {
    assert checks[0] == Required(CreatedAt) && checks[1] == Required(UpdatedAt) && checks[2] == Required(Name);
    assert checks[4] == Required(Platform) && checks[6] == Required(Type) && checks[8] == Required(Credentials);
    assert checks[9] == Required(Extra) && checks[10] == Required(Concurrency) && checks[11] == Required(Priority);
    assert checks[12] == Required(RateMultiplier) && checks[13] == Required(Status);
    assert checks[15] == Required(AutoPauseOnExpired) && checks[16] == Required(Schedulable);
    assert checks[18] == Required(QuotaDimension);
  }

  lemma CheckedAreRequired(f: Field)
    requires Required(f) in CHECKS
    ensures IsRequired(f)
  {
  }

  lemma ValidChecks(checks: seq<Check>, f: Field)
    requires checks == CHECKS
    ensures Valid(f) in checks <==> IsValidated(f)
  {
    assert checks[3] == Valid(Name) && checks[5] == Valid(Platform) && checks[7] == Valid(Type);
    assert checks[14] == Valid(Status) && checks[17] == Valid(SessionWindowStatus) && checks[19] == Valid(QuotaDimension);
  }

  /** The check passes exactly when the fourteen required fields are set and each of the six validated ones
      that is set is valid. */
  lemma CheckPasses(valid: (Field, Value) -> bool, fields: map<Field, Value>)
    ensures FirstFailure(CHECKS, valid, fields).None? <==>
      && (forall f :: IsRequired(f) ==> f in fields)
      && (forall f :: IsValidated(f) && f in fields ==> valid(f, fields[f]))
  {
    NoFailureMeansAll(CHECKS, valid, fields);
    forall f ensures (Required(f) in CHECKS <==> IsRequired(f)) && (Valid(f) in CHECKS <==> IsValidated(f)) {
      if IsRequired(f) {
        RequiredAreChecked(CHECKS, f);
      } else if Required(f) in CHECKS {
        CheckedAreRequired(f);
      }
      ValidChecks(CHECKS, f);
    }
    ChecksApply(CHECKS, valid, fields);
  }

  lemma ChecksApply(checks: seq<Check>, valid: (Field, Value) -> bool, fields: map<Field, Value>)
    ensures (forall c :: c in checks ==> Holds(c, valid, fields)) <==>
      && (forall f :: Required(f) in checks ==> f in fields)
      && (forall f :: Valid(f) in checks && f in fields ==> valid(f, fields[f]))
  {
    if forall c :: c in checks ==> Holds(c, valid, fields) {
      forall f | Required(f) in checks ensures f in fields {
        assert Holds(Required(f), valid, fields);
      }
      forall f | Valid(f) in checks && f in fields ensures valid(f, fields[f]) {
        assert Holds(Valid(f), valid, fields);
      }
    }
  }

  /** After defaults that succeed, all the check still asks for is a name, a platform and a type, and that
      the validated fields that are set, if only by default, are valid. */
  lemma CheckAfterDefaults(d: Defaults, fields: map<Field, Value>, valid: (Field, Value) -> bool)
    requires Complete(d)
    requires ApplyDefaults(d, DEFAULTS, fields).1.None?
    ensures FirstFailure(CHECKS, valid, ApplyDefaults(d, DEFAULTS, fields).0).None? <==>
      && Name in fields && Platform in fields && Type in fields
      && (forall f :: IsValidated(f) && Defaulted(d, fields, f).Some? ==> valid(f, Defaulted(d, fields, f).value))
  {
    var filled := ApplyDefaults(d, DEFAULTS, fields).0;
    CheckPasses(valid, filled);
    forall f ensures Defaulted(d, fields, f) == At(filled, f) {
      DefaultsAre(d, fields, f);
    }
    forall f | IsRequired(f) && f != Name && f != Platform && f != Type ensures f in filled {
      DefaultsAre(d, fields, f);
    }
    CheckFilled(valid, d, fields, filled);
  }

  function At(fields: map<Field, Value>, f: Field): Option<Value> {
    if f in fields then Some(fields[f]) else None
  }

  lemma CheckFilled(valid: (Field, Value) -> bool, d: Defaults, fields: map<Field, Value>, filled: map<Field, Value>)
    requires Complete(d) && forall f :: Defaulted(d, fields, f) == At(filled, f)
    requires forall f :: IsRequired(f) && f != Name && f != Platform && f != Type ==> f in filled
    ensures (forall f :: IsRequired(f) ==> f in filled) <==> Name in fields && Platform in fields && Type in fields
    ensures (forall f :: IsValidated(f) && f in filled ==> valid(f, filled[f])) <==>
      forall f :: IsValidated(f) && Defaulted(d, fields, f).Some? ==> valid(f, Defaulted(d, fields, f).value)
  {
    assert Defaulted(d, fields, Name) == At(filled, Name) && IsRequired(Name);
    assert Defaulted(d, fields, Platform) == At(filled, Platform) && IsRequired(Platform);
    assert Defaulted(d, fields, Type) == At(filled, Type) && IsRequired(Type);
    forall f ensures f in filled <==> Defaulted(d, fields, f).Some? {
      assert Defaulted(d, fields, f) == At(filled, f);
    }
  }
}
