/** The row codec of accounts: what `createSpec` writes, and what `scanValues` and `assignValues`
    read back. */
module RowCodec {
  import opened Wrappers

  datatype Field =
    | ID | CreatedAt | UpdatedAt | DeletedAt | Name | Notes | Platform | Type | Credentials | Extra | ProxyID
    | ProxyFallbackOriginID | Concurrency | LoadFactor | Priority | RateMultiplier | Status | ErrorMessage
    | LastUsedAt | ExpiresAt | AutoPauseOnExpired | Schedulable | RateLimitedAt | RateLimitResetAt
    | OverloadUntil | TempUnschedulableUntil | TempUnschedulableReason | SessionWindowStart
    | SessionWindowEnd | SessionWindowStatus | ParentAccountID | QuotaDimension
    | Other(name: string)

  type Object = map<string, string>

  /** Go values of entity fields. */
  datatype Value = Time(t: int) | Text(s: string) | Int(n: int) | Float(x: real) | Bool(b: bool) | Json(o: Object)

  /** Cells of a database row. */
  datatype Cell = Null | TimeCell(t: int) | TextCell(s: string) | IntCell(n: int) | FloatCell(x: real) | BoolCell(b: bool) | BytesCell(bytes: seq<bv8>)

  /** Scan destinations; None is a nullable holder that is not valid. */
  datatype Dest =
    | NullTime(time: Option<int>) | NullString(text: Option<string>) | NullInt64(int64: Option<int>)
    | NullFloat64(float: Option<real>) | NullBool(boolean: Option<bool>) | Bytes(bytes: seq<bv8>) | UnknownType(cell: Cell)

  datatype FieldType = TypeTime | TypeString | TypeJSON | TypeInt64 | TypeInt | TypeFloat64 | TypeBool | TypeEnum

  /** The JSON encoder and decoder. */
  datatype Codec = Codec(marshal: Object -> seq<bv8>, unmarshal: seq<bv8> -> Option<Object>)

  ghost predicate Inverse(codec: Codec) {
    forall o :: codec.marshal(o) != [] && codec.unmarshal(codec.marshal(o)) == Some(o)
  }

  // ---------------------------------------------------------------- writing

  /** The fields a mutation can set, with the type each is written as. */
  function SpecType(f: Field): Option<FieldType> {
    match f
    case CreatedAt | UpdatedAt | DeletedAt | LastUsedAt | ExpiresAt | RateLimitedAt | RateLimitResetAt
       | OverloadUntil | TempUnschedulableUntil | SessionWindowStart | SessionWindowEnd => Some(TypeTime)
    case Name | Notes | Platform | Type | Status | ErrorMessage | TempUnschedulableReason | SessionWindowStatus => Some(TypeString)
    case Credentials | Extra => Some(TypeJSON)
    case ProxyFallbackOriginID => Some(TypeInt64)
    case Concurrency | LoadFactor | Priority => Some(TypeInt)
    case RateMultiplier => Some(TypeFloat64)
    case AutoPauseOnExpired | Schedulable => Some(TypeBool)
    case QuotaDimension => Some(TypeEnum)
    case ID | ProxyID | ParentAccountID | Other(_) => None
  }

  predicate HasType(t: FieldType, v: Value) {
    match t
    case TypeTime => v.Time?
    case TypeString => v.Text?
    case TypeJSON => v.Json?
    case TypeInt64 => v.Int?
    case TypeInt => v.Int?
    case TypeFloat64 => v.Float?
    case TypeBool => v.Bool?
    case TypeEnum => v.Text?
  }

  datatype Mutation = Mutation(fields: map<Field, Value>, proxy: Option<int>, parent: Option<int>)

  /** A mutation holds values of the Go types of its fields. */
  predicate Typed(m: Mutation) {
    forall f :: f in m.fields ==> SpecType(f).Some? && HasType(SpecType(f).value, m.fields[f])
  }

  /** The fields of a node; a missing one is nil or the zero value. */
  type Node = map<Field, Value>

  /** A create spec: the typed fields and the foreign keys of its many-to-one edges. */
  datatype Spec = Spec(fields: map<Field, (FieldType, Value)>, keys: map<Field, int>)

  function CreateSpec(m: Mutation): (Node, Spec)
    requires Typed(m)
  {
    (m.fields + (map f | f in ForeignKeys(m) :: Int(ForeignKeys(m)[f])),
     Spec(map f | f in m.fields :: (SpecType(f).value, m.fields[f]), ForeignKeys(m)))
  }

  /** The keys of the many-to-one edges that are set. */
  function ForeignKeys(m: Mutation): map<Field, int> {
    (if m.proxy.Some? then map[ProxyID := m.proxy.value] else map[])
    + (if m.parent.Some? then map[ParentAccountID := m.parent.value] else map[])
  }

  function ToCell(codec: Codec, t: FieldType, v: Value): Cell
    requires HasType(t, v)
  {
    match t
    case TypeTime => TimeCell(v.t)
    case TypeString => TextCell(v.s)
    case TypeJSON => BytesCell(codec.marshal(v.o))
    case TypeInt64 => IntCell(v.n)
    case TypeInt => IntCell(v.n)
    case TypeFloat64 => FloatCell(v.x)
    case TypeBool => BoolCell(v.b)
    case TypeEnum => TextCell(v.s)
  }

  predicate Wellformed(spec: Spec) {
    forall f :: f in spec.fields ==> HasType(spec.fields[f].0, spec.fields[f].1)
  }

  /** The row an insert of the spec stores under the generated id. */
  function Stored(codec: Codec, spec: Spec, id: int, f: Field): Cell
    requires Wellformed(spec)
  {
    if f == ID then IntCell(id)
    else if f in spec.fields then ToCell(codec, spec.fields[f].0, spec.fields[f].1)
    else if f in spec.keys then IntCell(spec.keys[f])
    else Null
  }

  // ---------------------------------------------------------------- reading

  /** The destination `scanValues` prepares for a column. */
  function ScanValue(f: Field): Dest {
    match f
    case Credentials | Extra => Bytes([])
    case AutoPauseOnExpired | Schedulable => NullBool(None)
    case RateMultiplier => NullFloat64(None)
    case ID | ProxyID | ProxyFallbackOriginID | Concurrency | LoadFactor | Priority | ParentAccountID => NullInt64(None)
    case Name | Notes | Platform | Type | Status | ErrorMessage | TempUnschedulableReason | SessionWindowStatus
       | QuotaDimension => NullString(None)
    case CreatedAt | UpdatedAt | DeletedAt | LastUsedAt | ExpiresAt | RateLimitedAt | RateLimitResetAt
       | OverloadUntil | TempUnschedulableUntil | SessionWindowStart | SessionWindowEnd => NullTime(None)
    case Other(_) => UnknownType(Null)
  }

  /** What the driver leaves in a destination for a cell; None when it cannot convert. */
  function Scan(d: Dest, c: Cell): Option<Dest> {
    match (d, c)
    case (UnknownType(_), _) => Some(UnknownType(c))
    case (_, Null) => Some(d)
    case (NullTime(_), TimeCell(t)) => Some(NullTime(Some(t)))
    case (NullString(_), TextCell(s)) => Some(NullString(Some(s)))
    case (NullInt64(_), IntCell(n)) => Some(NullInt64(Some(n)))
    case (NullFloat64(_), FloatCell(x)) => Some(NullFloat64(Some(x)))
    case (NullBool(_), BoolCell(b)) => Some(NullBool(Some(b)))
    case (Bytes(_), BytesCell(bytes)) => Some(Bytes(bytes))
    case _ => None
  }

  /** One arm of the `assignValues` switch on a known column: None is an error, Some(None) no change. */
  function AssignValue(codec: Codec, f: Field, d: Dest): Option<Option<Value>> {
    match f
    case ID => if d.NullInt64? then Some(Some(Int(if d.int64.Some? then d.int64.value else 0))) else None
    case CreatedAt | UpdatedAt | DeletedAt | LastUsedAt | ExpiresAt | RateLimitedAt | RateLimitResetAt
       | OverloadUntil | TempUnschedulableUntil | SessionWindowStart | SessionWindowEnd =>
      if !d.NullTime? then None else Some(if d.time.Some? then Some(Time(d.time.value)) else None)
    case Name | Notes | Platform | Type | Status | ErrorMessage | TempUnschedulableReason | SessionWindowStatus
       | QuotaDimension =>
      if !d.NullString? then None else Some(if d.text.Some? then Some(Text(d.text.value)) else None)
    case Credentials | Extra =>
      if !d.Bytes? then None
      else if |d.bytes| == 0 then Some(None)
      else if codec.unmarshal(d.bytes).None? then None
      else Some(Some(Json(codec.unmarshal(d.bytes).value)))
    case ProxyID | ProxyFallbackOriginID | Concurrency | LoadFactor | Priority | ParentAccountID =>
      if !d.NullInt64? then None else Some(if d.int64.Some? then Some(Int(d.int64.value)) else None)
    case RateMultiplier =>
      if !d.NullFloat64? then None else Some(if d.float.Some? then Some(Float(d.float.value)) else None)
    case AutoPauseOnExpired | Schedulable =>
      if !d.NullBool? then None else Some(if d.boolean.Some? then Some(Bool(d.boolean.value)) else None)
    case Other(_) => Some(None)
  }

  /** The node once its row has an id. */
  function Created(m: Mutation, id: int): Node
    requires Typed(m)
  {
    CreateSpec(m).0[ID := Int(id)]
  }

  lemma SpecWellformed(m: Mutation)
    requires Typed(m)
    ensures Wellformed(CreateSpec(m).1)
    ensures forall f :: f in Created(m, 0) ==> !f.Other?
  {
  }

  /** The three tables agree: a value written as its field's type scans into the destination prepared
      for the column and is taken back by the assignment, unchanged. */
  lemma ValueRoundTrip(codec: Codec, f: Field, v: Value)
    requires Inverse(codec) && SpecType(f).Some? && HasType(SpecType(f).value, v)
    ensures var d := Scan(ScanValue(f), ToCell(codec, SpecType(f).value, v));
      d.Some? && AssignValue(codec, f, d.value) == Some(Some(v))
  {
    if v.Json? {
      assert codec.marshal(v.o) != [] && codec.unmarshal(codec.marshal(v.o)) == Some(v.o);
    }
  }

  /** A NULL leaves the field nil or zero. */
  lemma NullRoundTrip(codec: Codec, f: Field)
    requires f != ID
    ensures var d := Scan(ScanValue(f), Null); d.Some? && AssignValue(codec, f, d.value) == Some(None)
  {
  }

  lemma ForeignKeyColumns(m: Mutation, f: Field)
    requires f in ForeignKeys(m)
    ensures f == ProxyID || f == ParentAccountID
  {
  }

  /** The id and the foreign keys are no fields of a mutation. */
  lemma FieldIsOwn(m: Mutation, f: Field)
    requires Typed(m) && f in m.fields
    ensures f != ID && f != ProxyID && f != ParentAccountID && f !in ForeignKeys(m)
  {
    assert SpecType(ID).None? && SpecType(ProxyID).None? && SpecType(ParentAccountID).None?;
  }

  /** A field's own cell, in the row and in the node: neither the id nor a foreign key hides it. */
  lemma StoredField(codec: Codec, m: Mutation, id: int, f: Field)
    requires Typed(m) && Wellformed(CreateSpec(m).1) && f in m.fields
    ensures Stored(codec, CreateSpec(m).1, id, f) == ToCell(codec, SpecType(f).value, m.fields[f])
    ensures f in Created(m, id) && Created(m, id)[f] == m.fields[f]
  {
    FieldIsOwn(m, f);
  }

  lemma StoredKey(codec: Codec, m: Mutation, id: int, f: Field)
    requires Typed(m) && Wellformed(CreateSpec(m).1) && f in ForeignKeys(m)
    ensures Stored(codec, CreateSpec(m).1, id, f) == IntCell(ForeignKeys(m)[f])
    ensures f in Created(m, id) && Created(m, id)[f] == Int(ForeignKeys(m)[f])
  {
    ForeignKeyColumns(m, f);
    assert SpecType(f).None?;
  }

  /** A column that is neither written nor generated is NULL. */
  lemma StoredNull(codec: Codec, m: Mutation, id: int, f: Field)
    requires Typed(m) && Wellformed(CreateSpec(m).1) && f != ID && f !in m.fields && f !in ForeignKeys(m)
    ensures Stored(codec, CreateSpec(m).1, id, f) == Null && f !in Created(m, id)
  {
  }

  /** The cell that holds a value. */
  function CellOf(codec: Codec, v: Value): Cell {
    match v
    case Time(t) => TimeCell(t)
    case Text(s) => TextCell(s)
    case Int(n) => IntCell(n)
    case Float(x) => FloatCell(x)
    case Bool(b) => BoolCell(b)
    case Json(o) => BytesCell(codec.marshal(o))
  }

  /** What a create of this mutation gives a field: the id, the foreign keys of its edges, its own fields. */
  function Given(m: Mutation, id: int, f: Field): Option<Value> {
    match f
    case ID => Some(Int(id))
    case ProxyID => if m.proxy.Some? then Some(Int(m.proxy.value)) else None
    case ParentAccountID => if m.parent.Some? then Some(Int(m.parent.value)) else None
    case _ => if f in m.fields then Some(m.fields[f]) else None
  }

  lemma CreatedIsGiven(m: Mutation, id: int, f: Field)
    requires Typed(m)
    ensures Given(m, id, f) == if f in Created(m, id) then Some(Created(m, id)[f]) else None
  {
    if f in m.fields {
      FieldIsOwn(m, f);
    }
  }

  lemma TypedCell(codec: Codec, t: FieldType, v: Value)
    requires HasType(t, v)
    ensures ToCell(codec, t, v) == CellOf(codec, v)
  {
  }

  /** The row stored for a mutation, cell by cell: what is given, and NULL elsewhere. */
  lemma StoredIsGiven(codec: Codec, m: Mutation, id: int, f: Field)
    requires Typed(m) && Wellformed(CreateSpec(m).1)
    ensures Stored(codec, CreateSpec(m).1, id, f)
         == if Given(m, id, f).Some? then CellOf(codec, Given(m, id, f).value) else Null
  {
    if f in m.fields {
      StoredField(codec, m, id, f);
      FieldIsOwn(m, f);
      TypedCell(codec, SpecType(f).value, m.fields[f]);
    } else if f in ForeignKeys(m) {
      StoredKey(codec, m, id, f);
      ForeignKeyColumns(m, f);
    } else if f != ID {
      StoredNull(codec, m, id, f);
    }
  }

  /** Reading one column of a stored account back gives what the created node holds. */
  lemma ColumnRoundTrip(codec: Codec, m: Mutation, id: int, f: Field)
    requires Inverse(codec) && Typed(m) && Wellformed(CreateSpec(m).1)
    ensures var d := Scan(ScanValue(f), Stored(codec, CreateSpec(m).1, id, f));
      d.Some? && AssignValue(codec, f, d.value) == Some(if f in Created(m, id) then Some(Created(m, id)[f]) else None)
  {
    if f in m.fields {
      StoredField(codec, m, id, f);
      ValueRoundTrip(codec, f, m.fields[f]);
    } else if f in ForeignKeys(m) {
      StoredKey(codec, m, id, f);
      KeyRoundTrip(codec, f, ForeignKeys(m)[f]);
    } else if f == ID {
      KeyRoundTrip(codec, f, id);
    } else {
      StoredNull(codec, m, id, f);
      NullRoundTrip(codec, f);
    }
  }

  lemma KeyRoundTrip(codec: Codec, f: Field, id: int)
    requires f == ID || f == ProxyID || f == ParentAccountID
    ensures Scan(ScanValue(f), IntCell(id)) == Some(NullInt64(Some(id)))
    ensures AssignValue(codec, f, NullInt64(Some(id))) == Some(Some(Int(id)))
  {
  }

  /** A node restricted to the columns read so far. */
  function Only(node: Node, columns: seq<Field>): Node {
    map f | f in node && f in columns :: node[f]
  }

  class Account {
    var fields: Node
    var selected: map<string, Dest>

    constructor ()
      ensures fields == map[] && selected == map[]
    {
      fields, selected := map[], map[];
    }

    /** Assigns scanned values to the receiver, column by column. */
    method AssignValues(codec: Codec, columns: seq<Field>, values: seq<Dest>) returns (err: bool)
      modifies this
      ensures |values| < |columns| ==> err
      ensures |values| >= |columns| ==>
        (err <==> exists i :: 0 <= i < |columns| && AssignValue(codec, columns[i], values[i]).None?)
      ensures !err ==> fields == Assigned(codec, old(fields), columns, values)
      ensures !err ==> selected == Chosen(old(selected), columns, values)
    {
      if |values| < |columns| {
        return true;
      }
      for i := 0 to |columns|
        invariant forall k :: 0 <= k < i ==> AssignValue(codec, columns[k], values[k]).Some?
        invariant fields == Assigned(codec, old(fields), columns[..i], values)
        invariant selected == Chosen(old(selected), columns[..i], values)
      {
        assert columns[..i + 1][..i] == columns[..i];
        var step := AssignValue(codec, columns[i], values[i]);
        if step.None? {
          return true;
        }
        if columns[i].Other? {
          selected := selected[columns[i].name := values[i]];
        } else if step.value.Some? {
          fields := fields[columns[i] := step.value.value];
        }
      }
      assert columns[..|columns|] == columns;
      err := false;
    }
  }

  /** The fields after assigning the values of some columns, later columns winning. */
  function Assigned(codec: Codec, fields: Node, columns: seq<Field>, values: seq<Dest>): Node
    requires |columns| <= |values|
  {
    if columns == [] then fields else
      var n := |columns| - 1;
      var before := Assigned(codec, fields, columns[..n], values);
      match AssignValue(codec, columns[n], values[n])
      case Some(Some(v)) => before[columns[n] := v]
      case _ => before
  }

  /** The dynamically selected values, which belong to no field. */
  function Chosen(selected: map<string, Dest>, columns: seq<Field>, values: seq<Dest>): map<string, Dest>
    requires |columns| <= |values|
  {
    if columns == [] then selected else
      var n := |columns| - 1;
      var before := Chosen(selected, columns[..n], values);
      if columns[n].Other? then before[columns[n].name := values[n]] else before
  }

  /** Each unknown column is selected under its name, with the value of its last occurrence. */
  lemma {:induction false} ChosenIs(selected: map<string, Dest>, columns: seq<Field>, values: seq<Dest>, i: nat)
    requires i < |columns| <= |values| && columns[i].Other? && forall j :: i < j < |columns| ==> columns[j] != columns[i]
    ensures var chosen := Chosen(selected, columns, values);
      columns[i].name in chosen && chosen[columns[i].name] == values[i]
  {
    var n := |columns| - 1;
    if i < n {
      assert columns[n] != columns[i];
      ChosenIs(selected, columns[..n], values, i);
    }
  }

  /** For any selection of columns, in any order and with any repetition, columns that each read back
      what a node holds read back the node restricted to them. */
  lemma {:induction false} AssignedIsRestriction(codec: Codec, node: Node, columns: seq<Field>, values: seq<Dest>)
    requires |columns| <= |values|
    requires forall i :: 0 <= i < |columns| ==>
      AssignValue(codec, columns[i], values[i]) == Some(if columns[i] in node then Some(node[columns[i]]) else None)
    ensures Assigned(codec, map[], columns, values) == Only(node, columns)
  {
    if columns != [] {
      var n := |columns| - 1;
      AssignedIsRestriction(codec, node, columns[..n], values);
      assert columns == columns[..n] + [columns[n]];
    }
  }

  const COLUMNS: seq<Field> :=
    [ID, CreatedAt, UpdatedAt, DeletedAt, Name, Notes, Platform, Type, Credentials, Extra, ProxyID,
     ProxyFallbackOriginID, Concurrency, LoadFactor, Priority, RateMultiplier, Status, ErrorMessage,
     LastUsedAt, ExpiresAt, AutoPauseOnExpired, Schedulable, RateLimitedAt, RateLimitResetAt,
     OverloadUntil, TempUnschedulableUntil, TempUnschedulableReason, SessionWindowStart,
     SessionWindowEnd, SessionWindowStatus, ParentAccountID, QuotaDimension]

  lemma ColumnsComplete(f: Field)
    requires !f.Other?
    ensures f in COLUMNS
  {
  }

  /** Reading any columns of a stored account back, in any order, never meets a value of an unexpected
      type and gives the created node restricted to those columns. */
  method CreateAndReadBack(codec: Codec, m: Mutation, id: int, columns: seq<Field>) returns (err: bool, account: Account)
    requires Inverse(codec) && Typed(m)
    ensures fresh(account) && !err && account.fields == Only(Created(m, id), columns)
    ensures forall f :: f in account.fields <==> f in columns && Given(m, id, f).Some?
    ensures forall f :: f in account.fields ==> account.fields[f] == Given(m, id, f).value
  {
    SpecWellformed(m);
    var spec := CreateSpec(m).1;
    var values: seq<Dest> := [];
    for i := 0 to |columns|
      invariant |values| == i
      invariant forall k :: 0 <= k < i ==>
        AssignValue(codec, columns[k], values[k])
        == Some(if columns[k] in Created(m, id) then Some(Created(m, id)[columns[k]]) else None)
    {
      ColumnRoundTrip(codec, m, id, columns[i]);
      values := values + [Scan(ScanValue(columns[i]), Stored(codec, spec, id, columns[i])).value];
    }
    account := new Account();
    AssignedIsRestriction(codec, Created(m, id), columns, values);
    err := account.AssignValues(codec, columns, values);
    forall f ensures Given(m, id, f) == if f in Created(m, id) then Some(Created(m, id)[f]) else None {
      CreatedIsGiven(m, id, f);
    }
  }

  /** Reading all columns gives the whole node, unset fields included. */
  lemma AllColumnsRoundTrip(m: Mutation, id: int, columns: seq<Field>)
    requires Typed(m) && forall f :: f in COLUMNS ==> f in columns
    ensures Only(Created(m, id), columns) == Created(m, id)
  {
    SpecWellformed(m);
    forall f | f in Created(m, id) ensures f in columns {
      ColumnsComplete(f);
    }
  }
}
