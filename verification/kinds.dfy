/** Property kinds and the one coercion entry point that dispatches on them.

    A has-properties class is modelled as a schema: its name and the kind of
    each declared property. A List property coerces each element through its
    element kind; a property whose kind is a has-properties class accepts an
    existing instance of that class, or a mapping from property names to
    values, which builds a new instance field by field.
 */
module Kinds {
  import opened Outcomes
  import opened Vectors
  import opened Declarations
  import opened Values
  import opened VectorCoercion

  datatype Kind =
    | IntegerKind
    | VectorKind(spec: DeclaredSpec)
    | VectorArrayKind(spec: DeclaredSpec)
    | RecordKind(schema: Schema)
    | ListKind(elem: Kind)

  /** A has-properties class: its name and the kind of each declared property. */
  datatype Schema = Schema(name: string, props: map<string, Kind>)

  /** `v` is a value a property of kind `kind` can hold. An instance is
      recognised by its class name; the model has no subclasses. */
  predicate Conforms(v: Value, kind: Kind)
    decreases v
  {
    match kind
    case IntegerKind => v.IntValue?
    case VectorKind(spec) => v.VectorValue? && v.dim == spec.dim && Fits(v.coords, spec)
    case VectorArrayKind(spec) =>
      && v.ArrayValue? && v.dim == spec.dim
      && forall i :: 0 <= i < |v.rows| ==> Fits(v.rows[i], spec)
    case RecordKind(schema) => v.RecordValue? && v.rec.cls == schema.name
    case ListKind(elem) =>
      v.ListValue? && forall i :: 0 <= i < |v.elems| ==> Conforms(v.elems[i], elem)
  }

  /** Validates one assignment to a property of kind `kind`. */
  function Coerce(raw: Raw, kind: Kind, root: real -> real): (r: Result<Value>)
    requires IsSquareRoot(root)
    ensures r.Ok? ==> Conforms(r.value, kind)
    ensures r.Err? ==> r.kind != TypeError
    ensures kind.IntegerKind? ==> (r.Ok? <==> raw.Int?) && (r.Ok? ==> r.value == IntValue(raw.i))
    ensures kind.IntegerKind? && !raw.Int? ==> r == Err(ValueError)
    ensures kind.VectorKind? && r.Err? ==> CoerceVector(raw, kind.spec, root) == Err(r.kind)
    ensures kind.VectorArrayKind? && r.Err? ==> CoerceArray(raw, kind.spec, root) == Err(r.kind)
    ensures kind.RecordKind? && raw.Existing? && raw.obj.cls != kind.schema.name ==> r == Err(ValueError)
    ensures kind.RecordKind? && raw.Mapping? && r.Err? ==> CoerceFields(raw.entries, kind.schema, root) == Err(r.kind)
    ensures kind.ListKind? && !raw.Sequence? ==> r == Err(ValueError)
    ensures kind.ListKind? && raw.Sequence? && r.Err? ==> CoerceEach(raw.items, kind.elem, root) == Err(r.kind)
    ensures kind.VectorKind? ==>
      && (r.Ok? <==> CoerceVector(raw, kind.spec, root).Ok?)
      && (r.Ok? ==> r.value.coords == CoerceVector(raw, kind.spec, root).value)
    ensures kind.VectorArrayKind? ==>
      && (r.Ok? <==> CoerceArray(raw, kind.spec, root).Ok?)
      && (r.Ok? ==> r.value.rows == CoerceArray(raw, kind.spec, root).value)
    ensures kind.RecordKind? && raw.Existing? ==>
      && (r.Ok? <==> raw.obj.cls == kind.schema.name)
      && (r.Ok? ==> r.value == RecordValue(raw.obj))
    ensures kind.RecordKind? && raw.Mapping? ==>
      && (r.Ok? <==> CoerceFields(raw.entries, kind.schema, root).Ok?)
      && (r.Ok? ==> r.value.rec.fields == CoerceFields(raw.entries, kind.schema, root).value)
    ensures kind.RecordKind? && !raw.Existing? && !raw.Mapping? ==> r == Err(ValueError)
    ensures kind.ListKind? ==>
      && (r.Ok? <==> raw.Sequence? && CoerceEach(raw.items, kind.elem, root).Ok?)
      && (r.Ok? ==> r.value.elems == CoerceEach(raw.items, kind.elem, root).value)
    decreases raw
  {
    match kind
    case IntegerKind =>
      if raw.Int? then Ok(IntValue(raw.i)) else Err(ValueError)
    case VectorKind(spec) =>
      var v :- CoerceVector(raw, spec, root);
      Ok(VectorValue(spec.dim, v))
    case VectorArrayKind(spec) =>
      var rows :- CoerceArray(raw, spec, root);
      Ok(ArrayValue(spec.dim, rows))
    case RecordKind(schema) =>
      (match raw
       case Existing(obj) =>
         if obj.cls == schema.name then Ok(RecordValue(obj)) else Err(ValueError)
       case Mapping(entries) =>
         var fields :- CoerceFields(entries, schema, root);
         Ok(RecordValue(Record(schema.name, fields)))
       case _ => Err(ValueError))
    case ListKind(elem) =>
      (match raw
       case Sequence(_, items) =>
         var elems :- CoerceEach(items, elem, root);
         Ok(ListValue(elems))
       case _ => Err(ValueError))
  }

  /** Coerces the elements of a List in order; the first invalid element
      fails the whole assignment. */
  function CoerceEach(items: seq<Raw>, elem: Kind, root: real -> real): (r: Result<seq<Value>>)
    requires IsSquareRoot(root)
    ensures r.Ok? <==> forall i :: 0 <= i < |items| ==> Coerce(items[i], elem, root).Ok?
    ensures r.Ok? ==> |r.value| == |items|
    ensures r.Ok? ==> forall i :: 0 <= i < |items| ==> r.value[i] == Coerce(items[i], elem, root).value
    ensures r.Err? ==> exists i :: 0 <= i < |items| && Coerce(items[i], elem, root) == Err(r.kind)
                                  && (forall j :: 0 <= j < i ==> Coerce(items[j], elem, root).Ok?)
    decreases items
  {
    if |items| == 0 then Ok([])
    else
      var first := Coerce(items[0], elem, root);
      if first.Err? then Err(first.kind)
      else
        var rest := CoerceEach(items[1..], elem, root);
        assert forall i :: 1 <= i < |items| ==> items[i] == items[1..][i - 1];
        if rest.Err? then Err(rest.kind) else Ok([first.value] + rest.value)
  }

  /** The outcome of setting one named field while building an instance:
      a name the class does not declare is refused. */
  function SetField(entry: (string, Raw), schema: Schema, root: real -> real): (r: Result<Value>)
    requires IsSquareRoot(root)
    ensures r.Ok? <==> entry.0 in schema.props && Coerce(entry.1, schema.props[entry.0], root).Ok?
    ensures r.Ok? ==> Conforms(r.value, schema.props[entry.0])
    ensures r.Ok? ==> r.value == Coerce(entry.1, schema.props[entry.0], root).value
    ensures entry.0 !in schema.props ==> r == Err(ValueError)
    decreases entry
  {
    if entry.0 in schema.props then Coerce(entry.1, schema.props[entry.0], root) else Err(ValueError)
  }

  function Names(entries: seq<(string, Raw)>): set<string> {
    set i | 0 <= i < |entries| :: entries[i].0
  }

  /** No later entry names the same field as entry `i`: it is the entry a
      dict literal keeps when a name is written twice. */
  predicate IsLastFor(entries: seq<(string, Raw)>, i: int)
    requires 0 <= i < |entries|
  {
    forall j :: i < j < |entries| ==> entries[j].0 != entries[i].0
  }

  /** Dropping the first entry shifts every later entry's index by one and
      keeps whether it is the last for its name. */
  lemma TailEntries(entries: seq<(string, Raw)>)
    requires |entries| > 0
    ensures forall i :: 1 <= i < |entries| ==> (IsLastFor(entries, i) <==> IsLastFor(entries[1..], i - 1))
    ensures Names(entries) == {entries[0].0} + Names(entries[1..])
    ensures !IsLastFor(entries, 0) ==> entries[0].0 in Names(entries[1..])
  {
    var rest := entries[1..];
    forall i | 1 <= i < |entries|
      ensures IsLastFor(entries, i) <==> IsLastFor(rest, i - 1)
    {
      assert forall j :: i < j < |entries| ==> entries[j] == rest[j - 1];
      if !IsLastFor(rest, i - 1) {
        var j :| i - 1 < j < |rest| && rest[j].0 == rest[i - 1].0;
        assert entries[j + 1].0 == entries[i].0;
      }
    }
    forall n | n in Names(entries)
      ensures n in {entries[0].0} + Names(rest)
    {
      var i :| 0 <= i < |entries| && entries[i].0 == n;
      if i > 0 {
        assert rest[i - 1].0 == n;
      }
    }
    forall n | n in Names(rest)
      ensures n in Names(entries)
    {
      var i :| 0 <= i < |rest| && rest[i].0 == n;
      assert entries[i + 1].0 == n;
    }
    if !IsLastFor(entries, 0) {
      var j :| 0 < j < |entries| && entries[j].0 == entries[0].0;
      assert rest[j - 1].0 == entries[0].0;
    }
  }

  /** Builds the fields of a new instance from the items of a dict, in
      order. A name written twice keeps only its last value, so an earlier
      value for it is neither validated nor stored. The first kept entry
      that fails fails the whole construction. */
  function CoerceFields(entries: seq<(string, Raw)>, schema: Schema, root: real -> real)
    : (r: Result<map<string, Value>>)
    requires IsSquareRoot(root)
    ensures r.Ok? <==>
      forall i :: 0 <= i < |entries| && IsLastFor(entries, i) ==> SetField(entries[i], schema, root).Ok?
    ensures r.Ok? ==> r.value.Keys == Names(entries)
    ensures r.Ok? ==> forall i :: 0 <= i < |entries| && IsLastFor(entries, i) ==>
      r.value[entries[i].0] == SetField(entries[i], schema, root).value
    ensures r.Ok? ==> forall k :: k in r.value ==> k in schema.props && Conforms(r.value[k], schema.props[k])
    ensures r.Err? ==> exists i :: 0 <= i < |entries| && IsLastFor(entries, i)
                                  && SetField(entries[i], schema, root) == Err(r.kind)
                                  && (forall j :: 0 <= j < i && IsLastFor(entries, j) ==> SetField(entries[j], schema, root).Ok?)
    decreases entries
  {
    if |entries| == 0 then Ok(map[])
    else
      var rest := entries[1..];
      var tail := CoerceFields(rest, schema, root);
      TailEntries(entries);
      assert forall i :: 1 <= i < |entries| ==> entries[i] == rest[i - 1];
      if !IsLastFor(entries, 0) then
        tail
      else
        var first := SetField(entries[0], schema, root);
        if first.Err? then Err(first.kind)
        else if tail.Err? then Err(tail.kind)
        else
          assert forall i :: 1 <= i < |entries| ==> entries[i].0 != entries[0].0;
          Ok(tail.value[entries[0].0 := first.value])
  }

  /** Whether a list or a tuple was assigned makes no difference. */
  lemma ContainerIsIrrelevant(items: seq<Raw>, kind: Kind, root: real -> real)
    requires IsSquareRoot(root)
    ensures Coerce(Sequence(ListForm, items), kind, root) == Coerce(Sequence(TupleForm, items), kind, root)
  {
    var l, t := Sequence(ListForm, items), Sequence(TupleForm, items);
    match kind
    case VectorKind(spec) =>
      assert ParseVector(l, spec.dim) == ParseVector(t, spec.dim);
    case VectorArrayKind(spec) =>
      assert ParseVector(l, spec.dim) == ParseVector(t, spec.dim);
      assert CoerceVector(l, spec, root) == CoerceVector(t, spec, root);
    case _ =>
  }
}
