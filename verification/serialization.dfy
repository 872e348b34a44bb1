/** JSON form of vector and vector-array values.

    A vector is written as a flat list of numbers and an array as a list of
    such lists; the payload carries no dimension or length. from_json is
    called on the property class, which fixes the shape and the dimension
    but declares no length, so data read back is never rescaled.
 */
module Serialization {
  import opened Outcomes
  import opened Vectors
  import opened Declarations
  import opened Values
  import opened VectorCoercion
  import opened Kinds

  /** Plain JSON data: numbers and lists of JSON data. */
  predicate IsJson(data: Raw) {
    match data
    case Float(_) => true
    case Sequence(form, items) => form == ListForm && forall i :: 0 <= i < |items| ==> IsJson(items[i])
    case _ => false
  }

  function VectorToJson(v: Vec): (data: Raw)
    ensures IsJson(data) && data.Sequence? && IsFlat(data.items)
    ensures Numbers(data.items) == v
  {
    Sequence(ListForm, seq(|v|, i requires 0 <= i < |v| => Float(v[i])))
  }

  function ArrayToJson(rows: seq<Vec>): (data: Raw)
    ensures IsJson(data) && data.Sequence? && |data.items| == |rows|
    ensures forall i :: 0 <= i < |rows| ==> data.items[i] == VectorToJson(rows[i])
  {
    Sequence(ListForm, seq(|rows|, i requires 0 <= i < |rows| => VectorToJson(rows[i])))
  }

  function ToJson(v: Value): (data: Raw)
    requires v.VectorValue? || v.ArrayValue?
    ensures IsJson(data)
  {
    if v.VectorValue? then VectorToJson(v.coords) else ArrayToJson(v.rows)
  }

  /** What a from_json call on a property class knows: a vector or an array,
      and its dimension. The call is made on the class, so no declared
      length takes part. */
  datatype Shape = VectorShape(dim: Dim) | ArrayShape(dim: Dim) {
    /** The kind of a property of this shape with no declared length. */
    function Plain(): Kind {
      match this
      case VectorShape(d) => VectorKind(VectorSpec(d, None))
      case ArrayShape(d) => VectorArrayKind(VectorSpec(d, None))
    }
  }

  function ShapeOf(kind: Kind): Shape
    requires kind.VectorKind? || kind.VectorArrayKind?
  {
    if kind.VectorKind? then VectorShape(kind.spec.dim) else ArrayShape(kind.spec.dim)
  }

  /** Reads a vector or vector array of the given shape back from JSON. The
      data is read as an assignment would read it, with nothing rescaled. */
  function FromJson(data: Raw, shape: Shape, root: real -> real): (r: Result<Value>)
    requires IsSquareRoot(root)
    ensures r.Ok? ==> Conforms(r.value, shape.Plain())
    ensures r.Err? ==> r.kind == ValueError
    ensures shape.VectorShape? ==>
      && (r.Ok? <==> ParseVector(data, shape.dim).Ok?)
      && (r.Ok? ==> r.value == VectorValue(shape.dim, ParseVector(data, shape.dim).value))
    ensures shape.ArrayShape? ==>
      && (r.Ok? <==> CoerceArray(data, VectorSpec(shape.dim, None), root).Ok?)
      && (r.Ok? ==> r.value == ArrayValue(shape.dim, CoerceArray(data, VectorSpec(shape.dim, None), root).value))
    ensures shape.ArrayShape? && r.Ok? ==>
      && r.value.ArrayValue? && r.value.dim == shape.dim
      && forall i :: 0 <= i < |r.value.rows| ==> |r.value.rows[i]| == shape.dim.Size()
  {
    PlainArrayFailsWithValueError(data, shape.dim, root);
    Coerce(data, shape.Plain(), root)
  }

  /** With no declared length nothing is rescaled, so an array can only fail
      on a row that does not read as a vector. */
  lemma PlainArrayFailsWithValueError(data: Raw, dim: Dim, root: real -> real)
    requires IsSquareRoot(root)
    ensures CoerceArray(data, VectorSpec(dim, None), root).Err? ==>
      CoerceArray(data, VectorSpec(dim, None), root).kind == ValueError
  {
  }

  /** Assigning the JSON form of a stored vector to a property of the same
      spec gives the vector back: rescaling a vector that already has the
      declared length is the identity. */
  lemma VectorRoundTrip(v: Vec, spec: DeclaredSpec, root: real -> real)
    requires IsSquareRoot(root)
    requires Fits(v, spec)
    ensures CoerceVector(VectorToJson(v), spec, root) == Ok(v)
  {
    var data := VectorToJson(v);
    assert ParseVector(data, spec.dim) == Ok(v);
    if spec.length.Some? {
      var l := spec.length.value;
      SqPositive(l);
      ZeroMagnitudeIffZero(v);
      RootOfSquare(root, l);
      assert root(SumSq(v)) == l;
      DivideBySelf(l);
      assert Scale(v, 1.0) == v;
    }
  }

  /** The same for an array, row by row. */
  lemma ArrayRoundTrip(rows: seq<Vec>, spec: DeclaredSpec, root: real -> real)
    requires IsSquareRoot(root)
    requires forall i :: 0 <= i < |rows| ==> Fits(rows[i], spec)
    ensures CoerceArray(ArrayToJson(rows), spec, root) == Ok(rows)
  {
    var data := ArrayToJson(rows);
    forall i | 0 <= i < |rows|
      ensures CoerceVector(data.items[i], spec, root) == Ok(rows[i])
    {
      VectorRoundTrip(rows[i], spec, root);
    }
    if |rows| > 0 {
      assert !IsNumber(data.items[0]);
    }
    var r := CoerceArray(data, spec, root);
    assert r.Ok?;
    assert |r.value| == |rows|;
    assert forall i :: 0 <= i < |rows| ==> r.value[i] == rows[i];
    assert r.value == rows;
  }

  /** A vector that fits a spec also fits the same dimension with no length. */
  lemma ForgetLength(v: Value, kind: Kind)
    requires kind.VectorKind? || kind.VectorArrayKind?
    requires Conforms(v, kind)
    ensures Conforms(v, ShapeOf(kind).Plain())
  {
  }

  /** Writing a value to JSON and reading it back with the class's
      from_json gives the same value. */
  lemma RoundTrip(v: Value, shape: Shape, root: real -> real)
    requires IsSquareRoot(root)
    requires Conforms(v, shape.Plain())
    ensures FromJson(ToJson(v), shape, root) == Ok(v)
  {
    if shape.VectorShape? {
      VectorRoundTrip(v.coords, VectorSpec(shape.dim, None), root);
    } else {
      ArrayRoundTrip(v.rows, VectorSpec(shape.dim, None), root);
    }
  }

  /** from_json(to_json(coerce(r))) == coerce(r) for every raw input that
      coerces, whatever length the property declares. */
  lemma CoercionSurvivesRoundTrip(raw: Raw, kind: Kind, root: real -> real)
    requires IsSquareRoot(root)
    requires kind.VectorKind? || kind.VectorArrayKind?
    requires Coerce(raw, kind, root).Ok?
    ensures FromJson(ToJson(Coerce(raw, kind, root).value), ShapeOf(kind), root) == Coerce(raw, kind, root)
  {
    var v := Coerce(raw, kind, root).value;
    ForgetLength(v, kind);
    RoundTrip(v, ShapeOf(kind), root);
  }
}
