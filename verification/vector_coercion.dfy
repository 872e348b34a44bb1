/** Coercion of a raw value into a vector property (Vector2, Vector3) and a
    vector-array property (Vector2Array, Vector3Array).

    A single vector accepts a direction keyword or a flat sequence of exactly
    `dim` numbers; anything else, a sequence nested one level deeper included,
    raises ValueError. An array accepts a sequence whose items are each such a
    vector (keyword and numeric rows may be mixed), or one flat vector, which
    becomes a one-row array; a bare string, even a keyword, is refused. When a
    length is declared every vector and every row is rescaled to it.
 */
module VectorCoercion {
  import opened Outcomes
  import opened Vectors
  import opened Lexicon
  import opened Declarations
  import opened Values

  /** The invariant of every vector a property of `spec` stores. */
  predicate Fits(v: Vec, spec: DeclaredSpec) {
    |v| == spec.dim.Size() && (spec.length.Some? ==> SumSq(v) == Sq(spec.length.value))
  }

  /** Reads a raw value as one vector of dimension `dim`, before rescaling. */
  function ParseVector(raw: Raw, dim: Dim): (r: Result<Vec>)
    ensures r.Ok? <==>
      || (raw.Text? && raw.s in Keywords(dim))
      || (raw.Sequence? && IsFlat(raw.items) && |raw.items| == dim.Size())
    ensures r.Err? ==> r.kind == ValueError
    ensures r.Ok? ==> |r.value| == dim.Size()
    ensures r.Ok? && raw.Text? ==> r.value == Lookup(raw.s, dim).value
    ensures r.Ok? && raw.Sequence? ==>
      forall i :: 0 <= i < dim.Size() ==> r.value[i] == NumberValue(raw.items[i])
  {
    match raw
    case Text(word) => Lookup(word, dim)
    case Sequence(_, items) =>
      if IsFlat(items) && |items| == dim.Size() then Ok(Numbers(items)) else Err(ValueError)
    case _ => Err(ValueError)
  }

  /** Validates one assignment to a vector property. */
  function CoerceVector(raw: Raw, spec: DeclaredSpec, root: real -> real): (r: Result<Vec>)
    requires IsSquareRoot(root)
    ensures var p := ParseVector(raw, spec.dim);
      r.Ok? <==> p.Ok? && (spec.length.None? || !IsZero(p.value))
    ensures r.Err? ==> (r.kind == ZeroDivisionError <==> ParseVector(raw, spec.dim).Ok?)
    ensures r.Err? ==> r.kind != TypeError
    ensures r.Ok? ==> Fits(r.value, spec) && SameDirection(r.value, ParseVector(raw, spec.dim).value)
    ensures r.Ok? && spec.length.None? ==> r.value == ParseVector(raw, spec.dim).value
  {
    var v :- ParseVector(raw, spec.dim);
    Rescale(v, spec.length, root)
  }

  /** Coerces every item as one row, failing on the first row that fails. */
  function CoerceRows(items: seq<Raw>, spec: DeclaredSpec, root: real -> real): (r: Result<seq<Vec>>)
    requires IsSquareRoot(root)
    ensures r.Ok? <==> forall i :: 0 <= i < |items| ==> CoerceVector(items[i], spec, root).Ok?
    ensures r.Ok? ==> |r.value| == |items|
    ensures r.Ok? ==> forall i :: 0 <= i < |items| ==> r.value[i] == CoerceVector(items[i], spec, root).value
    ensures r.Err? ==> exists i :: 0 <= i < |items| && CoerceVector(items[i], spec, root) == Err(r.kind)
                                  && (forall j :: 0 <= j < i ==> CoerceVector(items[j], spec, root).Ok?)
  {
    if |items| == 0 then Ok([])
    else
      var first := CoerceVector(items[0], spec, root);
      if first.Err? then Err(first.kind)
      else
        var rest := CoerceRows(items[1..], spec, root);
        if rest.Err? then
          assert forall i :: 1 <= i < |items| ==> items[i] == items[1..][i - 1];
          Err(rest.kind)
        else
          assert forall i :: 1 <= i < |items| ==> items[i] == items[1..][i - 1];
          Ok([first.value] + rest.value)
  }

  /** A sequence that an array property reads as a single vector. */
  predicate IsPromoted(items: seq<Raw>) {
    |items| > 0 && IsFlat(items)
  }

  /** Validates one assignment to a vector-array property. */
  function CoerceArray(raw: Raw, spec: DeclaredSpec, root: real -> real): (r: Result<seq<Vec>>)
    requires IsSquareRoot(root)
    ensures !raw.Sequence? ==> r == Err(ValueError)
    ensures r.Err? ==> r.kind != TypeError
    ensures r.Ok? ==> forall i :: 0 <= i < |r.value| ==> Fits(r.value[i], spec)
    ensures raw.Sequence? && IsPromoted(raw.items) ==>
      && (r.Ok? <==> CoerceVector(raw, spec, root).Ok?)
      && (r.Ok? ==> r.value == [CoerceVector(raw, spec, root).value])
    ensures raw.Sequence? && IsPromoted(raw.items) && r.Err? ==> CoerceVector(raw, spec, root) == Err(r.kind)
    ensures raw.Sequence? && !IsPromoted(raw.items) ==>
      && (r.Ok? <==> forall i :: 0 <= i < |raw.items| ==> CoerceVector(raw.items[i], spec, root).Ok?)
      && (r.Ok? ==> |r.value| == |raw.items|)
      && (r.Ok? ==> forall i :: 0 <= i < |raw.items| ==> r.value[i] == CoerceVector(raw.items[i], spec, root).value)
    ensures raw.Sequence? && !IsPromoted(raw.items) && r.Err? ==>
      exists i :: 0 <= i < |raw.items| && CoerceVector(raw.items[i], spec, root) == Err(r.kind)
                  && (forall j :: 0 <= j < i ==> CoerceVector(raw.items[j], spec, root).Ok?)
  {
    match raw
    case Sequence(_, items) =>
      if IsPromoted(items) then
        var v :- CoerceVector(raw, spec, root);
        Ok([v])
      else
        CoerceRows(items, spec, root)
    case _ => Err(ValueError)
  }

  /** A single vector refuses a sequence holding a sequence, whatever its width. */
  lemma SingleRejectsNesting(raw: Raw, spec: DeclaredSpec, root: real -> real, k: nat)
    requires IsSquareRoot(root)
    requires raw.Sequence? && k < |raw.items| && raw.items[k].Sequence?
    ensures CoerceVector(raw, spec, root) == Err(ValueError)
  {
    assert !IsNumber(raw.items[k]);
  }

  /** A flat vector assigned to an array property is the same as the
      one-row array that wraps it. */
  lemma PromotionIsOneRow(form: Container, items: seq<Raw>, spec: DeclaredSpec, root: real -> real)
    requires IsSquareRoot(root)
    requires IsPromoted(items)
    ensures CoerceArray(Sequence(form, items), spec, root)
         == CoerceArray(Sequence(ListForm, [Sequence(form, items)]), spec, root)
  {
    var raw := Sequence(form, items);
    OneRow(raw, spec, root);
  }

  /** A one-item sequence of rows fails or succeeds exactly as its row does. */
  lemma OneRow(row: Raw, spec: DeclaredSpec, root: real -> real)
    requires IsSquareRoot(root)
    requires !IsNumber(row)
    ensures CoerceArray(Sequence(ListForm, [row]), spec, root)
         == (var c := CoerceVector(row, spec, root); if c.Ok? then Ok([c.value]) else Err(c.kind))
  {
    var wrapped := [row];
    assert !IsPromoted(wrapped) by {
      assert !IsNumber(wrapped[0]);
    }
    var r := CoerceRows(wrapped, spec, root);
    if r.Ok? {
      assert r.value == [r.value[0]];
    }
  }

  /** The one-level nesting a single vector refuses is exactly what an
      array property reads as one row. */
  lemma NestingAsymmetry(row: Raw, spec: DeclaredSpec, root: real -> real)
    requires IsSquareRoot(root)
    requires row.Sequence? && IsFlat(row.items) && |row.items| == spec.dim.Size()
    requires spec.length.None? || !IsZero(Numbers(row.items))
    ensures CoerceVector(Sequence(ListForm, [row]), spec, root) == Err(ValueError)
    ensures CoerceArray(Sequence(ListForm, [row]), spec, root) == Ok([CoerceVector(row, spec, root).value])
  {
    SingleRejectsNesting(Sequence(ListForm, [row]), spec, root, 0);
    OneRow(row, spec, root);
  }

  /** A keyword under a declared length is its unit axis vector times the
      length, exactly. */
  lemma KeywordScalesExactly(word: string, spec: DeclaredSpec, root: real -> real)
    requires IsSquareRoot(root)
    requires word in Keywords(spec.dim) && spec.length.Some?
    ensures CoerceVector(Text(word), spec, root) == Ok(Scale(Lookup(word, spec.dim).value, spec.length.value))
  {
    var u := Lookup(word, spec.dim).value;
    RootOfSquare(root, 1.0);
    assert Sq(1.0) == 1.0;
    ZeroMagnitudeIffZero(u);
    assert root(SumSq(u)) == 1.0;
  }
}
