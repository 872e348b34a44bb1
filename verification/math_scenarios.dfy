/** The vector and vector-array assignments of tests/test_math.py, each
    stated as a fact about the model. Numeric lists are written in their
    JSON form, a list of floats. */
module MathScenarios {
  import opened Outcomes
  import opened Vectors
  import opened Lexicon
  import opened Declarations
  import opened Values
  import opened VectorCoercion
  import opened Kinds
  import opened Serialization

  function Rows(rows: seq<Raw>): Raw {
    Sequence(ListForm, rows)
  }

  /** A `length` of 'ten', 0 or -0.5 is refused when the property is declared. */
  lemma DeclarationRejectsBadLengths()
    ensures Declare(Two, Word("ten")) == Err(TypeError)
    ensures Declare(Two, Number(0.0)) == Err(TypeError)
    ensures Declare(Two, Number(-0.5)) == Err(TypeError)
    ensures Declare(Two, Number(5.0)) == Ok(VectorSpec(Two, Some(5.0)))
  {
  }

  /** The keywords the tests use, resolved in both dimensions. */
  lemma KeywordsUsed()
    ensures Lookup("east", Two) == Ok([1.0, 0.0])
    ensures Lookup("south", Two) == Ok([0.0, -1.0])
    ensures Lookup("east", Three) == Ok([1.0, 0.0, 0.0])
    ensures Lookup("south", Three) == Ok([0.0, -1.0, 0.0])
    ensures Lookup("down", Three) == Ok([0.0, 0.0, -1.0])
    ensures Lookup("up", Two) == Err(ValueError)
    ensures Lookup("around", Three) == Err(ValueError)
    ensures Lookup("diagonal", Three) == Err(ValueError)
  {
    assert [1.0, 0.0, 0.0][..2] == [1.0, 0.0];
    assert [0.0, -1.0, 0.0][..2] == [0.0, -1.0];
  }

  /** Without a declared length a keyword is stored as its lexicon entry. */
  lemma KeywordVerbatim(word: string, spec: DeclaredSpec, root: real -> real)
    requires IsSquareRoot(root)
    requires spec.length.None?
    ensures CoerceVector(Text(word), spec, root) == Lookup(word, spec.dim)
  {
  }

  lemma Vector2Assignments(root: real -> real)
    requires IsSquareRoot(root)
    ensures var k := VectorKind(VectorSpec(Two, None));
      && Coerce(VectorToJson([1.0, 2.0]), k, root) == Ok(VectorValue(Two, [1.0, 2.0]))
      && Coerce(Text("east"), k, root) == Ok(VectorValue(Two, [1.0, 0.0]))
      && Coerce(Text("up"), k, root) == Err(ValueError)
      && Coerce(VectorToJson([1.0, 2.0, 3.0]), k, root) == Err(ValueError)
      && Coerce(Rows([VectorToJson([1.0, 2.0])]), k, root) == Err(ValueError)
  {
    var spec := VectorSpec(Two, None);
    VectorRoundTrip([1.0, 2.0], spec, root);
    KeywordsUsed();
    SingleRejectsNesting(Rows([VectorToJson([1.0, 2.0])]), spec, root, 0);
  }

  lemma Vector3Assignments(root: real -> real)
    requires IsSquareRoot(root)
    ensures var k := VectorKind(VectorSpec(Three, None));
      && Coerce(VectorToJson([1.0, 2.0, 3.0]), k, root) == Ok(VectorValue(Three, [1.0, 2.0, 3.0]))
      && Coerce(Text("east"), k, root) == Ok(VectorValue(Three, [1.0, 0.0, 0.0]))
      && Coerce(Text("around"), k, root) == Err(ValueError)
      && Coerce(VectorToJson([1.0, 2.0]), k, root) == Err(ValueError)
      && Coerce(Rows([VectorToJson([1.0, 2.0, 3.0])]), k, root) == Err(ValueError)
  {
    var spec := VectorSpec(Three, None);
    VectorRoundTrip([1.0, 2.0, 3.0], spec, root);
    KeywordsUsed();
    SingleRejectsNesting(Rows([VectorToJson([1.0, 2.0, 3.0])]), spec, root, 0);
  }

  /** A numeric vector of magnitude one is multiplied by the declared length. */
  lemma UnitVectorScales(v: Vec, spec: DeclaredSpec, root: real -> real)
    requires IsSquareRoot(root)
    requires spec.length.Some? && |v| == spec.dim.Size()
    requires SumSq(v) == 1.0
    ensures CoerceVector(VectorToJson(v), spec, root) == Ok(Scale(v, spec.length.value))
  {
    RootOfSquare(root, 1.0);
    assert Sq(1.0) == 1.0;
    ZeroMagnitudeIffZero(v);
    assert ParseVector(VectorToJson(v), spec.dim) == Ok(v);
  }

  lemma Vector2WithLength(root: real -> real)
    requires IsSquareRoot(root)
    ensures var k := VectorKind(VectorSpec(Two, Some(5.0)));
      && Coerce(VectorToJson([0.0, 1.0]), k, root) == Ok(VectorValue(Two, [0.0, 5.0]))
      && Coerce(VectorToJson([0.0, 0.0]), k, root) == Err(ZeroDivisionError)
  {
    var spec := VectorSpec(Two, Some(5.0));
    var v := [0.0, 1.0];
    assert SumSq(v) == 1.0 by {
      assert v[1..][1..] == [];
    }
    UnitVectorScales(v, spec, root);
    assert Scale(v, 5.0) == [0.0, 5.0];
    var z := [0.0, 0.0];
    assert ParseVector(VectorToJson(z), Two) == Ok(z);
    assert IsZero(z);
  }

  lemma Vector3WithLength(root: real -> real)
    requires IsSquareRoot(root)
    ensures Coerce(Text("down"), VectorKind(VectorSpec(Three, Some(5.0))), root)
         == Ok(VectorValue(Three, [0.0, 0.0, -5.0]))
  {
    KeywordsUsed();
    KeywordScalesExactly("down", VectorSpec(Three, Some(5.0)), root);
    assert Scale([0.0, 0.0, -1.0], 5.0) == [0.0, 0.0, -5.0];
  }

  /** from_json on a flat list yields a vector of the property's dimension. */
  lemma VectorFromJson(root: real -> real)
    requires IsSquareRoot(root)
    ensures FromJson(VectorToJson([5.0, 6.0]), VectorShape(Two), root)
         == Ok(VectorValue(Two, [5.0, 6.0]))
    ensures FromJson(VectorToJson([5.0, 6.0, 7.0]), VectorShape(Three), root)
         == Ok(VectorValue(Three, [5.0, 6.0, 7.0]))
  {
    VectorRoundTrip([5.0, 6.0], VectorSpec(Two, None), root);
    VectorRoundTrip([5.0, 6.0, 7.0], VectorSpec(Three, None), root);
  }

  /** A nested list is an array; a flat list of the right width is promoted
      to a one-row array; a row of the wrong width is refused. */
  lemma Vector2ArrayNumeric(root: real -> real)
    requires IsSquareRoot(root)
    ensures var k := VectorArrayKind(VectorSpec(Two, None));
      && Coerce(ArrayToJson([[1.0, 2.0]]), k, root) == Ok(ArrayValue(Two, [[1.0, 2.0]]))
      && Coerce(VectorToJson([1.0, 2.0]), k, root) == Ok(ArrayValue(Two, [[1.0, 2.0]]))
      && Coerce(ArrayToJson([[1.0, 2.0, 3.0]]), k, root) == Err(ValueError)
  {
    var spec := VectorSpec(Two, None);
    ArrayRoundTrip([[1.0, 2.0]], spec, root);
    var one := VectorToJson([1.0, 2.0]);
    VectorRoundTrip([1.0, 2.0], spec, root);
    PromotionIsOneRow(ListForm, one.items, spec, root);
    assert ArrayToJson([[1.0, 2.0]]) == Rows([one]);
    var wide := VectorToJson([1.0, 2.0, 3.0]);
    OneRow(wide, spec, root);
    assert ArrayToJson([[1.0, 2.0, 3.0]]) == Rows([wide]);
  }

  /** Rows may mix keywords and numeric lists; a bare keyword is not an array. */
  lemma Vector2ArrayKeywords(root: real -> real)
    requires IsSquareRoot(root)
    ensures var k := VectorArrayKind(VectorSpec(Two, None));
      && Coerce(Rows([Text("east"), Text("south"), VectorToJson([1.0, 1.0])]), k, root)
         == Ok(ArrayValue(Two, [[1.0, 0.0], [0.0, -1.0], [1.0, 1.0]]))
      && Coerce(Text("east"), k, root) == Err(ValueError)
  {
    var spec := VectorSpec(Two, None);
    var mixed := [Text("east"), Text("south"), VectorToJson([1.0, 1.0])];
    KeywordsUsed();
    VectorRoundTrip([1.0, 1.0], spec, root);
    KeywordVerbatim("east", spec, root);
    KeywordVerbatim("south", spec, root);
    assert !IsNumber(mixed[0]);
    var r := CoerceArray(Rows(mixed), spec, root);
    assert r.Ok? && |r.value| == 3;
    assert r.value == [[1.0, 0.0], [0.0, -1.0], [1.0, 1.0]] by {
      assert r.value[0] == Lookup("east", spec.dim).value;
      assert r.value[1] == Lookup("south", spec.dim).value;
      assert r.value[2] == [1.0, 1.0];
    }
  }

  lemma Vector3ArrayNumeric(root: real -> real)
    requires IsSquareRoot(root)
    ensures var k := VectorArrayKind(VectorSpec(Three, None));
      && Coerce(ArrayToJson([[1.0, 2.0, 3.0]]), k, root) == Ok(ArrayValue(Three, [[1.0, 2.0, 3.0]]))
      && Coerce(VectorToJson([1.0, 2.0, 3.0]), k, root) == Ok(ArrayValue(Three, [[1.0, 2.0, 3.0]]))
      && Coerce(ArrayToJson([[1.0, 2.0]]), k, root) == Err(ValueError)
  {
    var spec := VectorSpec(Three, None);
    ArrayRoundTrip([[1.0, 2.0, 3.0]], spec, root);
    var one := VectorToJson([1.0, 2.0, 3.0]);
    VectorRoundTrip([1.0, 2.0, 3.0], spec, root);
    PromotionIsOneRow(ListForm, one.items, spec, root);
    assert ArrayToJson([[1.0, 2.0, 3.0]]) == Rows([one]);
    var narrow := VectorToJson([1.0, 2.0]);
    OneRow(narrow, spec, root);
    assert ArrayToJson([[1.0, 2.0]]) == Rows([narrow]);
  }

  lemma Vector3ArrayKeywords(root: real -> real)
    requires IsSquareRoot(root)
    ensures var k := VectorArrayKind(VectorSpec(Three, None));
      && Coerce(Rows([Text("east"), Text("south"), VectorToJson([1.0, 1.0, 1.0])]), k, root)
         == Ok(ArrayValue(Three, [[1.0, 0.0, 0.0], [0.0, -1.0, 0.0], [1.0, 1.0, 1.0]]))
      && Coerce(Text("diagonal"), k, root) == Err(ValueError)
      && Coerce(Rows([Text("diagonal")]), k, root) == Err(ValueError)
  {
    var spec := VectorSpec(Three, None);
    var mixed := [Text("east"), Text("south"), VectorToJson([1.0, 1.0, 1.0])];
    KeywordsUsed();
    VectorRoundTrip([1.0, 1.0, 1.0], spec, root);
    KeywordVerbatim("east", spec, root);
    KeywordVerbatim("south", spec, root);
    assert !IsNumber(mixed[0]);
    var r := CoerceArray(Rows(mixed), spec, root);
    assert r.Ok? && |r.value| == 3;
    assert r.value == [[1.0, 0.0, 0.0], [0.0, -1.0, 0.0], [1.0, 1.0, 1.0]] by {
      assert r.value[0] == Lookup("east", spec.dim).value;
      assert r.value[1] == Lookup("south", spec.dim).value;
      assert r.value[2] == [1.0, 1.0, 1.0];
    }
    assert !IsNumber(Rows([Text("diagonal")]).items[0]);
  }

  /** With a declared length every row of a planar array is rescaled on its own. */
  lemma Vector2ArrayWithLength(root: real -> real)
    requires IsSquareRoot(root)
    ensures Coerce(ArrayToJson([[0.0, 1.0], [1.0, 0.0]]), VectorArrayKind(VectorSpec(Two, Some(5.0))), root)
         == Ok(ArrayValue(Two, [[0.0, 5.0], [5.0, 0.0]]))
  {
    var spec := VectorSpec(Two, Some(5.0));
    var a, b := [0.0, 1.0], [1.0, 0.0];
    assert SumSq(a) == 1.0 by { assert a[1..][1..] == []; }
    assert SumSq(b) == 1.0 by { assert b[1..][1..] == []; }
    UnitVectorScales(a, spec, root);
    UnitVectorScales(b, spec, root);
    assert Scale(a, 5.0) == [0.0, 5.0];
    assert Scale(b, 5.0) == [5.0, 0.0];
    var data := ArrayToJson([a, b]);
    assert !IsNumber(data.items[0]);
    assert CoerceArray(data, spec, root).value == [[0.0, 5.0], [5.0, 0.0]];
  }

  /** With a declared length every row of a spatial array is rescaled on its own. */
  lemma Vector3ArrayWithLength(root: real -> real)
    requires IsSquareRoot(root)
    ensures Coerce(ArrayToJson([[0.0, 0.0, 1.0], [1.0, 0.0, 0.0]]), VectorArrayKind(VectorSpec(Three, Some(5.0))), root)
         == Ok(ArrayValue(Three, [[0.0, 0.0, 5.0], [5.0, 0.0, 0.0]]))
  {
    var spec := VectorSpec(Three, Some(5.0));
    var a, b := [0.0, 0.0, 1.0], [1.0, 0.0, 0.0];
    assert SumSq(a) == 1.0 by { assert a[1..][1..][1..] == []; }
    assert SumSq(b) == 1.0 by { assert b[1..][1..][1..] == []; }
    UnitVectorScales(a, spec, root);
    UnitVectorScales(b, spec, root);
    assert Scale(a, 5.0) == [0.0, 0.0, 5.0];
    assert Scale(b, 5.0) == [5.0, 0.0, 0.0];
    var data := ArrayToJson([a, b]);
    assert !IsNumber(data.items[0]);
    assert CoerceArray(data, spec, root).value == [[0.0, 0.0, 5.0], [5.0, 0.0, 0.0]];
  }

  /** from_json on a list of flat lists yields an array of the property's dimension. */
  lemma ArrayFromJson(root: real -> real)
    requires IsSquareRoot(root)
    ensures FromJson(ArrayToJson([[5.0, 6.0], [7.0, 8.0]]), ArrayShape(Two), root)
         == Ok(ArrayValue(Two, [[5.0, 6.0], [7.0, 8.0]]))
    ensures FromJson(ArrayToJson([[4.0, 5.0, 6.0], [7.0, 8.0, 9.0]]), ArrayShape(Three), root)
         == Ok(ArrayValue(Three, [[4.0, 5.0, 6.0], [7.0, 8.0, 9.0]]))
  {
    ArrayRoundTrip([[5.0, 6.0], [7.0, 8.0]], VectorSpec(Two, None), root);
    ArrayRoundTrip([[4.0, 5.0, 6.0], [7.0, 8.0, 9.0]], VectorSpec(Three, None), root);
  }
}
