# Vector and List coercion in `properties`, modelled in Dafny

`properties` is a Python library of typed attributes for "has-properties"
classes. Every assignment to a declared property is validated and normalised
before it is stored. This project models the part of that engine exercised by
`tests/test_math.py` and `tests/test_list.py`:

- **Declaring** a `Vector2`, `Vector3`, `Vector2Array` or `Vector3Array`
  property with an optional target `length` (`Declarations`). A length that
  is not a strictly positive number is refused with `TypeError`.
- **Direction keywords** (`Lexicon`): `east`, `west`, `north`, `south` for
  both dimensions, and `up`, `down` for three dimensions only. Each names a
  signed unit axis. An unknown word, or a vertical word for a planar
  property, raises `ValueError`.
- **Single vectors** (`VectorCoercion.ParseVector`, `CoerceVector`). A
  keyword, or a flat list or tuple of exactly `dim` numbers, is read as a
  vector. It is then rescaled to the declared length (`Vectors.Rescale`). A
  zero vector under a declared length raises `ZeroDivisionError`. A list
  nested one level deeper is refused.
- **Vector arrays** (`CoerceArray`, `CoerceRows`). A non-empty flat numeric
  list is promoted to a one-row array. Any other sequence is read row by
  row, where each row is a keyword or a flat numeric list. A bare string is
  refused.
- **JSON** (`Serialization`). A vector is written as a list of floats and an
  array as a list of such lists. `from_json` is called on the property class
  (`Vector2.from_json`, `Vector2Array.from_json`, …). The class fixes the
  shape and the dimension but declares no length, so the model reads the
  data as an assignment with no length would: nothing is rescaled.
- **Typed lists** (`Kinds`). A `List` of `Integer`, or of a has-properties
  class, coerces a list or tuple element by element. An element of a class
  kind is an existing instance of that class, or a dict from property
  names to values that builds a new instance. A name written twice in a dict
  literal keeps only its last value.
- `Outcomes` holds the `Result` type. Its three error kinds are the three
  exception classes the tests expect.
- `MathScenarios` and `ListScenarios` restate each assertion of the two test
  files as a lemma about the model.

The library takes a vector's magnitude from its vector package
(`vectormath`). That needs a square root, which Dafny's reals lack, so it
becomes a parameter `root` of every operation that needs a magnitude,
constrained by `Vectors.IsSquareRoot`. Arithmetic is on exact reals.

A lone keyword assigned to an array property raises `ValueError`
(`tests/test_math.py:92-93` and `:122-123`). It is not read as a one-row
array.

## Model

| member | source | states |
|---|---|---|
| Declarations.Declare | tests/test_math.py:17-22 | declaring succeeds exactly when `length` is unset or a number above zero; otherwise TypeError; the declared spec keeps the dimension and the given length |
| Lexicon.DirectionIsUnitAxis | tests/test_math.py:74-75 | every lexicon word names a three-component vector with one component ±1 and the others 0, of magnitude one |
| Lexicon.Lookup | tests/test_math.py:30-33 | a word resolves exactly when it is a keyword of the dimension, else ValueError; the result has the property's dimension, is a signed unit axis and has squared magnitude 1 |
| Lexicon.PlanarLookupTruncatesSpatial | tests/test_math.py:61-62 | every planar keyword is also a spatial one, lies in the horizontal plane, and its planar vector is the spatial vector without its z component |
| Vectors.SumSqScale | tests/test_math.py:43-44 | scaling a vector by k multiplies its squared magnitude by k² |
| Vectors.ZeroMagnitudeIffZero | tests/test_math.py:49-50 | a vector has magnitude zero exactly when all its components are zero |
| Vectors.Rescale | tests/test_math.py:39-50 | with no length the vector is kept, a zero vector included; with a length, it fails exactly on the zero vector, and then with ZeroDivisionError; otherwise the result points the same way as the input and its magnitude equals the length |
| VectorCoercion.ParseVector | tests/test_math.py:28-37 | a raw value reads as a vector exactly when it is a keyword of the dimension or a flat sequence of `dim` numbers; every failure is ValueError; a keyword gives its lexicon vector and a sequence its numbers in order |
| VectorCoercion.CoerceVector | tests/test_math.py:39-50 | an assignment succeeds exactly when it parses and, under a length, is non-zero; ZeroDivisionError exactly for a parsed zero vector; never TypeError; a stored vector fits the spec and points the same way as the input; with no length it is the input unchanged |
| VectorCoercion.SingleRejectsNesting | tests/test_math.py:36-37 | a sequence with a sequence inside it is refused as a single vector with ValueError, whatever its width |
| VectorCoercion.KeywordScalesExactly | tests/test_math.py:73-75 | under a declared length a keyword gives exactly its unit axis times the length |
| VectorCoercion.CoerceRows | tests/test_math.py:88-89 | rows are coerced independently and in order: the array succeeds exactly when every row does, holds one vector per row, each equal to that row's own coercion; on failure the error is that of the first failing row |
| VectorCoercion.CoerceArray | tests/test_math.py:85-95 | a non-sequence is ValueError; a non-empty flat sequence has the outcome of its vector coercion, wrapped as a one-row array on success and with the same error on failure; any other sequence is coerced row by row, holding each row's vector, and on failure reports the error of the first failing row (so a row of the wrong width is ValueError and a zero row under a length is ZeroDivisionError); every stored row fits the spec |
| VectorCoercion.OneRow | tests/test_math.py:124-127 | a one-item sequence whose item is not a number (a keyword or a nested row) succeeds or fails exactly as that row does, with the same error, and then holds that row |
| VectorCoercion.PromotionIsOneRow | tests/test_math.py:90-91 | a flat vector assigned to an array property gives the same outcome as the one-row array wrapping it |
| VectorCoercion.NestingAsymmetry | tests/test_math.py:36-37 | a valid row wrapped in a list is refused as a vector but is accepted as a one-row array holding that row |
| Kinds.Coerce | tests/test_list.py:25-35 | every stored value conforms to the property's kind, and no failure is TypeError; per kind: an Integer takes exactly the ints, as themselves; a vector or array kind succeeds exactly when the vector or array coercion does and stores its result; a class kind takes an existing instance exactly when its class matches, keeping it, takes a dict exactly when every kept field sets, storing those fields, and refuses anything else with ValueError; a List takes exactly the lists and tuples whose elements all coerce, storing them in order; every failure carries the error of the coercion it delegates to (a zero vector under a length stays ZeroDivisionError), and a value of the wrong form is ValueError |
| Kinds.CoerceEach | tests/test_list.py:28-30 | a List assignment succeeds exactly when every element coerces; it keeps the order and length, each element is that element's own coercion; on failure the error is the first failing element's |
| Kinds.SetField | tests/test_list.py:10-11 | a field sets exactly when the class declares the name and the value coerces to its kind; the stored value is that coercion's result and conforms to the kind; an undeclared name raises ValueError |
| Kinds.CoerceFields | tests/test_list.py:35 | building an instance from a dict succeeds exactly when the last entry for each name sets; the fields are exactly the names given; each holds the coerced value of the last entry naming it, is declared, and conforms; an earlier entry overridden by a later one is neither validated nor stored; on failure the error is the first kept entry's that fails |
| Kinds.ContainerIsIrrelevant | tests/test_list.py:29-30 | assigning a list or a tuple of the same items gives the same outcome, for every kind |
| Serialization.VectorToJson | tests/test_math.py:46-47 | a vector's JSON is plain JSON data, a flat list whose numbers are the vector's components |
| Serialization.ArrayToJson | tests/test_math.py:104-107 | an array's JSON is plain JSON data with one item per row, each the row's vector JSON |
| Serialization.ToJson | tests/test_math.py:46-47 | a vector or array value is written as plain JSON data |
| Serialization.FromJson | tests/test_math.py:104-107 | class-level from_json yields a vector or array of the class's dimension, with no length applied: it succeeds exactly when an assignment with no length would, and holds that assignment's unscaled result (the parsed vector, or the array's rows); every array row has the dimension's width; every failure is ValueError |
| Serialization.PlainArrayFailsWithValueError | tests/test_math.py:104-107 | with no declared length an array assignment can fail only with ValueError, never ZeroDivisionError |
| Serialization.VectorRoundTrip | tests/test_math.py:42-44 | assigning the JSON of a vector that fits the spec to a property of that spec gives the vector back, so rescaling a vector that already has the length is the identity |
| Serialization.ArrayRoundTrip | tests/test_math.py:100-102 | assigning the JSON of an array whose rows fit the spec gives the array back |
| Serialization.RoundTrip | tests/test_math.py:104-107 | from_json(to_json(v)) == v for every vector or array value of the class's shape and dimension |
| Serialization.CoercionSurvivesRoundTrip | tests/test_math.py:46-47 | for every input that coerces under any declared length, class-level from_json of the stored value's JSON gives the same stored value |
| MathScenarios.DeclarationRejectsBadLengths | tests/test_math.py:17-22 | a length of 'ten', 0 or -0.5 is refused with TypeError, and a length of 5 is accepted |
| MathScenarios.KeywordsUsed | tests/test_math.py:30-33 | east and south resolve to (1,0), (0,-1) and (1,0,0), (0,-1,0); down to (0,0,-1); up is not planar; around and diagonal are not keywords |
| MathScenarios.KeywordVerbatim | tests/test_math.py:30-31 | with no length a keyword assignment has the lexicon's outcome |
| MathScenarios.Vector2Assignments | tests/test_math.py:27-37 | [1,2] and 'east' are accepted as (1,2) and (1,0); 'up', [1,2,3] and [[1,2]] raise ValueError |
| MathScenarios.UnitVectorScales | tests/test_math.py:43-44 | a numeric vector of magnitude one is stored as itself times the declared length |
| MathScenarios.Vector2WithLength | tests/test_math.py:42-50 | with length 5, [0,1] is stored as (0,5) and [0,0] raises ZeroDivisionError |
| MathScenarios.Vector3Assignments | tests/test_math.py:58-68 | [1,2,3] and 'east' are accepted as (1,2,3) and (1,0,0); 'around', [1,2] and [[1,2,3]] raise ValueError |
| MathScenarios.Vector3WithLength | tests/test_math.py:73-75 | with length 5, 'down' is stored as (0,0,-5) |
| MathScenarios.VectorFromJson | tests/test_math.py:77-78 | from_json of [5,6] and [5,6,7] gives a planar and a spatial vector |
| MathScenarios.Vector2ArrayNumeric | tests/test_math.py:85-95 | [[1,2]] and [1,2] both give the 1×2 array ((1,2)); [[1,2,3]] raises ValueError |
| MathScenarios.Vector2ArrayKeywords | tests/test_math.py:88-93 | ['east','south',[1,1]] gives rows (1,0), (0,-1), (1,1); a bare 'east' raises ValueError |
| MathScenarios.Vector2ArrayWithLength | tests/test_math.py:100-102 | with length 5, [[0,1],[1,0]] is stored as [[0,5],[5,0]] |
| MathScenarios.Vector3ArrayNumeric | tests/test_math.py:114-127 | [[1,2,3]] and [1,2,3] both give the 1×3 array ((1,2,3)); [[1,2]] raises ValueError |
| MathScenarios.Vector3ArrayKeywords | tests/test_math.py:117-125 | ['east','south',[1,1,1]] gives rows (1,0,0), (0,-1,0), (1,1,1); 'diagonal' and ['diagonal'] raise ValueError |
| MathScenarios.Vector3ArrayWithLength | tests/test_math.py:132-134 | with length 5, [[0,0,1],[1,0,0]] is stored as [[0,0,5],[5,0,0]] |
| MathScenarios.ArrayFromJson | tests/test_math.py:104-107 | from_json of [[5,6],[7,8]] and [[4,5,6],[7,8,9]] gives a planar and a spatial array holding those rows |
| ListScenarios.IntegerList | tests/test_list.py:28-30 | a List of Integer stores the integers of any list or tuple of ints, in order |
| ListScenarios.IntegerListLiterals | tests/test_list.py:28-30 | [1,2,3] and (1,2,3) are both stored as the list 1, 2, 3 |
| ListScenarios.InstanceList | tests/test_list.py:34 | a tuple of two HasIntA instances is stored as those two instances |
| ListScenarios.MappingBuildsInstance | tests/test_list.py:35 | the mapping {'a': n} builds a HasIntA whose only field `a` is n |
| ListScenarios.RepeatedNameKeepsLast | tests/test_list.py:35 | the dict literal {'a': 'x', 'a': 1} builds HasIntA with a = 1; the overridden 'x' is never validated |
| ListScenarios.MappingList | tests/test_list.py:35 | [{'a':1},{'a':2},{'a':3}] is stored as three new HasIntA instances with a = 1, 2, 3 |

## Left out

- Floating point: components are exact reals. There is no rounding and no `np.allclose` tolerance, so a rescaled magnitude equals the length exactly.
- Square root: the magnitude the vector package computes is modelled with the parameter `root`, assumed to be an exact non-negative square root (`Vectors.IsSquareRoot`).
- NumPy and `vectormath` objects: an `np.array` or an existing `Vector2`/`Vector3` object is given as the nested list it converts from. Dtype conversion and the `isinstance` class of the result are represented only by the `Value` constructor and its dimension.
- Keywords: only the six words are modelled, matched exactly. `west`, `north` and a spatial `up` do not appear in the tests and are assumed.
- The has-properties class machinery (metaclass registration, defaults, validation hooks, change notification) is not modelled. A class is only its name and the kinds of its properties.
- Integer properties: only Python ints are accepted. How `Integer` treats floats and other numbers is not modelled.
- Kinds.SetField: an unknown name in a mapping is assumed to raise ValueError. The test files exercise only known names.
- VectorCoercion.CoerceRows: rows are read and rescaled one at a time, so an array with both a zero row and a row of the wrong width reports the error of whichever comes first (ZeroDivisionError or ValueError). The tests show no failing array with several bad rows; checking every row's width before any rescaling would report ValueError in both orders.
- Kinds.CoerceFields: the kept entries are taken in the order of each name's last occurrence. A Python dict keeps a repeated name at its first position, so with a repeated name and two failing fields the model may report a different error than the library. The tests write no repeated names and no failing dict.
- Kinds.Conforms: a record conforms when its class name equals the schema's name. An isinstance check would also accept an instance of a subclass, and the model has no subclasses. The fields of an existing instance are not re-validated.
- Kinds.Coerce: an existing instance becomes a value without identity. The two distinct `HasIntA()` objects of `tests/test_list.py:34` are equal values in the model, so aliasing and object identity are not represented.
- Serialization.FromJson: the tests check only the class of the result. That a payload of the wrong width is refused with ValueError, and that the data is read like an assignment, are assumed.
- `HasInstanceList` (a List of `props.Instance(HasIntA)`): the test assigns only to `HasTypeList`, so the separate `Instance` property kind is not modelled. The model's `Raw.Existing` is an existing object being assigned, not that property kind.
- Serialization.ToJson: only vector and array values are written to JSON. Lists and records are not serialized.
- Error messages and the exception hierarchy: only the error class is modelled.
