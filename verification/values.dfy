/** Python values as they reach a property, and the canonical values it stores.

    A NumPy array is given as the nested list it converts from; lists and
    tuples are told apart only so that the model can show that the
    distinction does not matter.
 */
module Values {
  import opened Vectors

  datatype Container = ListForm | TupleForm

  /** A raw value assigned to a property, or read back from JSON. */
  datatype Raw =
    | Text(s: string)
    | Int(i: int)
    | Float(x: real)
    | Sequence(form: Container, items: seq<Raw>)
    | Mapping(entries: seq<(string, Raw)>)
    | Existing(obj: Record)

  /** An instance of a has-properties class: its class name and the fields set on it. */
  datatype Record = Record(cls: string, fields: map<string, Value>)

  /** A validated value as a property stores it. */
  datatype Value =
    | IntValue(i: int)
    | VectorValue(dim: Dim, coords: Vec)
    | ArrayValue(dim: Dim, rows: seq<Vec>)
    | RecordValue(rec: Record)
    | ListValue(elems: seq<Value>)

  predicate IsNumber(r: Raw) {
    r.Int? || r.Float?
  }

  function NumberValue(r: Raw): real
    requires IsNumber(r)
  {
    if r.Int? then r.i as real else r.x
  }

  /** Every item is a number: a sequence nested no deeper than one level. */
  predicate IsFlat(items: seq<Raw>) {
    forall i :: 0 <= i < |items| ==> IsNumber(items[i])
  }

  function Numbers(items: seq<Raw>): (v: Vec)
    requires IsFlat(items)
    ensures |v| == |items|
    ensures forall i :: 0 <= i < |items| ==> v[i] == NumberValue(items[i])
  {
    seq(|items|, i requires 0 <= i < |items| => NumberValue(items[i]))
  }
}
