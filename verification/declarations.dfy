/** Declaration-time configuration of a vector or vector-array property.

    A property is declared with a dimension (two or three) and an optional
    target `length`. The length is checked once, when the property is
    declared, before any record exists: anything but a strictly positive
    number raises TypeError.
 */
module Declarations {
  import opened Outcomes
  import opened Vectors

  /** The `length` keyword argument as the declarer passed it. */
  datatype LengthArg = Unset | Number(x: real) | Word(s: string)

  datatype VectorSpec = VectorSpec(dim: Dim, length: Option<real>) {
    predicate Valid() {
      length.Some? ==> length.value > 0.0
    }
  }

  /** A specification that passed the declaration-time check. */
  type DeclaredSpec = s: VectorSpec | s.Valid() witness VectorSpec(Two, None)

  /** Declares a vector property; the same check applies to vector arrays. */
  function Declare(dim: Dim, length: LengthArg): (r: Result<DeclaredSpec>)
    ensures r.Ok? <==> length.Unset? || (length.Number? && length.x > 0.0)
    ensures r.Err? ==> r.kind == TypeError
    ensures r.Ok? ==> r.value.dim == dim
    ensures r.Ok? ==> (r.value.length.Some? <==> length.Number?)
    ensures r.Ok? && length.Number? ==> r.value.length.value == length.x
  {
    match length
    case Unset => Ok(VectorSpec(dim, None))
    case Number(x) => if x > 0.0 then Ok(VectorSpec(dim, Some(x))) else Err(TypeError)
    case Word(_) => Err(TypeError)
  }
}
