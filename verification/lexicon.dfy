/** Direction keywords accepted in place of a numeric vector.

    One table of three-dimensional unit vectors serves both dimensions: a
    two-dimensional property accepts the keywords whose direction lies in the
    horizontal plane and drops the vertical component. Lookup is exact and
    case-sensitive. The tests use only "east", "south", "down" and a refused
    planar "up"; "west", "north" and a spatial "up" are assumed entries.
 */
module Lexicon {
  import opened Outcomes
  import opened Vectors

  /** The three-dimensional unit vector a keyword names, if any. */
  function Direction(word: string): Option<Vec> {
    if word == "east" then Some([1.0, 0.0, 0.0])
    else if word == "west" then Some([-1.0, 0.0, 0.0])
    else if word == "north" then Some([0.0, 1.0, 0.0])
    else if word == "south" then Some([0.0, -1.0, 0.0])
    else if word == "up" then Some([0.0, 0.0, 1.0])
    else if word == "down" then Some([0.0, 0.0, -1.0])
    else None
  }

  /** The keywords each dimension understands, listed independently of the table. */
  function Keywords(dim: Dim): set<string> {
    match dim
    case Two => {"east", "west", "north", "south"}
    case Three => {"east", "west", "north", "south", "up", "down"}
  }

  /** `v` lies along one coordinate axis, pointing either way, with length one. */
  predicate IsSignedAxis(v: Vec) {
    exists j :: 0 <= j < |v| && (v[j] == 1.0 || v[j] == -1.0)
      && forall i :: 0 <= i < |v| && i != j ==> v[i] == 0.0
  }

  lemma DirectionIsUnitAxis(word: string)
    requires Direction(word).Some?
    ensures |Direction(word).value| == 3
    ensures IsSignedAxis(Direction(word).value) && SumSq(Direction(word).value) == 1.0
    ensures Direction(word).value[2] == 0.0 ==>
      IsSignedAxis(Direction(word).value[..2]) && SumSq(Direction(word).value[..2]) == 1.0
  {
    var v := Direction(word).value;
    var h := v[..2];
    assert SumSq(v) == Sq(v[0]) + (Sq(v[1]) + (Sq(v[2]) + 0.0)) by {
      assert v[1..][1..][1..] == [];
    }
    assert SumSq(h) == Sq(h[0]) + (Sq(h[1]) + 0.0) by {
      assert h[1..][1..] == [];
    }
    if word == "east" || word == "west" {
      assert IsSignedAxis(v) && IsSignedAxis(h) by { assert h[0] == v[0]; }
    } else if word == "north" || word == "south" {
      assert IsSignedAxis(v) && IsSignedAxis(h) by { assert h[1] == v[1]; }
    } else {
      assert v[2] == 1.0 || v[2] == -1.0;
      assert IsSignedAxis(v);
    }
  }

  /** Resolves a keyword for a property of dimension `dim`.

      An unknown word, or a vertical word for a two-dimensional property,
      raises ValueError. */
  function Lookup(word: string, dim: Dim): (r: Result<Vec>)
    ensures r.Ok? <==> word in Keywords(dim)
    ensures r.Err? ==> r.kind == ValueError
    ensures r.Ok? ==> |r.value| == dim.Size() && IsSignedAxis(r.value) && SumSq(r.value) == 1.0
  {
    match Direction(word)
    case None => Err(ValueError)
    case Some(v) =>
      DirectionIsUnitAxis(word);
      match dim
      case Three => Ok(v)
      case Two => if v[2] == 0.0 then Ok(v[..2]) else Err(ValueError)
  }

  /** The two-dimensional lexicon is the horizontal part of the three-dimensional one. */
  lemma PlanarLookupTruncatesSpatial(word: string)
    requires word in Keywords(Two)
    ensures word in Keywords(Three)
    ensures Lookup(word, Three).value[2] == 0.0
    ensures Lookup(word, Two).value == Lookup(word, Three).value[..2]
  {
  }
}
