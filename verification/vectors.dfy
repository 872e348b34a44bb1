/** Real vectors, their squared magnitude and rescaling to a target length.

    The library computes magnitudes in floating point through its vector
    package. Dafny's `real` has no square root, so the square root is a
    parameter `root` of every operation that needs one, constrained by
    `IsSquareRoot`. All arithmetic is exact.
 */
module Vectors {
  import opened Outcomes

  type Vec = seq<real>

  /** The two dimensions a vector property can be declared with. */
  datatype Dim = Two | Three {
    function Size(): nat {
      if Two? then 2 else 3
    }
  }

  function Sq(a: real): real {
    a * a
  }

  /** Sum of the squares of the components: the squared Euclidean magnitude. */
  function SumSq(v: Vec): (s: real)
    ensures s >= 0.0
  {
    if |v| == 0 then 0.0 else SqNonNegative(v[0]); Sq(v[0]) + SumSq(v[1..])
  }

  /** Every component multiplied by `k`. */
  function Scale(v: Vec, k: real): (u: Vec)
    ensures |u| == |v|
    ensures forall i :: 0 <= i < |v| ==> u[i] == v[i] * k
  {
    seq(|v|, i requires 0 <= i < |v| => v[i] * k)
  }

  predicate IsZero(v: Vec) {
    forall i :: 0 <= i < |v| ==> v[i] == 0.0
  }

  /** `u` points the same way as `v`: a strictly positive multiple of it. */
  ghost predicate SameDirection(u: Vec, v: Vec) {
    exists k: real :: 0.0 < k && u == Scale(v, k)
  }

  /** `root` returns the non-negative square root of every non-negative real. */
  ghost predicate IsSquareRoot(root: real -> real) {
    forall x: real :: 0.0 <= x ==> 0.0 <= root(x) && Sq(root(x)) == x
  }

  // Facts about squares of reals, each proved on its own so that the
  // proofs using them stay linear.

  lemma ProductPositive(x: real, y: real)
    requires x > 0.0 && y > 0.0
    ensures x * y > 0.0
  {
  }

  lemma ProductNonNegative(x: real, y: real)
    requires x >= 0.0 && y >= 0.0
    ensures x * y >= 0.0
  {
  }

  lemma SqNegate(a: real)
    ensures Sq(-a) == Sq(a)
  {
  }

  lemma SqNonNegative(a: real)
    ensures Sq(a) >= 0.0
  {
    if a >= 0.0 {
      ProductNonNegative(a, a);
    } else {
      ProductNonNegative(-a, -a);
      SqNegate(a);
    }
  }

  lemma SqDifference(a: real, b: real, d: real, s: real)
    requires d == b - a && s == b + a
    ensures Sq(b) - Sq(a) == d * s
  {
  }

  /** Squaring is strictly increasing on the non-negative reals. */
  lemma SqIncreasing(a: real, b: real)
    requires 0.0 <= a < b
    ensures Sq(a) < Sq(b)
  {
    var d, s := b - a, b + a;
    SqDifference(a, b, d, s);
    ProductPositive(d, s);
  }

  lemma SqPositive(a: real)
    requires a != 0.0
    ensures Sq(a) > 0.0
  {
    if a > 0.0 {
      SqIncreasing(0.0, a);
    } else {
      SqIncreasing(0.0, -a);
      SqNegate(a);
    }
  }

  lemma SqZero(a: real)
    requires Sq(a) == 0.0
    ensures a == 0.0
  {
    if a != 0.0 {
      SqPositive(a);
    }
  }

  lemma Distribute(c: real, x: real, y: real)
    ensures c * x + c * y == c * (x + y)
  {
  }

  lemma SqProduct(a: real, k: real)
    ensures Sq(a * k) == Sq(k) * Sq(a)
  {
  }

  lemma SqQuotient(l: real, m: real)
    requires m != 0.0
    ensures Sq(l / m) * Sq(m) == Sq(l)
  {
    assert (l / m) * m == l;
    SqProduct(l / m, m);
  }

  lemma DivideBySelf(l: real)
    requires l != 0.0
    ensures l / l == 1.0
  {
    var q := l / l;
    assert q * l == l;
    assert (q - 1.0) * l == 0.0;
  }

  /** The square root of a positive number's square is that number. */
  lemma RootOfSquare(root: real -> real, x: real)
    requires IsSquareRoot(root)
    requires x > 0.0
    ensures root(Sq(x)) == x
  {
    SqNonNegative(x);
    var m := root(Sq(x));
    if m < x {
      SqIncreasing(m, x);
    } else if x < m {
      SqIncreasing(x, m);
    }
  }

  /** Squared magnitude scales quadratically: |k v|^2 = k^2 |v|^2. */
  lemma {:induction false} SumSqScale(v: Vec, k: real)
    ensures SumSq(Scale(v, k)) == Sq(k) * SumSq(v)
  {
    if |v| > 0 {
      var u := Scale(v, k);
      assert u[1..] == Scale(v[1..], k) by {
        forall i | 0 <= i < |v| - 1
          ensures u[1..][i] == Scale(v[1..], k)[i]
        {
          assert u[1..][i] == u[i + 1];
          assert v[1..][i] == v[i + 1];
        }
      }
      SumSqScale(v[1..], k);
      SqProduct(v[0], k);
      assert SumSq(u) == Sq(u[0]) + SumSq(u[1..]);
      assert SumSq(v) == Sq(v[0]) + SumSq(v[1..]);
      Distribute(Sq(k), Sq(v[0]), SumSq(v[1..]));
    }
  }

  /** A vector has zero magnitude exactly when every component is zero. */
  lemma {:induction false} ZeroMagnitudeIffZero(v: Vec)
    ensures SumSq(v) == 0.0 <==> IsZero(v)
  {
    if |v| > 0 {
      ZeroMagnitudeIffZero(v[1..]);
      assert SumSq(v) == Sq(v[0]) + SumSq(v[1..]);
      assert forall i :: 1 <= i < |v| ==> v[i] == v[1..][i - 1];
      if IsZero(v) {
        assert IsZero(v[1..]);
        assert v[0] == 0.0;
      }
      if SumSq(v) == 0.0 {
        SqNonNegative(v[0]);
        SqZero(v[0]);
        assert IsZero(v);
      }
    }
  }

  /** Rescales `v` to magnitude `length` when a length is declared.

      With no declared length the vector is returned as given, a zero vector
      included. With a length, the vector is divided by its magnitude and
      multiplied by the length; a zero magnitude makes that division fail with
      ZeroDivisionError. */
  function Rescale(v: Vec, length: Option<real>, root: real -> real): (r: Result<Vec>)
    requires IsSquareRoot(root)
    requires length.Some? ==> length.value > 0.0
    ensures length.None? ==> r == Ok(v)
    ensures length.Some? ==> (r.Err? <==> IsZero(v))
    ensures r.Err? ==> r.kind == ZeroDivisionError
    ensures r.Ok? ==> |r.value| == |v| && SameDirection(r.value, v)
    ensures r.Ok? && length.Some? ==> SumSq(r.value) == Sq(length.value)
  {
    match length
    case None =>
      assert Scale(v, 1.0) == v;
      Ok(v)
    case Some(l) =>
      var m := root(SumSq(v));
      ZeroMagnitudeIffZero(v);
      if m == 0.0 then
        assert SumSq(v) == Sq(m);
        Err(ZeroDivisionError)
      else
        var k := l / m;
        assert 0.0 < m;
        assert 0.0 < k;
        SumSqScale(v, k);
        SqQuotient(l, m);
        Ok(Scale(v, k))
  }
}
