/** The vector utility the cost terms rely on: elementwise addition and
    subtraction that fail on a length mismatch, and the Euclidean magnitude. */
module VectorMath {
  import opened Results

  type Vector = seq<real>

  /** What a host square root must satisfy: a non-negative root of every
      non-negative argument. */
  ghost predicate IsSqrt(sqrt: real -> real) {
    forall x :: 0.0 <= x ==> 0.0 <= sqrt(x) && Square(sqrt(x)) == x
  }

  function Square(x: real): real {
    x * x
  }

  predicate IsZero(v: Vector) {
    forall k :: 0 <= k < |v| ==> v[k] == 0.0
  }

  /** The value `vector_add` returns or throws. */
  function Sum(v1: Vector, v2: Vector): Result<Vector> {
    if |v1| != |v2| then Err(InvalidVectors)
    else Ok(seq(|v1|, k requires 0 <= k < |v1| => v1[k] + v2[k]))
  }

  /** The value `vector_subtract` returns or throws. */
  function Difference(v1: Vector, v2: Vector): Result<Vector> {
    if |v1| != |v2| then Err(InvalidVectors)
    else Ok(seq(|v1|, k requires 0 <= k < |v1| => v1[k] - v2[k]))
  }

  /** The sum of squares `vector_magnitude` accumulates, element by element. */
  function SumOfSquares(v: Vector): real {
    if |v| == 0 then 0.0 else SumOfSquares(v[..|v| - 1]) + Square(v[|v| - 1])
  }

  function Norm(sqrt: real -> real, v: Vector): real {
    sqrt(SumOfSquares(v))
  }

  method Add(v1: Vector, v2: Vector) returns (r: Result<Vector>)
    ensures |v1| != |v2| ==> r == Err(InvalidVectors)
    ensures |v1| == |v2| ==> r.Ok? && |r.value| == |v1|
    ensures r.Ok? ==> forall k :: 0 <= k < |v1| ==> r.value[k] == v1[k] + v2[k]
    ensures r == Sum(v1, v2)
  {
    if |v1| != |v2| {
      return Err(InvalidVectors);
    }
    var result: Vector := [];
    var i := 0;
    while i < |v1|
      invariant 0 <= i <= |v1|
      invariant |result| == i
      invariant forall k :: 0 <= k < i ==> result[k] == v1[k] + v2[k]
    {
      result := result + [v1[i] + v2[i]];
      i := i + 1;
    }
    assert result == Sum(v1, v2).value;
    return Ok(result);
  }

  method Subtract(v1: Vector, v2: Vector) returns (r: Result<Vector>)
    ensures |v1| != |v2| ==> r == Err(InvalidVectors)
    ensures |v1| == |v2| ==> r.Ok? && |r.value| == |v1|
    ensures r.Ok? ==> forall k :: 0 <= k < |v1| ==> r.value[k] == v1[k] - v2[k]
    ensures r == Difference(v1, v2)
  {
    if |v1| != |v2| {
      return Err(InvalidVectors);
    }
    var result: Vector := [];
    var i := 0;
    while i < |v1|
      invariant 0 <= i <= |v1|
      invariant |result| == i
      invariant forall k :: 0 <= k < i ==> result[k] == v1[k] - v2[k]
    {
      result := result + [v1[i] - v2[i]];
      i := i + 1;
    }
    assert result == Difference(v1, v2).value;
    return Ok(result);
  }

  method Magnitude(sqrt: real -> real, v: Vector) returns (m: real)
    ensures m == Norm(sqrt, v)
    ensures IsSqrt(sqrt) ==> 0.0 <= m && (m == 0.0 <==> IsZero(v))
  {
    var acc := 0.0;
    var i := 0;
    while i < |v|
      invariant 0 <= i <= |v|
      invariant acc == SumOfSquares(v[..i])
    {
      assert v[..i + 1][..i] == v[..i];
      acc := acc + v[i] * v[i];
      i := i + 1;
    }
    assert v[..i] == v;
    m := sqrt(acc);
    if IsSqrt(sqrt) {
      NormZero(sqrt, v);
    }
  }

  /** The accumulated sum of squares is non-negative, and zero exactly for
      the zero vector. */
  lemma {:induction false} SumOfSquaresZero(v: Vector)
    ensures 0.0 <= SumOfSquares(v)
    ensures SumOfSquares(v) == 0.0 <==> IsZero(v)
  {
    if |v| > 0 {
      var init, x := v[..|v| - 1], v[|v| - 1];
      SumOfSquaresZero(init);
      SquarePositive(x);
      if SumOfSquares(v) == 0.0 {
        assert x == 0.0 && SumOfSquares(init) == 0.0;
        forall k | 0 <= k < |v| ensures v[k] == 0.0 {
          if k < |v| - 1 { assert v[k] == init[k]; }
        }
      }
      if IsZero(v) {
        assert IsZero(init) by {
          forall k | 0 <= k < |init| ensures init[k] == 0.0 { assert init[k] == v[k]; }
        }
      }
    }
  }

  /** A square is non-negative, and positive unless its root is zero. */
  lemma SquarePositive(x: real)
    ensures 0.0 <= Square(x)
    ensures x != 0.0 ==> Square(x) > 0.0
  {
    if x > 0.0 {
      calc { Square(x); == x * x; > 0.0 * x; == 0.0; }
    } else if x < 0.0 {
      var y := -x;
      calc { Square(x); == y * y; > 0.0 * y; == 0.0; }
    }
  }

  /** With a true square root, the magnitude is non-negative and vanishes
      exactly on the zero vector. */
  lemma NormZero(sqrt: real -> real, v: Vector)
    requires IsSqrt(sqrt)
    ensures 0.0 <= Norm(sqrt, v)
    ensures Norm(sqrt, v) == 0.0 <==> IsZero(v)
  {
    SumOfSquaresZero(v);
    var s := SumOfSquares(v);
    var r := sqrt(s);
    assert 0.0 <= r && Square(r) == s;
    SquarePositive(r);
  }

  /** `subtract(v, v)` is the zero vector. */
  lemma DifferenceSelf(v: Vector)
    ensures Difference(v, v).Ok? && |Difference(v, v).value| == |v|
    ensures IsZero(Difference(v, v).value)
  {
  }

  /** Subtracting and then adding back the same vector is the identity. */
  lemma AddUndoesSubtract(v1: Vector, v2: Vector)
    requires |v1| == |v2|
    ensures Difference(v1, v2).Ok?
    ensures Sum(Difference(v1, v2).value, v2) == Ok(v1)
  {
    var d := Difference(v1, v2).value;
    assert Sum(d, v2).value == v1;
  }

  /** A point equal to `q + offset` lies at distance zero from `q + offset`:
      the difference is the zero vector. */
  lemma DifferenceOfSumIsZero(p: Vector, q: Vector, offset: Vector)
    requires Sum(q, offset) == Ok(p)
    ensures Difference(p, Sum(q, offset).value).Ok?
    ensures IsZero(Difference(p, Sum(q, offset).value).value)
  {
  }
}
