/** The static class `Vector3Extensions` of Frame.cs: conversions between
    `Vector3` and three-element float lists and arrays, and the closed-form
    direction vectors of a quaternion.

    A C# `List<float>` is a `seq<real>` here (the core only ever replaces such
    lists, it never edits one in place); a `float[]` stays an `array<real>`. */
module Vector3Extensions {
  import opened Common
  import opened Geometry

  /** `List<float>.ToVector3()`: throws unless the list has exactly 3 entries. */
  function ToVector3(input: seq<real>): (r: Result<Vector3>)
    ensures r.Success? <==> |input| == 3
    ensures r.Failure? ==> r.error == ConversionFailed
  {
    if |input| != 3 then Failure(ConversionFailed)
    else Success(Vector3(input[0], input[1], input[2]))
  }

  /** `Vector3.ToFloatList()`: the components in X, Y, Z order, so that
      converting the list back gives the vector. */
  function ToFloatList(v: Vector3): (r: seq<real>)
    ensures |r| == 3
    ensures ToVector3(r) == Success(v)
  {
    [v.X, v.Y, v.Z]
  }

  /** Converting a well-formed list to a vector and back gives the list. */
  lemma {:induction false} VectorRoundTrip(input: seq<real>)
    requires |input| == 3
    ensures ToFloatList(ToVector3(input).value) == input
  {
    var back := ToFloatList(ToVector3(input).value);
    assert back[0] == input[0] && back[1] == input[1] && back[2] == input[2];
  }

  /** `float[].ToVector3()`: the same check and the same result as for a list. */
  method ArrayToVector3(input: array<real>) returns (r: Result<Vector3>)
    ensures r.Success? <==> input.Length == 3
    ensures r.Failure? ==> r.error == ConversionFailed
    ensures r == ToVector3(input[..])
  {
    if input.Length != 3 {
      return Failure(ConversionFailed);
    }
    return Success(Vector3(input[0], input[1], input[2]));
  }

  /** `float[].ToVector3Backwards()`: the entries in reverse order. */
  method ArrayToVector3Backwards(input: array<real>) returns (r: Result<Vector3>)
    ensures r.Success? <==> input.Length == 3
    ensures r.Failure? ==> r.error == ConversionFailed
    ensures r.Success? ==> forall i :: 0 <= i < 3 ==> ToFloatList(r.value)[i] == input[2 - i]
  {
    if input.Length != 3 {
      return Failure(ConversionFailed);
    }
    return Success(Vector3(input[2], input[1], input[0]));
  }

  /** `Vector3.ToFloatArray()`: a new three-element array. */
  method ToFloatArray(v: Vector3) returns (a: array<real>)
    ensures fresh(a)
    ensures a[..] == ToFloatList(v)
    ensures ToVector3(a[..]) == Success(v)
  {
    a := new real[3];
    a[0], a[1], a[2] := v.X, v.Y, v.Z;
  }

  /** `Quaternion.Forward()`: the image of the +Z axis, a unit vector when
      the quaternion is a unit one. */
  function Forward(q: Quaternion): (r: Vector3)
    ensures SquaredNorm(q) == 1.0 ==> Dot(r, r) == 1.0
  {
    var x, y, z, w := q.X, q.Y, q.Z, q.W;
    var s := x * x + y * y;
    var f := Vector3(2.0 * (x * z + w * y), 2.0 * (y * z - w * x), 1.0 - 2.0 * s);
    SquareOfSum(x * z, w * y);
    SquareOfSum(y * z, -(w * x));
    SquareOfSum(1.0, -2.0 * s);
    assert f.X * f.X + f.Y * f.Y == 4.0 * (s * (z * z + w * w));
    assert f.Z * f.Z == 1.0 - 4.0 * s + 4.0 * (s * s);
    assert Dot(f, f) == 4.0 * (s * SquaredNorm(q)) + 1.0 - 4.0 * s;
    f
  }

  /** `Quaternion.Up()`: the image of the +Y axis, a unit vector when the
      quaternion is a unit one. */
  function Up(q: Quaternion): (r: Vector3)
    ensures SquaredNorm(q) == 1.0 ==> Dot(r, r) == 1.0
  {
    var x, y, z, w := q.X, q.Y, q.Z, q.W;
    var t := x * x + z * z;
    var u := Vector3(2.0 * (x * y - w * z), 1.0 - 2.0 * t, 2.0 * (y * z + w * x));
    SquareOfSum(x * y, -(w * z));
    SquareOfSum(y * z, w * x);
    SquareOfSum(1.0, -2.0 * t);
    assert u.X * u.X + u.Z * u.Z == 4.0 * (t * (y * y + w * w));
    assert u.Y * u.Y == 1.0 - 4.0 * t + 4.0 * (t * t);
    assert Dot(u, u) == 4.0 * (t * SquaredNorm(q)) + 1.0 - 4.0 * t;
    u
  }

  /** `Quaternion.Left()`: the cross product of `Up` and `Forward`, so it is
      orthogonal to both, and a unit vector when the quaternion is a unit
      one. */
  function Left(q: Quaternion): (r: Vector3)
    ensures Dot(r, Up(q)) == 0.0 && Dot(r, Forward(q)) == 0.0
    ensures SquaredNorm(q) == 1.0 ==> Dot(r, r) == 1.0
  {
    ForwardDotUp(q);
    CrossSquaredNorm(Up(q), Forward(q));
    Cross(Up(q), Forward(q))
  }

  lemma SquareOfSum(a: real, b: real)
    ensures (a + b) * (a + b) == a * a + 2.0 * (a * b) + b * b
  {
  }

  lemma ProductOfSums(a: real, b: real, c: real, d: real)
    ensures (a + b) * (c + d) == a * c + a * d + b * c + b * d
  {
  }

  /** For a unit quaternion the three direction vectors are unit length and
      pairwise orthogonal: an orthonormal basis. */
  lemma {:induction false} DirectionsOrthonormal(q: Quaternion)
    requires SquaredNorm(q) == 1.0
    ensures Dot(Forward(q), Forward(q)) == 1.0
    ensures Dot(Up(q), Up(q)) == 1.0
    ensures Dot(Forward(q), Up(q)) == 0.0
    ensures Dot(Left(q), Left(q)) == 1.0
    ensures Dot(Left(q), Forward(q)) == 0.0
    ensures Dot(Left(q), Up(q)) == 0.0
  {
    ForwardDotUp(q);
  }

  lemma {:induction false} ForwardDotUp(q: Quaternion)
    ensures Dot(Forward(q), Up(q)) == 4.0 * q.Y * q.Z * (1.0 - SquaredNorm(q))
  {
    var x, y, z, w := q.X, q.Y, q.Z, q.W;
    assert Forward(q) == Vector3(2.0 * (x * z + w * y), 2.0 * (y * z - w * x), 1.0 - 2.0 * (x * x + y * y));
    assert Up(q) == Vector3(2.0 * (x * y - w * z), 1.0 - 2.0 * (x * x + z * z), 2.0 * (y * z + w * x));
    assert q == Quaternion(x, y, z, w);
    DirectionProduct(x, y, z, w);
  }

  /** The dot product of the `Forward` and `Up` formulas, as a polynomial. */
  lemma {:induction false} DirectionProduct(x: real, y: real, z: real, w: real)
    ensures Dot(Vector3(2.0 * (x * z + w * y), 2.0 * (y * z - w * x), 1.0 - 2.0 * (x * x + y * y)),
                Vector3(2.0 * (x * y - w * z), 1.0 - 2.0 * (x * x + z * z), 2.0 * (y * z + w * x)))
         == 4.0 * y * z * (1.0 - SquaredNorm(Quaternion(x, y, z, w)))
  {
    var p, c := y * z, w * x;
    var s, t := x * x + y * y, x * x + z * z;
    ProductOfSums(x * z, w * y, x * y, -(w * z));
    assert x * z * (x * y) == x * x * p;
    assert x * z * -(w * z) == -(c * (z * z));
    assert w * y * (x * y) == c * (y * y);
    assert w * y * -(w * z) == -(w * w * p);
    assert 2.0 * (x * z + w * y) * (2.0 * (x * y - w * z)) == 4.0 * (p * (x * x - w * w) + c * (y * y - z * z));
    assert 2.0 * (y * z - w * x) * (1.0 - 2.0 * t) == 2.0 * (p - c) * (1.0 - 2.0 * t);
    assert (1.0 - 2.0 * s) * (2.0 * (y * z + w * x)) == 2.0 * (p + c) * (1.0 - 2.0 * s);
    assert 2.0 * (p - c) * (1.0 - 2.0 * t) + 2.0 * (p + c) * (1.0 - 2.0 * s) == 4.0 * p - 4.0 * p * (t + s) + 4.0 * c * (t - s);
    var n := x * x + y * y + z * z + w * w;
    assert t + s - (x * x - w * w) == n;
    assert t - s + (y * y - z * z) == 0.0;
    assert 4.0 * (p * (x * x - w * w) + c * (y * y - z * z)) + (4.0 * p - 4.0 * p * (t + s) + 4.0 * c * (t - s))
        == 4.0 * p * (1.0 - n);
    assert SquaredNorm(Quaternion(x, y, z, w)) == n;
  }
}
