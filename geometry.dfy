/** `calculate_angle`: the angle at p2 between the vectors p2->p1 and p2->p3,
    through the dot product and the arc-cosine, in degrees. */
module Geometry {
  import opened Errors

  /** A landmark as the `(x, y)` tuple the source unpacks. */
  datatype Point = Point(x: real, y: real)

  datatype Vector = Vector(dx: real, dy: real)

  /** The real-number primitives `math.sqrt`, `math.acos` and `math.pi`.
      They are not computed here: `Valid` states the only facts the model
      uses about them. */
  datatype RealMath = RealMath(sqrt: real -> real, acos: real -> real, pi: real) {
    /** `math.sqrt(x)`. */
    function Sqrt(x: real): real { sqrt(x) }

    /** `math.acos(c)`, in radians. */
    function Acos(c: real): real { acos(c) }
  }

  ghost predicate Valid(m: RealMath) {
    && m.pi > 0.0
    && (forall x :: 0.0 <= x ==> 0.0 <= m.Sqrt(x) && Pow(m.Sqrt(x), 2) == x)
    && (forall c :: -1.0 <= c <= 1.0 ==> 0.0 <= m.Acos(c) <= m.pi)
  }

  /** Python's `x ** n` for a natural exponent. */
  function Pow(x: real, n: nat): real {
    if n == 0 then 1.0 else Pow(x, n - 1) * x
  }

  function Sub(p: Point, q: Point): Vector {
    Vector(p.x - q.x, p.y - q.y)
  }

  function Dot(a: Vector, b: Vector): real {
    a.dx * b.dx + a.dy * b.dy
  }

  /** The radicand of the magnitude, `v[0]**2 + v[1]**2`. */
  function NormSq(a: Vector): real {
    Pow(a.dx, 2) + Pow(a.dy, 2)
  }

  function Magnitude(m: RealMath, a: Vector): real {
    m.Sqrt(NormSq(a))
  }

  /** `math.degrees`. */
  function Degrees(m: RealMath, radians: real): real
    requires m.pi > 0.0
  {
    radians * 180.0 / m.pi
  }

  /** Neither outer point coincides with the vertex. */
  predicate NonDegenerate(p1: Point, p2: Point, p3: Point) {
    p1 != p2 && p3 != p2
  }

  /** The denominator is positive and the quotient lies in `math.acos`'s domain. */
  predicate CosineInDomain(dotProduct: real, denominator: real) {
    0.0 < denominator && -1.0 <= dotProduct / denominator <= 1.0
  }

  /** `calculate_angle(p1, p2, p3)`: the angle at p2, in degrees. Dividing by
      a zero product of the two magnitudes raises ZeroDivisionError, which
      happens exactly when an outer point coincides with the vertex; otherwise
      the quotient lies in `math.acos`'s domain and the angle in [0, 180]. */
  function CalculateAngle(m: RealMath, p1: Point, p2: Point, p3: Point): (r: Result<real>)
    requires m.pi > 0.0
    ensures Valid(m) ==> (r.Ok? <==> NonDegenerate(p1, p2, p3))
    ensures r.Err? ==> r.error == ZeroDivisionError
    ensures Valid(m) && r.Ok? ==> 0.0 <= r.value <= 180.0
  {
    var vector21 := Sub(p1, p2);
    var vector23 := Sub(p3, p2);
    var dotProduct := Dot(vector21, vector23);
    var magnitude21 := Magnitude(m, vector21);
    var magnitude23 := Magnitude(m, vector23);
    ZeroDenominatorIff(m, p1, p2, p3, magnitude21, magnitude23);
    AngleInRange(m, p1, p2, p3, dotProduct, magnitude21, magnitude23);
    var denominator := magnitude21 * magnitude23;
    if denominator == 0.0 then
      Err(ZeroDivisionError)
    else
      Ok(Degrees(m, m.Acos(dotProduct / denominator)))
  }

  // Arithmetic facts. Squares are kept as `Pow(x, 2)`, the form the source
  // writes them in, and unfolded only through SquareIsProduct.

  lemma SquareIsProduct(x: real)
    ensures Pow(x, 1) == x && Pow(x, 2) == Pow(x, 1) * x
  {
  }

  lemma ProductPositive(x: real, y: real)
    requires (0.0 < x && 0.0 < y) || (x < 0.0 && y < 0.0)
    ensures 0.0 < x * y
  {
    if x < 0.0 {
      assert 0.0 < (-x) * (-y);
    }
  }

  lemma SquarePositive(x: real)
    ensures 0.0 <= Pow(x, 2)
    ensures x != 0.0 ==> 0.0 < Pow(x, 2)
  {
    SquareIsProduct(x);
    if x != 0.0 {
      ProductPositive(Pow(x, 1), x);
    }
  }

  lemma ProductZero(s: real, t: real)
    requires 0.0 <= s && 0.0 <= t
    ensures s * t == 0.0 <==> s == 0.0 || t == 0.0
  {
    if s != 0.0 && t != 0.0 {
      ProductPositive(s, t);
    }
  }

  lemma ProductSquare(s: real, t: real)
    ensures Pow(s * t, 2) == Pow(s, 2) * Pow(t, 2)
  {
    SquareIsProduct(s);
    SquareIsProduct(t);
    SquareIsProduct(s * t);
  }

  lemma SquareBound(d: real, p: real)
    requires 0.0 < p && Pow(d, 2) <= Pow(p, 2)
    ensures -p <= d <= p
  {
    SquareIsProduct(d);
    SquareIsProduct(p);
  }

  lemma QuotientInUnit(d: real, p: real)
    requires 0.0 < p && -p <= d <= p
    ensures -1.0 <= d / p <= 1.0
  {
    var q := d / p;
    assert q * p == d;
  }

  lemma QuotientBound(x: real, p: real, c: real)
    requires 0.0 < p && 0.0 <= x <= c * p
    ensures 0.0 <= x / p <= c
  {
    var q := x / p;
    assert q * p == x;
  }

  // Magnitudes.

  lemma NormSqPositive(a: Vector)
    ensures 0.0 <= NormSq(a)
    ensures NormSq(a) == 0.0 <==> a == Vector(0.0, 0.0)
  {
    SquarePositive(a.dx);
    SquarePositive(a.dy);
  }

  lemma SqrtFacts(m: RealMath, x: real)
    requires Valid(m) && 0.0 <= x
    ensures 0.0 <= m.Sqrt(x)
    ensures m.Sqrt(x) == 0.0 <==> x == 0.0
  {
    SquarePositive(m.Sqrt(x));
    SquareIsProduct(0.0);
  }

  /** A magnitude is never negative, and is zero exactly for the zero vector. */
  lemma MagnitudeFacts(m: RealMath, a: Vector)
    requires Valid(m)
    ensures 0.0 <= Magnitude(m, a)
    ensures Magnitude(m, a) == 0.0 <==> a == Vector(0.0, 0.0)
  {
    NormSqPositive(a);
    SqrtFacts(m, NormSq(a));
  }

  lemma MagnitudeSquare(m: RealMath, a: Vector)
    requires Valid(m)
    ensures Pow(Magnitude(m, a), 2) == NormSq(a)
  {
    var n := NormSq(a);
    NormSqPositive(a);
    assert 0.0 <= n;
    assert Pow(m.Sqrt(n), 2) == n;
  }

  // The cosine.

  /** Lagrange's identity in two dimensions. */
  lemma Lagrange(a: Vector, b: Vector)
    ensures NormSq(a) * NormSq(b) - Pow(Dot(a, b), 2) == Pow(a.dx * b.dy - a.dy * b.dx, 2)
  {
    SquareIsProduct(a.dx);
    SquareIsProduct(a.dy);
    SquareIsProduct(b.dx);
    SquareIsProduct(b.dy);
    SquareIsProduct(Dot(a, b));
    SquareIsProduct(a.dx * b.dy - a.dy * b.dx);
  }

  lemma CauchySchwarz(a: Vector, b: Vector)
    ensures Pow(Dot(a, b), 2) <= NormSq(a) * NormSq(b)
  {
    Lagrange(a, b);
    SquarePositive(a.dx * b.dy - a.dy * b.dx);
  }

  /** A quotient whose square is bounded by the product of the squares of
      the two positive factors of its denominator lies in [-1, 1]. */
  lemma BoundedQuotient(d: real, ma: real, mb: real, na: real, nb: real)
    requires 0.0 < ma && 0.0 < mb
    requires Pow(ma, 2) == na && Pow(mb, 2) == nb
    requires Pow(d, 2) <= na * nb
    ensures CosineInDomain(d, ma * mb)
  {
    ProductPositive(ma, mb);
    ProductSquare(ma, mb);
    SquareBound(d, ma * mb);
    QuotientInUnit(d, ma * mb);
  }

  /** For two nonzero vectors the quotient handed to `math.acos` lies in
      [-1, 1] (the Cauchy-Schwarz inequality). */
  lemma UnitCosine(m: RealMath, a: Vector, b: Vector, d: real, ma: real, mb: real)
    requires Valid(m)
    requires a != Vector(0.0, 0.0) && b != Vector(0.0, 0.0)
    requires d == Dot(a, b) && ma == Magnitude(m, a) && mb == Magnitude(m, b)
    ensures CosineInDomain(d, ma * mb)
  {
    MagnitudeFacts(m, a);
    MagnitudeFacts(m, b);
    MagnitudeSquare(m, a);
    MagnitudeSquare(m, b);
    CauchySchwarz(a, b);
    assert 0.0 < ma && 0.0 < mb;
    assert Pow(ma, 2) == NormSq(a);
    assert Pow(mb, 2) == NormSq(b);
    assert Pow(d, 2) <= NormSq(a) * NormSq(b);
    BoundedQuotient(d, ma, mb, NormSq(a), NormSq(b));
  }

  lemma SubZero(p: Point, q: Point)
    ensures Sub(p, q) == Vector(0.0, 0.0) <==> p == q
  {
  }

  /** The denominator of `calculate_angle` is zero exactly when an outer
      point coincides with the vertex. */
  lemma ZeroDenominatorIff(m: RealMath, p1: Point, p2: Point, p3: Point, magnitude21: real, magnitude23: real)
    requires magnitude21 == Magnitude(m, Sub(p1, p2)) && magnitude23 == Magnitude(m, Sub(p3, p2))
    ensures Valid(m) ==> (magnitude21 * magnitude23 == 0.0 <==> !NonDegenerate(p1, p2, p3))
  {
    if Valid(m) {
      SubZero(p1, p2);
      SubZero(p3, p2);
      DenominatorZero(m, Sub(p1, p2), Sub(p3, p2), magnitude21, magnitude23);
    }
  }

  /** Otherwise the angle lies in [0, 180] degrees. */
  lemma AngleInRange(m: RealMath, p1: Point, p2: Point, p3: Point,
                     dotProduct: real, magnitude21: real, magnitude23: real)
    requires m.pi > 0.0
    requires dotProduct == Dot(Sub(p1, p2), Sub(p3, p2))
    requires magnitude21 == Magnitude(m, Sub(p1, p2)) && magnitude23 == Magnitude(m, Sub(p3, p2))
    ensures Valid(m) && NonDegenerate(p1, p2, p3) ==> CosineInDomain(dotProduct, magnitude21 * magnitude23)
    ensures Valid(m) && NonDegenerate(p1, p2, p3) ==>
      0.0 <= Degrees(m, m.Acos(dotProduct / (magnitude21 * magnitude23))) <= 180.0
  {
    if Valid(m) && NonDegenerate(p1, p2, p3) {
      SubZero(p1, p2);
      SubZero(p3, p2);
      UnitCosine(m, Sub(p1, p2), Sub(p3, p2), dotProduct, magnitude21, magnitude23);
      DegreesOfAcosRange(m, dotProduct, magnitude21 * magnitude23);
    }
  }

  lemma DenominatorZero(m: RealMath, a: Vector, b: Vector, ma: real, mb: real)
    requires Valid(m)
    requires ma == Magnitude(m, a) && mb == Magnitude(m, b)
    ensures ma * mb == 0.0 <==> a == Vector(0.0, 0.0) || b == Vector(0.0, 0.0)
  {
    MagnitudeFacts(m, a);
    MagnitudeFacts(m, b);
    ProductZero(ma, mb);
  }

  // Degrees.

  lemma AcosRange(m: RealMath, c: real)
    requires Valid(m) && -1.0 <= c <= 1.0
    ensures 0.0 <= m.Acos(c) <= m.pi
  {
  }

  lemma DegreesRange(m: RealMath, radians: real)
    requires m.pi > 0.0 && 0.0 <= radians <= m.pi
    ensures 0.0 <= Degrees(m, radians) <= 180.0
  {
    QuotientBound(radians * 180.0, m.pi, 180.0);
  }

  /** An arc-cosine of a quotient in [-1, 1], converted to degrees, lies in [0, 180]. */
  lemma DegreesOfAcosRange(m: RealMath, dotProduct: real, denominator: real)
    requires m.pi > 0.0
    ensures Valid(m) && CosineInDomain(dotProduct, denominator) ==>
      0.0 <= Degrees(m, m.Acos(dotProduct / denominator)) <= 180.0
  {
    if Valid(m) && CosineInDomain(dotProduct, denominator) {
      AcosRange(m, dotProduct / denominator);
      DegreesRange(m, m.Acos(dotProduct / denominator));
    }
  }

  /** Swapping the outer points swaps the two vectors and leaves the result unchanged. */
  lemma AngleSymmetric(m: RealMath, p1: Point, p2: Point, p3: Point)
    requires m.pi > 0.0
    ensures CalculateAngle(m, p1, p2, p3) == CalculateAngle(m, p3, p2, p1)
  {
    var a, b := Sub(p1, p2), Sub(p3, p2);
    assert Dot(a, b) == Dot(b, a);
    assert Magnitude(m, a) * Magnitude(m, b) == Magnitude(m, b) * Magnitude(m, a);
  }
}
